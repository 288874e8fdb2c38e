/**
 * The hand of jongpy/core/shoupai.py as a value: the concealed tile counts
 * (`_bingpai`), the declared melds (`_fulou`), the draw slot (`_zimo`) and the
 * riichi flag (`_lizhi`), with each state-changing operation of the class
 * written as a function from the old value to the new value and its outcome.
 * The class in module Shoupai is proved to follow these functions; the
 * properties the source promises are proved here about them.
 */
module ShoupaiSpec {
  import opened Wrappers
  import opened Exceptions
  import opened Notation

  /** A slot of the count lists: a numeral suit with rank 0 (the red-five counter) to 9, or an honour 1 to 7. */
  predicate IsKind(c: char, n: int)
  {
    (IsNumeralSuit(c) && 0 <= n <= 9) || (c == 'z' && 1 <= n <= 7)
  }

  /**
   * `_bingpai`: `hidden` face-down tiles, and per suit a count for each rank.
   * For m, p and s index 0 counts the red fives, which index 5 counts as well.
   */
  datatype Bingpai = Bingpai(hidden: int, m: seq<int>, p: seq<int>, s: seq<int>, z: seq<int>)
  {
    predicate Shaped()
    {
      |m| == 10 && |p| == 10 && |s| == 10 && |z| == 8
    }

    function Row(c: char): seq<int>
    {
      if c == 'm' then m else if c == 'p' then p else if c == 's' then s else z
    }

    function WithRow(c: char, row: seq<int>): Bingpai
    {
      if c == 'm' then this.(m := row)
      else if c == 'p' then this.(p := row)
      else if c == 's' then this.(s := row)
      else this.(z := row)
    }

    function Count(c: char, n: int): int
      requires Shaped() && IsKind(c, n)
    {
      Row(c)[n]
    }

    /** The counts with `d` added to slot (c, n). */
    function Bump(c: char, n: int, d: int): (b: Bingpai)
      requires Shaped() && IsKind(c, n)
      ensures b.Shaped() && b.hidden == hidden
      ensures b.Row(c) == Row(c)[n := Row(c)[n] + d]
      ensures forall c' :: c' != c && IsSuit(c') ==> b.Row(c') == Row(c')
    {
      WithRow(c, Row(c)[n := Row(c)[n] + d])
    }

    /**
     * What every operation keeps: no count is negative or above four, no
     * suit holds more red fives than fives, and the honour list has no red
     * slot.
     */
    predicate Valid()
    {
      Shaped() && hidden >= 0
      && RowValid(m) && m[0] <= m[5]
      && RowValid(p) && p[0] <= p[5]
      && RowValid(s) && s[0] <= s[5]
      && RowValid(z) && z[0] == 0
    }
  }

  predicate RowValid(row: seq<int>)
  {
    forall i :: 0 <= i < |row| ==> 0 <= row[i] <= 4
  }

  const EMPTY: Bingpai := Bingpai(0, [0, 0, 0, 0, 0, 0, 0, 0, 0, 0], [0, 0, 0, 0, 0, 0, 0, 0, 0, 0], [0, 0, 0, 0, 0, 0, 0, 0, 0, 0], [0, 0, 0, 0, 0, 0, 0, 0])

  /** The sum of row[i..]. */
  function SumFrom(row: seq<int>, i: nat): int
    decreases |row| - i
  {
    if i >= |row| then 0 else row[i] + SumFrom(row, i + 1)
  }

  /** How many tiles the concealed part holds: face-down tiles plus every rank slot (a red five is counted at 5). */
  function TileTotal(b: Bingpai): int
  {
    b.hidden + SumFrom(b.m, 1) + SumFrom(b.p, 1) + SumFrom(b.s, 1) + SumFrom(b.z, 1)
  }

  lemma {:induction false} SumFromUpdate(row: seq<int>, i: nat, k: int, v: int)
    requires i <= k < |row|
    ensures SumFrom(row[k := v], i) == SumFrom(row, i) - row[k] + v
    decreases |row| - i
  {
    if i < k {
      SumFromUpdate(row, i + 1, k, v);
    } else {
      SumFromUnchanged(row, row[k := v], i + 1);
    }
  }

  lemma {:induction false} SumFromUnchanged(a: seq<int>, b: seq<int>, i: nat)
    requires |a| == |b| && forall j :: i <= j < |a| ==> a[j] == b[j]
    ensures SumFrom(a, i) == SumFrom(b, i)
    decreases |a| - i
  {
    if i < |a| {
      SumFromUnchanged(a, b, i + 1);
    }
  }

  /** Taking a pair out and putting it back leaves the counts as they were. */
  lemma BumpBack(b: Bingpai, c: char, n: int)
    requires b.Shaped() && IsKind(c, n)
    ensures b.Bump(c, n, -2).Bump(c, n, 2) == b
  {
    var b1 := b.Bump(c, n, -2).Bump(c, n, 2);
    assert b1.Row(c) == b.Row(c);
  }

  /** Adding d to a rank slot (not the red counter) changes the tile total by d. */
  lemma BumpTotal(b: Bingpai, c: char, n: int, d: int)
    requires b.Shaped() && IsKind(c, n)
    ensures TileTotal(b.Bump(c, n, d)) == TileTotal(b) + (if n >= 1 then d else 0)
  {
    var row := b.Row(c);
    if n >= 1 {
      SumFromUpdate(row, 1, n, row[n] + d);
    } else {
      SumFromUnchanged(row, row[n := row[n] + d], 1);
    }
  }

  // ---------------------------------------------------------------------
  // The hand

  datatype HandState = HandState(bingpai: Bingpai, fulou: seq<string>, zimo: Option<string>, lizhi: bool)

  /** Python truthiness of `_zimo`: a tile or meld sits in the draw slot. */
  predicate HasZimo(z: Option<string>)
  {
    z.Some? && z.value != ""
  }

  predicate ValidHand(h: HandState)
  {
    h.bingpai.Valid() && (h.zimo.Some? ==> h.zimo.value != "")
  }

  /** `int(...)` over a list of digit characters. */
  function DigitValues(ds: seq<char>): (r: seq<int>)
    requires forall i :: 0 <= i < |ds| ==> IsDigit(ds[i])
    ensures |r| == |ds| && forall i :: 0 <= i < |r| ==> r[i] == DigitValue(ds[i])
  {
    if |ds| == 0 then [] else [DigitValue(ds[0])] + DigitValues(ds[1..])
  }

  // ---------------------------------------------------------------------
  // Adding tiles: __init__ and zimo

  /**
   * The counting step of `zimo`: refuse a fifth copy of the kind, add the
   * tile, and for a red five also add it to the five slot, refusing a
   * fifth five.  The second refusal comes after the red counter was raised,
   * and the returned counts keep that raise.
   */
  function AddPai(b: Bingpai, c: char, n: int): (Bingpai, Outcome)
    requires b.Shaped() && IsKind(c, n)
  {
    if b.Count(c, n) == 4 then (b, Fail(PaiOverFlow))
    else
      var b1 := b.Bump(c, n, 1);
      if n == 0 then
        if b1.Count(c, 5) == 4 then (b1, Fail(PaiOverFlow)) else (b1.Bump(c, 5, 1), Pass)
      else (b1, Pass)
  }

  /** One entry of the initial tile list: a face-down tile, or a tile added by `AddPai`. */
  function QipaiStep(b: Bingpai, t: string): Result<Bingpai>
    requires b.Shaped()
  {
    if t == "_" then Success(b.(hidden := b.hidden + 1))
    else if !ValidPai(t) then Failure(PaiFormat)
    else
      var (b1, o) := AddPai(b, t[0], DigitValue(t[1]));
      if o.Pass? then Success(b1) else Failure(o.error)
  }

  /** `__init__(qipai)`: the counts after adding every listed tile to b, or the first error. */
  function QipaiCounts(b: Bingpai, qipai: seq<string>): Result<Bingpai>
    requires b.Shaped()
    decreases |qipai|
  {
    if |qipai| == 0 then Success(b)
    else
      match QipaiStep(b, qipai[0])
      case Failure(e) => Failure(e)
      case Success(b1) => QipaiCounts(b1, qipai[1..])
  }

  lemma AddPaiShaped(b: Bingpai, c: char, n: int)
    requires b.Shaped() && IsKind(c, n)
    ensures AddPai(b, c, n).0.Shaped()
  {
  }

  lemma QipaiStepShaped(b: Bingpai, t: string)
    requires b.Shaped()
    ensures QipaiStep(b, t).Success? ==> QipaiStep(b, t).value.Shaped()
  {
  }

  /** A draw never produces a fifth copy: adding a tile to valid counts keeps them valid, even when it fails. */
  lemma AddPaiValid(b: Bingpai, c: char, n: int)
    requires b.Valid() && IsKind(c, n)
    ensures AddPai(b, c, n).0.Valid()
    ensures AddPai(b, c, n).1.Pass? <==> b.Count(c, n) < 4 && (n == 0 ==> b.Count(c, 5) < 4)
    ensures AddPai(b, c, n).1.Pass? ==> TileTotal(AddPai(b, c, n).0) == TileTotal(b) + 1
  {
    if b.Count(c, n) < 4 {
      if n == 0 {
        AddRedFiveValid(b, c);
      } else {
        AddPlainValid(b, c, n);
      }
    }
  }

  lemma AddPlainValid(b: Bingpai, c: char, n: int)
    requires b.Valid() && IsKind(c, n) && n != 0 && b.Count(c, n) < 4
    ensures AddPai(b, c, n).1 == Pass && AddPai(b, c, n).0.Valid()
    ensures TileTotal(AddPai(b, c, n).0) == TileTotal(b) + 1
  {
    var row := b.Row(c);
    var r1 := row[n := row[n] + 1];
    assert b.Bump(c, n, 1) == b.WithRow(c, r1);
    BumpTotal(b, c, n, 1);
    WithRowValid(b, c, r1);
  }

  lemma AddRedFiveValid(b: Bingpai, c: char)
    requires b.Valid() && IsKind(c, 0) && b.Count(c, 0) < 4
    ensures AddPai(b, c, 0).0.Valid()
    ensures AddPai(b, c, 0).1.Pass? <==> b.Count(c, 5) < 4
    ensures AddPai(b, c, 0).1.Pass? ==> TileTotal(AddPai(b, c, 0).0) == TileTotal(b) + 1
  {
    var row := b.Row(c);
    var r1 := row[0 := row[0] + 1];
    var b1 := b.WithRow(c, r1);
    assert b.Bump(c, 0, 1) == b1;
    if row[5] == 4 {
      assert AddPai(b, c, 0) == (b1, Fail(PaiOverFlow));
      WithRowValid(b, c, r1);
    } else {
      AddRedFivePass(b, c, b1);
    }
  }

  lemma AddRedFivePass(b: Bingpai, c: char, b1: Bingpai)
    requires b.Valid() && IsKind(c, 0) && b.Count(c, 0) < 4 && b.Count(c, 5) < 4
    requires b1 == b.WithRow(c, b.Row(c)[0 := b.Row(c)[0] + 1])
    ensures b1.Shaped() && AddPai(b, c, 0) == (b1.Bump(c, 5, 1), Pass)
    ensures b1.Bump(c, 5, 1).Valid() && TileTotal(b1.Bump(c, 5, 1)) == TileTotal(b) + 1
  {
    var row := b.Row(c);
    var r2 := row[0 := row[0] + 1][5 := row[5] + 1];
    assert b1.Bump(c, 5, 1) == b.WithRow(c, r2);
    WithRowValid(b, c, r2);
    RedFiveTotal(b, c, b1);
  }

  lemma RedFiveTotal(b: Bingpai, c: char, b1: Bingpai)
    requires b.Shaped() && IsKind(c, 0)
    requires b1 == b.Bump(c, 0, 1)
    ensures b1.Shaped() && TileTotal(b1.Bump(c, 5, 1)) == TileTotal(b) + 1
  {
    BumpTotal(b, c, 0, 1);
    BumpTotal(b1, c, 5, 1);
  }

  /** Replacing one row of valid counts by a valid row keeps the counts valid. */
  lemma WithRowValid(b: Bingpai, c: char, row: seq<int>)
    requires b.Valid() && IsSuit(c) && |row| == |b.Row(c)| && RowValid(row)
    requires if c == 'z' then row[0] == 0 else row[0] <= row[5]
    ensures b.WithRow(c, row).Valid()
  {
  }

  /**
   * The initial tiles never give a kind a fifth copy: from valid counts a
   * successful `QipaiCounts` yields valid counts, holding exactly one more
   * tile per listed entry.
   */
  lemma {:induction false} QipaiCountsValid(b: Bingpai, qipai: seq<string>)
    requires b.Valid()
    ensures QipaiCounts(b, qipai).Success? ==>
      QipaiCounts(b, qipai).value.Valid() && TileTotal(QipaiCounts(b, qipai).value) == TileTotal(b) + |qipai|
    decreases |qipai|
  {
    if |qipai| > 0 {
      var t := qipai[0];
      if t != "_" && ValidPai(t) {
        AddPaiValid(b, t[0], DigitValue(t[1]));
      }
      if QipaiStep(b, t).Success? {
        QipaiCountsValid(QipaiStep(b, t).value, qipai[1..]);
      }
    }
  }

  /**
   * `__init__` as written adds a red five to the five slot without the
   * fifth-copy test that `zimo` makes.
   */
  function AddPaiAsWritten(b: Bingpai, c: char, n: int): Result<Bingpai>
    requires b.Shaped() && IsKind(c, n)
  {
    if b.Count(c, n) == 4 then Failure(PaiOverFlow)
    else
      var b1 := b.Bump(c, n, 1);
      Success(if c != 'z' && n == 0 then b1.Bump(c, 5, 1) else b1)
  }

  function QipaiCountsAsWritten(b: Bingpai, qipai: seq<string>): Result<Bingpai>
    requires b.Shaped()
    decreases |qipai|
  {
    if |qipai| == 0 then Success(b)
    else if qipai[0] == "_" then QipaiCountsAsWritten(b.(hidden := b.hidden + 1), qipai[1..])
    else if !ValidPai(qipai[0]) then Failure(PaiFormat)
    else
      match AddPaiAsWritten(b, qipai[0][0], DigitValue(qipai[0][1]))
      case Failure(e) => Failure(e)
      case Success(b1) => QipaiCountsAsWritten(b1, qipai[1..])
  }

  /** Wherever the corrected count accepts a list, the count as written yields the same counts. */
  lemma {:induction false} QipaiCountsAgree(b: Bingpai, qipai: seq<string>)
    requires b.Shaped()
    ensures QipaiCounts(b, qipai).Success? ==> QipaiCountsAsWritten(b, qipai) == QipaiCounts(b, qipai)
    decreases |qipai|
  {
    if |qipai| > 0 && QipaiStep(b, qipai[0]).Success? {
      var t := qipai[0];
      var b1 := QipaiStep(b, t).value;
      QipaiStepShaped(b, t);
      if t != "_" {
        assert AddPaiAsWritten(b, t[0], DigitValue(t[1])) == Success(b1);
      }
      QipaiCountsAgree(b1, qipai[1..]);
    }
  }

  /**
   * The constructor as written accepts four plain fives followed by a red
   * five and holds five m5; the corrected `QipaiCounts` refuses the list.
   */
  lemma FifthRedFiveAccepted()
    ensures QipaiCountsAsWritten(EMPTY, ["m5", "m5", "m5", "m5", "m0"]).Success?
    ensures QipaiCountsAsWritten(EMPTY, ["m5", "m5", "m5", "m5", "m0"]).value.m[5] == 5
    ensures QipaiCounts(EMPTY, ["m5", "m5", "m5", "m5", "m0"]) == Failure(PaiOverFlow)
  {
    var q := ["m5", "m5", "m5", "m5", "m0"];
    var b1 := EMPTY.Bump('m', 5, 1);
    var b2 := b1.Bump('m', 5, 1);
    var b3 := b2.Bump('m', 5, 1);
    var b4 := b3.Bump('m', 5, 1);
    assert b4.m[5] == 4 && b4.m[0] == 0;
    assert q[1..][1..][1..][1..] == ["m0"];
    assert QipaiCountsAsWritten(b4, ["m0"]) == Success(b4.Bump('m', 0, 1).Bump('m', 5, 1));
    assert QipaiCounts(b4, ["m0"]) == Failure(PaiOverFlow);
  }

  /**
   * `zimo(p, check)`: with `check`, refuse a second tile in the draw slot;
   * a face-down tile only raises the face-down count; any other tile must
   * be well formed and is counted by `AddPai`; the slot then holds the suit
   * and rank without marks.
   */
  function ZimoSpec(h: HandState, p: string, check: bool): (HandState, Outcome)
    requires h.bingpai.Shaped()
  {
    if check && HasZimo(h.zimo) then (h, Fail(ShoupaiOverFlow))
    else if p == "_" then (h.(bingpai := h.bingpai.(hidden := h.bingpai.hidden + 1), zimo := Some("_")), Pass)
    else if !ValidPai(p) then (h, Fail(PaiFormat))
    else
      var (b, o) := AddPai(h.bingpai, p[0], DigitValue(p[1]));
      if o.Fail? then (h.(bingpai := b), o)
      else (h.(bingpai := b, zimo := Some([p[0], p[1]])), Pass)
  }

  // ---------------------------------------------------------------------
  // Removing tiles: _decrease, dapai, fulou, gang

  /**
   * `_decrease(c, n)`: take one tile of the kind; when the hand has none
   * (or a plain five is asked for and every five is red) take a face-down
   * tile instead, and fail when there is none.
   */
  function DecreaseSpec(b: Bingpai, c: char, n: int): Result<Bingpai>
    requires b.Shaped() && IsKind(c, n)
  {
    var row := b.Row(c);
    if row[n] == 0 || (n == 5 && row[0] == row[5]) then
      if b.hidden == 0 then Failure(PaiNotExist) else Success(b.(hidden := b.hidden - 1))
    else
      var b1 := b.Bump(c, n, -1);
      Success(if n == 0 then b1.Bump(c, 5, -1) else b1)
  }

  /** `_decrease` for each rank in turn, stopping at the first failure with the counts reached so far. */
  function DecreaseEach(b: Bingpai, c: char, ns: seq<int>): (Bingpai, Outcome)
    requires b.Shaped() && forall i :: 0 <= i < |ns| ==> IsKind(c, ns[i])
    decreases |ns|
  {
    if |ns| == 0 then (b, Pass)
    else
      match DecreaseSpec(b, c, ns[0])
      case Failure(e) => (b, Fail(e))
      case Success(b1) =>
        DecreaseSpecShaped(b, c, ns[0]);
        DecreaseEach(b1, c, ns[1..])
  }

  lemma DecreaseSpecShaped(b: Bingpai, c: char, n: int)
    requires b.Shaped() && IsKind(c, n)
    ensures DecreaseSpec(b, c, n).Success? ==> DecreaseSpec(b, c, n).value.Shaped()
  {
  }

  /**
   * `_decrease` fails exactly when the kind is missing and no face-down tile
   * is left; otherwise it removes exactly one tile and keeps the counts valid.
   */
  lemma DecreaseValid(b: Bingpai, c: char, n: int)
    requires b.Valid() && IsKind(c, n)
    ensures DecreaseSpec(b, c, n).Failure? <==>
      b.hidden == 0 && (b.Row(c)[n] == 0 || (n == 5 && b.Row(c)[0] == b.Row(c)[5]))
    ensures DecreaseSpec(b, c, n).Success? ==>
      DecreaseSpec(b, c, n).value.Valid() && TileTotal(DecreaseSpec(b, c, n).value) == TileTotal(b) - 1
  {
    var row := b.Row(c);
    if row[n] == 0 || (n == 5 && row[0] == row[5]) {
      if b.hidden > 0 {
        HiddenTotal(b);
      }
    } else if n == 0 {
      DecreaseRedValid(b, c);
    } else {
      var r1 := row[n := row[n] - 1];
      assert DecreaseSpec(b, c, n) == Success(b.WithRow(c, r1));
      WithRowValid(b, c, r1);
      BumpTotal(b, c, n, -1);
    }
  }

  /** Taking a face-down tile removes one tile. */
  lemma HiddenTotal(b: Bingpai)
    requires b.hidden > 0
    ensures TileTotal(b.(hidden := b.hidden - 1)) == TileTotal(b) - 1
  {
  }

  /** Removing a red five also removes a five, and keeps the counts valid. */
  lemma DecreaseRedValid(b: Bingpai, c: char)
    requires b.Valid() && IsKind(c, 0) && b.Row(c)[0] > 0
    ensures DecreaseSpec(b, c, 0).Success?
    ensures DecreaseSpec(b, c, 0).value.Valid() && TileTotal(DecreaseSpec(b, c, 0).value) == TileTotal(b) - 1
  {
    var row := b.Row(c);
    var r2 := row[0 := row[0] - 1][5 := row[5] - 1];
    var b1 := b.Bump(c, 0, -1);
    assert b1.Bump(c, 5, -1) == b.WithRow(c, r2);
    assert DecreaseSpec(b, c, 0) == Success(b1.Bump(c, 5, -1));
    WithRowValid(b, c, r2);
    BumpTotal(b, c, 0, -1);
    BumpTotal(b1, c, 5, -1);
  }

  /** Each successful step of `DecreaseEach` removes one tile; every intermediate state stays valid. */
  lemma {:induction false} DecreaseEachValid(b: Bingpai, c: char, ns: seq<int>)
    requires b.Valid() && forall i :: 0 <= i < |ns| ==> IsKind(c, ns[i])
    ensures DecreaseEach(b, c, ns).0.Valid()
    ensures DecreaseEach(b, c, ns).1.Pass? ==> TileTotal(DecreaseEach(b, c, ns).0) == TileTotal(b) - |ns|
    decreases |ns|
  {
    if |ns| > 0 {
      DecreaseValid(b, c, ns[0]);
      if DecreaseSpec(b, c, ns[0]).Success? {
        DecreaseEachValid(DecreaseSpec(b, c, ns[0]).value, c, ns[1..]);
      }
    }
  }

  /**
   * `dapai(p, check)`: with `check`, refuse to discard with an empty draw
   * slot; the tile must be well formed and held (or face-down tiles
   * remain); the slot empties and a `*` mark declares riichi.
   */
  function DapaiSpec(h: HandState, p: string, check: bool): (HandState, Outcome)
    requires h.bingpai.Shaped()
  {
    if check && !HasZimo(h.zimo) then (h, Fail(ShoupaiUnderFlow))
    else if !ValidPai(p) then (h, Fail(PaiFormat))
    else
      match DecreaseSpec(h.bingpai, p[0], DigitValue(p[1]))
      case Failure(e) => (h, Fail(e))
      case Success(b) => (h.(bingpai := b, zimo := None, lizhi := h.lizhi || p[|p| - 1] == '*'), Pass)
  }

  /** `re.search(r'\d{4}$', m)`: the text ends in four digits (a concealed quad). */
  predicate EndsWithFourDigits(m: string)
  {
    |m| >= 4 && IsDigit(m[|m| - 4]) && IsDigit(m[|m| - 3]) && IsDigit(m[|m| - 2]) && IsDigit(m[|m| - 1])
  }

  /** `re.search(r'\d{3}[\+\=\-]\d$', m)`: the text ends in a pung with an added tile. */
  predicate EndsAddedQuad(m: string)
  {
    |m| >= 5 && IsDigit(m[|m| - 5]) && IsDigit(m[|m| - 4]) && IsDigit(m[|m| - 3])
    && IsDirection(m[|m| - 2]) && IsDigit(m[|m| - 1])
  }

  /** `re.search(r'\d{4}', m)`: four digits in a row somewhere (a quad). */
  predicate HasFourDigits(m: string)
  {
    exists i :: 0 <= i <= |m| - 4 && IsDigit(m[i]) && IsDigit(m[i + 1]) && IsDigit(m[i + 2]) && IsDigit(m[i + 3])
  }

  /** Every digit of a normalized meld names a slot of its suit's count list. */
  predicate MeldDigitsAreKinds(m: string)
  {
    |m| > 0 && IsSuit(m[0]) && forall i :: 1 <= i < |m| && IsDigit(m[i]) ==> IsKind(m[0], DigitValue(m[i]))
  }

  /** Every character is a digit naming a slot of suit c. */
  predicate DigitKinds(c: char, ds: seq<char>)
  {
    forall k :: 0 <= k < |ds| ==> IsDigit(ds[k]) && IsKind(c, DigitValue(ds[k]))
  }

  /** The ranks `fulou` removes: each digit not followed by a direction. */
  function FreeRanks(m: string): (r: seq<int>)
    requires MeldDigitsAreKinds(m)
    ensures forall i :: 0 <= i < |r| ==> IsKind(m[0], r[i])
  {
    FreeDigitsAreKinds(m, 1);
    assert FreeDigits(m, 0) == FreeDigits(m, 1);
    DigitValues(FreeDigits(m, 0))
  }

  lemma {:induction false} FreeDigitsAreKinds(m: string, i: nat)
    requires 1 <= i <= |m| && MeldDigitsAreKinds(m)
    ensures DigitKinds(m[0], FreeDigits(m, i))
    decreases |m| - i
  {
    if i < |m| {
      FreeDigitsAreKinds(m, i + 1);
      var head := if IsDigit(m[i]) && !(i + 1 < |m| && IsDirection(m[i + 1])) then [m[i]] else [];
      var rest := FreeDigits(m, i + 1);
      assert FreeDigits(m, i) == head + rest;
      forall k | 0 <= k < |head + rest|
        ensures IsDigit((head + rest)[k]) && IsKind(m[0], DigitValue((head + rest)[k]))
      {
        if k >= |head| {
          assert (head + rest)[k] == rest[k - |head|];
        }
      }
    }
  }

  /**
   * `fulou(m, check)`: with `check`, refuse a call with a tile in the draw
   * slot; the meld must be in normal form and must not be a concealed or an
   * added quad; its unclaimed tiles leave the hand (stopping at the first
   * missing one), it joins the melds, and unless it is a claimed quad it
   * fills the draw slot so that a discard must follow.
   */
  function FulouSpec(h: HandState, m: string, check: bool): (HandState, Outcome)
    requires h.bingpai.Shaped()
  {
    if check && HasZimo(h.zimo) then (h, Fail(ShoupaiOverFlow))
    else if ValidMianzi(m) != Some(m) then (h, Fail(MianziFormat))
    else if EndsWithFourDigits(m) then (h, Fail(InvalidOperation))
    else if EndsAddedQuad(m) then (h, Fail(InvalidOperation))
    else
      NormalMeldKinds(m);
      var (b, o) := DecreaseEach(h.bingpai, m[0], FreeRanks(m));
      if o.Fail? then (h.(bingpai := b), o)
      else (h.(bingpai := b, fulou := h.fulou + [m], zimo := if HasFourDigits(m) then h.zimo else Some(m)), Pass)
  }

  /** The first position of x in t (`list.index`). */
  function IndexOf(t: seq<string>, x: string): (i: nat)
    requires x in t
    ensures i < |t| && t[i] == x && x !in t[..i]
  {
    if t[0] == x then 0 else 1 + IndexOf(t[1..], x)
  }

  /** `re.findall(r'\d', m)` of a normalized meld, as ranks. */
  function AllRanks(m: string): (r: seq<int>)
    requires MeldDigitsAreKinds(m)
    ensures forall i :: 0 <= i < |r| ==> IsKind(m[0], r[i])
  {
    DigitsOfKinds(m);
    DigitValues(DigitsOf(m))
  }

  lemma DigitsOfKinds(m: string)
    requires MeldDigitsAreKinds(m)
    ensures forall i :: 0 <= i < |DigitsOf(m)| ==> IsKind(m[0], DigitValue(DigitsOf(m)[i]))
  {
    DigitsOfFrom(m, 1);
    assert DigitsOf(m) == DigitsOf(m[1..]);
  }

  lemma {:induction false} DigitsOfFrom(m: string, i: nat)
    requires MeldDigitsAreKinds(m) && 1 <= i <= |m|
    ensures forall k :: 0 <= k < |DigitsOf(m[i..])| ==> IsKind(m[0], DigitValue(DigitsOf(m[i..])[k]))
    decreases |m| - i
  {
    if i < |m| {
      DigitsOfFrom(m, i + 1);
      assert m[i..][1..] == m[i + 1..];
    }
  }

  /**
   * `gang(m, check)`: with `check`, the draw slot must hold a drawn tile
   * (not a called meld).  A concealed quad takes its four tiles from the
   * hand and joins the melds; an added quad replaces the first declared
   * pung it extends and takes the added tile (the replacement stays when
   * that tile is missing); the draw slot then empties.
   */
  function GangSpec(h: HandState, m: string, check: bool): (HandState, Outcome)
    requires h.bingpai.Shaped()
  {
    if check && !HasZimo(h.zimo) then (h, Fail(ShoupaiUnderFlow))
    else if check && |h.zimo.value| > 2 then (h, Fail(InvalidOperation))
    else if ValidMianzi(m) != Some(m) then (h, Fail(MianziFormat))
    else
      NormalMeldKinds(m);
      if EndsWithFourDigits(m) then
        var (b, o) := DecreaseEach(h.bingpai, m[0], AllRanks(m));
        if o.Fail? then (h.(bingpai := b), o)
        else (h.(bingpai := b, fulou := h.fulou + [m], zimo := None), Pass)
      else if EndsAddedQuad(m) then
        var m1 := m[0..5];
        if m1 !in h.fulou then (h, Fail(InvalidOperation))
        else
          var f := h.fulou[IndexOf(h.fulou, m1) := m];
          match DecreaseSpec(h.bingpai, m[0], DigitValue(m[|m| - 1]))
          case Failure(e) => (h.(fulou := f), Fail(e))
          case Success(b) => (h.(bingpai := b, fulou := f, zimo := None), Pass)
      else (h, Fail(InvalidOperation))
  }

  /** `menqian`: no declared meld was claimed from another seat. */
  predicate Menqian(h: HandState)
  {
    forall i :: 0 <= i < |h.fulou| ==> forall j :: 0 <= j < |h.fulou[i]| ==> !IsDirection(h.fulou[i][j])
  }

  // ---------------------------------------------------------------------
  // Normal-form melds

  /** Which of the three shapes of `valid_mianzi` a normal-form meld took. */
  lemma NormalMeldShape(m: string)
    requires ValidMianzi(m) == Some(m)
    ensures !HonourWithBadRank(m)
    ensures var h := Replace(m, '0', '5'); PungText(h) || QuadText(h) || ChiText(h)
  {
  }

  /** A meld in normal form starts with its suit, and each of its digits names a slot of that suit. */
  lemma NormalMeldKinds(m: string)
    requires ValidMianzi(m) == Some(m)
    ensures MeldDigitsAreKinds(m)
  {
    NormalMeldShape(m);
    ShapeKinds(m);
  }

  /** Whatever `valid_mianzi` accepts, the meld it returns names slots of its suit. */
  lemma AcceptedMeldKinds(m: string)
    requires ValidMianzi(m).Some?
    ensures var r := ValidMianzi(m).value; ValidMianzi(r) == Some(r) && MeldDigitsAreKinds(r)
  {
    ValidMianziNormal(m);
    NormalMeldKinds(ValidMianzi(m).value);
  }

  lemma ShapeKinds(m: string)
    requires !HonourWithBadRank(m)
    requires var h := Replace(m, '0', '5'); PungText(h) || QuadText(h) || ChiText(h)
    ensures MeldDigitsAreKinds(m)
  {
    var h := Replace(m, '0', '5');
    assert m[0] == h[0];
    if m[0] == 'z' {
      HonourNoNewline(m);
      HonourKinds(m);
    }
  }

  /** An honour pung or quad text is one line. */
  lemma HonourNoNewline(m: string)
    requires |m| > 0 && m[0] == 'z'
    requires var h := Replace(m, '0', '5'); PungText(h) || QuadText(h) || ChiText(h)
    ensures forall j :: 1 <= j < |m| ==> m[j] != '\n'
  {
    var h := Replace(m, '0', '5');
    assert h[0] == 'z';
    MeldTextOneLine(h);
  }

  /** An honour meld text is a pung or a quad, so it holds no line break after its suit letter. */
  lemma MeldTextOneLine(h: string)
    requires |h| > 0 && h[0] == 'z' && (PungText(h) || QuadText(h) || ChiText(h))
    ensures forall j :: 1 <= j < |h| ==> h[j] != '\n'
  {
    assert !ChiText(h);
  }

  /** The honour case of ShapeKinds: no digit of a line without a bad rank is 0, 8 or 9. */
  lemma HonourKinds(m: string)
    requires |m| > 0 && m[0] == 'z' && !HonourWithBadRank(m)
    requires forall j :: 1 <= j < |m| ==> m[j] != '\n'
    ensures MeldDigitsAreKinds(m)
  {
    forall i | 1 <= i < |m| && IsDigit(m[i])
      ensures IsKind(m[0], DigitValue(m[i]))
    {
      NoBadRank(m[1..], i - 1);
    }
  }

  // ---------------------------------------------------------------------
  // What the state-changing operations promise

  /**
   * `zimo` succeeds exactly when the slot may take a tile (or `check` is
   * off) and the tile is face-down or well formed without being a fifth
   * copy; a refused second draw leaves the hand as it was; a successful draw
   * fills the slot with one more tile; melds and riichi never change.
   */
  lemma ZimoProperties(h: HandState, p: string, check: bool)
    requires ValidHand(h)
    ensures var (h1, o) := ZimoSpec(h, p, check);
      ValidHand(h1) && h1.lizhi == h.lizhi && h1.fulou == h.fulou
      && (o.Pass? <==>
            ((!check || !HasZimo(h.zimo))
             && (p == "_" || (ValidPai(p) && h.bingpai.Count(p[0], DigitValue(p[1])) < 4
                              && (p[1] == '0' ==> h.bingpai.Count(p[0], 5) < 4)))))
      && (check && HasZimo(h.zimo) ==> h1 == h && o == Fail(ShoupaiOverFlow))
      && (o.Pass? ==> HasZimo(h1.zimo) && TileTotal(h1.bingpai) == TileTotal(h.bingpai) + 1)
    ensures var (h1, o) := ZimoSpec(h, p, check);
      !(check && HasZimo(h.zimo)) && p != "_" && !ValidPai(p) ==> h1 == h && o == Fail(PaiFormat)
    ensures var (h1, o) := ZimoSpec(h, p, check);
      !(check && HasZimo(h.zimo)) && p != "_" && ValidPai(p) && o.Fail? ==>
        o == Fail(PaiOverFlow)
        && h1 == if h.bingpai.Count(p[0], DigitValue(p[1])) == 4 then h else h.(bingpai := h.bingpai.Bump(p[0], 0, 1))
  {
    if !(check && HasZimo(h.zimo)) && p != "_" && ValidPai(p) {
      AddPaiValid(h.bingpai, p[0], DigitValue(p[1]));
    }
  }

  /**
   * `dapai` succeeds exactly when the slot is filled (or `check` is off),
   * the tile is well formed, and the hand holds it or a face-down tile; a
   * refused discard changes nothing; a discard empties the slot, removes one
   * tile, and sets riichi when the tile carries `*`; riichi is never cleared.
   */
  lemma DapaiProperties(h: HandState, p: string, check: bool)
    requires ValidHand(h)
    ensures var (h1, o) := DapaiSpec(h, p, check);
      ValidHand(h1) && h1.fulou == h.fulou
      && (o.Pass? <==>
            ((!check || HasZimo(h.zimo)) && ValidPai(p) && DecreaseSpec(h.bingpai, p[0], DigitValue(p[1])).Success?))
      && (o.Fail? ==> h1 == h)
      && (o.Pass? ==> h1.zimo == None && TileTotal(h1.bingpai) == TileTotal(h.bingpai) - 1)
      && h1.lizhi == (h.lizhi || (o.Pass? && p[|p| - 1] == '*'))
  {
    if ValidPai(p) {
      DecreaseValid(h.bingpai, p[0], DigitValue(p[1]));
    }
  }

  /** A refused call leaves melds and slot alone (a missing tile leaves the counts removed before it). */
  lemma FulouRefused(h: HandState, m: string, check: bool)
    requires ValidHand(h)
    requires FulouSpec(h, m, check).1.Fail?
    ensures var h1 := FulouSpec(h, m, check).0;
      ValidHand(h1) && h1.lizhi == h.lizhi && h1.fulou == h.fulou && h1.zimo == h.zimo
  {
    if !(check && HasZimo(h.zimo)) && ValidMianzi(m) == Some(m) && !EndsWithFourDigits(m) && !EndsAddedQuad(m) {
      NormalMeldKinds(m);
      DecreaseEachValid(h.bingpai, m[0], FreeRanks(m));
    }
  }

  /**
   * A call takes a normal-form meld other than a concealed or added quad;
   * it joins the melds, its unclaimed tiles leave the hand, and unless it is
   * a claimed quad the slot then holds the meld, so that a discard must
   * follow.  Riichi is never touched.
   */
  lemma FulouAccepted(h: HandState, m: string, check: bool)
    requires ValidHand(h)
    requires FulouSpec(h, m, check).1.Pass?
    ensures var h1 := FulouSpec(h, m, check).0;
      ValidHand(h1) && h1.lizhi == h.lizhi
      && (!check || !HasZimo(h.zimo))
      && ValidMianzi(m) == Some(m) && !EndsWithFourDigits(m) && !EndsAddedQuad(m)
      && h1.fulou == h.fulou + [m] && MeldDigitsAreKinds(m)
      && TileTotal(h1.bingpai) == TileTotal(h.bingpai) - |FreeRanks(m)|
      && (h1.zimo == Some(m) || (HasFourDigits(m) && h1.zimo == h.zimo))
  {
    assert !(check && HasZimo(h.zimo));
    assert ValidMianzi(m) == Some(m) && !EndsWithFourDigits(m) && !EndsAddedQuad(m);
    NormalMeldKinds(m);
    var ns := FreeRanks(m);
    DecreaseEachValid(h.bingpai, m[0], ns);
    var (b, o) := DecreaseEach(h.bingpai, m[0], ns);
    assert o.Pass?;
    assert FulouSpec(h, m, check).0 == h.(bingpai := b, fulou := h.fulou + [m], zimo := if HasFourDigits(m) then h.zimo else Some(m));
  }

  /** The state a call reaches when one of its tiles is missing: the counts b removed so far, nothing else. */
  lemma FulouStopped(h: HandState, m: string, check: bool, b: Bingpai, e: Error)
    requires ValidHand(h) && !(check && HasZimo(h.zimo))
    requires ValidMianzi(m) == Some(m) && !EndsWithFourDigits(m) && !EndsAddedQuad(m)
    requires MeldDigitsAreKinds(m) && DecreaseEach(h.bingpai, m[0], FreeRanks(m)) == (b, Fail(e))
    ensures FulouSpec(h, m, check) == (h.(bingpai := b), Fail(e)) && ValidHand(h.(bingpai := b))
  {
    FulouRefused(h, m, check);
  }

  /** The state an accepted call reaches, given the counts b that its decreases leave. */
  lemma FulouSettled(h: HandState, m: string, check: bool, b: Bingpai)
    requires ValidHand(h) && !(check && HasZimo(h.zimo))
    requires ValidMianzi(m) == Some(m) && !EndsWithFourDigits(m) && !EndsAddedQuad(m)
    requires MeldDigitsAreKinds(m) && DecreaseEach(h.bingpai, m[0], FreeRanks(m)) == (b, Pass)
    ensures var h1 := h.(bingpai := b, fulou := h.fulou + [m], zimo := if HasFourDigits(m) then h.zimo else Some(m));
      FulouSpec(h, m, check) == (h1, Pass) && ValidHand(h1)
  {
    NormalMeldKinds(m);
    DecreaseEachValid(h.bingpai, m[0], FreeRanks(m));
  }

  /** A refused quad keeps the slot and riichi, and the counts stay valid. */
  lemma GangRefused(h: HandState, m: string, check: bool)
    requires ValidHand(h)
    requires GangSpec(h, m, check).1.Fail?
    ensures var h1 := GangSpec(h, m, check).0;
      ValidHand(h1) && h1.lizhi == h.lizhi && h1.zimo == h.zimo && |h1.fulou| == |h.fulou|
  {
    if !(check && !HasZimo(h.zimo)) && !(check && |h.zimo.value| > 2) && ValidMianzi(m) == Some(m) {
      NormalMeldKinds(m);
      if EndsWithFourDigits(m) {
        DecreaseEachValid(h.bingpai, m[0], AllRanks(m));
      } else if EndsAddedQuad(m) && m[0..5] in h.fulou {
        DecreaseValid(h.bingpai, m[0], DigitValue(m[|m| - 1]));
      }
    }
  }

  /** A concealed quad joins the melds with its four tiles taken from the hand, and the slot empties. */
  lemma GangConcealed(h: HandState, m: string, check: bool)
    requires ValidHand(h)
    requires GangSpec(h, m, check).1.Pass? && EndsWithFourDigits(m)
    ensures var h1 := GangSpec(h, m, check).0;
      ValidHand(h1) && h1.lizhi == h.lizhi && h1.zimo == None && ValidMianzi(m) == Some(m)
      && h1.fulou == h.fulou + [m] && MeldDigitsAreKinds(m)
      && TileTotal(h1.bingpai) == TileTotal(h.bingpai) - |AllRanks(m)|
  {
    assert !(check && !HasZimo(h.zimo)) && !(check && |h.zimo.value| > 2) && ValidMianzi(m) == Some(m);
    GangConcealedPath(h, m, check);
    var ns := AllRanks(m);
    DecreaseEachValid(h.bingpai, m[0], ns);
    var b := DecreaseEach(h.bingpai, m[0], ns).0;
    var h1 := GangSpec(h, m, check).0;
    assert h1 == h.(bingpai := b, fulou := h.fulou + [m], zimo := None);
    assert b.Valid();
  }

  /** The refusals `GangSpec` makes before it touches the counts. */
  lemma GangGuards(h: HandState, m: string, check: bool)
    requires h.bingpai.Shaped()
    ensures check && !HasZimo(h.zimo) ==> GangSpec(h, m, check) == (h, Fail(ShoupaiUnderFlow))
    ensures !(check && !HasZimo(h.zimo)) && check && |h.zimo.value| > 2 ==> GangSpec(h, m, check) == (h, Fail(InvalidOperation))
    ensures !(check && !HasZimo(h.zimo)) && !(check && |h.zimo.value| > 2) && ValidMianzi(m) != Some(m) ==>
      GangSpec(h, m, check) == (h, Fail(MianziFormat))
    ensures (!(check && !HasZimo(h.zimo)) && !(check && |h.zimo.value| > 2) && ValidMianzi(m) == Some(m)
             && !EndsWithFourDigits(m) && (EndsAddedQuad(m) ==> m[0..5] !in h.fulou))
      ==> GangSpec(h, m, check) == (h, Fail(InvalidOperation))
  {
  }

  /** The branch of `GangSpec` a concealed quad takes. */
  lemma GangConcealedPath(h: HandState, m: string, check: bool)
    requires h.bingpai.Shaped()
    requires !(check && !HasZimo(h.zimo)) && !(check && |h.zimo.value| > 2)
    requires ValidMianzi(m) == Some(m) && EndsWithFourDigits(m)
    ensures MeldDigitsAreKinds(m)
    ensures var (b, o) := DecreaseEach(h.bingpai, m[0], AllRanks(m));
      GangSpec(h, m, check) ==
        if o.Fail? then (h.(bingpai := b), o) else (h.(bingpai := b, fulou := h.fulou + [m], zimo := None), Pass)
  {
    NormalMeldKinds(m);
  }

  /** The branch of `GangSpec` an added quad takes when the pung it extends is declared. */
  lemma GangAddedPath(h: HandState, m: string, check: bool)
    requires h.bingpai.Shaped()
    requires !(check && !HasZimo(h.zimo)) && !(check && |h.zimo.value| > 2)
    requires ValidMianzi(m) == Some(m) && !EndsWithFourDigits(m) && EndsAddedQuad(m) && m[0..5] in h.fulou
    ensures MeldDigitsAreKinds(m)
    ensures var f := h.fulou[IndexOf(h.fulou, m[0..5]) := m];
      GangSpec(h, m, check) ==
        match DecreaseSpec(h.bingpai, m[0], DigitValue(m[|m| - 1]))
        case Failure(e) => (h.(fulou := f), Fail(e))
        case Success(b) => (h.(bingpai := b, fulou := f, zimo := None), Pass)
  {
    NormalMeldKinds(m);
  }

  /** The refusals `FulouSpec` makes before it touches the counts. */
  lemma FulouGuards(h: HandState, m: string, check: bool)
    requires h.bingpai.Shaped()
    ensures check && HasZimo(h.zimo) ==> FulouSpec(h, m, check) == (h, Fail(ShoupaiOverFlow))
    ensures !(check && HasZimo(h.zimo)) && ValidMianzi(m) != Some(m) ==> FulouSpec(h, m, check) == (h, Fail(MianziFormat))
    ensures !(check && HasZimo(h.zimo)) && ValidMianzi(m) == Some(m) && (EndsWithFourDigits(m) || EndsAddedQuad(m)) ==>
      FulouSpec(h, m, check) == (h, Fail(InvalidOperation))
  {
  }

  /** The branch of `FulouSpec` a call of a normal-form meld takes. */
  lemma FulouPath(h: HandState, m: string, check: bool)
    requires h.bingpai.Shaped()
    requires !(check && HasZimo(h.zimo))
    requires ValidMianzi(m) == Some(m) && !EndsWithFourDigits(m) && !EndsAddedQuad(m)
    ensures MeldDigitsAreKinds(m)
    ensures var (b, o) := DecreaseEach(h.bingpai, m[0], FreeRanks(m));
      FulouSpec(h, m, check) ==
        if o.Fail? then (h.(bingpai := b), o)
        else (h.(bingpai := b, fulou := h.fulou + [m], zimo := if HasFourDigits(m) then h.zimo else Some(m)), Pass)
  {
    NormalMeldKinds(m);
  }

  /** An added quad replaces the declared pung it extends, in place, with one tile taken from the hand. */
  lemma GangAdded(h: HandState, m: string, check: bool)
    requires ValidHand(h)
    requires GangSpec(h, m, check).1.Pass? && !EndsWithFourDigits(m)
    ensures var h1 := GangSpec(h, m, check).0;
      ValidHand(h1) && h1.lizhi == h.lizhi && h1.zimo == None && ValidMianzi(m) == Some(m)
      && EndsAddedQuad(m) && m[0..5] in h.fulou && |h1.fulou| == |h.fulou|
      && (exists i :: 0 <= i < |h.fulou| && h.fulou[i] == m[0..5] && h1.fulou == h.fulou[i := m])
      && TileTotal(h1.bingpai) == TileTotal(h.bingpai) - 1
  {
    NormalMeldKinds(m);
    DecreaseValid(h.bingpai, m[0], DigitValue(m[|m| - 1]));
    var i := IndexOf(h.fulou, m[0..5]);
    assert h.fulou[i] == m[0..5];
  }

  // ---------------------------------------------------------------------
  // menqian and the seat marks of melds

  /** A meld carries a seat mark (`+`, `=` or `-`): one of its tiles was claimed from another seat. */
  predicate Marked(m: string)
  {
    exists j :: 0 <= j < |m| && IsDirection(m[j])
  }

  lemma {:induction false} DigitsOfConcat(a: string, b: string)
    ensures DigitsOf(a + b) == DigitsOf(a) + DigitsOf(b)
    decreases |a|
  {
    if |a| == 0 {
      assert a + b == b;
    } else {
      assert (a + b)[1..] == a[1..] + b;
      DigitsOfConcat(a[1..], b);
    }
  }

  lemma {:induction false} AllDigitsKept(t: string)
    requires AllDigits(t)
    ensures DigitsOf(t) == t
    decreases |t|
  {
    if |t| > 0 {
      AllDigitsKept(t[1..]);
    }
  }

  /** A text ending in four digits, or in an added quad's tail, holds at least four digits. */
  lemma TrailingDigits(t: string)
    ensures EndsWithFourDigits(t) ==> |DigitsOf(t)| >= 4
    ensures EndsAddedQuad(t) ==> |DigitsOf(t)| >= 4
  {
    if EndsWithFourDigits(t) {
      TrailingFour(t);
    }
    if EndsAddedQuad(t) {
      TrailingAdded(t);
    }
  }

  lemma TrailingFour(t: string)
    requires EndsWithFourDigits(t)
    ensures |DigitsOf(t)| >= 4
  {
    DigitsOfConcat(t[..|t| - 4], t[|t| - 4..]);
    assert t == t[..|t| - 4] + t[|t| - 4..];
    AllDigitsKept(t[|t| - 4..]);
  }

  lemma TrailingAdded(t: string)
    requires EndsAddedQuad(t)
    ensures |DigitsOf(t)| >= 4
  {
    var u := t[|t| - 5..];
    DigitsOfConcat(t[..|t| - 5], u);
    assert t == t[..|t| - 5] + u;
    DigitsOfConcat(u[..3], u[3..]);
    assert u == u[..3] + u[3..];
    AllDigitsKept(u[..3]);
    assert DigitsOf(u[3..]) == [u[4]];
  }

  /** A normal-form chow holds three digits, so it neither ends in four digits nor in an added quad's tail. */
  lemma ChowTail(m: string)
    requires ValidMianzi(m) == Some(m)
    ensures var h := Replace(m, '0', '5');
      !PungText(h) && !QuadText(h) ==> !EndsWithFourDigits(m) && !EndsAddedQuad(m)
  {
    var h := Replace(m, '0', '5');
    TrailingDigits(h);
    if !PungText(h) && !QuadText(h) {
      ChowDigits(m);
    }
    ReplaceKeepsTail(m);
  }

  lemma ChowDigits(m: string)
    requires ValidMianzi(m) == Some(m)
    requires var h := Replace(m, '0', '5'); !PungText(h) && !QuadText(h)
    ensures |DigitsOf(Replace(m, '0', '5'))| == 3
  {
  }

  /** Writing red fives as plain fives keeps where the digits and the seat marks are. */
  lemma ReplaceKeepsTail(m: string)
    ensures EndsWithFourDigits(m) ==> EndsWithFourDigits(Replace(m, '0', '5'))
    ensures EndsAddedQuad(m) ==> EndsAddedQuad(Replace(m, '0', '5'))
  {
  }

  lemma {:induction false} DashAt(t: string) returns (k: nat)
    requires DashBetweenDigits(t)
    ensures k < |t| && t[k] == '-'
    decreases |t|
  {
    if t[0] == '-' {
      k := 0;
    } else {
      k := DashAt(t[1..]);
      k := k + 1;
    }
  }

  /** A normal-form meld other than a concealed quad carries a seat mark. */
  lemma CalledMeldMarked(m: string)
    requires ValidMianzi(m) == Some(m) && !EndsWithFourDigits(m)
    ensures Marked(m)
  {
    NormalMeldShape(m);
    var h := Replace(m, '0', '5');
    if PungText(h) {
      assert IsDirection(m[4]);
    } else if QuadText(h) {
      assert IsDirection(m[5]);
    } else {
      var k := DashAt(h[2..]);
      assert m[k + 2] == '-';
    }
  }

  /** A normal-form concealed quad carries no seat mark. */
  lemma ConcealedQuadUnmarked(m: string)
    requires ValidMianzi(m) == Some(m) && EndsWithFourDigits(m)
    ensures !Marked(m)
  {
    NormalMeldShape(m);
    var h := Replace(m, '0', '5');
    if !PungText(h) && !QuadText(h) {
      ChowTail(m);
    } else {
      QuadTextUnmarked(m);
    }
  }

  /** A pung or quad text ending in four digits is a concealed quad: it has no seat mark. */
  lemma QuadTextUnmarked(m: string)
    requires EndsWithFourDigits(m)
    requires var h := Replace(m, '0', '5'); PungText(h) || QuadText(h)
    ensures !Marked(m)
  {
    var h := Replace(m, '0', '5');
    assert !IsDirection(h[|h| - 1]) && !IsDirection(h[|h| - 2]);
    assert QuadText(h) && |h| == 5;
    forall j | 0 <= j < |m|
      ensures !IsDirection(m[j])
    {
      assert !IsDirection(h[j]);
    }
  }

  /** Calling a meld makes the hand open. */
  lemma FulouEndsMenqian(h: HandState, m: string, check: bool)
    requires ValidHand(h) && FulouSpec(h, m, check).1.Pass?
    ensures !Menqian(FulouSpec(h, m, check).0)
  {
    FulouAccepted(h, m, check);
    CalledMeldMarked(m);
    var j :| 0 <= j < |m| && IsDirection(m[j]);
    var f := FulouSpec(h, m, check).0.fulou;
    assert f[|f| - 1][j] == m[j];
  }

  /** A concealed quad leaves a closed hand closed and an open hand open. */
  lemma ConcealedGangKeepsMenqian(h: HandState, m: string, check: bool)
    requires ValidHand(h) && GangSpec(h, m, check).1.Pass? && EndsWithFourDigits(m)
    ensures Menqian(GangSpec(h, m, check).0) == Menqian(h)
  {
    GangConcealed(h, m, check);
    ConcealedQuadUnmarked(m);
    var f := GangSpec(h, m, check).0.fulou;
    assert f == h.fulou + [m];
    assert forall i :: 0 <= i < |h.fulou| ==> f[i] == h.fulou[i];
  }

  /** An added quad extends a claimed pung: the hand was open before it and stays open. */
  lemma AddedGangOpen(h: HandState, m: string, check: bool)
    requires ValidHand(h) && GangSpec(h, m, check).1.Pass? && !EndsWithFourDigits(m)
    ensures !Menqian(h) && !Menqian(GangSpec(h, m, check).0)
  {
    GangAdded(h, m, check);
    AddedQuadMark(m);
    ReplacedPungOpen(h, GangSpec(h, m, check).0, m);
  }

  /** A normal-form added quad carries its seat mark at index 4. */
  lemma AddedQuadMark(m: string)
    requires ValidMianzi(m) == Some(m) && EndsAddedQuad(m)
    ensures |m| >= 5 && IsDirection(m[4])
  {
    NormalMeldShape(m);
    ChowTail(m);
  }

  /** A pung with a seat mark, replaced by its quad: both hands are open. */
  lemma ReplacedPungOpen(h: HandState, h1: HandState, m: string)
    requires |m| >= 5 && IsDirection(m[4])
    requires exists i :: 0 <= i < |h.fulou| && h.fulou[i] == m[0..5] && h1.fulou == h.fulou[i := m]
    ensures !Menqian(h) && !Menqian(h1)
  {
    var i :| 0 <= i < |h.fulou| && h.fulou[i] == m[0..5] && h1.fulou == h.fulou[i := m];
    assert h.fulou[i][4] == m[4];
    assert h1.fulou[i][4] == m[4];
  }
}
