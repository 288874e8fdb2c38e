/**
 * The legal-move queries of jongpy/core/shoupai.py (`get_dapai`,
 * `get_chi_mianzi`, `get_peng_mianzi`, `get_gang_mianzi`) as functions of
 * the hand value, with the properties the source promises about them.
 * The methods of class Shoupai that compute them with loops over the
 * count arrays are proved to return these values.
 */
module ShoupaiMoves {
  import opened Wrappers
  import opened Exceptions
  import opened Notation
  import opened ShoupaiSpec

  /** The two-character text of kind (c, n). */
  function KindText(c: char, n: int): (t: string)
    requires 0 <= n <= 9
    ensures |t| == 2 && t[0] == c && IsDigit(t[1]) && DigitValue(t[1]) == n
  {
    [c, DigitChar(n)]
  }

  /** The kind a tile text names: a red five is a five. */
  function Kind(t: string): (k: string)
    requires |t| >= 2 && IsDigit(t[1])
    ensures |k| == 2 && k[0] == t[0]
  {
    KindText(t[0], Rank(t))
  }

  /** `n` copies of character x. */
  function Rep(x: char, n: int): (r: string)
    ensures |r| == (if n < 0 then 0 else n) && forall i :: 0 <= i < |r| ==> r[i] == x
    decreases n
  {
    if n <= 0 then "" else [x] + Rep(x, n - 1)
  }

  // ---------------------------------------------------------------------
  // get_dapai

  /** `re.match(r'[mpsz](\d)\1\1', h)`: the text starts with a pung or quad. */
  predicate TripletPrefix(h: string)
  {
    |h| >= 4 && IsSuit(h[0]) && IsDigit(h[1]) && h[2] == h[1] && h[3] == h[1]
  }

  /** `re.fullmatch(r'[mps]\d\-\d\d', m)`: a chow claimed as its lowest tile. */
  predicate ChiClaimedLow(m: string)
  {
    |m| == 5 && IsNumeralSuit(m[0]) && IsDigit(m[1]) && m[2] == '-' && IsDigit(m[3]) && IsDigit(m[4])
  }

  /** `re.fullmatch(r'[mps]\d\d\d\-', m)`: a chow claimed as its highest tile. */
  predicate ChiClaimedHigh(m: string)
  {
    |m| == 5 && IsNumeralSuit(m[0]) && IsDigit(m[1]) && IsDigit(m[2]) && IsDigit(m[3]) && m[4] == '-'
  }

  /**
   * The kinds that may not be discarded right after calling meld m: the
   * claimed kind, and for a chow claimed at one end the kind three ranks
   * beyond the other end.  A meld without a claimed digit makes the
   * source's `re.search(...).group()` fail.
   */
  function DenyList(m: string): (r: Result<seq<string>>)
    requires |m| > 2
    ensures r.Failure? <==> ClaimedDigit(m).None?
    ensures r.Failure? ==> r.error == NoMatch
    ensures r.Success? ==>
      1 <= |r.value| <= 2 && r.value[0] == KindText(m[0], Rank([m[0], ClaimedDigit(m).value]))
      && forall i :: 0 <= i < |r.value| ==> |r.value[i]| == 2 && r.value[i][0] == m[0]
  {
    match ClaimedDigit(m)
    case None => Failure(NoMatch)
    case Some(d) =>
      var n := if d == '0' then 5 else DigitValue(d);
      var own := [KindText(m[0], n)];
      if TripletPrefix(Replace(m, '0', '5')) then Success(own)
      else if n < 7 && ChiClaimedLow(m) then Success(own + [KindText(m[0], n + 3)])
      else if n > 3 && ChiClaimedHigh(m) then Success(own + [KindText(m[0], n - 3)])
      else Success(own)
  }

  /** The ranks of a suit's count list: 1 to 9, or 1 to 7 for honours. */
  predicate RowShape(c: char, row: seq<int>)
  {
    (IsNumeralSuit(c) && |row| == 10) || (c == 'z' && |row| == 8)
  }

  /**
   * The discards `get_dapai` lists for kind (c, n): none for a kind not
   * held, denied, or held only as the drawn tile; otherwise the kind,
   * and for fives the red five and the plain five as separate choices.
   */
  function KindDapai(row: seq<int>, c: char, n: int, deny: seq<string>, zm: string): seq<string>
    requires RowShape(c, row) && 1 <= n < |row|
  {
    var p := KindText(c, n);
    if row[n] == 0 || p in deny || (p == zm && row[n] == 1) then []
    else if c == 'z' || n != 5 then [p]
    else
      (if (row[0] > 0 && KindText(c, 0) != zm) || row[0] > 1 then [KindText(c, 0)] else [])
      + (if row[0] < row[5] then [p] else [])
  }

  /** The choices of ranks 1 to k - 1 of one suit, in rank order. */
  function RowDapai(row: seq<int>, c: char, k: int, deny: seq<string>, zm: string): seq<string>
    requires RowShape(c, row) && k <= |row|
    decreases k
  {
    if k <= 1 then [] else RowDapai(row, c, k - 1, deny, zm) + KindDapai(row, c, k - 1, deny, zm)
  }

  const SUITS: string := "mpsz"

  /** The choices of the first i suits of m, p, s, z. */
  function SuitsDapai(b: Bingpai, i: int, deny: seq<string>, zm: string): seq<string>
    requires b.Shaped() && 0 <= i <= 4
    decreases i
  {
    if i == 0 then []
    else SuitsDapai(b, i - 1, deny, zm) + RowDapai(b.Row(SUITS[i - 1]), SUITS[i - 1], |b.Row(SUITS[i - 1])|, deny, zm)
  }

  /**
   * `get_dapai(check)`: nothing to discard (None) without a tile in the
   * draw slot; otherwise, unless in riichi, every held kind not denied in
   * suit and rank order, and last the drawn tile itself marked `_`.
   */
  function GetDapaiSpec(h: HandState, check: bool): Result<Option<seq<string>>>
    requires h.bingpai.Shaped()
  {
    if !HasZimo(h.zimo) then Success(None)
    else
      var zm := h.zimo.value;
      var deny := DenyOf(zm, check);
      if deny.Failure? then Failure(deny.error)
      else Success(Some(DapaiMain(h, deny.value, zm) + DrawnChoice(zm)))
  }

  /** The kinds denied: only with `check` and right after a call. */
  function DenyOf(zm: string, check: bool): Result<seq<string>>
  {
    if check && |zm| > 2 then DenyList(zm) else Success([])
  }

  /** The choices from the held tiles: none after riichi. */
  function DapaiMain(h: HandState, deny: seq<string>, zm: string): seq<string>
    requires h.bingpai.Shaped()
  {
    if !h.lizhi then SuitsDapai(h.bingpai, 4, deny, zm) else []
  }

  /** `zimo + '_'` after a draw (not after a call). */
  function DrawnChoice(zm: string): seq<string>
  {
    if |zm| == 2 then [zm + "_"] else []
  }

  /** The j-th suit's count list has its length and the invariants of valid counts. */
  lemma SuitRow(b: Bingpai, j: int)
    requires b.Valid() && 0 <= j < 4
    ensures IsSuit(SUITS[j]) && (SUITS[j] == 'z' <==> j == 3)
    ensures RowShape(SUITS[j], b.Row(SUITS[j])) && RowValid(b.Row(SUITS[j]))
    ensures b.Row(SUITS[j])[0] <= b.Row(SUITS[j])[5] && (SUITS[j] == 'z' ==> b.Row(SUITS[j])[0] == 0)
  {
    assert SUITS[0] == 'm' && SUITS[1] == 'p' && SUITS[2] == 's' && SUITS[3] == 'z';
  }

  /** What one kind contributes is that kind, held, and not denied. */
  lemma KindDapaiSound(row: seq<int>, c: char, n: int, deny: seq<string>, zm: string, e: string)
    requires RowShape(c, row) && RowValid(row) && 1 <= n < |row| && e in KindDapai(row, c, n, deny, zm)
    ensures |e| == 2 && e[0] == c && IsDigit(e[1]) && Kind(e) == KindText(c, n)
    ensures row[DigitValue(e[1])] > 0 && KindText(c, n) !in deny
  {
    var p := KindText(c, n);
    assert !(row[n] == 0 || p in deny || (p == zm && row[n] == 1));
    if c == 'z' || n != 5 {
      assert e == p;
    } else if e == KindText(c, 0) {
      assert row[0] > 0;
    } else {
      assert e == p;
    }
  }

  /** A held kind that is not denied is offered, unless its only copy is the drawn tile. */
  lemma KindDapaiComplete(row: seq<int>, c: char, n: int, deny: seq<string>, zm: string)
    requires RowShape(c, row) && 1 <= n < |row| && row[0] <= row[5] && (c == 'z' ==> row[0] == 0)
    requires row[n] > 0 && KindText(c, n) !in deny && !(KindText(c, n) == zm && row[n] == 1)
    requires !(c != 'z' && n == 5 && row[0] == 1 && row[5] == 1 && KindText(c, 0) == zm)
    ensures exists e :: e in KindDapai(row, c, n, deny, zm)
  {
    if c != 'z' && n == 5 {
      if row[0] < row[5] {
        assert KindText(c, n) in KindDapai(row, c, n, deny, zm);
      } else {
        assert KindText(c, 0) in KindDapai(row, c, n, deny, zm);
      }
    } else {
      assert KindText(c, n) in KindDapai(row, c, n, deny, zm);
    }
  }

  /**
   * `get_dapai` answers None exactly when the draw slot is empty, and
   * otherwise fails only for a called meld naming no claimed tile.
   */
  lemma GetDapaiNone(h: HandState, check: bool)
    requires h.bingpai.Shaped()
    ensures GetDapaiSpec(h, check) == Success(None) <==> !HasZimo(h.zimo)
    ensures GetDapaiSpec(h, check).Failure? <==>
      HasZimo(h.zimo) && check && |h.zimo.value| > 2 && ClaimedDigit(h.zimo.value).None?
  {
  }

  /** After riichi only the drawn tile may be discarded. */
  lemma GetDapaiLizhi(h: HandState, check: bool)
    requires h.bingpai.Shaped() && h.lizhi && HasZimo(h.zimo) && |h.zimo.value| == 2
    ensures GetDapaiSpec(h, check) == Success(Some([h.zimo.value + "_"]))
  {
    assert DapaiMain(h, [], h.zimo.value) == [];
    assert [] + [h.zimo.value + "_"] == [h.zimo.value + "_"];
  }

  /** Every choice of ranks 1 to k - 1 of one suit is a held tile of that suit, of a kind not denied. */
  lemma {:induction false} RowDapaiSound(row: seq<int>, c: char, k: int, deny: seq<string>, zm: string, e: string)
    requires RowShape(c, row) && RowValid(row) && k <= |row| && e in RowDapai(row, c, k, deny, zm)
    ensures |e| == 2 && e[0] == c && IsDigit(e[1]) && DigitValue(e[1]) < |row|
    ensures row[DigitValue(e[1])] > 0 && Kind(e) !in deny
    decreases k
  {
    if e in RowDapai(row, c, k - 1, deny, zm) {
      RowDapaiSound(row, c, k - 1, deny, zm, e);
    } else {
      KindDapaiSound(row, c, k - 1, deny, zm, e);
    }
  }

  /** Every choice from the first i suits is a held tile of a kind not denied. */
  lemma {:induction false} SuitsDapaiSound(b: Bingpai, i: int, deny: seq<string>, zm: string, e: string)
    requires b.Valid() && 0 <= i <= 4 && e in SuitsDapai(b, i, deny, zm)
    ensures |e| == 2 && IsSuit(e[0]) && IsDigit(e[1]) && DigitValue(e[1]) < |b.Row(e[0])|
    ensures b.Row(e[0])[DigitValue(e[1])] > 0 && Kind(e) !in deny
    decreases i
  {
    if e in SuitsDapai(b, i - 1, deny, zm) {
      SuitsDapaiSound(b, i - 1, deny, zm, e);
    } else {
      SuitRow(b, i - 1);
      var row := b.Row(SUITS[i - 1]);
      RowDapaiSound(row, SUITS[i - 1], |row|, deny, zm, e);
    }
  }

  /** A choice of rank n is among the choices of ranks 1 to k - 1 when n < k. */
  lemma {:induction false} RowDapaiHas(row: seq<int>, c: char, k: int, n: int, deny: seq<string>, zm: string, e: string)
    requires RowShape(c, row) && 1 <= n < k <= |row| && e in KindDapai(row, c, n, deny, zm)
    ensures e in RowDapai(row, c, k, deny, zm)
    decreases k
  {
    if n < k - 1 {
      RowDapaiHas(row, c, k - 1, n, deny, zm, e);
    }
  }

  lemma {:induction false} SuitsDapaiHas(b: Bingpai, i: int, j: int, deny: seq<string>, zm: string, e: string)
    requires b.Shaped() && 0 <= j < i <= 4
    requires e in RowDapai(b.Row(SUITS[j]), SUITS[j], |b.Row(SUITS[j])|, deny, zm)
    ensures e in SuitsDapai(b, i, deny, zm)
    decreases i
  {
    if j < i - 1 {
      SuitsDapaiHas(b, i - 1, j, deny, zm, e);
    }
  }

  /** Every held kind not denied is among the choices, unless its only copy is the drawn tile. */
  lemma SuitsDapaiComplete(b: Bingpai, deny: seq<string>, zm: string, j: int, n: int)
    requires b.Valid() && 0 <= j < 4 && 1 <= n < |b.Row(SUITS[j])| && b.Row(SUITS[j])[n] > 0
    requires KindText(SUITS[j], n) !in deny && !(KindText(SUITS[j], n) == zm && b.Row(SUITS[j])[n] == 1)
    requires !(j < 3 && n == 5 && b.Row(SUITS[j])[0] == 1 && b.Row(SUITS[j])[5] == 1 && KindText(SUITS[j], 0) == zm)
    ensures exists e :: e in SuitsDapai(b, 4, deny, zm) && |e| >= 2 && IsDigit(e[1]) && Kind(e) == KindText(SUITS[j], n)
  {
    SuitRow(b, j);
    var c := SUITS[j];
    var row := b.Row(c);
    KindDapaiComplete(row, c, n, deny, zm);
    var e :| e in KindDapai(row, c, n, deny, zm);
    KindDapaiSound(row, c, n, deny, zm, e);
    RowDapaiHas(row, c, |row|, n, deny, zm, e);
    SuitsDapaiHas(b, 4, j, deny, zm, e);
  }

  /** A list of choices is the choices from the held tiles, then the drawn tile. */
  lemma GetDapaiParts(h: HandState, check: bool)
    requires h.bingpai.Shaped() && GetDapaiSpec(h, check).Success? && GetDapaiSpec(h, check).value.Some?
    ensures HasZimo(h.zimo) && DenyOf(h.zimo.value, check).Success?
    ensures GetDapaiSpec(h, check).value.value
      == DapaiMain(h, DenyOf(h.zimo.value, check).value, h.zimo.value) + DrawnChoice(h.zimo.value)
  {
  }

  lemma DrawnChoiceKind(zm: string, c: char, n: int)
    requires 1 <= n <= 9 && (KindText(c, n) == zm || (n == 5 && KindText(c, 0) == zm))
    ensures |zm| == 2 && |zm + "_"| >= 2 && IsDigit((zm + "_")[1])
    ensures Kind(zm + "_") == KindText(c, n)
  {
  }

  /**
   * Every choice other than the drawn tile is a held tile whose kind is
   * not denied after the call; so after a call the claimed kind (and for
   * an end-claimed chow, the kind three ranks beyond) is never offered.
   */
  lemma GetDapaiSound(h: HandState, check: bool, l: seq<string>, e: string)
    requires h.bingpai.Valid() && GetDapaiSpec(h, check) == Success(Some(l)) && e in l
    ensures HasZimo(h.zimo) && DenyOf(h.zimo.value, check).Success?
    ensures (|h.zimo.value| == 2 && e == h.zimo.value + "_")
      || (!h.lizhi && |e| == 2 && IsSuit(e[0]) && IsDigit(e[1]) && DigitValue(e[1]) < |h.bingpai.Row(e[0])|
          && h.bingpai.Row(e[0])[DigitValue(e[1])] > 0
          && Kind(e) !in DenyOf(h.zimo.value, check).value)
  {
    var zm := h.zimo.value;
    var deny := DenyOf(zm, check).value;
    GetDapaiParts(h, check);
    if e !in DrawnChoice(zm) {
      SuitsDapaiSound(h.bingpai, 4, deny, zm, e);
    }
  }

  /**
   * Every held kind that is not denied can be discarded: some choice
   * names it (the drawn tile counts as a choice of its own kind).
   */
  lemma GetDapaiComplete(h: HandState, check: bool, l: seq<string>, c: char, n: int)
    requires h.bingpai.Valid() && !h.lizhi && GetDapaiSpec(h, check) == Success(Some(l))
    requires IsSuit(c) && 1 <= n < |h.bingpai.Row(c)| && h.bingpai.Row(c)[n] > 0
    requires KindText(c, n) !in DenyOf(h.zimo.value, check).value
    ensures exists e :: e in l && |e| >= 2 && IsDigit(e[1]) && Kind(e) == KindText(c, n)
  {
    GetDapaiParts(h, check);
    var zm := h.zimo.value;
    var deny := DenyOf(zm, check).value;
    var j := if c == 'm' then 0 else if c == 'p' then 1 else if c == 's' then 2 else 3;
    assert SUITS[j] == c;
    var row := h.bingpai.Row(c);
    if (KindText(c, n) == zm && row[n] == 1) || (j < 3 && n == 5 && row[0] == 1 && row[5] == 1 && KindText(c, 0) == zm) {
      DrawnChoiceKind(zm, c, n);
      InDrawn(DapaiMain(h, deny, zm), zm);
      var e := zm + "_";
      assert e in l && |e| >= 2 && IsDigit(e[1]) && Kind(e) == KindText(c, n);
    } else {
      SuitsDapaiComplete(h.bingpai, deny, zm, j, n);
      var e :| e in SuitsDapai(h.bingpai, 4, deny, zm) && |e| >= 2 && IsDigit(e[1]) && Kind(e) == KindText(c, n);
      InMain(h, deny, zm, e);
      assert e in l && |e| >= 2 && IsDigit(e[1]) && Kind(e) == KindText(c, n);
    }
  }

  lemma InDrawn(main: seq<string>, zm: string)
    requires |zm| == 2
    ensures zm + "_" in main + DrawnChoice(zm)
  {
    assert (main + DrawnChoice(zm))[|main|] == zm + "_";
  }

  lemma InMain(h: HandState, deny: seq<string>, zm: string, e: string)
    requires h.bingpai.Shaped() && !h.lizhi && e in SuitsDapai(h.bingpai, 4, deny, zm)
    ensures e in DapaiMain(h, deny, zm) + DrawnChoice(zm)
  {
  }

  // ---------------------------------------------------------------------
  // get_chi_mianzi

  /**
   * Whether a free tile of a call can come from the row: a red five needs
   * a red five, a plain five needs a five that is not red, any other rank
   * needs a tile of that rank.
   */
  predicate Holds(row: seq<int>, d: char)
    requires |row| == 10 && IsDigit(d)
  {
    if d == '0' then row[0] > 0 else if d == '5' then row[5] > row[0] else row[DigitValue(d)] > 0
  }

  /** A digit read as a rank: a red five is a five. */
  function RankOf(d: char): (n: int)
    requires IsDigit(d)
  {
    if d == '0' then 5 else DigitValue(d)
  }

  /** The number of tiles a hand with k declared melds holds after one more call, before its discard. */
  function ChiLimit(k: int): int
  {
    14 - (k + 1) * 3
  }

  /** The chows with the claimed tile (rank n, digit d) as their highest tile. */
  function ChiRight(row: seq<int>, c: char, n: int, d: char, limit: int, check: bool): seq<string>
    requires |row| == 10 && 1 <= n <= 9
  {
    if n >= 3 && row[n - 2] > 0 && row[n - 1] > 0
      && (!check || (if n > 3 then row[n - 3] else 0) + row[n] < limit)
    then
      (if n - 2 == 5 && row[0] > 0 then [[c] + "067-"] else [])
      + (if n - 1 == 5 && row[0] > 0 then [[c] + "406-"] else [])
      + (if (n - 2 != 5 && n - 1 != 5) || row[0] < row[5] then [[c, DigitChar(n - 2), DigitChar(n - 1), d, '-']] else [])
    else []
  }

  /** The chows with the claimed tile in the middle. */
  function ChiMiddle(row: seq<int>, c: char, n: int, d: char, limit: int, check: bool): seq<string>
    requires |row| == 10 && 1 <= n <= 9
  {
    if 2 <= n <= 8 && row[n - 1] > 0 && row[n + 1] > 0 && (!check || row[n] < limit) then
      (if n - 1 == 5 && row[0] > 0 then [[c] + "06-7"] else [])
      + (if n + 1 == 5 && row[0] > 0 then [[c] + "34-0"] else [])
      + (if (n - 1 != 5 && n + 1 != 5) || row[0] < row[5] then [[c, DigitChar(n - 1), d, '-', DigitChar(n + 1)]] else [])
    else []
  }

  /** The chows with the claimed tile as their lowest tile. */
  function ChiLeft(row: seq<int>, c: char, n: int, d: char, limit: int, check: bool): seq<string>
    requires |row| == 10 && 1 <= n <= 9
  {
    if n <= 7 && row[n + 1] > 0 && row[n + 2] > 0
      && (!check || row[n] + (if n < 7 then row[n + 3] else 0) < limit)
    then
      (if n + 1 == 5 && row[0] > 0 then [[c] + "4-06"] else [])
      + (if n + 2 == 5 && row[0] > 0 then [[c] + "3-40"] else [])
      + (if (n + 1 != 5 && n + 2 != 5) || row[0] < row[5] then [[c, d, '-', DigitChar(n + 1), DigitChar(n + 2)]] else [])
    else []
  }

  /**
   * `get_chi_mianzi(p, check)`: None with a tile in the draw slot; an
   * error for a malformed tile or one without a direction; no chow for an
   * honour, a tile not discarded by the seat on the left, or after riichi;
   * otherwise the chows the hand can form with the tile, claimed tile
   * highest, then in the middle, then lowest.  With `check`, a chow is
   * left out when the hand would be left holding only tiles it may not
   * discard next.
   */
  function ChiSpec(h: HandState, p: string, check: bool): Result<Option<seq<string>>>
    requires h.bingpai.Shaped()
  {
    if HasZimo(h.zimo) then Success(None)
    else if !ValidPai(p) then Failure(PaiFormat)
    else if Direction(p).None? then Failure(InvalidOperation)
    else if p[0] == 'z' || Direction(p).value != '-' || h.lizhi then Success(Some([]))
    else
      var row := h.bingpai.Row(p[0]);
      var n := Rank(p);
      var limit := ChiLimit(|h.fulou|);
      Success(Some(ChiRight(row, p[0], n, p[1], limit, check) + ChiMiddle(row, p[0], n, p[1], limit, check)
        + ChiLeft(row, p[0], n, p[1], limit, check)))
  }

  /**
   * A chow offered for tile (c, n) with claimed digit d: five characters,
   * the claimed digit marked `-` at position k, the two free digits held
   * and, read as ranks, consecutive with n in rank order.
   */
  predicate ChowOf(e: string, row: seq<int>, c: char, n: int, d: char)
    requires |row| == 10
  {
    |e| == 5 && e[0] == c
    && exists k :: 1 <= k <= 3 && e[k] == d && e[k + 1] == '-' && ChowFree(e[1..k] + e[k + 2..], row, n, k)
  }

  /** The two free digits of a chow whose claimed tile sits at position k (1 lowest, 3 highest). */
  predicate ChowFree(f: string, row: seq<int>, n: int, k: int)
    requires |row| == 10
  {
    |f| == 2 && IsDigit(f[0]) && IsDigit(f[1]) && Holds(row, f[0]) && Holds(row, f[1])
    && (k == 1 ==> RankOf(f[0]) == n + 1 && RankOf(f[1]) == n + 2)
    && (k == 2 ==> RankOf(f[0]) == n - 1 && RankOf(f[1]) == n + 1)
    && (k == 3 ==> RankOf(f[0]) == n - 2 && RankOf(f[1]) == n - 1)
  }

  lemma RankOfDigitChar(x: int)
    requires 1 <= x <= 9
    ensures RankOf(DigitChar(x)) == x
  {
  }

  /** The chow of digits a, b and the claimed tile at position k is a `ChowOf`. */
  lemma ChowAt(e: string, row: seq<int>, c: char, n: int, d: char, k: int)
    requires |row| == 10 && |e| == 5 && e[0] == c && 1 <= k <= 3 && e[k] == d && e[k + 1] == '-'
    requires ChowFree(e[1..k] + e[k + 2..], row, n, k)
    ensures ChowOf(e, row, c, n, d)
  {
  }

  /** A chow with a red five: e is the suit letter followed by t, whose free digits are f. */
  lemma RedChowAt(e: string, row: seq<int>, c: char, n: int, d: char, k: int, t: string, f: string)
    requires |row| == 10 && 1 <= k <= 3 && |t| == 4 && e == [c] + t && t[k - 1] == d && t[k] == '-'
    requires t[..k - 1] + t[k + 1..] == f && ChowFree(f, row, n, k)
    ensures ChowOf(e, row, c, n, d)
  {
    assert e[1..k] == t[..k - 1] && e[k + 2..] == t[k + 1..];
    ChowAt(e, row, c, n, d, k);
  }

  lemma ChiRightSound(row: seq<int>, c: char, n: int, d: char, limit: int, check: bool, e: string)
    requires |row| == 10 && 1 <= n <= 9 && IsDigit(d) && RankOf(d) == n
    requires e in ChiRight(row, c, n, d, limit, check)
    ensures ChowOf(e, row, c, n, d)
    ensures e[4] == '-' && e[3] != '-' && e[2] != '-'
    ensures check ==> (if n > 3 then row[n - 3] else 0) + row[n] < limit
  {
    ChiRightChow(row, c, n, d, limit, check, e);
    ChiRightMarks(row, c, n, d, limit, check, e);
  }

  lemma ChiRightChow(row: seq<int>, c: char, n: int, d: char, limit: int, check: bool, e: string)
    requires |row| == 10 && 1 <= n <= 9 && IsDigit(d) && RankOf(d) == n
    requires e in ChiRight(row, c, n, d, limit, check)
    ensures ChowOf(e, row, c, n, d)
  {
    assert n >= 3 && row[n - 2] > 0 && row[n - 1] > 0;
    var red1 := if n - 2 == 5 && row[0] > 0 then [[c] + "067-"] else [];
    var red2 := if n - 1 == 5 && row[0] > 0 then [[c] + "406-"] else [];
    var plain := if (n - 2 != 5 && n - 1 != 5) || row[0] < row[5] then [[c, DigitChar(n - 2), DigitChar(n - 1), d, '-']] else [];
    assert ChiRight(row, c, n, d, limit, check) == red1 + red2 + plain;
    if e in red1 {
      assert d == '7';
      RedChowAt(e, row, c, n, d, 3, "067-", "06");
    } else if e in red2 {
      assert d == '6';
      RedChowAt(e, row, c, n, d, 3, "406-", "40");
    } else {
      assert e in plain;
      ChiPlainSound(row, c, n, d, 3, n - 2, n - 1, e);
    }
  }

  lemma ChiRightMarks(row: seq<int>, c: char, n: int, d: char, limit: int, check: bool, e: string)
    requires |row| == 10 && 1 <= n <= 9 && IsDigit(d) && RankOf(d) == n
    requires e in ChiRight(row, c, n, d, limit, check)
    ensures e[4] == '-' && e[3] != '-' && e[2] != '-'
    ensures check ==> (if n > 3 then row[n - 3] else 0) + row[n] < limit
  {
    var red1 := if n - 2 == 5 && row[0] > 0 then [[c] + "067-"] else [];
    var red2 := if n - 1 == 5 && row[0] > 0 then [[c] + "406-"] else [];
    var plain := if (n - 2 != 5 && n - 1 != 5) || row[0] < row[5] then [[c, DigitChar(n - 2), DigitChar(n - 1), d, '-']] else [];
    assert ChiRight(row, c, n, d, limit, check) == red1 + red2 + plain;
  }


  /** The chow without red fives: free ranks a and b, the claimed tile at position k. */
  lemma ChiPlainSound(row: seq<int>, c: char, n: int, d: char, k: int, a: int, b: int, e: string)
    requires |row| == 10 && 1 <= n <= 9 && IsDigit(d) && RankOf(d) == n && 1 <= a <= 9 && 1 <= b <= 9 && 1 <= k <= 3
    requires row[a] > 0 && row[b] > 0 && ((a != 5 && b != 5) || row[0] < row[5])
    requires k == 1 ==> a == n + 1 && b == n + 2 && e == [c, d, '-', DigitChar(a), DigitChar(b)]
    requires k == 2 ==> a == n - 1 && b == n + 1 && e == [c, DigitChar(a), d, '-', DigitChar(b)]
    requires k == 3 ==> a == n - 2 && b == n - 1 && e == [c, DigitChar(a), DigitChar(b), d, '-']
    ensures ChowOf(e, row, c, n, d)
  {
    RankOfDigitChar(a);
    RankOfDigitChar(b);
    assert e[1..k] + e[k + 2..] == [DigitChar(a), DigitChar(b)];
    ChowAt(e, row, c, n, d, k);
  }

  lemma ChiMiddleSound(row: seq<int>, c: char, n: int, d: char, limit: int, check: bool, e: string)
    requires |row| == 10 && 1 <= n <= 9 && IsDigit(d) && RankOf(d) == n
    requires e in ChiMiddle(row, c, n, d, limit, check)
    ensures ChowOf(e, row, c, n, d)
    ensures e[3] == '-' && e[4] != '-' && e[2] != '-'
    ensures check ==> row[n] < limit
  {
    ChiMiddleChow(row, c, n, d, limit, check, e);
    ChiMiddleMarks(row, c, n, d, limit, check, e);
  }

  lemma ChiMiddleChow(row: seq<int>, c: char, n: int, d: char, limit: int, check: bool, e: string)
    requires |row| == 10 && 1 <= n <= 9 && IsDigit(d) && RankOf(d) == n
    requires e in ChiMiddle(row, c, n, d, limit, check)
    ensures ChowOf(e, row, c, n, d)
  {
    assert 2 <= n <= 8 && row[n - 1] > 0 && row[n + 1] > 0;
    var red1 := if n - 1 == 5 && row[0] > 0 then [[c] + "06-7"] else [];
    var red2 := if n + 1 == 5 && row[0] > 0 then [[c] + "34-0"] else [];
    var plain := if (n - 1 != 5 && n + 1 != 5) || row[0] < row[5] then [[c, DigitChar(n - 1), d, '-', DigitChar(n + 1)]] else [];
    assert ChiMiddle(row, c, n, d, limit, check) == red1 + red2 + plain;
    if e in red1 {
      assert d == '6';
      RedChowAt(e, row, c, n, d, 2, "06-7", "07");
    } else if e in red2 {
      assert d == '4';
      RedChowAt(e, row, c, n, d, 2, "34-0", "30");
    } else {
      assert e in plain;
      ChiPlainSound(row, c, n, d, 2, n - 1, n + 1, e);
    }
  }

  lemma ChiMiddleMarks(row: seq<int>, c: char, n: int, d: char, limit: int, check: bool, e: string)
    requires |row| == 10 && 1 <= n <= 9 && IsDigit(d) && RankOf(d) == n
    requires e in ChiMiddle(row, c, n, d, limit, check)
    ensures e[3] == '-' && e[4] != '-' && e[2] != '-'
    ensures check ==> row[n] < limit
  {
    var red1 := if n - 1 == 5 && row[0] > 0 then [[c] + "06-7"] else [];
    var red2 := if n + 1 == 5 && row[0] > 0 then [[c] + "34-0"] else [];
    var plain := if (n - 1 != 5 && n + 1 != 5) || row[0] < row[5] then [[c, DigitChar(n - 1), d, '-', DigitChar(n + 1)]] else [];
    assert ChiMiddle(row, c, n, d, limit, check) == red1 + red2 + plain;
  }

  lemma ChiLeftSound(row: seq<int>, c: char, n: int, d: char, limit: int, check: bool, e: string)
    requires |row| == 10 && 1 <= n <= 9 && IsDigit(d) && RankOf(d) == n
    requires e in ChiLeft(row, c, n, d, limit, check)
    ensures ChowOf(e, row, c, n, d)
    ensures e[2] == '-' && e[4] != '-' && e[3] != '-'
    ensures check ==> row[n] + (if n < 7 then row[n + 3] else 0) < limit
  {
    ChiLeftChow(row, c, n, d, limit, check, e);
    ChiLeftMarks(row, c, n, d, limit, check, e);
  }

  lemma ChiLeftChow(row: seq<int>, c: char, n: int, d: char, limit: int, check: bool, e: string)
    requires |row| == 10 && 1 <= n <= 9 && IsDigit(d) && RankOf(d) == n
    requires e in ChiLeft(row, c, n, d, limit, check)
    ensures ChowOf(e, row, c, n, d)
  {
    assert n <= 7 && row[n + 1] > 0 && row[n + 2] > 0;
    var red1 := if n + 1 == 5 && row[0] > 0 then [[c] + "4-06"] else [];
    var red2 := if n + 2 == 5 && row[0] > 0 then [[c] + "3-40"] else [];
    var plain := if (n + 1 != 5 && n + 2 != 5) || row[0] < row[5] then [[c, d, '-', DigitChar(n + 1), DigitChar(n + 2)]] else [];
    assert ChiLeft(row, c, n, d, limit, check) == red1 + red2 + plain;
    if e in red1 {
      assert d == '4';
      RedChowAt(e, row, c, n, d, 1, "4-06", "06");
    } else if e in red2 {
      assert d == '3';
      RedChowAt(e, row, c, n, d, 1, "3-40", "40");
    } else {
      assert e in plain;
      ChiPlainSound(row, c, n, d, 1, n + 1, n + 2, e);
    }
  }

  lemma ChiLeftMarks(row: seq<int>, c: char, n: int, d: char, limit: int, check: bool, e: string)
    requires |row| == 10 && 1 <= n <= 9 && IsDigit(d) && RankOf(d) == n
    requires e in ChiLeft(row, c, n, d, limit, check)
    ensures e[2] == '-' && e[4] != '-' && e[3] != '-'
    ensures check ==> row[n] + (if n < 7 then row[n + 3] else 0) < limit
  {
    var red1 := if n + 1 == 5 && row[0] > 0 then [[c] + "4-06"] else [];
    var red2 := if n + 2 == 5 && row[0] > 0 then [[c] + "3-40"] else [];
    var plain := if (n + 1 != 5 && n + 2 != 5) || row[0] < row[5] then [[c, d, '-', DigitChar(n + 1), DigitChar(n + 2)]] else [];
    assert ChiLeft(row, c, n, d, limit, check) == red1 + red2 + plain;
  }


  /**
   * Every chow offered is a chow of the claimed tile's suit, claimed
   * from the left, made with two held tiles of consecutive ranks; and
   * chows are offered only for a numeral tile from the left before riichi.
   * With `check`, a chow is offered only when the tiles the hand could
   * not discard afterwards (the claimed kind, and the kind three ranks
   * beyond for an end chow) number fewer than 14 - 3 * (melds + 1); which
   * kinds those are depends on where the claimed tile sits, marked by `-`.
   */
  lemma ChiSound(h: HandState, p: string, check: bool, l: seq<string>, e: string)
    requires h.bingpai.Shaped() && ChiSpec(h, p, check) == Success(Some(l)) && e in l
    ensures !HasZimo(h.zimo) && ValidPai(p) && IsNumeralSuit(p[0]) && Direction(p) == Some('-') && !h.lizhi
    ensures ChowOf(e, h.bingpai.Row(p[0]), p[0], Rank(p), p[1])
    ensures check ==>
      var row := h.bingpai.Row(p[0]); var n := Rank(p); var limit := ChiLimit(|h.fulou|);
      (e[4] == '-' ==> (if n > 3 then row[n - 3] else 0) + row[n] < limit)
      && (e[3] == '-' ==> row[n] < limit)
      && (e[2] == '-' ==> row[n] + (if n < 7 then row[n + 3] else 0) < limit)
  {
    var row := h.bingpai.Row(p[0]);
    var n := Rank(p);
    var limit := ChiLimit(|h.fulou|);
    if e in ChiRight(row, p[0], n, p[1], limit, check) {
      ChiRightSound(row, p[0], n, p[1], limit, check, e);
    } else if e in ChiMiddle(row, p[0], n, p[1], limit, check) {
      ChiMiddleSound(row, p[0], n, p[1], limit, check, e);
    } else {
      ChiLeftSound(row, p[0], n, p[1], limit, check, e);
    }
  }

  /**
   * `get_chi_mianzi` is None exactly with a tile in the draw slot, fails
   * exactly for a malformed tile or one without a direction, and offers
   * nothing for an honour, a tile from another seat than the left, or
   * after riichi.
   */
  lemma ChiGuards(h: HandState, p: string, check: bool)
    requires h.bingpai.Shaped()
    ensures ChiSpec(h, p, check) == Success(None) <==> HasZimo(h.zimo)
    ensures ChiSpec(h, p, check).Failure? <==> !HasZimo(h.zimo) && (!ValidPai(p) || Direction(p).None?)
    ensures !HasZimo(h.zimo) && ValidPai(p) && Direction(p).Some? && (p[0] == 'z' || Direction(p) != Some('-') || h.lizhi)
      ==> ChiSpec(h, p, check) == Success(Some([]))
  {
  }

  /**
   * Whenever the hand holds the two other tiles of a chow with the
   * claimed tile in a given position (and, with `check`, the chow passes
   * the swap-call test), a chow with the tile in that position is offered.
   */
  lemma ChiComplete(h: HandState, p: string, check: bool, l: seq<string>)
    requires h.bingpai.Valid() && ChiSpec(h, p, check) == Success(Some(l))
    requires ValidPai(p) && IsNumeralSuit(p[0]) && Direction(p) == Some('-') && !h.lizhi
    ensures var row := h.bingpai.Row(p[0]); var n := Rank(p); var limit := ChiLimit(|h.fulou|);
      (n >= 3 && row[n - 2] > 0 && row[n - 1] > 0 && (!check || (if n > 3 then row[n - 3] else 0) + row[n] < limit) ==>
         exists e :: e in l && |e| == 5 && e[3] == p[1] && e[4] == '-')
      && (2 <= n <= 8 && row[n - 1] > 0 && row[n + 1] > 0 && (!check || row[n] < limit) ==>
         exists e :: e in l && |e| == 5 && e[2] == p[1] && e[3] == '-')
      && (n <= 7 && row[n + 1] > 0 && row[n + 2] > 0 && (!check || row[n] + (if n < 7 then row[n + 3] else 0) < limit) ==>
         exists e :: e in l && |e| == 5 && e[1] == p[1] && e[2] == '-')
  {
    var c := p[0];
    var row := h.bingpai.Row(c);
    var n := Rank(p);
    var d := p[1];
    var limit := ChiLimit(|h.fulou|);
    assert row[0] <= row[5];
    var right := ChiRight(row, c, n, d, limit, check);
    var middle := ChiMiddle(row, c, n, d, limit, check);
    var left := ChiLeft(row, c, n, d, limit, check);
    assert l == right + middle + left;
    ChiLastShape(row, c, n, d, limit, check);
    if |right| > 0 {
      assert right[|right| - 1] in l;
    }
    if |middle| > 0 {
      assert middle[|middle| - 1] in l;
    }
    if |left| > 0 {
      assert left[|left| - 1] in l;
    }
  }

  /**
   * Each position's list, when not empty, ends with a chow of five
   * characters whose claimed digit d sits before `-` at that position.
   */
  lemma ChiLastShape(row: seq<int>, c: char, n: int, d: char, limit: int, check: bool)
    requires |row| == 10 && 1 <= n <= 9 && IsDigit(d) && RankOf(d) == n && row[0] <= row[5]
    ensures var r := ChiRight(row, c, n, d, limit, check);
      n >= 3 && row[n - 2] > 0 && row[n - 1] > 0 && (!check || (if n > 3 then row[n - 3] else 0) + row[n] < limit) ==>
        |r| > 0 && |r[|r| - 1]| == 5 && r[|r| - 1][3] == d && r[|r| - 1][4] == '-'
    ensures var r := ChiMiddle(row, c, n, d, limit, check);
      2 <= n <= 8 && row[n - 1] > 0 && row[n + 1] > 0 && (!check || row[n] < limit) ==>
        |r| > 0 && |r[|r| - 1]| == 5 && r[|r| - 1][2] == d && r[|r| - 1][3] == '-'
    ensures var r := ChiLeft(row, c, n, d, limit, check);
      n <= 7 && row[n + 1] > 0 && row[n + 2] > 0 && (!check || row[n] + (if n < 7 then row[n + 3] else 0) < limit) ==>
        |r| > 0 && |r[|r| - 1]| == 5 && r[|r| - 1][1] == d && r[|r| - 1][2] == '-'
  {
  }

  /** The swap-call test only removes chows, and without declared melds it removes none. */
  lemma ChiCheckFewer(h: HandState, p: string, l1: seq<string>, l2: seq<string>)
    requires h.bingpai.Valid() && ChiSpec(h, p, true) == Success(Some(l1)) && ChiSpec(h, p, false) == Success(Some(l2))
    ensures forall e :: e in l1 ==> e in l2
    ensures |h.fulou| == 0 ==> l1 == l2
  {
    if ValidPai(p) && IsNumeralSuit(p[0]) && Direction(p) == Some('-') && !h.lizhi {
      var c := p[0];
      var row := h.bingpai.Row(c);
      var n := Rank(p);
      var d := p[1];
      var limit := ChiLimit(|h.fulou|);
      assert l1 == ChiRight(row, c, n, d, limit, true) + ChiMiddle(row, c, n, d, limit, true) + ChiLeft(row, c, n, d, limit, true);
      assert l2 == ChiRight(row, c, n, d, limit, false) + ChiMiddle(row, c, n, d, limit, false) + ChiLeft(row, c, n, d, limit, false);
      if |h.fulou| == 0 {
        assert RowValid(row) && limit == 11;
        assert ChiRight(row, c, n, d, limit, true) == ChiRight(row, c, n, d, limit, false);
        assert ChiMiddle(row, c, n, d, limit, true) == ChiMiddle(row, c, n, d, limit, false);
        assert ChiLeft(row, c, n, d, limit, true) == ChiLeft(row, c, n, d, limit, false);
      }
    }
  }

  /** A hand of m123 p345067 s789 z1 offered p4 from the left, and a hand with two melds that may not take it. */
  lemma ChiExamples()
    ensures ChiSpec(HandState(Bingpai(0, [0, 1, 1, 1, 0, 0, 0, 0, 0, 0], [1, 0, 0, 1, 1, 2, 1, 1, 0, 0],
        [0, 0, 0, 0, 0, 0, 0, 1, 1, 1], [0, 1, 0, 0, 0, 0, 0, 0]), [], None, false), "p4-", true)
      == Success(Some(["p34-0", "p34-5", "p4-06", "p4-56"]))
    ensures ChiSpec(HandState(Bingpai(0, [0, 0, 0, 0, 0, 0, 0, 0, 0, 0], [0, 3, 1, 1, 2, 0, 0, 0, 0, 0],
        [0, 0, 0, 0, 0, 0, 0, 0, 0, 0], [0, 0, 0, 0, 0, 0, 0, 0]), ["z111+", "s40-6"], None, false), "p4-", true)
      == Success(Some([]))
  {
    var row := [1, 0, 0, 1, 1, 2, 1, 1, 0, 0];
    assert ValidPai("p4-") && Direction("p4-") == Some('-') && Rank("p4-") == 4;
    assert "p4-"[2..] == "-";
    assert DigitChar(3) == '3' && DigitChar(5) == '5' && DigitChar(6) == '6';
    assert ['p', '3', '4', '-', '5'] == "p34-5" && ['p', '4', '-', '5', '6'] == "p4-56";
    assert ['p'] + "34-0" == "p34-0" && ['p'] + "4-06" == "p4-06";
    assert ChiRight(row, 'p', 4, '4', 11, true) == [];
    assert ChiMiddle(row, 'p', 4, '4', 11, true) == ["p34-0", "p34-5"];
    assert ChiLeft(row, 'p', 4, '4', 11, true) == ["p4-06", "p4-56"];
    assert [] + ["p34-0", "p34-5"] + ["p4-06", "p4-56"] == ["p34-0", "p34-5", "p4-06", "p4-56"];
    var h2 := HandState(Bingpai(0, [0, 0, 0, 0, 0, 0, 0, 0, 0, 0], [0, 3, 1, 1, 2, 0, 0, 0, 0, 0],
        [0, 0, 0, 0, 0, 0, 0, 0, 0, 0], [0, 0, 0, 0, 0, 0, 0, 0]), ["z111+", "s40-6"], None, false);
    var row2 := h2.bingpai.Row('p');
    assert ChiLimit(|h2.fulou|) == 5;
    assert ChiRight(row2, 'p', 4, '4', 5, true) == [];
    assert ChiMiddle(row2, 'p', 4, '4', 5, true) == [] && ChiLeft(row2, 'p', 4, '4', 5, true) == [];
    assert ChiSpec(h2, "p4-", true) == Success(Some(ChiRight(row2, 'p', 4, '4', 5, true)
      + ChiMiddle(row2, 'p', 4, '4', 5, true) + ChiLeft(row2, 'p', 4, '4', 5, true)));
    var none: seq<string> := [];
    assert none + none + none == none;
  }

  // ---------------------------------------------------------------------
  // get_peng_mianzi

  /** The pungs offered for the kind of rank n as written: the `50` pung asks only for a red five. */
  function PengMeldsAsWritten(row: seq<int>, c: char, n: int, d1: char, d: char): seq<string>
    requires 1 <= n <= 9 && n < |row| && |row| >= 6
  {
    if row[n] >= 2 then
      (if n == 5 && row[0] >= 2 then [[c, '0', '0', d1, d]] else [])
      + (if n == 5 && row[0] >= 1 then [[c, '5', '0', d1, d]] else [])
      + (if n != 5 || row[5] - row[0] >= 2 then [[c, DigitChar(n), DigitChar(n), d1, d]] else [])
    else []
  }

  /**
   * The pungs offered for the kind of rank n, as intended: two red fives,
   * a plain and a red five, or two tiles that are not red, each only
   * when the hand holds those tiles.
   */
  function PengMelds(row: seq<int>, c: char, n: int, d1: char, d: char): seq<string>
    requires 1 <= n <= 9 && n < |row| && |row| >= 6
  {
    if row[n] >= 2 then
      (if n == 5 && row[0] >= 2 then [[c, '0', '0', d1, d]] else [])
      + (if n == 5 && row[0] >= 1 && row[5] - row[0] >= 1 then [[c, '5', '0', d1, d]] else [])
      + (if n != 5 || row[5] - row[0] >= 2 then [[c, DigitChar(n), DigitChar(n), d1, d]] else [])
    else []
  }

  /**
   * `get_peng_mianzi(p)`: None with a tile in the draw slot; an error
   * for a malformed tile or one without a direction; nothing after
   * riichi; otherwise the pungs the hand can form with the tile.
   */
  function PengSpec(h: HandState, p: string): Result<Option<seq<string>>>
    requires h.bingpai.Shaped()
  {
    if HasZimo(h.zimo) then Success(None)
    else if !ValidPai(p) then Failure(PaiFormat)
    else if Direction(p).None? then Failure(InvalidOperation)
    else if h.lizhi then Success(Some([]))
    else
      ValidPaiShape(p);
      Success(Some(PengMelds(h.bingpai.Row(p[0]), p[0], Rank(p), p[1], Direction(p).value)))
  }

  /** How many tiles of rank n are not red. */
  function Plain(row: seq<int>, n: int): int
    requires 1 <= n <= 9 && n < |row| && |row| >= 6
  {
    if n == 5 then row[5] - row[0] else row[n]
  }

  /** The red fives among two free digits. */
  function Reds(f: string): int
    requires |f| == 2
  {
    (if f[0] == '0' then 1 else 0) + (if f[1] == '0' then 1 else 0)
  }

  /**
   * A pung offered for tile (c, n) claimed as digit d1 from direction d:
   * two free digits of rank n that the hand holds, red and plain fives
   * counted apart, then the claimed digit and its direction.
   */
  predicate PungOf(e: string, row: seq<int>, c: char, n: int, d1: char, d: char)
    requires 1 <= n <= 9 && n < |row| && |row| >= 6
  {
    |e| == 5 && e[0] == c && e[3] == d1 && e[4] == d
    && IsDigit(e[1]) && IsDigit(e[2]) && RankOf(e[1]) == n && RankOf(e[2]) == n
    && Reds(e[1..3]) <= row[0] && 2 - Reds(e[1..3]) <= Plain(row, n)
  }

  /** Every pung offered is made of tiles the hand holds. */
  lemma PengSound(h: HandState, p: string, l: seq<string>, e: string)
    requires h.bingpai.Valid() && PengSpec(h, p) == Success(Some(l)) && e in l
    ensures !HasZimo(h.zimo) && ValidPai(p) && Direction(p).Some? && !h.lizhi
    ensures 1 <= Rank(p) < |h.bingpai.Row(p[0])| && h.bingpai.Row(p[0])[Rank(p)] >= 2
    ensures PungOf(e, h.bingpai.Row(p[0]), p[0], Rank(p), p[1], Direction(p).value)
  {
    ValidPaiShape(p);
    var c := p[0];
    var row := h.bingpai.Row(c);
    var n := Rank(p);
    var d := Direction(p).value;
    assert c == 'z' ==> row[0] == 0;
    if n == 5 && row[0] >= 2 && e == [c, '0', '0', p[1], d] {
      assert e[1..3] == "00";
    } else if n == 5 && row[0] >= 1 && row[5] - row[0] >= 1 && e == [c, '5', '0', p[1], d] {
      assert e[1..3] == "50";
    } else {
      assert e == [c, DigitChar(n), DigitChar(n), p[1], d];
      RankOfDigitChar(n);
      assert e[1..3] == [DigitChar(n), DigitChar(n)];
    }
  }

  /** A pung is offered exactly when the hand holds two tiles of the kind (and nothing rules the call out). */
  lemma PengComplete(h: HandState, p: string, l: seq<string>)
    requires h.bingpai.Valid() && PengSpec(h, p) == Success(Some(l))
    ensures |l| > 0 <==> !h.lizhi && ValidPai(p) && 1 <= Rank(p) < |h.bingpai.Row(p[0])| && h.bingpai.Row(p[0])[Rank(p)] >= 2
  {
    if !h.lizhi && ValidPai(p) {
      ValidPaiShape(p);
      var c := p[0];
      var row := h.bingpai.Row(c);
      var n := Rank(p);
      assert row[0] <= row[5] && (c == 'z' ==> row[0] == 0);
      if |l| > 0 {
        PengSound(h, p, l, l[0]);
      }
    }
  }

  lemma PengGuards(h: HandState, p: string)
    requires h.bingpai.Shaped()
    ensures PengSpec(h, p) == Success(None) <==> HasZimo(h.zimo)
    ensures PengSpec(h, p).Failure? <==> !HasZimo(h.zimo) && (!ValidPai(p) || Direction(p).None?)
  {
  }

  /**
   * As written, a hand whose only fives are two red ones is offered the
   * pung `m505+`, which needs a plain five it does not hold.
   */
  lemma PengAsWrittenOffersMissingFive()
    ensures var row := [2, 0, 0, 0, 0, 2, 0, 0, 0, 0];
      "m505+" in PengMeldsAsWritten(row, 'm', 5, '5', '+') && Plain(row, 5) == 0
      && "m505+" !in PengMelds(row, 'm', 5, '5', '+')
  {
    var row := [2, 0, 0, 0, 0, 2, 0, 0, 0, 0];
    assert ['m', '5', '0', '5', '+'] == "m505+";
    assert PengMelds(row, 'm', 5, '5', '+') == [['m', '0', '0', '5', '+']];
  }

  /** A hand holding p5 and two red p5 offered p5: both the pung of two red fives and the mixed one. */
  lemma PengExample()
    ensures PengSpec(HandState(Bingpai(0, [0, 1, 1, 1, 0, 0, 0, 0, 0, 0], [2, 0, 0, 0, 0, 3, 0, 0, 0, 0],
        [0, 0, 0, 0, 0, 0, 0, 1, 1, 1], [0, 1, 1, 1, 1, 0, 0, 0]), [], None, false), "p5=")
      == Success(Some(["p005=", "p505="]))
  {
    var row := [2, 0, 0, 0, 0, 3, 0, 0, 0, 0];
    assert ValidPai("p5=") && Direction("p5=") == Some('=') && Rank("p5=") == 5;
    assert ['p', '0', '0', '5', '='] == "p005=" && ['p', '5', '0', '5', '='] == "p505=";
    assert PengMelds(row, 'p', 5, '5', '=') == ["p005=", "p505="];
  }

  // ---------------------------------------------------------------------
  // get_gang_mianzi

  /** The four digits of a quad of rank n with r red fives among them (plain fives first). */
  function QuadDigits(n: int, r: int): (q: string)
    requires 1 <= n <= 9
    ensures 0 <= r <= 4 ==> |q| == 4 && forall i :: 0 <= i < 4 ==> IsDigit(q[i]) && RankOf(q[i]) == n
    ensures 0 <= r <= 4 ==> multiset(q)['0'] == (if n == 5 then r else 0)
  {
    RepCount('5', 4 - r, '0');
    RepCount('0', r, '0');
    RepCount(DigitChar(n), 4, '0');
    if n == 5 then Rep('5', 4 - r) + Rep('0', r) else Rep(DigitChar(n), 4)
  }

  /** How many times x occurs in n copies of y. */
  lemma {:induction false} RepCount(y: char, n: int, x: char)
    ensures multiset(Rep(y, n))[x] == (if x == y && n > 0 then n else 0)
    decreases n
  {
    if n > 0 {
      RepCount(y, n - 1, x);
      assert Rep(y, n) == [y] + Rep(y, n - 1);
    }
  }

  /** A claimed quad of rank n: three held digits, then the claimed digit d1 and its direction d. */
  function OpenQuad(row: seq<int>, c: char, n: int, d1: char, d: char): string
    requires 1 <= n <= 9 && |row| >= 6
  {
    if n == 5 then [c] + (Rep('5', 3 - row[0]) + Rep('0', row[0])) + [d1, d]
    else [c] + Rep(DigitChar(n), 4) + [d]
  }

  /**
   * `get_gang_mianzi(p)` with a tile: None with a tile in the draw slot;
   * an error for a malformed tile or one without a direction; nothing
   * after riichi; otherwise the claimed quad when the hand holds three
   * tiles of the kind.
   */
  function GangOpen(h: HandState, p: string): Result<Option<seq<string>>>
    requires h.bingpai.Shaped()
  {
    if HasZimo(h.zimo) then Success(None)
    else if !ValidPai(p) then Failure(PaiFormat)
    else if Direction(p).None? then Failure(InvalidOperation)
    else if h.lizhi then Success(Some([]))
    else
      ValidPaiShape(p);
      var row := h.bingpai.Row(p[0]);
      var n := Rank(p);
      if row[n] == 3 then Success(Some([OpenQuad(row, p[0], n, p[1], Direction(p).value)])) else Success(Some([]))
  }

  /** `m.replace('0', '5')[0:4] == s + str(n)*3`: meld m is a declared pung (or quad) of kind (c, n). */
  predicate ExtendsPung(m: string, c: char, n: int)
    requires 1 <= n <= 9
  {
    |m| >= 4 && Replace(m, '0', '5')[..4] == [c] + Rep(DigitChar(n), 3)
  }

  /** The added quads of kind (c, n) over the declared melds ms, in their order; a red five is added when held. */
  function AddedGang(ms: seq<string>, c: char, n: int, red: int): seq<string>
    requires 1 <= n <= 9
    decreases |ms|
  {
    if |ms| == 0 then []
    else
      var m := ms[|ms| - 1];
      AddedGang(ms[..|ms| - 1], c, n, red)
      + (if ExtendsPung(m, c, n) then [m + [if n == 5 && red > 0 then '0' else DigitChar(n)]] else [])
  }

  /**
   * The quads kind (c, n) contributes: a concealed quad when all four
   * tiles are held (after riichi only of the drawn kind pz), otherwise,
   * before riichi, an added quad for each declared pung of the kind.
   */
  function KindGang(row: seq<int>, c: char, n: int, fulou: seq<string>, lizhi: bool, pz: string): seq<string>
    requires RowShape(c, row) && 1 <= n < |row|
  {
    if row[n] == 0 then []
    else if row[n] == 4 then
      if lizhi && KindText(c, n) != pz then [] else [[c] + QuadDigits(n, row[0])]
    else if lizhi then []
    else AddedGang(fulou, c, n, row[0])
  }

  /** The quads of ranks 1 to k - 1 of one suit, in rank order. */
  function RowGang(row: seq<int>, c: char, k: int, fulou: seq<string>, lizhi: bool, pz: string): seq<string>
    requires RowShape(c, row) && k <= |row|
    decreases k
  {
    if k <= 1 then [] else RowGang(row, c, k - 1, fulou, lizhi, pz) + KindGang(row, c, k - 1, fulou, lizhi, pz)
  }

  /** The quads of the first i suits of m, p, s, z. */
  function SuitsGang(b: Bingpai, i: int, fulou: seq<string>, lizhi: bool, pz: string): seq<string>
    requires b.Shaped() && 0 <= i <= 4
    decreases i
  {
    if i == 0 then []
    else SuitsGang(b, i - 1, fulou, lizhi, pz) + RowGang(b.Row(SUITS[i - 1]), SUITS[i - 1], |b.Row(SUITS[i - 1])|, fulou, lizhi, pz)
  }

  /**
   * `get_gang_mianzi()` without a tile: None unless the draw slot holds a
   * drawn tile (not a called meld); otherwise the concealed and added
   * quads in suit and rank order.
   */
  function GangClosed(h: HandState): Option<seq<string>>
    requires h.bingpai.Shaped()
  {
    if !HasZimo(h.zimo) || |h.zimo.value| > 2 then None
    else Some(SuitsGang(h.bingpai, 4, h.fulou, h.lizhi, Replace(h.zimo.value, '0', '5')))
  }

  /** `get_gang_mianzi(p)`: a claimed quad when a (non-empty) tile is given, else a concealed or added one. */
  function GangMianziSpec(h: HandState, p: Option<string>): Result<Option<seq<string>>>
    requires h.bingpai.Shaped()
  {
    if p.Some? && p.value != "" then GangOpen(h, p.value) else Success(GangClosed(h))
  }

  /**
   * What a quad offered for kind (c, n) is: the concealed quad of the
   * four held tiles (after riichi only of the drawn kind), or, before
   * riichi and with one to three tiles held, a declared pung of the kind
   * extended by one held tile, a red five when one is held.
   */
  predicate QuadFor(e: string, row: seq<int>, c: char, n: int, fulou: seq<string>, lizhi: bool, pz: string)
    requires RowShape(c, row) && 1 <= n < |row| && 0 <= row[0] <= 4
  {
    (row[n] == 4 && e == [c] + QuadDigits(n, row[0]) && (lizhi ==> KindText(c, n) == pz))
    || (!lizhi && 0 < row[n] < 4
        && exists k :: 0 <= k < |fulou| && ExtendsPung(fulou[k], c, n)
             && e == fulou[k] + [if n == 5 && row[0] > 0 then '0' else DigitChar(n)])
  }

  lemma {:induction false} AddedGangSound(ms: seq<string>, c: char, n: int, red: int, e: string)
    requires 1 <= n <= 9 && e in AddedGang(ms, c, n, red)
    ensures exists k :: 0 <= k < |ms| && ExtendsPung(ms[k], c, n) && e == ms[k] + [if n == 5 && red > 0 then '0' else DigitChar(n)]
    decreases |ms|
  {
    var last := |ms| - 1;
    if e in AddedGang(ms[..last], c, n, red) {
      AddedGangSound(ms[..last], c, n, red, e);
      var k :| 0 <= k < last && ExtendsPung(ms[..last][k], c, n) && e == ms[..last][k] + [if n == 5 && red > 0 then '0' else DigitChar(n)];
      assert ms[..last][k] == ms[k];
    } else {
      assert ExtendsPung(ms[last], c, n);
    }
  }

  lemma {:induction false} AddedGangHas(ms: seq<string>, c: char, n: int, red: int, k: int)
    requires 1 <= n <= 9 && 0 <= k < |ms| && ExtendsPung(ms[k], c, n)
    ensures ms[k] + [if n == 5 && red > 0 then '0' else DigitChar(n)] in AddedGang(ms, c, n, red)
    decreases |ms|
  {
    var last := |ms| - 1;
    if k < last {
      assert ms[..last][k] == ms[k];
      AddedGangHas(ms[..last], c, n, red, k);
    }
  }

  lemma KindGangSound(row: seq<int>, c: char, n: int, fulou: seq<string>, lizhi: bool, pz: string, e: string)
    requires RowShape(c, row) && RowValid(row) && 1 <= n < |row| && e in KindGang(row, c, n, fulou, lizhi, pz)
    ensures QuadFor(e, row, c, n, fulou, lizhi, pz)
  {
    if row[n] != 4 {
      AddedGangSound(fulou, c, n, row[0], e);
    }
  }

  lemma KindGangHas(row: seq<int>, c: char, n: int, fulou: seq<string>, lizhi: bool, pz: string, e: string)
    requires RowShape(c, row) && RowValid(row) && 1 <= n < |row| && QuadFor(e, row, c, n, fulou, lizhi, pz)
    ensures e in KindGang(row, c, n, fulou, lizhi, pz)
  {
    if row[n] != 4 {
      var k :| 0 <= k < |fulou| && ExtendsPung(fulou[k], c, n) && e == fulou[k] + [if n == 5 && row[0] > 0 then '0' else DigitChar(n)];
      AddedGangHas(fulou, c, n, row[0], k);
    }
  }

  /** The quads of ranks 1 to k - 1: each is a quad for the rank its first digit names. */
  lemma {:induction false} RowGangSound(row: seq<int>, c: char, k: int, fulou: seq<string>, lizhi: bool, pz: string, e: string)
    requires RowShape(c, row) && RowValid(row) && k <= |row| && e in RowGang(row, c, k, fulou, lizhi, pz)
    ensures exists n :: 1 <= n < k && QuadFor(e, row, c, n, fulou, lizhi, pz)
    decreases k
  {
    if e in RowGang(row, c, k - 1, fulou, lizhi, pz) {
      RowGangSound(row, c, k - 1, fulou, lizhi, pz, e);
      var n :| 1 <= n < k - 1 && QuadFor(e, row, c, n, fulou, lizhi, pz);
      assert 1 <= n < k;
    } else {
      RowGangLast(row, c, k, fulou, lizhi, pz, e);
    }
  }

  /** A quad of RowGang not among the lower ranks is one of rank k - 1. */
  lemma RowGangLast(row: seq<int>, c: char, k: int, fulou: seq<string>, lizhi: bool, pz: string, e: string)
    requires RowShape(c, row) && RowValid(row) && 1 < k <= |row|
    requires e in RowGang(row, c, k, fulou, lizhi, pz) && e !in RowGang(row, c, k - 1, fulou, lizhi, pz)
    ensures QuadFor(e, row, c, k - 1, fulou, lizhi, pz)
  {
    assert e in KindGang(row, c, k - 1, fulou, lizhi, pz);
    KindGangSound(row, c, k - 1, fulou, lizhi, pz, e);
  }

  lemma {:induction false} RowGangHas(row: seq<int>, c: char, k: int, n: int, fulou: seq<string>, lizhi: bool, pz: string, e: string)
    requires RowShape(c, row) && 1 <= n < k <= |row| && e in KindGang(row, c, n, fulou, lizhi, pz)
    ensures e in RowGang(row, c, k, fulou, lizhi, pz)
    decreases k
  {
    var lower := RowGang(row, c, k - 1, fulou, lizhi, pz);
    var last := KindGang(row, c, k - 1, fulou, lizhi, pz);
    assert RowGang(row, c, k, fulou, lizhi, pz) == lower + last;
    if n < k - 1 {
      RowGangHas(row, c, k - 1, n, fulou, lizhi, pz, e);
      assert e in lower;
    } else {
      assert e in last;
    }
  }

  lemma {:induction false} SuitsGangSound(b: Bingpai, i: int, fulou: seq<string>, lizhi: bool, pz: string, e: string)
    returns (c: char, n: int)
    requires b.Valid() && 1 <= i <= 4 && e in SuitsGang(b, i, fulou, lizhi, pz)
    ensures IsSuit(c) && 1 <= n < |b.Row(c)| && QuadFor(e, b.Row(c), c, n, fulou, lizhi, pz)
    decreases i
  {
    if i > 1 && e in SuitsGang(b, i - 1, fulou, lizhi, pz) {
      c, n := SuitsGangSound(b, i - 1, fulou, lizhi, pz, e);
    } else {
      c := SUITS[i - 1];
      n := SuitsGangLast(b, i, c, fulou, lizhi, pz, e);
    }
  }

  /** A quad of the first i suits that is not among the first i - 1 is a quad of suit i, c. */
  lemma SuitsGangLast(b: Bingpai, i: int, c: char, fulou: seq<string>, lizhi: bool, pz: string, e: string)
    returns (n: int)
    requires b.Valid() && 1 <= i <= 4 && c == SUITS[i - 1] && e in SuitsGang(b, i, fulou, lizhi, pz)
    requires i > 1 ==> e !in SuitsGang(b, i - 1, fulou, lizhi, pz)
    ensures IsSuit(c) && 1 <= n < |b.Row(c)| && QuadFor(e, b.Row(c), c, n, fulou, lizhi, pz)
  {
    SuitRow(b, i - 1);
    RowGangSound(b.Row(c), c, |b.Row(c)|, fulou, lizhi, pz, e);
    n :| 1 <= n < |b.Row(c)| && QuadFor(e, b.Row(c), c, n, fulou, lizhi, pz);
  }

  lemma {:induction false} SuitsGangHas(b: Bingpai, i: int, j: int, fulou: seq<string>, lizhi: bool, pz: string, e: string)
    requires b.Shaped() && 0 <= j < i <= 4
    requires e in RowGang(b.Row(SUITS[j]), SUITS[j], |b.Row(SUITS[j])|, fulou, lizhi, pz)
    ensures e in SuitsGang(b, i, fulou, lizhi, pz)
    decreases i
  {
    if j < i - 1 {
      SuitsGangHas(b, i - 1, j, fulou, lizhi, pz, e);
    }
  }

  /**
   * Every quad offered without a tile is a concealed quad of four held
   * tiles or a declared pung extended by a held tile, as `QuadFor` says;
   * so after riichi it is the concealed quad of the drawn kind.
   */
  lemma GangClosedSound(h: HandState, l: seq<string>, e: string)
    requires h.bingpai.Valid() && GangClosed(h) == Some(l) && e in l
    ensures HasZimo(h.zimo) && |h.zimo.value| <= 2
    ensures exists c, n ::
      IsSuit(c) && 1 <= n < |h.bingpai.Row(c)|
      && QuadFor(e, h.bingpai.Row(c), c, n, h.fulou, h.lizhi, Replace(h.zimo.value, '0', '5'))
  {
    var pz := Replace(h.zimo.value, '0', '5');
    assert l == SuitsGang(h.bingpai, 4, h.fulou, h.lizhi, pz);
    var c, n := SuitsGangSound(h.bingpai, 4, h.fulou, h.lizhi, pz, e);
  }

  /** Every quad `QuadFor` describes is offered: no concealed or added quad the hand can make is missed. */
  lemma GangClosedComplete(h: HandState, l: seq<string>, c: char, n: int, e: string)
    requires h.bingpai.Valid() && GangClosed(h) == Some(l) && IsSuit(c) && 1 <= n < |h.bingpai.Row(c)|
    requires QuadFor(e, h.bingpai.Row(c), c, n, h.fulou, h.lizhi, Replace(h.zimo.value, '0', '5'))
    ensures e in l
  {
    var j := if c == 'm' then 0 else if c == 'p' then 1 else if c == 's' then 2 else 3;
    SuitRow(h.bingpai, j);
    assert SUITS[j] == c;
    var row := h.bingpai.Row(c);
    var pz := Replace(h.zimo.value, '0', '5');
    KindGangHas(row, c, n, h.fulou, h.lizhi, pz, e);
    RowGangHas(row, c, |row|, n, h.fulou, h.lizhi, pz, e);
    SuitsGangHas(h.bingpai, 4, j, h.fulou, h.lizhi, pz, e);
  }

  lemma GangGuardsQuery(h: HandState, p: Option<string>)
    requires h.bingpai.Shaped()
    ensures p.None? ==> (GangMianziSpec(h, p) == Success(None) <==> !HasZimo(h.zimo) || |h.zimo.value| > 2)
    ensures p.Some? && p.value != "" ==> (GangMianziSpec(h, p) == Success(None) <==> HasZimo(h.zimo))
    ensures GangMianziSpec(h, p).Failure? <==> p.Some? && p.value != "" && !HasZimo(h.zimo) && (!ValidPai(p.value) || Direction(p.value).None?)
  {
  }

  /**
   * A claimed quad of rank n: six characters, three held digits of rank
   * n (`red` of them red fives), the claimed digit d1 and its direction d.
   */
  predicate ClaimedQuad(e: string, c: char, n: int, d1: char, d: char, red: int)
  {
    |e| == 6 && e[0] == c && e[4] == d1 && e[5] == d
    && (forall i :: 1 <= i <= 3 ==> IsDigit(e[i]) && RankOf(e[i]) == n)
    && multiset(e[1..4])['0'] == red
  }

  /**
   * A claimed quad is offered exactly when the hand holds three tiles of
   * the kind; it is those three tiles (red fives included) followed by the
   * claimed digit and its direction.
   */
  lemma GangOpenSound(h: HandState, p: string, l: seq<string>)
    requires h.bingpai.Valid() && GangOpen(h, p) == Success(Some(l))
    ensures ValidPai(p) && Direction(p).Some?
    ensures |l| <= 1
    ensures |l| == 1 <==> !h.lizhi && 1 <= Rank(p) < |h.bingpai.Row(p[0])| && h.bingpai.Row(p[0])[Rank(p)] == 3
    ensures |l| == 1 ==>
      ClaimedQuad(l[0], p[0], Rank(p), p[1], Direction(p).value, if Rank(p) == 5 then h.bingpai.Row(p[0])[0] else 0)
  {
    ValidPaiShape(p);
    if |l| == 1 {
      var row := h.bingpai.Row(p[0]);
      assert row[0] <= row[5] && (p[0] == 'z' ==> row[0] == 0);
      if Rank(p) == 5 {
        OpenQuadFive(row, p[0], p[1], Direction(p).value);
      } else {
        OpenQuadPlain(row, p[0], Rank(p), p[1], Direction(p).value);
      }
    }
  }

  lemma OpenQuadFive(row: seq<int>, c: char, d1: char, d: char)
    requires |row| >= 6 && 0 <= row[0] <= 3 && IsDigit(d1) && RankOf(d1) == 5
    ensures ClaimedQuad(OpenQuad(row, c, 5, d1, d), c, 5, d1, d, row[0])
  {
    var q := Rep('5', 3 - row[0]) + Rep('0', row[0]);
    HeldFives(row[0], q);
    QuadOfHeld(OpenQuad(row, c, 5, d1, d), q, c, 5, d1, d, row[0]);
  }

  /** Three held digits of rank n (red of them `0`), then the claimed digit and its direction, make a claimed quad. */
  lemma QuadOfHeld(e: string, q: string, c: char, n: int, d1: char, d: char, red: int)
    requires |q| == 3 && (forall i :: 0 <= i < 3 ==> IsDigit(q[i]) && RankOf(q[i]) == n) && multiset(q)['0'] == red
    requires e == [c] + q + [d1, d]
    ensures ClaimedQuad(e, c, n, d1, d, red)
  {
    forall i | 1 <= i <= 3
      ensures IsDigit(e[i]) && RankOf(e[i]) == n
    {
      assert e[i] == q[i - 1];
    }
    assert e[1..4] == q;
  }

  /** The three held tiles of a claimed quad of fives, k of them red. */
  lemma HeldFives(k: int, q: string)
    requires 0 <= k <= 3 && q == Rep('5', 3 - k) + Rep('0', k)
    ensures |q| == 3
    ensures forall i :: 0 <= i < 3 ==> IsDigit(q[i]) && RankOf(q[i]) == 5
    ensures multiset(q)['0'] == k
  {
    RepCount('5', 3 - k, '0');
    RepCount('0', k, '0');
    assert RankOf('5') == 5 && RankOf('0') == 5;
  }

  lemma OpenQuadPlain(row: seq<int>, c: char, n: int, d1: char, d: char)
    requires |row| >= 6 && 1 <= n <= 9 && n != 5 && IsDigit(d1) && RankOf(d1) == n
    ensures ClaimedQuad(OpenQuad(row, c, n, d1, d), c, n, d1, d, 0)
  {
    RankOfDigitChar(n);
    assert d1 == DigitChar(n);
    var q := Rep(d1, 4);
    assert q == Rep(d1, 3) + [d1];
    RepCount(d1, 3, '0');
    var e := OpenQuad(row, c, n, d1, d);
    assert e == [c] + Rep(d1, 3) + [d1, d];
    assert e[1..4] == Rep(d1, 3);
  }

  /** A hand holding m550 offered a red five from the right seat: the quad keeps its red five. */
  lemma GangOpenExample()
    ensures GangOpen(HandState(Bingpai(0, [1, 0, 0, 0, 0, 3, 0, 0, 0, 0], [0, 0, 0, 0, 1, 1, 1, 0, 0, 0],
        [0, 0, 0, 0, 0, 0, 0, 1, 1, 1], [0, 1, 0, 0, 0, 0, 0, 0]), ["m111"], None, false), "m0+")
      == Success(Some(["m5500+"]))
  {
    assert ValidPai("m0+") && Direction("m0+") == Some('+') && Rank("m0+") == 5;
    assert Rep('5', 2) == "55" && Rep('0', 1) == "0";
    assert ['m'] + ("55" + "0") + ['0', '+'] == "m5500+";
  }
}
