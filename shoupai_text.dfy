/**
 * The text form of a hand (jongpy/core/shoupai.py, `from_string` and
 * `__str__`).
 *
 * A hand is written as its concealed part followed by its declared melds,
 * separated by commas: `m055z77,m78-9,z5555,z666=,`.  The concealed part
 * lists the face-down tiles as `_`, then per suit the suit letter and one
 * digit per tile (a red five as 0), then the drawn tile on its own, then `*`
 * when riichi was declared.  A comma at the very end says that the last
 * meld was just called and sits in the draw slot.
 *
 * The `re` and `str` calls of the source are written out as functions over
 * characters; the loops around them are methods proved against the
 * functions that specify them.
 */
module ShoupaiText {
  import opened Wrappers
  import opened Exceptions
  import opened Notation
  import opened ShoupaiSpec
  import opened Shoupai

  // ---------------------------------------------------------------------
  // `str.split` and `str.join`

  /** `t.split(sep)`: the pieces between the separators, at least one. */
  function Split(t: string, sep: char): (r: seq<string>)
    ensures |r| >= 1
  {
    if |t| == 0 then [""]
    else
      var rest := Split(t[1..], sep);
      if t[0] == sep then [""] + rest else [[t[0]] + rest[0]] + rest[1..]
  }

  /** `sep.join(ps)` for a non-empty list. */
  function Join(ps: seq<string>, sep: char): string
    requires |ps| >= 1
  {
    if |ps| == 1 then ps[0] else ps[0] + [sep] + Join(ps[1..], sep)
  }

  /** Joining the pieces of a split gives the text back. */
  lemma {:induction false} JoinSplit(t: string, sep: char)
    ensures Join(Split(t, sep), sep) == t
  {
    if |t| > 0 {
      JoinSplit(t[1..], sep);
      var rest := Split(t[1..], sep);
      if t[0] != sep && |rest| > 1 {
        assert Join(rest, sep) == rest[0] + [sep] + Join(rest[1..], sep);
        assert [[t[0]] + rest[0]] + rest[1..] == [[t[0]] + rest[0]] + rest[1..];
        assert Join([[t[0]] + rest[0]] + rest[1..], sep) == [t[0]] + rest[0] + [sep] + Join(rest[1..], sep);
      }
      assert t == [t[0]] + t[1..];
    }
  }

  /** Splitting joined pieces that hold no separator gives the pieces back. */
  lemma {:induction false} SplitJoin(ps: seq<string>, sep: char)
    requires |ps| >= 1 && forall i :: 0 <= i < |ps| ==> sep !in ps[i]
    ensures Split(Join(ps, sep), sep) == ps
    decreases |ps|, |ps[0]|
  {
    if |ps[0]| > 0 {
      var ps' := [ps[0][1..]] + ps[1..];
      assert sep !in ps'[0];
      assert forall i :: 1 <= i < |ps'| ==> ps'[i] == ps[i];
      SplitJoin(ps', sep);
      JoinHead(ps, sep);
      SplitCons(ps[0][0], Join(ps', sep), sep);
      assert ps[0] == [ps[0][0]] + ps'[0];
      assert ps'[1..] == ps[1..];
    } else if |ps| > 1 {
      SplitJoin(ps[1..], sep);
      assert Join(ps, sep) == [sep] + Join(ps[1..], sep);
      SplitSep(Join(ps[1..], sep), sep);
      assert ps == [""] + ps[1..];
    }
  }

  lemma JoinHead(ps: seq<string>, sep: char)
    requires |ps| >= 1 && |ps[0]| > 0
    ensures Join(ps, sep) == [ps[0][0]] + Join([ps[0][1..]] + ps[1..], sep)
  {
    var ps' := [ps[0][1..]] + ps[1..];
    assert ps[0] == [ps[0][0]] + ps[0][1..];
    if |ps| > 1 {
      assert ps'[1..] == ps[1..];
    }
  }

  lemma SplitCons(c: char, u: string, sep: char)
    requires c != sep
    ensures Split([c] + u, sep) == [[c] + Split(u, sep)[0]] + Split(u, sep)[1..]
  {
    assert ([c] + u)[1..] == u;
  }

  lemma SplitSep(u: string, sep: char)
    ensures Split([sep] + u, sep) == [""] + Split(u, sep)
  {
    assert ([sep] + u)[1..] == u;
  }

  // ---------------------------------------------------------------------
  // `__str__`

  /**
   * The digits written for `npai` copies of rank n (none when npai is not
   * positive) while `hong` red fives are still to be written, copy by copy
   * as `__str__` writes them; also the red fives still to be written after.
   */
  function RankText(n: int, npai: int, hong: int): (r: (string, int))
    requires 1 <= n <= 9
    decreases npai
  {
    if npai <= 0 then ("", hong)
    else
      var prev := RankText(n, npai - 1, hong);
      if n == 5 && prev.1 > 0 then (prev.0 + "0", prev.1 - 1) else (prev.0 + [DigitChar(n)], prev.1)
  }

  /**
   * What the copies come to: at rank 5 as many 0s as there are red fives
   * (at most npai) followed by 5s, elsewhere npai copies of the rank digit.
   */
  lemma {:induction false} RankTextCounts(n: int, npai: int, hong: int, k: nat, red: nat)
    requires 1 <= n <= 9
    requires k == (if npai > 0 then npai else 0)
    requires red == (if n == 5 && hong > 0 then (if hong < k then hong else k) else 0)
    ensures RankText(n, npai, hong).0 == Repeat('0', red) + Repeat(DigitChar(n), k - red)
    ensures RankText(n, npai, hong).1 == hong - red
    decreases npai
  {
    if npai > 0 {
      var i := npai - 1;
      var red' := if n == 5 && hong > 0 then (if hong < i then hong else i) else 0;
      RankTextCounts(n, i, hong, i, red');
      var d := DigitChar(n);
      if n == 5 && hong > i {
        assert Repeat(d, 0) == "";
        assert RankText(n, i, hong).0 == Repeat('0', i);
        assert Repeat('0', i + 1) == Repeat('0', i) + "0";
      } else {
        assert red' == red;
        assert Repeat(d, i + 1 - red) == Repeat(d, i - red) + [d];
        assert Repeat('0', red) + (Repeat(d, i - red) + [d]) == (Repeat('0', red) + Repeat(d, i - red)) + [d];
      }
    }
  }

  /**
   * The copies of rank n the hand writes in its suit section: the drawn tile
   * is held back for the end, so a drawn `c` + n (or a drawn red five at
   * rank 5) is written once less.  The second component is the change to
   * the red fives still to be written.
   */
  function Shown(c: char, n: int, row: seq<int>, zimo: Option<string>): (int, int)
    requires 1 <= n < |row| && n <= 9
  {
    var drawn := HasZimo(zimo) && zimo.value == [c, DigitChar(n)];
    var drawnRed := HasZimo(zimo) && n == 5 && zimo.value == [c, '0'];
    (row[n] - (if drawn then 1 else 0) - (if drawnRed then 1 else 0), if drawnRed then -1 else 0)
  }

  /** The digits of ranks 1..k-1 of a suit section, starting with `hong` red fives, and the red fives left. */
  function SuitBody(c: char, row: seq<int>, zimo: Option<string>, k: nat, hong: int): (string, int)
    requires k <= |row| <= 10
  {
    if k <= 1 then ("", hong)
    else
      var prev := SuitBody(c, row, zimo, k - 1, hong);
      var shown := Shown(c, k - 1, row, zimo);
      var rank := RankText(k - 1, shown.0, prev.1 + shown.1);
      (prev.0 + rank.0, rank.1)
  }

  lemma SuitBodyStep(c: char, row: seq<int>, zimo: Option<string>, n: nat, hong: int)
    requires 1 <= n < |row| <= 10
    ensures var prev := SuitBody(c, row, zimo, n, hong); var shown := Shown(c, n, row, zimo);
      SuitBody(c, row, zimo, n + 1, hong).0 == prev.0 + RankText(n, shown.0, prev.1 + shown.1).0
      && SuitBody(c, row, zimo, n + 1, hong).1 == RankText(n, shown.0, prev.1 + shown.1).1
  {
  }

  /** The section of suit c: its letter and its digits, or nothing when it has no digit. */
  function SuitText(c: char, row: seq<int>, zimo: Option<string>): string
    requires |row| <= 10 && (c != 'z' ==> |row| >= 1)
  {
    var body := SuitBody(c, row, zimo, |row|, if c == 'z' then 0 else row[0]).0;
    if |body| > 0 then [c] + body else ""
  }

  /** The sections of the first k suits of "mpsz". */
  function SuitsText(h: HandState, k: nat): string
    requires h.bingpai.Shaped() && k <= 4
  {
    if k == 0 then ""
    else SuitsText(h, k - 1) + SuitText("mpsz"[k - 1], h.bingpai.Row("mpsz"[k - 1]), h.zimo)
  }

  /** The face-down tiles written at the front: one `_` fewer when the drawn tile is face down. */
  function HiddenShown(h: HandState): nat
  {
    var k := h.bingpai.hidden + (if h.zimo == Some("_") then -1 else 0);
    if k > 0 then k else 0
  }

  /** The concealed part: face-down tiles, suit sections, the drawn tile, the riichi mark. */
  function Concealed(h: HandState): string
    requires h.bingpai.Shaped()
  {
    Repeat('_', HiddenShown(h)) + SuitsText(h, 4)
    + (if HasZimo(h.zimo) && |h.zimo.value| <= 2 then h.zimo.value else "")
    + (if h.lizhi then "*" else "")
  }

  /** `',' + m` for every declared meld. */
  function MeldsText(f: seq<string>): string
  {
    if |f| == 0 then "" else MeldsText(f[..|f| - 1]) + "," + f[|f| - 1]
  }

  /** A meld (text longer than a tile) sits in the draw slot: it was just called. */
  predicate MeldPending(h: HandState)
  {
    HasZimo(h.zimo) && |h.zimo.value| > 2
  }

  /** `__str__`: the concealed part, the melds, and a closing comma after a call. */
  function StrSpec(h: HandState): string
    requires h.bingpai.Shaped()
  {
    Concealed(h) + MeldsText(h.fulou) + (if MeldPending(h) then "," else "")
  }

  /** The inner loop of `__str__`: writes `npai` copies of rank n after `pre`, spending red fives. */
  method WriteRank(pre: string, n: int, npai: int, hong: int) returns (t: string, left: int)
    requires 1 <= n <= 9
    ensures t == pre + RankText(n, npai, hong).0 && left == RankText(n, npai, hong).1
  {
    t, left := pre, hong;
    var k := if npai > 0 then npai else 0;
    for i := 0 to k
      invariant t == pre + RankText(n, i, hong).0 && left == RankText(n, i, hong).1
    {
      if n == 5 && left > 0 {
        t := t + "0";
        left := left - 1;
      } else {
        t := t + [DigitChar(n)];
      }
    }
  }

  /** The section of one suit, read from its count array. */
  method WriteSuit(a: array<int>, c: char, zimo: Option<string>) returns (t: string)
    requires IsSuit(c) && a.Length == (if c == 'z' then 8 else 10)
    ensures t == SuitText(c, a[..], zimo)
  {
    ghost var row := a[..];
    var hong0 := if c == 'z' then 0 else a[0];
    var suitstr := [c];
    var hong := hong0;
    for n := 1 to a.Length
      invariant suitstr == [c] + SuitBody(c, row, zimo, n, hong0).0
      invariant hong == SuitBody(c, row, zimo, n, hong0).1
    {
      suitstr, hong := WriteSuitRank(a, c, n, zimo, suitstr, hong, hong0);
    }
    assert |row| == a.Length;
    t := if |suitstr| > 1 then suitstr else "";
  }

  /** One pass of the rank loop of `__str__`: the copies of rank n shown, after the ranks before it. */
  method WriteSuitRank(a: array<int>, c: char, n: int, zimo: Option<string>, pre: string, hong: int, ghost hong0: int)
    returns (suitstr: string, left: int)
    requires 1 <= n < a.Length <= 10
    requires pre == [c] + SuitBody(c, a[..], zimo, n, hong0).0 && hong == SuitBody(c, a[..], zimo, n, hong0).1
    ensures suitstr == [c] + SuitBody(c, a[..], zimo, n + 1, hong0).0 && left == SuitBody(c, a[..], zimo, n + 1, hong0).1
  {
    ghost var prev := SuitBody(c, a[..], zimo, n, hong0).0;
    var npai, dh := RankShown(a, c, n, zimo);
    SuitBodyStep(c, a[..], zimo, n, hong0);
    ghost var rank := RankText(n, npai, hong + dh).0;
    suitstr, left := WriteRank(pre, n, npai, hong + dh);
    assert [c] + prev + rank == [c] + (prev + rank);
  }

  /** The count adjustments for the drawn tile at rank n. */
  method RankShown(a: array<int>, c: char, n: int, zimo: Option<string>) returns (npai: int, dh: int)
    requires 1 <= n < a.Length && n <= 9
    ensures (npai, dh) == Shown(c, n, a[..], zimo)
  {
    npai, dh := a[n], 0;
    if HasZimo(zimo) {
      if [c, DigitChar(n)] == zimo.value {
        npai := npai - 1;
      }
      if n == 5 && [c, '0'] == zimo.value {
        npai := npai - 1;
        dh := -1;
      }
    }
  }

  /** `__str__`: the hand written out, as `StrSpec` gives it. */
  method ToString(sp: Shoupai, ghost h: HandState) returns (paistr: string)
    requires sp.Shaped() && sp.Value() == h
    ensures paistr == StrSpec(h)
  {
    paistr := WriteConcealed(sp, h);
    paistr := WriteMelds(paistr, sp.fulou);
    if HasZimo(sp.zimo) && |sp.zimo.value| > 2 {
      paistr := paistr + ",";
    }
  }

  /** The concealed part of `__str__`. */
  method WriteConcealed(sp: Shoupai, ghost h: HandState) returns (paistr: string)
    requires sp.Shaped() && sp.Value() == h
    ensures paistr == Concealed(h)
  {
    var k := sp.hidden + (if sp.zimo == Some("_") then -1 else 0);
    paistr := Repeat('_', if k > 0 then k else 0);
    paistr := WriteSuits(paistr, sp, h);
    if HasZimo(sp.zimo) && |sp.zimo.value| <= 2 {
      paistr := paistr + sp.zimo.value;
    }
    if sp.lizhi {
      paistr := paistr + "*";
    }
  }

  /** The loop of `__str__` over the four suits. */
  method WriteSuits(pre: string, sp: Shoupai, ghost h: HandState) returns (paistr: string)
    requires sp.Shaped() && sp.Value() == h
    ensures paistr == pre + SuitsText(h, 4)
  {
    paistr := pre;
    for i := 0 to 4
      invariant paistr == pre + SuitsText(h, i)
    {
      var t := WriteSuitOf(sp, h, i);
      assert pre + SuitsText(h, i) + t == pre + (SuitsText(h, i) + t);
      paistr := paistr + t;
    }
  }

  /** The section of the i-th suit of the hand. */
  method WriteSuitOf(sp: Shoupai, ghost h: HandState, i: int) returns (t: string)
    requires sp.Shaped() && sp.Value() == h && 0 <= i < 4
    ensures t == SuitText("mpsz"[i], h.bingpai.Row("mpsz"[i]), h.zimo)
  {
    var c := "mpsz"[i];
    sp.ArrRow(c);
    t := WriteSuit(sp.Arr(c), c, sp.zimo);
  }

  /** The loop of `__str__` over the declared melds. */
  method WriteMelds(pre: string, f: seq<string>) returns (paistr: string)
    ensures paistr == pre + MeldsText(f)
  {
    paistr := pre;
    for i := 0 to |f|
      invariant paistr == pre + MeldsText(f[..i])
    {
      assert f[..i + 1][..i] == f[..i];
      paistr := paistr + "," + f[i];
    }
    assert f[..|f|] == f;
  }

  // ---------------------------------------------------------------------
  // `from_string`

  /** `re.findall(r'_', t)`: one `_` entry per face-down tile written. */
  function HiddenTiles(t: string): (r: seq<string>)
    ensures forall i :: 0 <= i < |r| ==> r[i] == "_"
  {
    if |t| == 0 then [] else (if t[0] == '_' then ["_"] else []) + HiddenTiles(t[1..])
  }

  /** The end of the run of digits that starts at i. */
  function DigitRun(t: string, i: nat): (j: nat)
    requires i <= |t|
    ensures i <= j <= |t| && (j < |t| ==> !IsDigit(t[j]))
    ensures forall k :: i <= k < j ==> IsDigit(t[k])
    decreases |t| - i
  {
    if i < |t| && IsDigit(t[i]) then DigitRun(t, i + 1) else i
  }

  /** A suit letter followed by one digit or more. */
  predicate SuitGroup(g: string)
  {
    |g| >= 2 && IsSuit(g[0]) && forall k :: 1 <= k < |g| ==> IsDigit(g[k])
  }

  /** `re.findall(r'[mpsz]\d+', t)`: each suit letter with the digits that follow it. */
  function SuitGroups(t: string): (r: seq<string>)
    ensures forall i :: 0 <= i < |r| ==> SuitGroup(r[i])
  {
    if |t| == 0 then []
    else if IsSuit(t[0]) && |t| > 1 && IsDigit(t[1]) then
      var j := DigitRun(t, 1);
      [t[..j]] + SuitGroups(t[j..])
    else SuitGroups(t[1..])
  }

  /** Honours have no rank 0, 8 or 9: those digits are skipped. */
  predicate Skipped(c: char, d: char)
  {
    c == 'z' && (d == '0' || d == '8' || d == '9')
  }

  /** The tiles of one suit group: the suit letter with each digit that is not skipped. */
  function GroupTiles(c: char, ds: string): (r: seq<string>)
  {
    if |ds| == 0 then []
    else GroupTiles(c, ds[..|ds| - 1]) + (if Skipped(c, ds[|ds| - 1]) then [] else [[c, ds[|ds| - 1]]])
  }

  /** The tiles of a list of suit groups, group by group. */
  function GroupsTiles(gs: seq<string>): seq<string>
    requires forall i :: 0 <= i < |gs| ==> |gs[i]| >= 1
  {
    if |gs| == 0 then [] else GroupsTiles(gs[..|gs| - 1]) + GroupTiles(gs[|gs| - 1][0], DigitsOf(gs[|gs| - 1]))
  }

  /** The tile list read from a concealed part: the face-down tiles first, then the suit groups. */
  function TilesOf(t: string): seq<string>
  {
    HiddenTiles(t) + GroupsTiles(SuitGroups(t))
  }

  /** Where Python's slice `q[0:e]` of a list of length n ends (a negative e counts from the end). */
  function SliceEnd(n: nat, e: int): (j: nat)
    ensures j <= n
  {
    if e >= 0 then (if e < n then e else n) else (if n + e > 0 then n + e else 0)
  }

  /** How many of the meld texts are non-empty. */
  function NonEmpty(ms: seq<string>): (k: nat)
    ensures k <= |ms|
  {
    if |ms| == 0 then 0 else NonEmpty(ms[..|ms| - 1]) + (if ms[|ms| - 1] != "" then 1 else 0)
  }

  /**
   * The loop of `from_string` over the meld texts, carried on from the melds
   * `f` kept so far and the last one kept: each text is normalised and kept
   * when valid; an empty text stops the loop and puts the last kept meld in
   * the draw slot.  Gives the melds kept and what the loop put in the draw slot.
   */
  function ReadMelds(ms: seq<string>, f: seq<string>, last: Option<string>): (seq<string>, Option<string>)
  {
    if |ms| == 0 then (f, None)
    else if ms[0] == "" then (f, last)
    else
      match ValidMianzi(ms[0])
      case Some(m) => ReadMelds(ms[1..], f + [m], Some(m))
      case None => ReadMelds(ms[1..], f, last)
  }

  /** The concealed tiles kept: at most 14 less three per non-empty meld text (Python slice rules). */
  function KeptTiles(bp: string, melds: seq<string>): seq<string>
  {
    var all := TilesOf(bp);
    all[..SliceEnd(|all|, 14 - 3 * NonEmpty(melds))]
  }

  /** The last kept tile is the drawn one when the count is 2, 5, 8, 11 or 14. */
  function DrawnTile(qipai: seq<string>): Option<string>
  {
    if |qipai| >= 2 && (|qipai| - 2) % 3 == 0 then Some(qipai[|qipai| - 1]) else None
  }

  /** `a or b or None` over the draw slot. */
  function FirstSet(a: Option<string>, b: Option<string>): (r: Option<string>)
    ensures r.Some? ==> r.value != ""
  {
    if HasZimo(a) then a else if HasZimo(b) then b else None
  }

  /**
   * `from_string(paistr)`, with riichi read as false on an empty concealed
   * part (the source reads its last character unguarded, see
   * `FromStringAsWritten`).
   */
  function FromStringSpec(paistr: string): Result<HandState>
  {
    var parts := Split(paistr, ',');
    var bp := parts[0];
    var qipai := KeptTiles(bp, parts[1..]);
    var counted := QipaiCounts(EMPTY, qipai);
    if counted.Failure? then Failure(counted.error)
    else
      var read := ReadMelds(parts[1..], [], None);
      Success(HandState(counted.value, read.0, FirstSet(read.1, DrawnTile(qipai)), |bp| > 0 && bp[|bp| - 1] == '*'))
  }

  /**
   * `from_string` as written: an empty concealed part raises IndexError at
   * `bingpai[-1]`, and the tiles are counted by the constructor as written.
   */
  function FromStringAsWritten(paistr: string): Result<HandState>
  {
    var parts := Split(paistr, ',');
    var bp := parts[0];
    if bp == "" then Failure(IndexOutOfRange)
    else
      var qipai := KeptTiles(bp, parts[1..]);
      var counted := QipaiCountsAsWritten(EMPTY, qipai);
      if counted.Failure? then Failure(counted.error)
      else
        var read := ReadMelds(parts[1..], [], None);
        Success(HandState(counted.value, read.0, FirstSet(read.1, DrawnTile(qipai)), bp[|bp| - 1] == '*'))
  }

  /** The two readings differ only on an empty concealed part and on lists the corrected count refuses. */
  lemma FromStringAgree(paistr: string)
    requires Split(paistr, ',')[0] != "" && FromStringSpec(paistr).Success?
    ensures FromStringAsWritten(paistr) == FromStringSpec(paistr)
  {
    var parts := Split(paistr, ',');
    QipaiCountsAgree(EMPTY, KeptTiles(parts[0], parts[1..]));
  }

  /** The tile list of `from_string`: the face-down tiles, then group by group and digit by digit. */
  method ReadTiles(bp: string) returns (qipai: seq<string>)
    ensures qipai == TilesOf(bp)
  {
    qipai := HiddenTiles(bp);
    var groups := SuitGroups(bp);
    for g := 0 to |groups|
      invariant qipai == HiddenTiles(bp) + GroupsTiles(groups[..g])
    {
      var suitstr := groups[g];
      var ts := ReadGroup(suitstr[0], DigitsOf(suitstr));
      qipai := qipai + ts;
      assert groups[..g + 1][..g] == groups[..g];
    }
    assert groups[..|groups|] == groups;
  }

  /** The digit loop of `from_string` over one suit group. */
  method ReadGroup(c: char, ds: string) returns (ts: seq<string>)
    ensures ts == GroupTiles(c, ds)
  {
    ts := [];
    for j := 0 to |ds|
      invariant ts == GroupTiles(c, ds[..j])
    {
      assert ds[..j + 1][..j] == ds[..j];
      if Skipped(c, ds[j]) {
        continue;
      }
      ts := ts + [[c, ds[j]]];
    }
    assert ds[..|ds|] == ds;
  }

  /**
   * `from_string(paistr)`: a new hand holding what the text describes, or
   * the error of a tile list with a fifth copy.
   */
  method FromString(paistr: string) returns (r: Result<Shoupai>)
    ensures FromStringSpec(paistr).Failure? ==> r == Failure(FromStringSpec(paistr).error)
    ensures FromStringSpec(paistr).Success? ==>
      r.Success? && fresh(r.value) && r.value.Valid() && r.value.Value() == FromStringSpec(paistr).value
  {
    var bingpai, fulou, qipai, zimo := SplitText(paistr);
    var created := Shoupai.Create(qipai);
    if created.Failure? {
      return Failure(created.error);
    }
    var sp := created.value;
    AddMelds(sp, fulou);
    sp.zimo := FirstSet(sp.zimo, zimo);
    sp.lizhi := |bingpai| > 0 && bingpai[|bingpai| - 1] == '*';
    return Success(sp);
  }

  /** The first half of `from_string`: the concealed part, the meld texts, the tiles kept and the drawn tile. */
  method SplitText(paistr: string) returns (bingpai: string, fulou: seq<string>, qipai: seq<string>, zimo: Option<string>)
    ensures bingpai == Split(paistr, ',')[0] && fulou == Split(paistr, ',')[1..]
    ensures qipai == KeptTiles(bingpai, fulou) && zimo == DrawnTile(qipai)
  {
    fulou := Split(paistr, ',');
    bingpai := fulou[0];
    fulou := fulou[1..];
    qipai := ReadTiles(bingpai);
    qipai := qipai[..SliceEnd(|qipai|, 14 - 3 * NonEmpty(fulou))];
    zimo := if |qipai| >= 2 && (|qipai| - 2) % 3 == 0 then Some(qipai[|qipai| - 1]) else None;
  }

  /** The loop of `from_string` over the meld texts, as `ReadMelds` gives it; the counts stay as they are. */
  method AddMelds(sp: Shoupai, fulou: seq<string>)
    requires sp.Valid() && sp.fulou == [] && sp.zimo == None
    modifies sp
    ensures sp.Valid() && sp.Value().bingpai == old(sp.Value().bingpai) && sp.lizhi == old(sp.lizhi)
    ensures (sp.fulou, sp.zimo) == ReadMelds(fulou, [], None)
  {
    var last: Option<string> := None;
    var i := 0;
    while i < |fulou|
      invariant 0 <= i <= |fulou|
      invariant sp.Valid() && sp.zimo == None
      invariant sp.Value().bingpai == old(sp.Value().bingpai) && sp.lizhi == old(sp.lizhi)
      invariant ReadMelds(fulou, [], None) == ReadMelds(fulou[i..], sp.fulou, last)
      invariant last.Some? ==> last.value != ""
    {
      if fulou[i] == "" {
        sp.zimo := last;
        break;
      }
      var m := ValidMianzi(fulou[i]);
      ReadMeldsStep(fulou[i..], sp.fulou, last);
      assert fulou[i..][1..] == fulou[i + 1..];
      if m.Some? {
        sp.fulou := sp.fulou + [m.value];
        last := m;
      }
      i := i + 1;
    }
  }

  /** One turn of the meld loop on a non-empty text. */
  lemma ReadMeldsStep(ms: seq<string>, f: seq<string>, last: Option<string>)
    requires |ms| > 0 && ms[0] != ""
    ensures var v := ValidMianzi(ms[0]);
      ReadMelds(ms, f, last) == if v.Some? then ReadMelds(ms[1..], f + [v.value], v) else ReadMelds(ms[1..], f, last)
  {
  }

  // ---------------------------------------------------------------------
  // What `from_string` reads

  /** The meld texts before the first empty one. */
  function UpToEmpty(ms: seq<string>): (r: seq<string>)
    ensures |r| <= |ms| && r == ms[..|r|] && (|r| < |ms| ==> ms[|r|] == "")
    ensures forall i :: 0 <= i < |r| ==> r[i] != ""
  {
    if |ms| == 0 || ms[0] == "" then [] else [ms[0]] + UpToEmpty(ms[1..])
  }

  /** The valid meld texts, each in its normal form, in order. */
  function Kept(ms: seq<string>): seq<string>
  {
    if |ms| == 0 then []
    else (if ValidMianzi(ms[0]).Some? then [ValidMianzi(ms[0]).value] else []) + Kept(ms[1..])
  }

  /**
   * The meld loop keeps the valid melds met before the first empty text, in
   * their normal form, and drops the others; an empty text puts the last
   * meld kept (or the one kept before the loop) in the draw slot.
   */
  lemma ReadMeldsMeaning(ms: seq<string>, f: seq<string>, last: Option<string>)
    ensures ReadMelds(ms, f, last).0 == f + Kept(UpToEmpty(ms))
    ensures ReadMelds(ms, f, last).1 ==
      if |UpToEmpty(ms)| == |ms| then None
      else if |Kept(UpToEmpty(ms))| > 0 then Some(Kept(UpToEmpty(ms))[|Kept(UpToEmpty(ms))| - 1])
      else last
  {
    ReadMeldsKept(ms, f, last);
    ReadMeldsLast(ms, f, last);
  }

  /** The melds the loop gathers. */
  lemma {:induction false} ReadMeldsKept(ms: seq<string>, f: seq<string>, last: Option<string>)
    ensures ReadMelds(ms, f, last).0 == f + Kept(UpToEmpty(ms))
  {
    if |ms| > 0 && ms[0] != "" {
      var v := ValidMianzi(ms[0]);
      var rest := UpToEmpty(ms[1..]);
      assert UpToEmpty(ms) == [ms[0]] + rest;
      ReadMeldsStep(ms, f, last);
      KeptCons(ms[0], rest);
      if v.Some? {
        ReadMeldsKept(ms[1..], f + [v.value], v);
        assert (f + [v.value]) + Kept(rest) == f + ([v.value] + Kept(rest));
      } else {
        ReadMeldsKept(ms[1..], f, last);
      }
    }
  }

  /** What the loop leaves in the draw slot. */
  lemma {:induction false} ReadMeldsLast(ms: seq<string>, f: seq<string>, last: Option<string>)
    ensures ReadMelds(ms, f, last).1 ==
      if |UpToEmpty(ms)| == |ms| then None
      else if |Kept(UpToEmpty(ms))| > 0 then Some(Kept(UpToEmpty(ms))[|Kept(UpToEmpty(ms))| - 1])
      else last
  {
    if |ms| > 0 && ms[0] != "" {
      var v := ValidMianzi(ms[0]);
      var rest := UpToEmpty(ms[1..]);
      assert UpToEmpty(ms) == [ms[0]] + rest;
      ReadMeldsStep(ms, f, last);
      KeptCons(ms[0], rest);
      if v.Some? {
        ReadMeldsLast(ms[1..], f + [v.value], v);
      } else {
        ReadMeldsLast(ms[1..], f, last);
      }
    }
  }

  /** `Kept` of a text followed by more texts. */
  lemma KeptCons(m: string, rest: seq<string>)
    ensures Kept([m] + rest) == (if ValidMianzi(m).Some? then [ValidMianzi(m).value] else []) + Kept(rest)
  {
    assert ([m] + rest)[1..] == rest;
  }

  /** `from_string` drops the invalid meld texts and keeps the others, normalised, up to the first empty text. */
  lemma FromStringMelds(paistr: string, h: HandState)
    requires FromStringSpec(paistr) == Success(h)
    ensures h.fulou == Kept(UpToEmpty(Split(paistr, ',')[1..]))
  {
    ReadMeldsMeaning(Split(paistr, ',')[1..], [], None);
  }

  /** After an empty meld text (a trailing comma), the last meld kept before it sits in the draw slot. */
  lemma FromStringCalled(paistr: string, h: HandState)
    requires FromStringSpec(paistr) == Success(h)
    requires var ms := Split(paistr, ',')[1..]; |UpToEmpty(ms)| < |ms| && |Kept(UpToEmpty(ms))| > 0
    ensures |h.fulou| > 0 && h.zimo == Some(h.fulou[|h.fulou| - 1])
  {
    var ms := Split(paistr, ',')[1..];
    ReadMeldsMeaning(ms, [], None);
    var k := Kept(UpToEmpty(ms));
    assert h.fulou == [] + k;
    KeptNonEmpty(UpToEmpty(ms));
  }

  /** Every meld kept is non-empty. */
  lemma {:induction false} KeptNonEmpty(ms: seq<string>)
    ensures forall i :: 0 <= i < |Kept(ms)| ==> Kept(ms)[i] != ""
  {
    if |ms| > 0 {
      KeptNonEmpty(ms[1..]);
    }
  }

  /** A tile entry of `__init__`'s list: a face-down tile or a two-character tile. */
  predicate TileEntry(t: string)
  {
    t == "_" || (|t| == 2 && ValidPai(t))
  }

  /** The tiles of a group are the suit letter with each digit that is not skipped. */
  lemma {:induction false} GroupTilesEntries(c: char, ds: string)
    requires IsSuit(c) && forall i :: 0 <= i < |ds| ==> IsDigit(ds[i])
    ensures forall i :: 0 <= i < |GroupTiles(c, ds)| ==> TileEntry(GroupTiles(c, ds)[i])
  {
    if |ds| > 0 {
      GroupTilesEntries(c, ds[..|ds| - 1]);
      var d := ds[|ds| - 1];
      if !Skipped(c, d) {
        assert ValidPai([c, d]) by {
          assert PaiMarks([c, d][2..]);
        }
      }
    }
  }

  lemma {:induction false} GroupsTilesEntries(gs: seq<string>)
    requires forall i :: 0 <= i < |gs| ==> |gs[i]| >= 1 && SuitGroup(gs[i])
    ensures forall i :: 0 <= i < |GroupsTiles(gs)| ==> TileEntry(GroupsTiles(gs)[i])
  {
    if |gs| > 0 {
      GroupsTilesEntries(gs[..|gs| - 1]);
      var g := gs[|gs| - 1];
      assert SuitGroup(g);
      DigitsOfDigits(g);
      GroupTilesEntries(g[0], DigitsOf(g));
    }
  }

  /** The digits of a text are digits. */
  lemma DigitsOfDigits(t: string)
    ensures forall i :: 0 <= i < |DigitsOf(t)| ==> IsDigit(DigitsOf(t)[i])
  {
  }

  /** Every entry read from a concealed part is a face-down tile or a well-formed tile. */
  lemma TilesOfEntries(t: string)
    ensures forall i :: 0 <= i < |TilesOf(t)| ==> TileEntry(TilesOf(t)[i])
  {
    GroupsTilesEntries(SuitGroups(t));
  }

  /** Counting well-formed entries can only fail on a fifth copy. */
  lemma {:induction false} QipaiCountsOverflowOnly(b: Bingpai, qipai: seq<string>)
    requires b.Shaped() && forall i :: 0 <= i < |qipai| ==> TileEntry(qipai[i])
    ensures QipaiCounts(b, qipai).Failure? ==> QipaiCounts(b, qipai).error == PaiOverFlow
    decreases |qipai|
  {
    if |qipai| > 0 {
      assert TileEntry(qipai[0]);
      if QipaiStep(b, qipai[0]).Success? {
        QipaiStepShaped(b, qipai[0]);
        QipaiCountsOverflowOnly(QipaiStep(b, qipai[0]).value, qipai[1..]);
      }
    }
  }

  /** `from_string` refuses a text only when it gives a kind a fifth copy. */
  lemma FromStringRefusal(paistr: string)
    requires FromStringSpec(paistr).Failure?
    ensures FromStringSpec(paistr).error == PaiOverFlow
  {
    var parts := Split(paistr, ',');
    var all := TilesOf(parts[0]);
    TilesOfEntries(parts[0]);
    var qipai := KeptTiles(parts[0], parts[1..]);
    assert forall i :: 0 <= i < |qipai| ==> qipai[i] == all[i];
    QipaiCountsOverflowOnly(EMPTY, qipai);
  }

  /** The empty counts hold no tile. */
  lemma EmptyTotal()
    ensures EMPTY.Valid() && TileTotal(EMPTY) == 0
  {
    assert SumFrom(EMPTY.m, 1) == 0;
    assert SumFrom(EMPTY.z, 1) == 0;
  }

  /**
   * `from_string` keeps the concealed tiles in the order it reads them, up
   * to 14 less three per non-empty meld text, and the counts are valid.
   */
  lemma FromStringBound(paistr: string, h: HandState)
    requires FromStringSpec(paistr) == Success(h)
    ensures ValidHand(h)
    ensures var parts := Split(paistr, ',');
      var k := NonEmpty(parts[1..]);
      var n := |TilesOf(parts[0])|;
      TileTotal(h.bingpai) <= n && (k <= 4 ==> TileTotal(h.bingpai) == (if n < 14 - 3 * k then n else 14 - 3 * k))
  {
    var parts := Split(paistr, ',');
    EmptyTotal();
    QipaiCountsValid(EMPTY, KeptTiles(parts[0], parts[1..]));
  }

  /**
   * Unless a meld was called, the last tile kept is the drawn tile exactly
   * when the tile count is 2, 5, 8, 11 or 14.
   */
  lemma FromStringDrawn(paistr: string, h: HandState, q: seq<string>)
    requires FromStringSpec(paistr) == Success(h)
    requires q == KeptTiles(Split(paistr, ',')[0], Split(paistr, ',')[1..])
    requires var ms := Split(paistr, ',')[1..]; |UpToEmpty(ms)| == |ms| || |Kept(UpToEmpty(ms))| == 0
    ensures TileTotal(h.bingpai) == |q|
    ensures h.zimo.Some? <==> |q| >= 2 && (|q| - 2) % 3 == 0
    ensures h.zimo.Some? ==> h.zimo.value == q[|q| - 1]
  {
    var parts := Split(paistr, ',');
    var read := ReadMelds(parts[1..], [], None);
    ReadMeldsMeaning(parts[1..], [], None);
    assert read.1 == None;
    assert h.zimo == FirstSet(read.1, DrawnTile(q));
    assert h.bingpai == QipaiCounts(EMPTY, q).value;
    EmptyTotal();
    QipaiCountsValid(EMPTY, q);
    KeptEntries(parts[0], parts[1..]);
    DrawnSlot(q, h.zimo);
  }

  /** The kept tiles are all well-formed entries. */
  lemma KeptEntries(bp: string, melds: seq<string>)
    ensures forall i :: 0 <= i < |KeptTiles(bp, melds)| ==> TileEntry(KeptTiles(bp, melds)[i])
  {
    TilesOfEntries(bp);
    var all := TilesOf(bp);
    var q := KeptTiles(bp, melds);
    assert forall i :: 0 <= i < |q| ==> q[i] == all[i];
  }

  /** With no meld in the draw slot, the slot holds the last kept tile exactly when the count is 2, 5, 8, 11 or 14. */
  lemma DrawnSlot(q: seq<string>, z: Option<string>)
    requires forall i :: 0 <= i < |q| ==> TileEntry(q[i])
    requires z == FirstSet(None, DrawnTile(q))
    ensures z.Some? <==> |q| >= 2 && (|q| - 2) % 3 == 0
    ensures z.Some? ==> z.value == q[|q| - 1]
  {
    if |q| >= 2 {
      assert TileEntry(q[|q| - 1]);
    }
  }

  /** Riichi is read from a `*` at the end of the concealed part. */
  lemma FromStringRiichi(paistr: string, h: HandState)
    requires FromStringSpec(paistr) == Success(h)
    ensures var bp := Split(paistr, ',')[0]; h.lizhi <==> |bp| > 0 && bp[|bp| - 1] == '*'
  {
  }

  /** `from_string('')` as written fails, where an empty hand is meant. */
  lemma FromStringEmptyText()
    ensures FromStringAsWritten("") == Failure(IndexOutOfRange)
    ensures FromStringSpec("") == Success(HandState(EMPTY, [], None, false))
  {
    assert Split("", ',') == [""];
  }

  // ---------------------------------------------------------------------
  // What `__str__` writes

  lemma {:induction false} RankTextDigits(n: int, npai: int, hong: int)
    requires 1 <= n <= 9
    ensures forall i :: 0 <= i < |RankText(n, npai, hong).0| ==> IsDigit(RankText(n, npai, hong).0[i])
    decreases npai
  {
    if npai > 0 {
      RankTextDigits(n, npai - 1, hong);
    }
  }

  lemma {:induction false} SuitBodyDigits(c: char, row: seq<int>, zimo: Option<string>, k: nat, hong: int)
    requires k <= |row| <= 10
    ensures forall i :: 0 <= i < |SuitBody(c, row, zimo, k, hong).0| ==> IsDigit(SuitBody(c, row, zimo, k, hong).0[i])
  {
    if k > 1 {
      SuitBodyDigits(c, row, zimo, k - 1, hong);
      var prev := SuitBody(c, row, zimo, k - 1, hong);
      var shown := Shown(c, k - 1, row, zimo);
      RankTextDigits(k - 1, shown.0, prev.1 + shown.1);
    }
  }

  /** The suit sections hold only suit letters and digits. */
  lemma {:induction false} SuitsTextChars(h: HandState, k: nat)
    requires h.bingpai.Shaped() && k <= 4
    ensures forall i :: 0 <= i < |SuitsText(h, k)| ==> IsSuit(SuitsText(h, k)[i]) || IsDigit(SuitsText(h, k)[i])
  {
    if k > 0 {
      SuitsTextChars(h, k - 1);
      var c := "mpsz"[k - 1];
      var row := h.bingpai.Row(c);
      SuitBodyDigits(c, row, h.zimo, |row|, if c == 'z' then 0 else row[0]);
    }
  }

  /** The melds are appended as a comma-separated list after the concealed part. */
  lemma {:induction false} MeldsTextJoin(c: string, f: seq<string>)
    ensures c + MeldsText(f) == Join([c] + f, ',')
  {
    if |f| > 0 {
      var f' := f[..|f| - 1];
      MeldsTextJoin(c, f');
      JoinAppend([c] + f', f[|f| - 1]);
      assert [c] + f' + [f[|f| - 1]] == [c] + f;
    }
  }

  /** Appending a piece to a joined list. */
  lemma {:induction false} JoinAppend(ps: seq<string>, x: string)
    requires |ps| >= 1
    ensures Join(ps + [x], ',') == Join(ps, ',') + "," + x
  {
    if |ps| > 1 {
      JoinAppend(ps[1..], x);
      assert (ps + [x])[1..] == ps[1..] + [x];
    }
  }

  /** No comma is written inside the concealed part when the drawn tile has none. */
  lemma ConcealedNoComma(h: HandState)
    requires h.bingpai.Shaped()
    requires HasZimo(h.zimo) && |h.zimo.value| <= 2 ==> ',' !in h.zimo.value
    ensures ',' !in Concealed(h)
  {
    SuitsTextChars(h, 4);
    var u := Repeat('_', HiddenShown(h));
    var z := if HasZimo(h.zimo) && |h.zimo.value| <= 2 then h.zimo.value else "";
    var l := if h.lizhi then "*" else "";
    assert Concealed(h) == u + SuitsText(h, 4) + z + l;
  }

  /**
   * `__str__` writes the layout `from_string` splits: the pieces between
   * commas are the concealed part, each meld in turn, and an empty piece
   * when a meld was just called.
   */
  lemma StrLayout(h: HandState)
    requires h.bingpai.Shaped()
    requires HasZimo(h.zimo) && |h.zimo.value| <= 2 ==> ',' !in h.zimo.value
    requires forall i :: 0 <= i < |h.fulou| ==> ',' !in h.fulou[i]
    ensures Split(StrSpec(h), ',') == [Concealed(h)] + h.fulou + (if MeldPending(h) then [""] else [])
  {
    ConcealedNoComma(h);
    var ps := [Concealed(h)] + h.fulou;
    assert forall i :: 0 <= i < |ps| ==> ',' !in ps[i] by {
      forall i | 0 <= i < |ps| ensures ',' !in ps[i] {
        if i > 0 {
          assert ps[i] == h.fulou[i - 1];
        }
      }
    }
    MeldsTextJoin(Concealed(h), h.fulou);
    if MeldPending(h) {
      JoinAppend(ps, "");
      assert StrSpec(h) == Join(ps + [""], ',');
      SplitJoin(ps + [""], ',');
    } else {
      assert StrSpec(h) == Join(ps, ',');
      SplitJoin(ps, ',');
    }
  }

  /** The concealed part ends in `*` exactly after riichi. */
  lemma StrRiichi(h: HandState)
    requires h.bingpai.Shaped()
    requires HasZimo(h.zimo) && |h.zimo.value| <= 2 ==> h.zimo.value[|h.zimo.value| - 1] != '*'
    ensures var t := Concealed(h); h.lizhi <==> |t| > 0 && t[|t| - 1] == '*'
  {
    SuitsTextChars(h, 4);
    var u := Repeat('_', HiddenShown(h)) + SuitsText(h, 4);
    var z := if HasZimo(h.zimo) && |h.zimo.value| <= 2 then h.zimo.value else "";
    if !h.lizhi {
      assert Concealed(h) == u + z;
      if |z| == 0 && |u| > 0 {
        assert u[|u| - 1] != '*';
      }
    }
  }

  /** Reading back melds already in normal form keeps each of them, and an empty text after them puts the last in the draw slot. */
  lemma {:induction false} ReadMeldsNormal(f: seq<string>, pending: bool, g: seq<string>, last: Option<string>)
    requires forall i :: 0 <= i < |f| ==> ValidMianzi(f[i]) == Some(f[i])
    ensures ReadMelds(f + (if pending then [""] else []), g, last)
      == (g + f, if !pending then None else if |f| > 0 then Some(f[|f| - 1]) else last)
    decreases |f|
  {
    var tail: seq<string> := if pending then [""] else [];
    if |f| == 0 {
      assert f + tail == tail;
      assert g + f == g;
    } else {
      assert (f + tail)[0] == f[0] && (f + tail)[1..] == f[1..] + tail;
      ReadMeldsStep(f + tail, g, last);
      ReadMeldsNormal(f[1..], pending, g + [f[0]], Some(f[0]));
      HeadMoved(g, f);
      if |f| > 1 {
        assert f[1..][|f[1..]| - 1] == f[|f| - 1];
      }
    }
  }

  lemma HeadMoved(g: seq<string>, f: seq<string>)
    requires |f| > 0
    ensures g + [f[0]] + f[1..] == g + f
  {
    assert f == [f[0]] + f[1..];
  }

  /**
   * `from_string` reads back what `__str__` writes as far as the melds and
   * the riichi mark go: the melds come back in order, riichi is kept, and a
   * meld just called is back in the draw slot.
   */
  lemma StrMeldsRoundTrip(h: HandState)
    requires h.bingpai.Shaped()
    requires HasZimo(h.zimo) && |h.zimo.value| <= 2 ==>
      ',' !in h.zimo.value && h.zimo.value[|h.zimo.value| - 1] != '*'
    requires forall i :: 0 <= i < |h.fulou| ==> ValidMianzi(h.fulou[i]) == Some(h.fulou[i]) && ',' !in h.fulou[i]
    ensures FromStringSpec(StrSpec(h)).Success? ==>
      var h2 := FromStringSpec(StrSpec(h)).value;
      h2.fulou == h.fulou && h2.lizhi == h.lizhi
      && (MeldPending(h) && |h.fulou| > 0 ==> h2.zimo == Some(h.fulou[|h.fulou| - 1]))
  {
    StrLayout(h);
    StrRiichi(h);
    HeadRest(Concealed(h), h.fulou, if MeldPending(h) then [""] else []);
    MeldsReadBack(StrSpec(h), h.fulou, MeldPending(h), h.lizhi);
  }

  lemma HeadRest(c: string, f: seq<string>, tail: seq<string>)
    ensures ([c] + f + tail)[0] == c && ([c] + f + tail)[1..] == f + tail
  {
  }

  /** A text whose pieces after the first comma are melds in normal form reads them back. */
  lemma MeldsReadBack(t: string, f: seq<string>, pending: bool, lizhi: bool)
    requires forall i :: 0 <= i < |f| ==> ValidMianzi(f[i]) == Some(f[i])
    requires var parts := Split(t, ',');
      parts[1..] == f + (if pending then [""] else [])
      && (lizhi <==> |parts[0]| > 0 && parts[0][|parts[0]| - 1] == '*')
    ensures FromStringSpec(t).Success? ==>
      var h2 := FromStringSpec(t).value;
      h2.fulou == f && h2.lizhi == lizhi && (pending && |f| > 0 ==> h2.zimo == Some(f[|f| - 1]))
  {
    ReadMeldsNormal(f, pending, [], None);
    assert [] + f == f;
    FromStringFields(t);
  }

  /** The melds, the riichi flag and a meld put in the draw slot of the hand `from_string` builds. */
  lemma FromStringFields(t: string)
    ensures var parts := Split(t, ','); var read := ReadMelds(parts[1..], [], None);
      FromStringSpec(t).Success? ==>
        FromStringSpec(t).value.fulou == read.0
        && FromStringSpec(t).value.lizhi == (|parts[0]| > 0 && parts[0][|parts[0]| - 1] == '*')
        && (HasZimo(read.1) ==> FromStringSpec(t).value.zimo == read.1)
  {
  }
}
