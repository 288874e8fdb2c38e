/**
 * The winning-hand decomposition of jongpy/core/hule.py.  A complete hand
 * is read in every way the source finds: the standard shape (a pair and
 * four melds, `hule_mianzi_yiban`), seven pairs, thirteen orphans and nine
 * gates.  Each reading is a list of block texts (`m123`, `z777`, `p55`)
 * with the winning tile marked by its direction and `!` after the last
 * copy of its rank (`m3_!45`).  The per-suit search and the standard shape
 * work on the count arrays of the hand in place and put every count back;
 * the methods are proved to do so and to return the lists that the
 * specification functions here describe, and the lemmas state what those
 * lists mean.
 */
module Hule {
  import opened Wrappers
  import opened Exceptions
  import opened Notation
  import opened ShoupaiSpec
  import opened Shoupai
  import X = Xiangting

  // ---------------------------------------------------------------------
  // Block texts

  /** `s+str(n)+str(n+1)+str(n+2)`: a run. */
  function RunBlock(c: char, n: int): string
    requires 1 <= n <= 7
  {
    [c, DigitChar(n), DigitChar(n + 1), DigitChar(n + 2)]
  }

  /** `s+str(n)*3`: a triplet. */
  function TripletBlock(c: char, n: int): string
    requires 1 <= n <= 9
  {
    [c, DigitChar(n), DigitChar(n), DigitChar(n)]
  }

  /** `s+str(n)*2`: a pair. */
  function PairBlock(c: char, n: int): string
    requires 0 <= n <= 9
  {
    [c, DigitChar(n), DigitChar(n)]
  }

  /** How many tiles of rank k the blocks of a reading hold: the digits after each block's suit letter. */
  function RankCount(l: seq<string>, k: int): nat
    requires 0 <= k <= 9
  {
    if l == [] then 0
    else (if |l[0]| > 0 then Occurrences(l[0][1..], DigitChar(k)) else 0) + RankCount(l[1..], k)
  }

  /** A run or a triplet of suit c, as the per-suit search writes them. */
  predicate SuitMeld(c: char, t: string)
  {
    exists n :: 1 <= n <= 9 && ((n <= 7 && t == RunBlock(c, n)) || t == TripletBlock(c, n))
  }

  // ---------------------------------------------------------------------
  // mianzi: the readings of one numeral suit

  /** Each list of `ls` with block b put in front (the `insert(0, ...)` loops). */
  function PrefixAll(b: string, ls: seq<seq<string>>): (r: seq<seq<string>>)
  {
    seq(|ls|, i requires 0 <= i < |ls| => [b] + ls[i])
  }

  /**
   * `mianzi(s, bingpai, n)`: every way to split the tiles of ranks n..9
   * into runs and triplets.  At the first held rank the readings that take
   * a run come first (searching the same rank again), then those that
   * take a triplet, which is tried only when exactly three are held; past
   * rank 9 the one reading is empty.
   */
  function Readings(c: char, row: seq<int>, n: int): seq<seq<string>>
    requires X.SuitRow(row) && 1 <= n <= 10
    decreases SumFrom(row, 1), 10 - n
  {
    if n > 9 then [[]]
    else if row[n] == 0 then Readings(c, row, n + 1)
    else
      (if X.CanRun(row, n) then PrefixAll(RunBlock(c, n), Readings(c, X.TakeRun(row, n), n)) else [])
      + (if row[n] == 3 then PrefixAll(TripletBlock(c, n), Readings(c, X.TakePung(row, n), n + 1)) else [])
  }

  /**
   * `mianzi(s, bingpai, n)`: takes a run or a triplet out of the counts,
   * searches on, puts the tiles back and prefixes the block taken.
   */
  method Mianzi(c: char, a: array<int>, n: int) returns (r: seq<seq<string>>)
    requires X.SuitRow(a[..]) && 1 <= n <= 10
    modifies a
    ensures a[..] == old(a[..]) && r == Readings(c, a[..], n)
    decreases SumFrom(a[..], 1), 10 - n, 1
  {
    if n > 9 {
      return [[]];
    }
    if a[n] == 0 {
      r := Mianzi(c, a, n + 1);
      return;
    }
    var shunzi := [];
    if n <= 7 && a[n] > 0 && a[n + 1] > 0 && a[n + 2] > 0 {
      shunzi := MianziRun(c, a, n);
    }
    var kezi := [];
    if a[n] == 3 {
      kezi := MianziTriplet(c, a, n);
    }
    r := shunzi + kezi;
  }

  /** The run branch of `mianzi`: the readings that take the run starting at n. */
  method MianziRun(c: char, a: array<int>, n: int) returns (r: seq<seq<string>>)
    requires X.SuitRow(a[..]) && 1 <= n <= 9 && X.CanRun(a[..], n)
    modifies a
    ensures a[..] == old(a[..]) && r == PrefixAll(RunBlock(c, n), Readings(c, X.TakeRun(a[..], n), n))
    decreases SumFrom(a[..], 1), 10 - n, 0
  {
    ghost var row := a[..];
    a[n] := a[n] - 1;
    a[n + 1] := a[n + 1] - 1;
    a[n + 2] := a[n + 2] - 1;
    assert a[..] == X.TakeRun(row, n);
    r := Mianzi(c, a, n);
    a[n] := a[n] + 1;
    a[n + 1] := a[n + 1] + 1;
    a[n + 2] := a[n + 2] + 1;
    assert a[..] == row;
    r := PrefixEach(RunBlock(c, n), r);
  }

  /** The triplet branch of `mianzi`: the readings that take all three tiles of rank n. */
  method MianziTriplet(c: char, a: array<int>, n: int) returns (r: seq<seq<string>>)
    requires X.SuitRow(a[..]) && 1 <= n <= 9 && a[n] == 3
    modifies a
    ensures a[..] == old(a[..]) && r == PrefixAll(TripletBlock(c, n), Readings(c, X.TakePung(a[..], n), n + 1))
    decreases SumFrom(a[..], 1), 10 - n, 0
  {
    ghost var row := a[..];
    a[n] := a[n] - 3;
    assert a[..] == X.TakePung(row, n);
    r := Mianzi(c, a, n + 1);
    a[n] := a[n] + 3;
    assert a[..] == row;
    r := PrefixEach(TripletBlock(c, n), r);
  }

  /** The `for ...: m.insert(0, b)` loop: puts b in front of every list. */
  method PrefixEach(b: string, ls: seq<seq<string>>) returns (r: seq<seq<string>>)
    ensures r == PrefixAll(b, ls)
  {
    r := ls;
    var i := 0;
    while i < |r|
      invariant 0 <= i <= |r| == |ls|
      invariant forall j :: 0 <= j < i ==> r[j] == [b] + ls[j]
      invariant forall j :: i <= j < |r| ==> r[j] == ls[j]
    {
      r := r[i := [b] + r[i]];
      i := i + 1;
    }
  }

  /** Over a four-letter block, the digits after the suit letter are counted one by one. */
  lemma RankOccurrences(t: string, x: char)
    requires |t| == 4
    ensures Occurrences(t[1..], x)
      == (if t[1] == x then 1 else 0) + (if t[2] == x then 1 else 0) + (if t[3] == x then 1 else 0)
  {
    var s := t[1..];
    assert s[..1][..0] == [];
    assert s[..2][..1] == s[..1];
    assert s[..3] == s;
    assert Occurrences(s[..1], x) == if t[1] == x then 1 else 0;
    assert Occurrences(s[..2], x) == Occurrences(s[..1], x) + if t[2] == x then 1 else 0;
  }

  lemma RunOccurrences(c: char, n: int, k: int)
    requires 1 <= n <= 7 && 1 <= k <= 9
    ensures Occurrences(RunBlock(c, n)[1..], DigitChar(k)) == if n <= k <= n + 2 then 1 else 0
  {
    RankOccurrences(RunBlock(c, n), DigitChar(k));
    assert DigitValue(DigitChar(n)) == n && DigitValue(DigitChar(n + 1)) == n + 1 && DigitValue(DigitChar(n + 2)) == n + 2;
  }

  lemma TripletOccurrences(c: char, n: int, k: int)
    requires 1 <= n <= 9 && 1 <= k <= 9
    ensures Occurrences(TripletBlock(c, n)[1..], DigitChar(k)) == if n == k then 3 else 0
  {
    RankOccurrences(TripletBlock(c, n), DigitChar(k));
    assert DigitValue(DigitChar(n)) == n;
  }

  /** All of row[n..] is zero, so nothing is left from rank n on. */
  lemma {:induction false} SumFromZero(row: seq<int>, n: nat)
    requires forall i :: n <= i < |row| ==> row[i] == 0
    ensures SumFrom(row, n) == 0
    decreases |row| - n
  {
    if n < |row| {
      SumFromZero(row, n + 1);
    }
  }

  /**
   * Every per-suit reading is sound: it consists of runs and triplets of
   * the suit that hold exactly the tiles of the counts, so three times its
   * length is the number of tiles.  Leftover tiles give no reading.
   */
  lemma {:induction false} ReadingsSound(c: char, row: seq<int>, n: int, l: seq<string>)
    requires X.SuitRow(row) && 1 <= n <= 10
    requires forall i :: 1 <= i < n ==> row[i] == 0
    requires l in Readings(c, row, n)
    ensures forall t :: t in l ==> SuitMeld(c, t)
    ensures forall k :: 1 <= k <= 9 ==> RankCount(l, k) == row[k]
    ensures 3 * |l| == SumFrom(row, 1)
    decreases SumFrom(row, 1), 10 - n, 2
  {
    if n > 9 {
      assert l == [];
      SumFromZero(row, 1);
    } else if row[n] == 0 {
      ReadingsSound(c, row, n + 1, l);
    } else {
      HeldSound(c, row, n, l);
    }
  }

  /** ReadingsSound at a held rank n: the reading starts with the run or the triplet at n. */
  lemma {:induction false} HeldSound(c: char, row: seq<int>, n: int, l: seq<string>)
    requires X.SuitRow(row) && 1 <= n <= 9 && row[n] != 0
    requires forall i :: 1 <= i < n ==> row[i] == 0
    requires l in Readings(c, row, n)
    ensures forall t :: t in l ==> SuitMeld(c, t)
    ensures forall k :: 1 <= k <= 9 ==> RankCount(l, k) == row[k]
    ensures 3 * |l| == SumFrom(row, 1)
    decreases SumFrom(row, 1), 10 - n, 1
  {
    var run, l' := ReadingsPick(c, row, n, l);
    if run {
      RunSound(c, row, n, l');
    } else {
      TripletSound(c, row, n, l');
    }
  }

  /** A reading from a held rank n starts with the run or the triplet at n, followed by a reading of the rest. */
  lemma ReadingsPick(c: char, row: seq<int>, n: int, l: seq<string>) returns (run: bool, l': seq<string>)
    requires X.SuitRow(row) && 1 <= n <= 9 && row[n] != 0
    requires l in Readings(c, row, n)
    ensures run ==> X.CanRun(row, n) && l' in Readings(c, X.TakeRun(row, n), n) && l == [RunBlock(c, n)] + l'
    ensures !run ==> row[n] == 3 && l' in Readings(c, X.TakePung(row, n), n + 1) && l == [TripletBlock(c, n)] + l'
  {
    var runs := if X.CanRun(row, n) then PrefixAll(RunBlock(c, n), Readings(c, X.TakeRun(row, n), n)) else [];
    var pungs := if row[n] == 3 then PrefixAll(TripletBlock(c, n), Readings(c, X.TakePung(row, n), n + 1)) else [];
    assert Readings(c, row, n) == runs + pungs;
    if l in runs {
      var i :| 0 <= i < |runs| && runs[i] == l;
      run, l' := true, Readings(c, X.TakeRun(row, n), n)[i];
    } else {
      var i :| 0 <= i < |pungs| && pungs[i] == l;
      run, l' := false, Readings(c, X.TakePung(row, n), n + 1)[i];
    }
  }

  lemma {:induction false} RunSound(c: char, row: seq<int>, n: int, l': seq<string>)
    requires X.SuitRow(row) && 1 <= n <= 9 && X.CanRun(row, n)
    requires forall i :: 1 <= i < n ==> row[i] == 0
    requires l' in Readings(c, X.TakeRun(row, n), n)
    ensures var l := [RunBlock(c, n)] + l';
      (forall t :: t in l ==> SuitMeld(c, t))
      && (forall k :: 1 <= k <= 9 ==> RankCount(l, k) == row[k])
      && 3 * |l| == SumFrom(row, 1)
    decreases SumFrom(row, 1), 10 - n, 0
  {
    var rest := X.TakeRun(row, n);
    ReadingsSound(c, rest, n, l');
    PrefixSound(c, RunBlock(c, n), l', row, rest);
    forall k | 1 <= k <= 9
      ensures RankCount([RunBlock(c, n)] + l', k) == row[k]
    {
      RunOccurrences(c, n, k);
    }
  }

  lemma {:induction false} TripletSound(c: char, row: seq<int>, n: int, l': seq<string>)
    requires X.SuitRow(row) && 1 <= n <= 9 && row[n] == 3
    requires forall i :: 1 <= i < n ==> row[i] == 0
    requires l' in Readings(c, X.TakePung(row, n), n + 1)
    ensures var l := [TripletBlock(c, n)] + l';
      (forall t :: t in l ==> SuitMeld(c, t))
      && (forall k :: 1 <= k <= 9 ==> RankCount(l, k) == row[k])
      && 3 * |l| == SumFrom(row, 1)
    decreases SumFrom(row, 1), 10 - n, 0
  {
    var rest := X.TakePung(row, n);
    ReadingsSound(c, rest, n + 1, l');
    PrefixSound(c, TripletBlock(c, n), l', row, rest);
    forall k | 1 <= k <= 9
      ensures RankCount([TripletBlock(c, n)] + l', k) == row[k]
    {
      TripletOccurrences(c, n, k);
    }
  }

  /** One step of ReadingsSound: a meld put in front of a sound reading of what is left. */
  lemma PrefixSound(c: char, b: string, l': seq<string>, row: seq<int>, rest: seq<int>)
    requires SuitMeld(c, b) && |b| == 4
    requires forall t :: t in l' ==> SuitMeld(c, t)
    requires 3 * |l'| == SumFrom(rest, 1) && SumFrom(rest, 1) == SumFrom(row, 1) - 3
    ensures var l := [b] + l';
      (forall t :: t in l ==> SuitMeld(c, t))
      && 3 * |l| == SumFrom(row, 1)
      && forall k :: 0 <= k <= 9 ==> RankCount(l, k) == Occurrences(b[1..], DigitChar(k)) + RankCount(l', k)
  {
    var l := [b] + l';
    assert l[1..] == l';
  }

  /** The tiles of ranks 1..9 of row, split into the runs and triplets l of suit c. */
  predicate SuitSplit(c: char, row: seq<int>, l: seq<string>)
    requires |row| == 10
  {
    (forall t :: t in l ==> SuitMeld(c, t)) && forall k :: 1 <= k <= 9 ==> RankCount(l, k) == row[k]
  }

  /**
   * The per-suit search is complete: however the tiles of ranks n..9 split
   * into runs and triplets of the suit, `mianzi` lists that split, with its
   * blocks in the order the search takes them.  Every rank holds at most
   * four tiles, as in any hand.
   */
  lemma {:induction false} ReadingsComplete(c: char, row: seq<int>, n: int, l: seq<string>) returns (l2: seq<string>)
    requires X.SuitRow(row) && 1 <= n <= 10 && forall k :: 1 <= k <= 9 ==> row[k] <= 4
    requires forall i :: 1 <= i < n ==> row[i] == 0
    requires SuitSplit(c, row, l)
    ensures l2 in Readings(c, row, n) && multiset(l2) == multiset(l)
    decreases SumFrom(row, 1), 10 - n, 1
  {
    if n > 9 {
      EmptySplit(c, row, l);
      l2 := [];
    } else if row[n] == 0 {
      l2 := ReadingsComplete(c, row, n + 1, l);
    } else if n <= 7 && RunBlock(c, n) in l {
      var j :| 0 <= j < |l| && l[j] == RunBlock(c, n);
      l2 := RunComplete(c, row, n, l, j);
    } else {
      l2 := TripletComplete(c, row, n, l);
    }
  }

  /** With no tile left, the only split is the empty one. */
  lemma EmptySplit(c: char, row: seq<int>, l: seq<string>)
    requires |row| == 10 && SuitSplit(c, row, l) && forall k :: 1 <= k <= 9 ==> row[k] == 0
    ensures l == []
  {
    if l != [] {
      assert l[0] in l;
      var m, run := MeldRank(c, l[0]);
      RankCountRemove(l, 0, m);
      if run {
        RunOccurrences(c, m, m);
      } else {
        TripletOccurrences(c, m, m);
      }
    }
  }

  /** ReadingsComplete when the split takes the run starting at n. */
  lemma {:induction false} RunComplete(c: char, row: seq<int>, n: int, l: seq<string>, j: int) returns (l2: seq<string>)
    requires X.SuitRow(row) && 1 <= n <= 7 && row[n] > 0 && forall k :: 1 <= k <= 9 ==> row[k] <= 4
    requires forall i :: 1 <= i < n ==> row[i] == 0
    requires SuitSplit(c, row, l) && 0 <= j < |l| && l[j] == RunBlock(c, n)
    ensures l2 in Readings(c, row, n) && multiset(l2) == multiset(l)
    decreases SumFrom(row, 1), 10 - n, 0
  {
    var run := RunBlock(c, n);
    var l' := Without(l, j);
    forall k | 1 <= k <= 9
      ensures RankCount(l, k) == (if n <= k <= n + 2 then 1 else 0) + RankCount(l', k)
    {
      RunOccurrences(c, n, k);
    }
    assert X.CanRun(row, n);
    var rest := X.TakeRun(row, n);
    var l2' := ReadingsComplete(c, rest, n, l');
    var rs := Readings(c, rest, n);
    var i :| 0 <= i < |rs| && rs[i] == l2';
    l2 := [run] + l2';
    assert PrefixAll(run, rs)[i] == l2;
    ReadingsRun(c, row, n);
  }

  /** The readings from a held rank n where a run can start begin with those that take the run. */
  lemma ReadingsRun(c: char, row: seq<int>, n: int)
    requires X.SuitRow(row) && 1 <= n <= 9 && row[n] > 0 && X.CanRun(row, n)
    ensures forall r :: r in PrefixAll(RunBlock(c, n), Readings(c, X.TakeRun(row, n), n)) ==> r in Readings(c, row, n)
  {
  }

  /** ReadingsComplete when the split takes no run at n: the three tiles of rank n form the triplet. */
  lemma {:induction false} TripletComplete(c: char, row: seq<int>, n: int, l: seq<string>) returns (l2: seq<string>)
    requires X.SuitRow(row) && 1 <= n <= 9 && row[n] > 0 && forall k :: 1 <= k <= 9 ==> row[k] <= 4
    requires forall i :: 1 <= i < n ==> row[i] == 0
    requires SuitSplit(c, row, l) && (n <= 7 ==> RunBlock(c, n) !in l)
    ensures l2 in Readings(c, row, n) && multiset(l2) == multiset(l)
    decreases SumFrom(row, 1), 10 - n, 0
  {
    var j := RankHolder(l, n);
    LowestBlock(c, row, n, l, j);
    var pung := TripletBlock(c, n);
    var l' := Without(l, j);
    forall k | 1 <= k <= 9
      ensures RankCount(l, k) == (if k == n then 3 else 0) + RankCount(l', k)
    {
      TripletOccurrences(c, n, k);
    }
    var rest := X.TakePung(row, n);
    TripletAlone(c, rest, n, l');
    var l2' := ReadingsComplete(c, rest, n + 1, l');
    var rs := Readings(c, rest, n + 1);
    var i :| 0 <= i < |rs| && rs[i] == l2';
    l2 := [pung] + l2';
    assert PrefixAll(pung, rs)[i] == l2;
    ReadingsTriplet(c, row, n);
  }

  /** The readings from a rank n held three times end with those that take the triplet. */
  lemma ReadingsTriplet(c: char, row: seq<int>, n: int)
    requires X.SuitRow(row) && 1 <= n <= 9 && row[n] == 3
    ensures forall r :: r in PrefixAll(TripletBlock(c, n), Readings(c, X.TakePung(row, n), n + 1)) ==> r in Readings(c, row, n)
  {
  }

  /** With nothing below rank n and no run at n, rank n is held zero times or at least three. */
  lemma TripletAlone(c: char, row: seq<int>, n: int, l: seq<string>)
    requires |row| == 10 && 1 <= n <= 9 && SuitSplit(c, row, l) && (n <= 7 ==> RunBlock(c, n) !in l)
    requires forall i :: 1 <= i < n ==> row[i] == 0
    ensures row[n] == 0 || row[n] >= 3
  {
    if row[n] > 0 {
      var j := RankHolder(l, n);
      LowestBlock(c, row, n, l, j);
      assert l[j] in l;
      RankCountRemove(l, j, n);
      TripletOccurrences(c, n, n);
    }
  }

  /**
   * When no tile below rank n is left, a block of the split that holds a
   * tile of rank n is the run or the triplet starting at n.
   */
  lemma LowestBlock(c: char, row: seq<int>, n: int, l: seq<string>, j: int)
    requires |row| == 10 && 1 <= n <= 9 && SuitSplit(c, row, l)
    requires forall i :: 1 <= i < n ==> row[i] == 0
    requires 0 <= j < |l| && |l[j]| > 0 && Occurrences(l[j][1..], DigitChar(n)) > 0
    ensures (n <= 7 && l[j] == RunBlock(c, n)) || l[j] == TripletBlock(c, n)
  {
    assert l[j] in l;
    var m, run := MeldRank(c, l[j]);
    RankCountRemove(l, j, m);
    if run {
      RunOccurrences(c, m, n);
      RunOccurrences(c, m, m);
    } else {
      TripletOccurrences(c, m, n);
    }
  }

  /** The rank a run or a triplet starts at, and which of the two it is. */
  lemma MeldRank(c: char, t: string) returns (m: int, run: bool)
    requires SuitMeld(c, t)
    ensures 1 <= m <= 9 && (run ==> m <= 7 && t == RunBlock(c, m)) && (!run ==> t == TripletBlock(c, m))
  {
    m :| 1 <= m <= 9 && ((m <= 7 && t == RunBlock(c, m)) || t == TripletBlock(c, m));
    run := m <= 7 && t == RunBlock(c, m);
  }

  /** RankCount adds up over a concatenation. */
  lemma {:induction false} RankCountAppend(a: seq<string>, b: seq<string>, k: int)
    requires 0 <= k <= 9
    ensures RankCount(a + b, k) == RankCount(a, k) + RankCount(b, k)
  {
    if a == [] {
      assert a + b == b;
    } else {
      assert (a + b)[0] == a[0] && (a + b)[1..] == a[1..] + b;
      RankCountAppend(a[1..], b, k);
    }
  }

  /** l with block j taken out: the block's digits leave every count, and nothing else changes. */
  lemma Without(l: seq<string>, j: int) returns (l': seq<string>)
    requires 0 <= j < |l| && |l[j]| > 0
    ensures multiset(l) == multiset{l[j]} + multiset(l') && forall t :: t in l' ==> t in l
    ensures forall k :: 0 <= k <= 9 ==> RankCount(l, k) == Occurrences(l[j][1..], DigitChar(k)) + RankCount(l', k)
  {
    l' := l[..j] + l[j + 1..];
    assert l == l[..j] + [l[j]] + l[j + 1..];
    forall k | 0 <= k <= 9
      ensures RankCount(l, k) == Occurrences(l[j][1..], DigitChar(k)) + RankCount(l', k)
    {
      RankCountRemove(l, j, k);
    }
  }

  /** Taking block j out of l takes its digits out of the count. */
  lemma RankCountRemove(l: seq<string>, j: int, k: int)
    requires 0 <= j < |l| && 0 <= k <= 9 && |l[j]| > 0
    ensures RankCount(l, k) == Occurrences(l[j][1..], DigitChar(k)) + RankCount(l[..j] + l[j + 1..], k)
  {
    assert l == l[..j] + ([l[j]] + l[j + 1..]);
    RankCountAppend(l[..j], [l[j]] + l[j + 1..], k);
    RankCountAppend([l[j]], l[j + 1..], k);
    RankCountAppend(l[..j], l[j + 1..], k);
    assert [l[j]][1..] == [];
  }

  /** A rank counted in l is held by some block of l. */
  lemma {:induction false} RankHolder(l: seq<string>, k: int) returns (j: int)
    requires 0 <= k <= 9 && RankCount(l, k) > 0
    ensures 0 <= j < |l| && |l[j]| > 0 && Occurrences(l[j][1..], DigitChar(k)) > 0
  {
    if |l[0]| > 0 && Occurrences(l[0][1..], DigitChar(k)) > 0 {
      j := 0;
    } else {
      var j' := RankHolder(l[1..], k);
      j := j' + 1;
    }
  }

  // ---------------------------------------------------------------------
  // mianzi_all: the readings of the whole hand into melds

  /** `[mm + nn for mm in xs for nn in ys]`, in that order. */
  function Cross(xs: seq<seq<string>>, ys: seq<seq<string>>): (r: seq<seq<string>>)
    ensures |r| == |xs| * |ys|
    decreases |xs|
  {
    if xs == [] then []
    else Cross(xs[..|xs| - 1], ys) + seq(|ys|, j requires 0 <= j < |ys| => xs[|xs| - 1] + ys[j])
  }
  /** Cross holds exactly the joins of one list of each. */
  lemma {:induction false} CrossMembers(xs: seq<seq<string>>, ys: seq<seq<string>>, r: seq<string>)
    ensures r in Cross(xs, ys) <==> exists i, j :: 0 <= i < |xs| && 0 <= j < |ys| && r == xs[i] + ys[j]
    decreases |xs|
  {
    if xs != [] {
      var xs' := xs[..|xs| - 1];
      CrossMembers(xs', ys, r);
      var tail := seq(|ys|, j requires 0 <= j < |ys| => xs[|xs| - 1] + ys[j]);
      assert r in Cross(xs, ys) <==> r in Cross(xs', ys) || r in tail;
      if r in Cross(xs', ys) {
        var i, j :| 0 <= i < |xs'| && 0 <= j < |ys| && r == xs'[i] + ys[j];
        assert xs[i] == xs'[i];
      }
      if exists i, j :: 0 <= i < |xs| && 0 <= j < |ys| && r == xs[i] + ys[j] {
        var i, j :| 0 <= i < |xs| && 0 <= j < |ys| && r == xs[i] + ys[j];
        if i < |xs| - 1 {
          assert xs'[i] == xs[i];
        } else {
          assert tail[j] == r;
        }
      }
    }
  }

  /** The honour loop of `mianzi_all` over ranks 1..n-1: each held honour must be a triplet. */
  function HonourTriplets(z: seq<int>, n: int): Option<seq<string>>
    requires |z| == 8 && 1 <= n <= 8
  {
    if n == 1 then Some([])
    else match HonourTriplets(z, n - 1)
      case None => None
      case Some(acc) =>
        if z[n - 1] == 0 then Some(acc)
        else if z[n - 1] != 3 then None
        else Some(acc + [TripletBlock('z', n - 1)])
  }

  /** `m.replace('0', '5')` for every declared meld. */
  function NormalFulou(f: seq<string>): (r: seq<string>)
    ensures |r| == |f| && forall i :: 0 <= i < |f| ==> r[i] == Replace(f[i], '0', '5')
  {
    seq(|f|, i requires 0 <= i < |f| => Replace(f[i], '0', '5'))
  }

  /** The readings of the first k numeral suits, combined suit by suit in the order m, p, s. */
  function ShupaiUpTo(b: Bingpai, k: int): seq<seq<string>>
    requires X.CountsOk(b) && 0 <= k <= 3
  {
    if k == 0 then [[]] else Cross(ShupaiUpTo(b, k - 1), Readings("mps"[k - 1], b.Row("mps"[k - 1]), 1))
  }

  /**
   * `mianzi_all(shoupai)`: every reading of the concealed tiles into melds,
   * each followed by the honour triplets and the declared melds (red fives
   * written as fives); none when an honour is held other than three times.
   */
  function MianziAllSpec(b: Bingpai, f: seq<string>): seq<seq<string>>
    requires X.CountsOk(b)
  {
    match HonourTriplets(b.z, 8)
      case None => []
      case Some(zipai) => AppendEach(ShupaiUpTo(b, 3), zipai + NormalFulou(f))
  }

  /** `[x + tail for x in xs]`. */
  function AppendEach(xs: seq<seq<string>>, tail: seq<string>): (r: seq<seq<string>>)
    ensures |r| == |xs|
  {
    if xs == [] then [] else AppendEach(xs[..|xs| - 1], tail) + [xs[|xs| - 1] + tail]
  }

  /** `mianzi_all(shoupai)` on the hand's arrays; the counts are as before on return. */
  method MianziAll(sp: Shoupai) returns (r: seq<seq<string>>)
    requires sp.Shaped() && X.CountsOk(sp.Value().bingpai)
    modifies sp.m, sp.p, sp.s
    ensures sp.Value() == old(sp.Value())
    ensures r == MianziAllSpec(sp.Value().bingpai, sp.fulou)
  {
    ghost var b := sp.Value().bingpai;
    var shupaiAll := [[]];
    for k := 0 to 3
      invariant sp.Value() == old(sp.Value())
      invariant shupaiAll == ShupaiUpTo(b, k)
    {
      var c := "mps"[k];
      sp.ArrRow(c);
      shupaiAll := CrossSuit(shupaiAll, c, sp.Arr(c));
    }
    var zipai := Zipai(sp.z);
    if zipai.None? {
      return [];
    }
    var fulou := NormalFulou(sp.fulou);
    r := AppendEach(shupaiAll, zipai.value + fulou);
  }

  /** AppendEach holds exactly the lists of xs with the tail appended. */
  lemma {:induction false} AppendEachMembers(xs: seq<seq<string>>, tail: seq<string>, r: seq<string>)
    ensures r in AppendEach(xs, tail) <==> exists i :: 0 <= i < |xs| && r == xs[i] + tail
  {
    if xs != [] {
      AppendEachMembers(xs[..|xs| - 1], tail, r);
      if exists i :: 0 <= i < |xs| && r == xs[i] + tail {
        var i :| 0 <= i < |xs| && r == xs[i] + tail;
        if i < |xs| - 1 {
          assert xs[..|xs| - 1][i] == xs[i];
        }
      }
    }
  }

  /** One pass of the suit loop of `mianzi_all`: every reading so far joined with every reading of suit c. */
  method CrossSuit(shupaiAll: seq<seq<string>>, c: char, a: array<int>) returns (newMianzi: seq<seq<string>>)
    requires X.SuitRow(a[..])
    modifies a
    ensures a[..] == old(a[..])
    ensures newMianzi == Cross(shupaiAll, Readings(c, a[..], 1))
  {
    ghost var row := a[..];
    newMianzi := [];
    var i := 0;
    while i < |shupaiAll|
      invariant 0 <= i <= |shupaiAll|
      invariant a[..] == row
      invariant newMianzi == Cross(shupaiAll[..i], Readings(c, row, 1))
    {
      var nn := Mianzi(c, a, 1);
      var joined := JoinEach(shupaiAll[i], nn);
      newMianzi := newMianzi + joined;
      assert shupaiAll[..i + 1][..i] == shupaiAll[..i];
      i := i + 1;
    }
    assert shupaiAll[..i] == shupaiAll;
  }

  /** The inner loop of the suit pass: one reading so far joined with each reading of the suit, in order. */
  method JoinEach(x: seq<string>, nn: seq<seq<string>>) returns (r: seq<seq<string>>)
    ensures r == seq(|nn|, j requires 0 <= j < |nn| => x + nn[j])
  {
    r := [];
    var j := 0;
    while j < |nn|
      invariant 0 <= j <= |nn|
      invariant r == seq(j, t requires 0 <= t < j => x + nn[t])
    {
      r := r + [x + nn[j]];
      j := j + 1;
    }
  }

  /** The honour loop of `mianzi_all`: the honour triplets, or None at the first honour held other than three times. */
  method Zipai(z: array<int>) returns (r: Option<seq<string>>)
    requires z.Length == 8
    ensures r == HonourTriplets(z[..], 8)
  {
    var zipai := [];
    var n := 1;
    while n < 8
      invariant 1 <= n <= 8
      invariant HonourTriplets(z[..], n) == Some(zipai)
    {
      if z[n] != 0 {
        if z[n] != 3 {
          HonourFailureStays(z[..], n + 1);
          return None;
        }
        zipai := zipai + [TripletBlock('z', n)];
      }
      n := n + 1;
    }
    r := Some(zipai);
  }

  /** Once an honour is held other than zero or three times, the honour loop fails for good. */
  lemma {:induction false} HonourFailureStays(z: seq<int>, n: int)
    requires |z| == 8 && 1 <= n <= 8 && HonourTriplets(z, n) == None
    ensures HonourTriplets(z, 8) == None
    decreases 8 - n
  {
    if n < 8 {
      HonourFailureStays(z, n + 1);
    }
  }

  /**
   * The honour loop succeeds exactly when every honour is held zero or
   * three times, and then lists one triplet per honour held.
   */
  lemma {:induction false} HonourTripletsIff(z: seq<int>, n: int)
    requires |z| == 8 && 1 <= n <= 8
    ensures HonourTriplets(z, n).Some? <==> forall k :: 1 <= k < n ==> z[k] == 0 || z[k] == 3
    ensures HonourTriplets(z, n).Some? ==>
      var zp := HonourTriplets(z, n).value;
      (forall t :: t in zp ==> exists k :: 1 <= k < n && z[k] == 3 && t == TripletBlock('z', k))
      && 3 * |zp| == SumFrom(z[..n], 1)
  {
    if n > 1 {
      HonourTripletsIff(z, n - 1);
      SumFromPrefix(z, n - 1);
    } else {
      assert z[..n] == [z[0]];
    }
  }

  /** Extending the prefix by one slot adds that slot to the sum from 1. */
  lemma SumFromPrefix(z: seq<int>, n: int)
    requires 1 <= n < |z|
    ensures SumFrom(z[..n + 1], 1) == SumFrom(z[..n], 1) + z[n]
  {
    SumFromSplit(z[..n + 1], 1, n);
    SumFromUnchanged(z[..n + 1][..n], z[..n], 1);
  }

  /** The sum from i of a list whose last slot is k: the sum of the slots before it plus that slot. */
  lemma {:induction false} SumFromSplit(t: seq<int>, i: nat, k: nat)
    requires i <= k && k + 1 == |t|
    ensures SumFrom(t, i) == SumFrom(t[..k], i) + t[k]
    decreases k - i
  {
    if i < k {
      SumFromSplit(t, i + 1, k);
    }
  }

  /**
   * Every reading of `mianzi_all` is a reading of the m tiles, one of the p
   * tiles and one of the s tiles, then the honour triplets, then the
   * declared melds.
   */
  lemma MianziAllParts(b: Bingpai, f: seq<string>, r: seq<string>)
    requires X.CountsOk(b) && r in MianziAllSpec(b, f)
    ensures HonourTriplets(b.z, 8).Some?
    ensures exists lm, lp, ls ::
      (lm in Readings('m', b.m, 1) && lp in Readings('p', b.p, 1) && ls in Readings('s', b.s, 1)
       && r == lm + lp + ls + HonourTriplets(b.z, 8).value + NormalFulou(f))
  {
    var rm, rp, rs := Readings('m', b.m, 1), Readings('p', b.p, 1), Readings('s', b.s, 1);
    var zp, fn := HonourTriplets(b.z, 8).value, NormalFulou(f);
    var shupai := ShupaiUpTo(b, 3);
    var xm := Cross([[]], rm);
    var xp := Cross(xm, rp);
    assert ShupaiUpTo(b, 1) == xm;
    assert ShupaiUpTo(b, 2) == xp;
    assert shupai == Cross(xp, rs);
    AppendEachMembers(shupai, zp + fn, r);
    var i :| 0 <= i < |shupai| && r == shupai[i] + (zp + fn);
    var lm, lp, ls := ThreeParts(rm, rp, rs, shupai[i]);
    assert r == lm + lp + ls + zp + fn;
  }

  /** A member of the triple cross product splits into one list of each. */
  lemma ThreeParts(rm: seq<seq<string>>, rp: seq<seq<string>>, rs: seq<seq<string>>, t: seq<string>)
    returns (lm: seq<string>, lp: seq<string>, ls: seq<string>)
    requires t in Cross(Cross(Cross([[]], rm), rp), rs)
    ensures lm in rm && lp in rp && ls in rs && t == lm + lp + ls
  {
    var xm := Cross([[]], rm);
    var xp := Cross(xm, rp);
    CrossMembers(xp, rs, t);
    var i2, j2 :| 0 <= i2 < |xp| && 0 <= j2 < |rs| && t == xp[i2] + rs[j2];
    CrossMembers(xm, rp, xp[i2]);
    var i1, j1 :| 0 <= i1 < |xm| && 0 <= j1 < |rp| && xp[i2] == xm[i1] + rp[j1];
    CrossMembers([[]], rm, xm[i1]);
    var i0, j0 :| 0 <= i0 < 1 && 0 <= j0 < |rm| && xm[i1] == [[]][i0] + rm[j0];
    lm, lp, ls := rm[j0], rp[j1], rs[j2];
    assert xm[i1] == lm;
  }

  /**
   * Every reading of `mianzi_all` uses each concealed tile once: three
   * times the number of its blocks other than the declared melds is the
   * number of tiles held in rank slots.
   */
  lemma MianziAllCount(b: Bingpai, f: seq<string>, r: seq<string>)
    requires X.CountsOk(b) && r in MianziAllSpec(b, f)
    ensures 3 * (|r| - |f|) == SumFrom(b.m, 1) + SumFrom(b.p, 1) + SumFrom(b.s, 1) + SumFrom(b.z, 1)
  {
    MianziAllParts(b, f, r);
    var lm, lp, ls :| lm in Readings('m', b.m, 1) && lp in Readings('p', b.p, 1) && ls in Readings('s', b.s, 1)
      && r == lm + lp + ls + HonourTriplets(b.z, 8).value + NormalFulou(f);
    ReadingsSound('m', b.m, 1, lm);
    ReadingsSound('p', b.p, 1, lp);
    ReadingsSound('s', b.s, 1, ls);
    HonourTripletsIff(b.z, 8);
    assert b.z[..8] == b.z;
  }

  /** An honour held once, twice or four times leaves `mianzi_all` with no reading. */
  lemma MianziAllHonours(b: Bingpai, f: seq<string>)
    requires X.CountsOk(b)
    ensures MianziAllSpec(b, f) != [] ==> forall k :: 1 <= k < 8 ==> b.z[k] == 0 || b.z[k] == 3
  {
    HonourTripletsIff(b.z, 8);
  }

  // ---------------------------------------------------------------------
  // add_hulepai: marking the winning tile

  /** The last index of x in t, or -1 when t has none. */
  function LastIndex(t: string, x: char): (j: int)
    ensures -1 <= j < |t|
    ensures j >= 0 ==> t[j] == x
    ensures forall i :: j < i < |t| ==> t[i] != x
    decreases |t|
  {
    if t == [] then -1
    else if t[|t| - 1] == x then |t| - 1
    else LastIndex(t[..|t| - 1], x)
  }

  /** `re.search('^(s.*n)', t)`: t starts with s and holds n after it. */
  predicate WinMatch(t: string, s: char, n: char)
  {
    |t| > 0 && t[0] == s && LastIndex(t, n) >= 1
  }

  /**
   * `re.sub('^(s.*n)', '\\1' + d + '!', t)`: as `.*` is greedy, d and `!`
   * go right after the last n of a block that starts with s; any other
   * block is left as it is.
   */
  function MarkBlock(t: string, s: char, n: char, d: char): (r: string)
    ensures !WinMatch(t, s, n) ==> r == t
    ensures WinMatch(t, s, n) ==> |r| == |t| + 2
  {
    if WinMatch(t, s, n) then
      var j := LastIndex(t, n);
      t[..j + 1] + [d, '!'] + t[j + 1..]
    else t
  }

  /** The mark goes right after the last copy of the winning rank, which lies past the suit letter. */
  lemma MarkBlockPlace(t: string, s: char, n: char, d: char)
    requires WinMatch(t, s, n)
    ensures var j := LastIndex(t, n); var r := MarkBlock(t, s, n, d);
      1 <= j < |t| && t[j] == n && (forall i :: j < i < |t| ==> t[i] != n)
      && r[..j + 1] == t[..j + 1] && r[j + 1] == d && r[j + 2] == '!' && r[j + 3..] == t[j + 1..]
  {
    var j := LastIndex(t, n);
    assert MarkBlock(t, s, n, d) == t[..j + 1] + [d, '!'] + t[j + 1..];
    Splice(t, j, d);
  }

  /** The text t with d and `!` put in after position j. */
  lemma Splice(t: string, j: int, d: char)
    requires 0 <= j < |t|
    ensures var r := t[..j + 1] + [d, '!'] + t[j + 1..];
      r[..j + 1] == t[..j + 1] && r[j + 1] == d && r[j + 2] == '!' && r[j + 3..] == t[j + 1..]
  {
    var a, z := t[..j + 1], t[j + 1..];
    var r := a + [d, '!'] + z;
    assert |a| == j + 1;
    assert r[..j + 1] == a;
    assert r[j + 3..] == z;
  }

  /** `re.search(r'[\+\=\-]|\d{4}', t)`: a meld called from another seat, or a quad. */
  predicate CalledOrQuad(t: string)
  {
    (exists i :: 0 <= i < |t| && IsDirection(t[i]))
    || (exists i :: 0 <= i && i + 3 < |t| && FourDigitsAt(t, i))
  }

  /** `\d{4}` matches at index i. */
  predicate FourDigitsAt(t: string, i: int)
    requires 0 <= i && i + 3 < |t|
  {
    IsDigit(t[i]) && IsDigit(t[i + 1]) && IsDigit(t[i + 2]) && IsDigit(t[i + 3])
  }

  /** Block i of ms is marked: it is concealed, differs from the block before it, and holds the winning tile. */
  predicate Markable(ms: seq<string>, i: int, hp: string)
    requires 0 <= i < |ms| && |hp| == 3
  {
    !CalledOrQuad(ms[i]) && !(i > 0 && ms[i] == ms[i - 1]) && WinMatch(ms[i], hp[0], hp[1])
  }

  /** The reading ms with block i marked for the winning tile hp. */
  function MarkedAt(ms: seq<string>, i: int, hp: string): seq<string>
    requires 0 <= i < |ms| && |hp| == 3
  {
    ms[i := MarkBlock(ms[i], hp[0], hp[1], hp[2])]
  }

  /** `add_hulepai(ms, hp)` over blocks 0..k-1: one marked copy of ms per markable block, in block order. */
  function MarkedReadings(ms: seq<string>, hp: string, k: int): seq<seq<string>>
    requires |hp| == 3 && 0 <= k <= |ms|
  {
    if k == 0 then []
    else MarkedReadings(ms, hp, k - 1) + (if Markable(ms, k - 1, hp) then [MarkedAt(ms, k - 1, hp)] else [])
  }

  /** `add_hulepai(mianzi, p)`: the loop over the blocks, copying the reading for each block it can mark. */
  method AddHulepai(ms: seq<string>, hp: string) returns (r: seq<seq<string>>)
    requires |hp| == 3
    ensures r == MarkedReadings(ms, hp, |ms|)
  {
    var s, n, d := hp[0], hp[1], hp[2];
    r := [];
    for i := 0 to |ms|
      invariant r == MarkedReadings(ms, hp, i)
    {
      if CalledOrQuad(ms[i]) {
        continue;
      }
      if i > 0 && ms[i] == ms[i - 1] {
        continue;
      }
      var m := MarkBlock(ms[i], s, n, d);
      if m == ms[i] {
        continue;
      }
      var tmp := ms[i := m];
      r := r + [tmp];
    }
  }

  /** The readings `add_hulepai` returns are exactly the markings of the markable blocks. */
  lemma MarkedReadingsIff(ms: seq<string>, hp: string, k: int, r: seq<string>)
    requires |hp| == 3 && 0 <= k <= |ms|
    ensures r in MarkedReadings(ms, hp, k) <==>
      exists i {:trigger Markable(ms, i, hp)} :: 0 <= i < k && Markable(ms, i, hp) && r == MarkedAt(ms, i, hp)
  {
    if r in MarkedReadings(ms, hp, k) {
      MarkedReadingsSound(ms, hp, k, r);
    }
    if exists i {:trigger Markable(ms, i, hp)} :: 0 <= i < k && Markable(ms, i, hp) && r == MarkedAt(ms, i, hp) {
      var i :| 0 <= i < k && Markable(ms, i, hp) && r == MarkedAt(ms, i, hp);
      MarkedReadingsHas(ms, hp, k, i);
    }
  }

  lemma {:induction false} MarkedReadingsSound(ms: seq<string>, hp: string, k: int, r: seq<string>)
    requires |hp| == 3 && 0 <= k <= |ms| && r in MarkedReadings(ms, hp, k)
    ensures exists i {:trigger Markable(ms, i, hp)} :: 0 <= i < k && Markable(ms, i, hp) && r == MarkedAt(ms, i, hp)
  {
    if r in MarkedReadings(ms, hp, k - 1) {
      MarkedReadingsSound(ms, hp, k - 1, r);
    } else {
      assert Markable(ms, k - 1, hp) && r == MarkedAt(ms, k - 1, hp);
    }
  }

  lemma {:induction false} MarkedReadingsHas(ms: seq<string>, hp: string, k: int, i: int)
    requires |hp| == 3 && 0 <= i < k <= |ms| && Markable(ms, i, hp)
    ensures MarkedAt(ms, i, hp) in MarkedReadings(ms, hp, k)
  {
    if i < k - 1 {
      MarkedReadingsHas(ms, hp, k - 1, i);
    }
  }

  /** The blocks of a reading that carry the `!` of a winning-tile mark. */
  function MarkedBlocks(r: seq<string>): set<int>
  {
    set j | 0 <= j < |r| && '!' in r[j]
  }

  /**
   * When no block carries a `!` yet, each reading `add_hulepai` returns
   * carries exactly one, on a concealed block holding the winning tile,
   * and every other block is unchanged.
   */
  lemma MarkedOnce(ms: seq<string>, hp: string, r: seq<string>)
    requires |hp| == 3 && forall t :: t in ms ==> '!' !in t
    requires r in MarkedReadings(ms, hp, |ms|)
    ensures |r| == |ms| && |MarkedBlocks(r)| == 1
    ensures forall i :: i in MarkedBlocks(r) ==>
      !CalledOrQuad(ms[i]) && WinMatch(ms[i], hp[0], hp[1]) && r == MarkedAt(ms, i, hp)
  {
    MarkedReadingsIff(ms, hp, |ms|, r);
    var i :| 0 <= i < |ms| && Markable(ms, i, hp) && r == MarkedAt(ms, i, hp);
    MarkedAtBlocks(ms, i, hp);
    OnlyMember(MarkedBlocks(r), i);
  }

  lemma OnlyMember(m: set<int>, i: int)
    requires m == {i}
    ensures |m| == 1 && forall i' :: i' in m ==> i' == i
  {
  }

  lemma MarkedAtBlocks(ms: seq<string>, i: int, hp: string)
    requires |hp| == 3 && forall t :: t in ms ==> '!' !in t
    requires 0 <= i < |ms| && WinMatch(ms[i], hp[0], hp[1])
    ensures MarkedBlocks(MarkedAt(ms, i, hp)) == {i}
  {
    var r := MarkedAt(ms, i, hp);
    var t := ms[i];
    MarkBlockPlace(t, hp[0], hp[1], hp[2]);
    var j := LastIndex(t, hp[1]);
    assert r[i][j + 2] == '!';
    forall j' | 0 <= j' < |r| && j' != i
      ensures '!' !in r[j']
    {
      assert ms[j'] in ms;
    }
  }

  // ---------------------------------------------------------------------
  // hule_mianzi_yiban: a pair and four melds

  /**
   * The inner loop of `hule_mianzi_yiban` over readings 0..k-1 of the rest:
   * the pair put in front, readings of other than five blocks dropped, the
   * winning tile marked.
   */
  function WithPair(pair: string, mms: seq<seq<string>>, hp: string, k: int): seq<seq<string>>
    requires |hp| == 3 && 0 <= k <= |mms|
  {
    if k == 0 then []
    else
      var mm := [pair] + mms[k - 1];
      WithPair(pair, mms, hp, k - 1) + (if |mm| != 5 then [] else MarkedReadings(mm, hp, |mm|))
  }

  /** The counts with two tiles of slot (c, n) taken out as the pair. */
  function LessPair(b: Bingpai, c: char, n: int): (r: Bingpai)
    requires X.CountsOk(b) && IsSuit(c) && 1 <= n < |b.Row(c)| && b.Row(c)[n] >= 2
    ensures X.CountsOk(r) && r.Row(c) == b.Row(c)[n := b.Row(c)[n] - 2]
  {
    b.Bump(c, n, -2)
  }

  /** The readings whose pair is the kind (c, n): none unless it is held twice or more. */
  function PairPart(h: HandState, c: char, n: int, hp: string): seq<seq<string>>
    requires X.CountsOk(h.bingpai) && IsSuit(c) && 1 <= n < |h.bingpai.Row(c)| && |hp| == 3
  {
    if h.bingpai.Row(c)[n] < 2 then []
    else
      var rest := MianziAllSpec(LessPair(h.bingpai, c, n), h.fulou);
      WithPair(PairBlock(c, n), rest, hp, |rest|)
  }

  /** The readings with a pair of suit c at a rank below k. */
  function YibanRow(h: HandState, c: char, k: int, hp: string): seq<seq<string>>
    requires X.CountsOk(h.bingpai) && IsSuit(c) && 1 <= k <= |h.bingpai.Row(c)| && |hp| == 3
  {
    if k == 1 then [] else YibanRow(h, c, k - 1, hp) + PairPart(h, c, k - 1, hp)
  }

  /**
   * `hule_mianzi_yiban(shoupai, hulepai)`: for each kind held twice or more,
   * in the order m, p, s, z and rank, the pair with every reading of the
   * rest into melds, kept when it has five blocks and marked for the
   * winning tile.
   */
  function YibanSpec(h: HandState, hp: string): seq<seq<string>>
    requires X.CountsOk(h.bingpai) && |hp| == 3
  {
    YibanUpTo(h, 4, hp)
  }

  /** The readings whose pair is of one of the first i suits of m, p, s, z. */
  function YibanUpTo(h: HandState, i: int, hp: string): seq<seq<string>>
    requires X.CountsOk(h.bingpai) && 0 <= i <= 4 && |hp| == 3
  {
    if i == 0 then []
    else
      var c := "mpsz"[i - 1];
      YibanUpTo(h, i - 1, hp) + YibanRow(h, c, |h.bingpai.Row(c)|, hp)
  }

  /** `hule_mianzi_yiban` on the hand's arrays; the counts are as before on return. */
  method HuleMianziYiban(sp: Shoupai, hp: string) returns (mianzi: seq<seq<string>>)
    requires sp.Shaped() && X.CountsOk(sp.Value().bingpai) && |hp| == 3
    modifies sp.m, sp.p, sp.s, sp.z
    ensures sp.Value() == old(sp.Value())
    ensures mianzi == YibanSpec(sp.Value(), hp)
  {
    ghost var h := sp.Value();
    mianzi := [];
    for i := 0 to 4
      invariant sp.Value() == h
      invariant mianzi == YibanUpTo(h, i, hp)
    {
      mianzi := PairsOfSuit(sp, "mpsz"[i], hp, mianzi, h);
    }
  }

  /** One pass of the suit loop of `hule_mianzi_yiban`: the readings with a pair of suit c appended to acc. */
  method PairsOfSuit(sp: Shoupai, c: char, hp: string, acc: seq<seq<string>>, ghost h: HandState)
    returns (mianzi: seq<seq<string>>)
    requires sp.Shaped() && sp.Value() == h && X.CountsOk(h.bingpai) && |hp| == 3 && IsSuit(c)
    modifies sp.m, sp.p, sp.s, sp.z
    ensures sp.Value() == h
    ensures mianzi == acc + YibanRow(h, c, |h.bingpai.Row(c)|, hp)
  {
    var bingpai := sp.Arr(c);
    sp.ArrRow(c);
    mianzi := acc;
    for n := 1 to bingpai.Length
      invariant sp.Value() == h
      invariant mianzi == acc + YibanRow(h, c, n, hp)
    {
      mianzi := PairStep(sp, c, n, hp, mianzi, h, acc);
    }
  }

  /** The body of the rank loop: for a kind held twice or more take the pair out, read the rest, put the pair back. */
  method PairStep(sp: Shoupai, c: char, n: int, hp: string, acc: seq<seq<string>>,
                  ghost h: HandState, ghost pre: seq<seq<string>>)
    returns (mianzi: seq<seq<string>>)
    requires sp.Shaped() && sp.Value() == h && X.CountsOk(h.bingpai) && |hp| == 3 && IsSuit(c)
    requires 1 <= n < |h.bingpai.Row(c)|
    requires acc == pre + YibanRow(h, c, n, hp)
    modifies sp.m, sp.p, sp.s, sp.z
    ensures sp.Value() == h
    ensures mianzi == pre + YibanRow(h, c, n + 1, hp)
  {
    var part := PairOf(sp, c, n, hp, h);
    mianzi := acc + part;
  }

  /** For a kind held twice or more: take the pair out, read the rest, put the pair back. */
  method PairOf(sp: Shoupai, c: char, n: int, hp: string, ghost h: HandState) returns (part: seq<seq<string>>)
    requires sp.Shaped() && sp.Value() == h && X.CountsOk(h.bingpai) && |hp| == 3 && IsSuit(c)
    requires 1 <= n < |h.bingpai.Row(c)|
    modifies sp.m, sp.p, sp.s, sp.z
    ensures sp.Value() == h
    ensures part == PairPart(h, c, n, hp)
  {
    var bingpai := sp.Arr(c);
    sp.ArrRow(c);
    if bingpai[n] < 2 {
      return [];
    }
    ghost var less := LessPair(h.bingpai, c, n);
    sp.AddAt(c, n, -2);
    assert sp.Value() == h.(bingpai := less);
    var jiangpai := PairBlock(c, n);
    var all := MianziAll(sp);
    assert all == MianziAllSpec(less, h.fulou);
    part := AddPairReadings(jiangpai, all, hp, []);
    sp.AddAt(c, n, 2);
    BumpBack(h.bingpai, c, n);
  }

  /** The loop over the readings of the rest: pair in front, five blocks only, winning tile marked. */
  method AddPairReadings(jiangpai: string, all: seq<seq<string>>, hp: string, acc: seq<seq<string>>)
    returns (mianzi: seq<seq<string>>)
    requires |hp| == 3
    ensures mianzi == acc + WithPair(jiangpai, all, hp, |all|)
  {
    mianzi := acc;
    for i := 0 to |all|
      invariant mianzi == acc + WithPair(jiangpai, all, hp, i)
    {
      var mm := [jiangpai] + all[i];
      if |mm| != 5 {
        continue;
      }
      var marked := AddHulepai(mm, hp);
      mianzi := mianzi + marked;
    }
  }

  lemma {:induction false} YibanUpToMember(h: HandState, i: int, hp: string, r: seq<string>) returns (c: char, n: int)
    requires X.CountsOk(h.bingpai) && 0 <= i <= 4 && |hp| == 3 && r in YibanUpTo(h, i, hp)
    ensures IsSuit(c) && 1 <= n < |h.bingpai.Row(c)| && r in PairPart(h, c, n, hp)
  {
    var c' := "mpsz"[i - 1];
    if r in YibanUpTo(h, i - 1, hp) {
      c, n := YibanUpToMember(h, i - 1, hp, r);
    } else {
      c := c';
      n := YibanRowMember(h, c, |h.bingpai.Row(c)|, hp, r);
    }
  }

  lemma {:induction false} YibanRowMember(h: HandState, c: char, k: int, hp: string, r: seq<string>) returns (n: int)
    requires X.CountsOk(h.bingpai) && IsSuit(c) && 1 <= k <= |h.bingpai.Row(c)| && |hp| == 3
    requires r in YibanRow(h, c, k, hp)
    ensures 1 <= n < k && r in PairPart(h, c, n, hp)
  {
    if r in YibanRow(h, c, k - 1, hp) {
      n := YibanRowMember(h, c, k - 1, hp, r);
    } else {
      n := k - 1;
    }
  }

  lemma {:induction false} WithPairMember(pair: string, mms: seq<seq<string>>, hp: string, k: int, r: seq<string>) returns (j: int)
    requires |hp| == 3 && 0 <= k <= |mms| && r in WithPair(pair, mms, hp, k)
    ensures 0 <= j < k && |mms[j]| == 4 && r in MarkedReadings([pair] + mms[j], hp, 5)
  {
    if r in WithPair(pair, mms, hp, k - 1) {
      j := WithPairMember(pair, mms, hp, k - 1, r);
    } else {
      j := k - 1;
    }
  }

  /** A block of runs and triplets is written with a suit letter and digits only. */
  lemma SuitMeldUnmarked(c: char, t: string)
    requires IsSuit(c) && SuitMeld(c, t)
    ensures '!' !in t
  {
  }

  /** With no `!` among the declared melds, no block of a `mianzi_all` reading carries one. */
  lemma MianziAllUnmarked(b: Bingpai, f: seq<string>, l: seq<string>)
    requires X.CountsOk(b) && l in MianziAllSpec(b, f)
    requires forall t :: t in f ==> '!' !in t
    ensures forall t :: t in l ==> '!' !in t
  {
    MianziAllParts(b, f, l);
    var lm, lp, ls :| lm in Readings('m', b.m, 1) && lp in Readings('p', b.p, 1) && ls in Readings('s', b.s, 1)
      && l == lm + lp + ls + HonourTriplets(b.z, 8).value + NormalFulou(f);
    ReadingUnmarked('m', b.m, lm);
    ReadingUnmarked('p', b.p, lp);
    ReadingUnmarked('s', b.s, ls);
    HonourUnmarked(b.z);
    FulouUnmarked(f);
  }

  lemma ReadingUnmarked(c: char, row: seq<int>, l: seq<string>)
    requires IsSuit(c) && X.SuitRow(row) && l in Readings(c, row, 1)
    ensures forall t :: t in l ==> '!' !in t
  {
    ReadingsSound(c, row, 1, l);
  }

  lemma HonourUnmarked(z: seq<int>)
    requires |z| == 8
    ensures HonourTriplets(z, 8).Some? ==> forall t :: t in HonourTriplets(z, 8).value ==> '!' !in t
  {
    HonourTripletsIff(z, 8);
  }

  lemma FulouUnmarked(f: seq<string>)
    requires forall t :: t in f ==> '!' !in t
    ensures forall t :: t in NormalFulou(f) ==> '!' !in t
  {
    var fn := NormalFulou(f);
    forall t | t in fn
      ensures '!' !in t
    {
      var i :| 0 <= i < |fn| && fn[i] == t;
      assert f[i] in f;
    }
  }

  /**
   * Every reading `hule_mianzi_yiban` returns has five blocks, the first of
   * them a pair of a kind held twice or more (marked when it is the winning
   * block), exactly one block marked for the winning tile, and comes from a
   * hand whose rank slots hold fourteen tiles less three per declared meld.
   */
  lemma YibanReading(h: HandState, hp: string, r: seq<string>)
    requires X.CountsOk(h.bingpai) && |hp| == 3 && r in YibanSpec(h, hp)
    requires forall t :: t in h.fulou ==> '!' !in t
    ensures |r| == 5 && |MarkedBlocks(r)| == 1
    ensures exists c, n :: (IsSuit(c) && 1 <= n < |h.bingpai.Row(c)| && h.bingpai.Row(c)[n] >= 2
      && (r[0] == PairBlock(c, n) || r[0] == PairBlock(c, n) + [hp[2], '!']))
    ensures TileTotal(h.bingpai) - h.bingpai.hidden == 14 - 3 * |h.fulou|
  {
    var c, n := YibanUpToMember(h, 4, hp, r);
    var b := h.bingpai;
    var less := LessPair(b, c, n);
    var rest := MianziAllSpec(less, h.fulou);
    var pair := PairBlock(c, n);
    var j := WithPairMember(pair, rest, hp, |rest|, r);
    var mm := [pair] + rest[j];
    MianziAllCount(less, h.fulou, rest[j]);
    BumpTotal(b, c, n, -2);
    MianziAllUnmarked(less, h.fulou, rest[j]);
    MarkedOnce(mm, hp, r);
    PairHead(mm, hp, r);
  }

  /** The first block of a marked reading is the pair as it was, or the pair with the mark after it. */
  lemma PairHead(mm: seq<string>, hp: string, r: seq<string>)
    requires |hp| == 3 && |mm| > 0 && |mm[0]| == 3 && mm[0][1] == mm[0][2]
    requires r in MarkedReadings(mm, hp, |mm|)
    ensures |r| == |mm| && (r[0] == mm[0] || r[0] == mm[0] + [hp[2], '!'])
  {
    MarkedReadingsIff(mm, hp, |mm|, r);
    var i :| 0 <= i < |mm| && Markable(mm, i, hp) && r == MarkedAt(mm, i, hp);
    if i == 0 {
      var t := mm[0];
      MarkBlockPlace(t, hp[0], hp[1], hp[2]);
      assert LastIndex(t, hp[1]) == 2;
      assert r[0] == t[..3] + [hp[2], '!'] + t[3..];
    }
  }

  /**
   * The standard-shape search is complete: whenever the hand, with a pair
   * of the kind (c, n) taken out, splits into runs and triplets lm, lp, ls
   * of the three numeral suits, the honour triplets and the declared
   * melds, four blocks in all, and a concealed block t of that split holds
   * the winning tile, `hule_mianzi_yiban` returns the same five blocks, in
   * its own order, with the winning tile marked on a block equal to t.
   */
  lemma YibanComplete(h: HandState, hp: string, c: char, n: int, lm: seq<string>, lp: seq<string>, ls: seq<string>,
                      t: string) returns (mm: seq<string>, j: int)
    requires h.bingpai.Valid() && X.CountsOk(h.bingpai) && |hp| == 3
    requires IsSuit(c) && 1 <= n < |h.bingpai.Row(c)| && h.bingpai.Row(c)[n] >= 2
    requires var less := LessPair(h.bingpai, c, n);
      SuitSplit('m', less.m, lm) && SuitSplit('p', less.p, lp) && SuitSplit('s', less.s, ls)
      && HonourTriplets(less.z, 8).Some?
      && |lm| + |lp| + |ls| + |HonourTriplets(less.z, 8).value| + |h.fulou| == 4
      && t in [PairBlock(c, n)] + lm + lp + ls + HonourTriplets(less.z, 8).value && WinMatch(t, hp[0], hp[1])
    ensures var zp := HonourTriplets(LessPair(h.bingpai, c, n).z, 8).value;
      |mm| == 5 && 0 <= j < 5 && mm[j] == t
      && multiset(mm) == multiset([PairBlock(c, n)] + lm + lp + ls + zp + NormalFulou(h.fulou))
      && MarkedAt(mm, j, hp) in YibanSpec(h, hp)
  {
    var less := LessPair(h.bingpai, c, n);
    LessBounded(h.bingpai, c, n);
    var zp, fn := HonourTriplets(less.z, 8).value, NormalFulou(h.fulou);
    var rest := RestReading(less, h.fulou, lm, lp, ls);
    var pair := PairBlock(c, n);
    mm := [pair] + rest;
    ConcealedPlain(c, n, lm, lp, ls, less.z, t);
    assert multiset(mm) == multiset([pair] + lm + lp + ls + zp + fn);
    assert t in multiset(mm);
    j := MarkableFirst(mm, t, hp);
    YibanHas(h, hp, c, n, rest, MarkedAt(mm, j, hp));
  }

  /** Each split of the three numeral suits is found by `mianzi_all`, with its blocks in the search's order. */
  lemma RestReading(b: Bingpai, f: seq<string>, lm: seq<string>, lp: seq<string>, ls: seq<string>) returns (rest: seq<string>)
    requires X.CountsOk(b) && HonourTriplets(b.z, 8).Some?
    requires forall k :: 1 <= k <= 9 ==> b.m[k] <= 4 && b.p[k] <= 4 && b.s[k] <= 4
    requires SuitSplit('m', b.m, lm) && SuitSplit('p', b.p, lp) && SuitSplit('s', b.s, ls)
    ensures rest in MianziAllSpec(b, f)
    ensures multiset(rest) == multiset(lm + lp + ls + HonourTriplets(b.z, 8).value + NormalFulou(f))
  {
    var lm' := ReadingsComplete('m', b.m, 1, lm);
    var lp' := ReadingsComplete('p', b.p, 1, lp);
    var ls' := ReadingsComplete('s', b.s, 1, ls);
    MianziAllHas(b, f, lm', lp', ls');
    rest := lm' + lp' + ls' + HonourTriplets(b.z, 8).value + NormalFulou(f);
  }

  /** The first block equal to a concealed block t that holds the winning tile is one `add_hulepai` marks. */
  lemma MarkableFirst(mm: seq<string>, t: string, hp: string) returns (j: int)
    requires |hp| == 3 && t in multiset(mm) && !CalledOrQuad(t) && WinMatch(t, hp[0], hp[1])
    ensures 0 <= j < |mm| && mm[j] == t && MarkedAt(mm, j, hp) in MarkedReadings(mm, hp, |mm|)
  {
    j := FirstIndex(mm, t);
    assert Markable(mm, j, hp);
    MarkedReadingsHas(mm, hp, |mm|, j);
  }

  /** Taking a pair out of a valid hand leaves at most four tiles of each rank. */
  lemma LessBounded(b: Bingpai, c: char, n: int)
    requires b.Valid() && X.CountsOk(b) && IsSuit(c) && 1 <= n < |b.Row(c)| && b.Row(c)[n] >= 2
    ensures var less := LessPair(b, c, n);
      (forall k :: 1 <= k <= 9 ==> less.m[k] <= 4 && less.p[k] <= 4 && less.s[k] <= 4)
  {
    var less := LessPair(b, c, n);
    assert less.m == b.m || c == 'm';
    assert less.p == b.p || c == 'p';
    assert less.s == b.s || c == 's';
  }

  /**
   * A pair, a run or triplet of a numeral suit, or an honour triplet is
   * written with a suit letter and digits only, so it is neither called
   * nor a quad.
   */
  lemma ConcealedPlain(c: char, n: int, lm: seq<string>, lp: seq<string>, ls: seq<string>, z: seq<int>, t: string)
    requires IsSuit(c) && 0 <= n <= 9 && |z| == 8 && HonourTriplets(z, 8).Some?
    requires (forall u :: u in lm ==> SuitMeld('m', u)) && (forall u :: u in lp ==> SuitMeld('p', u))
    requires forall u :: u in ls ==> SuitMeld('s', u)
    requires t in [PairBlock(c, n)] + lm + lp + ls + HonourTriplets(z, 8).value
    ensures !CalledOrQuad(t)
  {
    var zp := HonourTriplets(z, 8).value;
    if t in zp {
      HonourTripletsIff(z, 8);
      var k :| 1 <= k < 8 && z[k] == 3 && t == TripletBlock('z', k);
      PlainText(t);
    } else if t in lm {
      MeldPlain('m', t);
    } else if t in lp {
      MeldPlain('p', t);
    } else if t in ls {
      MeldPlain('s', t);
    } else {
      PlainText(t);
    }
  }

  lemma MeldPlain(c: char, t: string)
    requires IsSuit(c) && SuitMeld(c, t)
    ensures !CalledOrQuad(t)
  {
    var m, run := MeldRank(c, t);
    PlainText(t);
  }

  /** A text of a letter and two or three digits has no direction and no four digits in a row. */
  lemma PlainText(t: string)
    requires 3 <= |t| <= 4 && !IsDigit(t[0]) && !IsDirection(t[0]) && forall i :: 1 <= i < |t| ==> IsDigit(t[i])
    ensures !CalledOrQuad(t)
  {
  }

  /** The first index of x in s. */
  lemma {:induction false} FirstIndex(s: seq<string>, x: string) returns (j: int)
    requires x in multiset(s)
    ensures 0 <= j < |s| && s[j] == x && forall i :: 0 <= i < j ==> s[i] != x
  {
    if s[0] == x {
      j := 0;
    } else {
      assert s == [s[0]] + s[1..];
      var j' := FirstIndex(s[1..], x);
      j := j' + 1;
    }
  }

  /** One reading of each numeral suit, joined with the honour triplets and the declared melds, is a `mianzi_all` reading. */
  lemma MianziAllHas(b: Bingpai, f: seq<string>, lm: seq<string>, lp: seq<string>, ls: seq<string>)
    requires X.CountsOk(b) && HonourTriplets(b.z, 8).Some?
    requires lm in Readings('m', b.m, 1) && lp in Readings('p', b.p, 1) && ls in Readings('s', b.s, 1)
    ensures lm + lp + ls + HonourTriplets(b.z, 8).value + NormalFulou(f) in MianziAllSpec(b, f)
  {
    var rm, rp, rs := Readings('m', b.m, 1), Readings('p', b.p, 1), Readings('s', b.s, 1);
    var xm := Cross([[]], rm);
    var xp := Cross(xm, rp);
    var shupai := Cross(xp, rs);
    assert ShupaiUpTo(b, 1) == xm;
    assert ShupaiUpTo(b, 2) == xp;
    assert ShupaiUpTo(b, 3) == shupai;
    assert [] + lm == lm;
    CrossHas([[]], rm, [], lm);
    CrossHas(xm, rp, lm, lp);
    CrossHas(xp, rs, lm + lp, ls);
    var js :| 0 <= js < |shupai| && shupai[js] == lm + lp + ls;
    var zp, fn := HonourTriplets(b.z, 8).value, NormalFulou(f);
    assert MianziAllSpec(b, f) == AppendEach(shupai, zp + fn);
    AppendEachMembers(shupai, zp + fn, lm + lp + ls + (zp + fn));
    assert lm + lp + ls + (zp + fn) == lm + lp + ls + zp + fn;
  }

  /** The join of a list of xs and a list of ys is in their cross product. */
  lemma CrossHas(xs: seq<seq<string>>, ys: seq<seq<string>>, x: seq<string>, y: seq<string>)
    requires x in xs && y in ys
    ensures x + y in Cross(xs, ys)
  {
    var i :| 0 <= i < |xs| && xs[i] == x;
    var j :| 0 <= j < |ys| && ys[j] == y;
    CrossMembers(xs, ys, x + y);
  }

  /** A marked reading of the pair and a four-block `mianzi_all` reading of the rest is a `hule_mianzi_yiban` reading. */
  lemma YibanHas(h: HandState, hp: string, c: char, n: int, rest: seq<string>, x: seq<string>)
    requires X.CountsOk(h.bingpai) && |hp| == 3 && IsSuit(c) && 1 <= n < |h.bingpai.Row(c)| && h.bingpai.Row(c)[n] >= 2
    requires rest in MianziAllSpec(LessPair(h.bingpai, c, n), h.fulou) && |rest| == 4
    requires x in MarkedReadings([PairBlock(c, n)] + rest, hp, 5)
    ensures x in YibanSpec(h, hp)
  {
    var rests := MianziAllSpec(LessPair(h.bingpai, c, n), h.fulou);
    var q :| 0 <= q < |rests| && rests[q] == rest;
    WithPairHas(PairBlock(c, n), rests, hp, |rests|, q, x);
    assert x in PairPart(h, c, n, hp);
    YibanRowHas(h, c, |h.bingpai.Row(c)|, hp, n, x);
    var d := if c == 'm' then 0 else if c == 'p' then 1 else if c == 's' then 2 else 3;
    YibanUpToHas(h, 4, hp, d, x);
  }

  lemma {:induction false} WithPairHas(pair: string, mms: seq<seq<string>>, hp: string, k: int, q: int, x: seq<string>)
    requires |hp| == 3 && 0 <= q < k <= |mms| && |mms[q]| == 4
    requires x in MarkedReadings([pair] + mms[q], hp, 5)
    ensures x in WithPair(pair, mms, hp, k)
  {
    if q < k - 1 {
      WithPairHas(pair, mms, hp, k - 1, q, x);
    }
  }

  lemma {:induction false} YibanRowHas(h: HandState, c: char, k: int, hp: string, n: int, x: seq<string>)
    requires X.CountsOk(h.bingpai) && IsSuit(c) && 1 <= n < k <= |h.bingpai.Row(c)| && |hp| == 3
    requires x in PairPart(h, c, n, hp)
    ensures x in YibanRow(h, c, k, hp)
  {
    if n < k - 1 {
      YibanRowHas(h, c, k - 1, hp, n, x);
    }
  }

  lemma {:induction false} YibanUpToHas(h: HandState, i: int, hp: string, d: int, x: seq<string>)
    requires X.CountsOk(h.bingpai) && 0 <= d < i <= 4 && |hp| == 3
    requires x in YibanRow(h, "mpsz"[d], |h.bingpai.Row("mpsz"[d])|, hp)
    ensures x in YibanUpTo(h, i, hp)
  {
    if d < i - 1 {
      YibanUpToHas(h, i - 1, hp, d, x);
    }
  }
}
