/**
 * Shanten numbers (jongpy/core/xiangting.py): how many tile exchanges a
 * hand is from being ready, for the standard shape (four melds and a
 * pair), thirteen orphans and seven pairs.  The search for the standard
 * shape works per suit on the count array, borrowing tiles for each meld
 * it tries and putting them back; the methods below do so on the arrays of
 * a `Shoupai` and are proved to compute the functions defined here.
 */
module Xiangting {
  import opened Wrappers
  import opened Notation
  import opened ShoupaiSpec
  import opened Shoupai

  /** `XIANGTING_INF`: the value of a shape the hand cannot take. */
  const XIANGTING_INF := 999

  /** Melds, partial melds and isolated tiles counted in one way of splitting tiles. */
  datatype Tally = Tally(mianzi: int, dazi: int, guli: int)
  {
    /** The tiles the split uses: three per meld, two per partial, one per isolated tile. */
    function Tiles(): int { 3 * mianzi + 2 * dazi + guli }

    predicate Nonneg() { mianzi >= 0 && dazi >= 0 && guli >= 0 }

    function AddMianzi(): Tally { this.(mianzi := mianzi + 1) }
  }

  /**
   * The two splits `mianzi` keeps: pattern A has the fewest isolated tiles
   * (then the fewest partials), pattern B the most melds (then the most
   * partials).
   */
  datatype Split = Split(a: Tally, b: Tally)
  {
    function AddMianzi(): Split { Split(a.AddMianzi(), b.AddMianzi()) }
  }

  predicate BetterA(x: Tally, y: Tally)
  {
    x.guli < y.guli || (x.guli == y.guli && x.dazi < y.dazi)
  }

  predicate BetterB(x: Tally, y: Tally)
  {
    x.mianzi > y.mianzi || (x.mianzi == y.mianzi && x.dazi > y.dazi)
  }

  /** The comparisons of `mianzi`: a candidate replaces the kept split only when strictly better. */
  function Pick(best: Split, cand: Split): Split
  {
    Split(if BetterA(cand.a, best.a) then cand.a else best.a,
          if BetterB(cand.b, best.b) then cand.b else best.b)
  }

  predicate Nonneg(row: seq<int>)
  {
    forall i :: 0 <= i < |row| ==> row[i] >= 0
  }

  /** A count list of a numeral suit that the search may work on. */
  predicate SuitRow(row: seq<int>)
  {
    |row| == 10 && Nonneg(row)
  }

  // ---------------------------------------------------------------------
  // _xiangting

  /**
   * `_xiangting(m, d, g, j)`: melds beyond four count as partials, melds and
   * partials beyond four as isolated tiles, isolated tiles beyond the
   * blocks still needed are dropped, and a pair counts as one more partial.
   */
  function Formula(m: int, d: int, g: int, j: bool): int
  {
    var n := if j then 4 else 5;
    var (m1, d1) := if m > 4 then (4, d + m - 4) else (m, d);
    var (d2, g2) := if m1 + d1 > 4 then (4 - m1, g + m1 + d1 - 4) else (d1, g);
    var g3 := if m1 + d2 + g2 > 4 then n - m1 - d2 else g2;
    var d3 := if j then d2 + 1 else d2;
    13 - m1 * 3 - d3 * 2 - g3
  }

  /**
   * For counts that are not negative the value lies in -1..13, and it is -1
   * (a complete hand) exactly when there is a pair and at least four melds.
   */
  lemma FormulaRange(m: int, d: int, g: int, j: bool)
    requires m >= 0 && d >= 0 && g >= 0
    ensures -1 <= Formula(m, d, g, j) <= 13
    ensures Formula(m, d, g, j) == -1 <==> j && m >= 4
  {
  }

  /** More partials or more isolated tiles never raise the value. */
  lemma FormulaMonotone(m: int, d: int, g: int, d': int, g': int, j: bool)
    requires 0 <= d <= d' && 0 <= g <= g' && m >= 0
    ensures Formula(m, d', g', j) <= Formula(m, d, g, j)
  {
  }

  // ---------------------------------------------------------------------
  // dazi

  /**
   * The loop of `dazi` from rank n on, with `npai` tiles in the current
   * group: a group ends before two empty ranks, and each group of k tiles
   * gives k div 2 partials and k mod 2 isolated tiles.
   */
  function DaziFrom(row: seq<int>, n: int, npai: int): (int, int)
    requires |row| == 10 && 1 <= n <= 10
    decreases 10 - n
  {
    if n > 9 then HalfOdd(npai)
    else
      var np := npai + row[n];
      if n <= 7 && row[n + 1] == 0 && row[n + 2] == 0 then
        var rest := DaziFrom(row, n + 1, 0);
        (HalfOdd(np).0 + rest.0, HalfOdd(np).1 + rest.1)
      else DaziFrom(row, n + 1, np)
  }

  /**
   * A group of k tiles split into pairs and a leftover, by taking pairs off
   * one at a time (`HalfOddDiv` shows it is k div 2 and k mod 2).
   */
  function HalfOdd(k: int): (int, int)
    decreases if k < 0 then 0 else k
  {
    if k < 2 then (0, k) else (HalfOdd(k - 2).0 + 1, HalfOdd(k - 2).1)
  }

  /** For a count k >= 0 the split is `k >> 1` and `k % 2`. */
  lemma {:induction false} HalfOddDiv(k: int)
    requires k >= 0
    ensures HalfOdd(k) == (k / 2, k % 2)
    decreases k
  {
    if k >= 2 {
      HalfOddDiv(k - 2);
    }
  }

  /** The pairs and the leftover use every tile, and the leftover is 0 or 1. */
  lemma {:induction false} HalfOddSum(k: int)
    requires k >= 0
    ensures 2 * HalfOdd(k).0 + HalfOdd(k).1 == k && HalfOdd(k).0 >= 0 && 0 <= HalfOdd(k).1 < 2
    decreases k
  {
    if k >= 2 {
      HalfOddSum(k - 2);
    }
  }

  /** `dazi(bingpai)`: no melds, and the partials and isolated tiles of the groups. */
  function DaziSpec(row: seq<int>): Split
    requires |row| == 10
  {
    var (d, g) := DaziFrom(row, 1, 0);
    Split(Tally(0, d, g), Tally(0, d, g))
  }

  /** The groups of `dazi` use every tile of ranks n..9 and no count is negative. */
  lemma {:induction false} DaziTiles(row: seq<int>, n: int, npai: int)
    requires SuitRow(row) && 1 <= n <= 10 && npai >= 0
    ensures var (d, g) := DaziFrom(row, n, npai);
      d >= 0 && g >= 0 && 2 * d + g == npai + SumFrom(row, n)
    decreases 10 - n
  {
    if n <= 9 {
      var np := npai + row[n];
      assert SumFrom(row, n) == row[n] + SumFrom(row, n + 1);
      HalfOddSum(np);
      DaziStep(row, n, npai);
      if n <= 7 && row[n + 1] == 0 && row[n + 2] == 0 {
        DaziTiles(row, n + 1, 0);
      } else {
        DaziTiles(row, n + 1, np);
      }
    } else {
      HalfOddSum(npai);
    }
  }

  /** One step of the loop of `dazi`: the group ends at n or runs on. */
  lemma DaziStep(row: seq<int>, n: int, npai: int)
    requires |row| == 10 && 1 <= n <= 9
    ensures var np := npai + row[n];
      DaziFrom(row, n, npai) ==
        if n <= 7 && row[n + 1] == 0 && row[n + 2] == 0
        then (HalfOdd(np).0 + DaziFrom(row, n + 1, 0).0, HalfOdd(np).1 + DaziFrom(row, n + 1, 0).1)
        else DaziFrom(row, n + 1, np)
  {
  }

  // ---------------------------------------------------------------------
  // mianzi: the search, and every split it explores

  lemma {:induction false} SumNonneg(row: seq<int>, i: nat)
    requires Nonneg(row)
    ensures SumFrom(row, i) >= 0
    decreases |row| - i
  {
    if i < |row| {
      SumNonneg(row, i + 1);
    }
  }

  /** The row with a run n, n+1, n+2 taken out. */
  function TakeRun(row: seq<int>, n: int): (r: seq<int>)
    requires SuitRow(row) && 1 <= n <= 7 && row[n] > 0 && row[n + 1] > 0 && row[n + 2] > 0
    ensures SuitRow(r) && SumFrom(r, 1) == SumFrom(row, 1) - 3 && SumFrom(r, 1) >= 0
  {
    var r1 := row[n := row[n] - 1];
    var r2 := r1[n + 1 := r1[n + 1] - 1];
    var r3 := r2[n + 2 := r2[n + 2] - 1];
    SumFromUpdate(row, 1, n, row[n] - 1);
    SumFromUpdate(r1, 1, n + 1, r1[n + 1] - 1);
    SumFromUpdate(r2, 1, n + 2, r2[n + 2] - 1);
    SumNonneg(r3, 1);
    r3
  }

  /** The row with a triplet of rank n taken out. */
  function TakePung(row: seq<int>, n: int): (r: seq<int>)
    requires SuitRow(row) && 1 <= n <= 9 && row[n] >= 3
    ensures SuitRow(r) && SumFrom(r, 1) == SumFrom(row, 1) - 3 && SumFrom(r, 1) >= 0
  {
    SumFromUpdate(row, 1, n, row[n] - 3);
    SumNonneg(row[n := row[n] - 3], 1);
    row[n := row[n] - 3]
  }

  predicate CanRun(row: seq<int>, n: int)
    requires |row| == 10 && 1 <= n <= 9
  {
    n <= 7 && row[n] > 0 && row[n + 1] > 0 && row[n + 2] > 0
  }

  /**
   * `mianzi(bingpai, n)`: from rank n on, try taking no meld here, a run,
   * and a triplet (trying the same rank again after taking one), and keep
   * the best split for each pattern; past rank 9 the rest is split by
   * `dazi`.
   */
  function MianziSpec(row: seq<int>, n: int): Split
    requires SuitRow(row) && 1 <= n <= 10
    decreases SumFrom(row, 1), 10 - n
  {
    if n > 9 then DaziSpec(row)
    else
      var r0 := MianziSpec(row, n + 1);
      var r1 := if CanRun(row, n) then Pick(r0, MianziSpec(TakeRun(row, n), n).AddMianzi()) else r0;
      if row[n] >= 3 then Pick(r1, MianziSpec(TakePung(row, n), n).AddMianzi()) else r1
  }

  function Raise(ts: set<Tally>): set<Tally>
  {
    set t | t in ts :: t.AddMianzi()
  }

  /** Every split the search explores from rank n on: the reference the search is proved optimal against. */
  function AllSplits(row: seq<int>, n: int): set<Tally>
    requires SuitRow(row) && 1 <= n <= 10
    decreases SumFrom(row, 1), 10 - n
  {
    if n > 9 then {DaziSpec(row).a}
    else
      AllSplits(row, n + 1)
      + (if CanRun(row, n) then Raise(AllSplits(TakeRun(row, n), n)) else {})
      + (if row[n] >= 3 then Raise(AllSplits(TakePung(row, n), n)) else {})
  }

  /** Every explored split uses exactly the tiles of the suit, with no negative count. */
  lemma {:induction false} AllSplitsTiles(row: seq<int>, n: int)
    requires SuitRow(row) && 1 <= n <= 10
    ensures forall t :: t in AllSplits(row, n) ==> t.Nonneg() && t.Tiles() == SumFrom(row, 1)
    decreases SumFrom(row, 1), 10 - n
  {
    if n > 9 {
      DaziTiles(row, 1, 0);
    } else {
      AllSplitsTiles(row, n + 1);
      if CanRun(row, n) {
        AllSplitsTiles(TakeRun(row, n), n);
        RaiseTiles(AllSplits(TakeRun(row, n), n), SumFrom(row, 1) - 3);
      }
      if row[n] >= 3 {
        AllSplitsTiles(TakePung(row, n), n);
        RaiseTiles(AllSplits(TakePung(row, n), n), SumFrom(row, 1) - 3);
      }
    }
  }

  lemma RaiseTiles(ts: set<Tally>, k: int)
    requires forall t :: t in ts ==> t.Nonneg() && t.Tiles() == k
    ensures forall t :: t in Raise(ts) ==> t.Nonneg() && t.Tiles() == k + 3
  {
    forall u | u in Raise(ts)
      ensures u.Nonneg() && u.Tiles() == k + 3
    {
      var t :| t in ts && u == t.AddMianzi();
    }
  }

  /** r is one of the splits of ts and no split of ts beats it in either pattern. */
  predicate Optimal(r: Split, ts: set<Tally>)
  {
    r.a in ts && r.b in ts && forall t :: t in ts ==> !BetterA(t, r.a) && !BetterB(t, r.b)
  }

  lemma PickOptimal(x: Split, xs: set<Tally>, y: Split, ys: set<Tally>)
    requires Optimal(x, xs) && Optimal(y, ys)
    ensures Optimal(Pick(x, y), xs + ys)
  {
  }

  lemma RaiseOptimal(r: Split, ts: set<Tally>)
    requires Optimal(r, ts)
    ensures Optimal(r.AddMianzi(), Raise(ts))
  {
    forall u | u in Raise(ts)
      ensures !BetterA(u, r.AddMianzi().a) && !BetterB(u, r.AddMianzi().b)
    {
      var t :| t in ts && u == t.AddMianzi();
    }
  }

  /**
   * The search is exhaustive and keeps the best: pattern A has no explored
   * split with fewer isolated tiles (or as few and fewer partials), and
   * pattern B none with more melds (or as many and more partials).
   */
  lemma {:induction false} MianziOptimal(row: seq<int>, n: int)
    requires SuitRow(row) && 1 <= n <= 10
    ensures Optimal(MianziSpec(row, n), AllSplits(row, n))
    decreases SumFrom(row, 1), 10 - n
  {
    if n <= 9 {
      MianziOptimal(row, n + 1);
      var r0 := MianziSpec(row, n + 1);
      var s0 := AllSplits(row, n + 1);
      var r1 := r0;
      var s1 := s0;
      if CanRun(row, n) {
        var run := TakeRun(row, n);
        MianziOptimal(run, n);
        RaiseOptimal(MianziSpec(run, n), AllSplits(run, n));
        PickOptimal(r0, s0, MianziSpec(run, n).AddMianzi(), Raise(AllSplits(run, n)));
        r1 := Pick(r0, MianziSpec(run, n).AddMianzi());
        s1 := s0 + Raise(AllSplits(run, n));
      }
      assert Optimal(r1, s1);
      if row[n] >= 3 {
        var pung := TakePung(row, n);
        MianziOptimal(pung, n);
        RaiseOptimal(MianziSpec(pung, n), AllSplits(pung, n));
        PickOptimal(r1, s1, MianziSpec(pung, n).AddMianzi(), Raise(AllSplits(pung, n)));
      }
    }
  }

  /**
   * What `mianzi` returns for a suit: both patterns use exactly the suit's
   * tiles, no count is negative, pattern A has no more isolated tiles than
   * pattern B, and pattern B no fewer melds than pattern A.
   */
  lemma MianziTally(row: seq<int>)
    requires SuitRow(row)
    ensures var r := MianziSpec(row, 1);
      r.a.Nonneg() && r.b.Nonneg() && r.a.Tiles() == SumFrom(row, 1) && r.b.Tiles() == SumFrom(row, 1)
      && r.a.guli <= r.b.guli && r.b.mianzi >= r.a.mianzi
  {
    MianziOptimal(row, 1);
    AllSplitsTiles(row, 1);
  }

  // ---------------------------------------------------------------------
  // mianzi_all

  function Min(x: int, y: int): int { if y < x then y else x }

  /** The honour loop of `mianzi_all` over ranks 1..n-1: three or more is a meld, two a partial, one an isolated tile. */
  function HonourTally(z: seq<int>, n: int): Tally
    requires |z| == 8 && 1 <= n <= 8
  {
    if n == 1 then Tally(0, 0, 0)
    else
      var t := HonourTally(z, n - 1);
      var c := z[n - 1];
      if c >= 3 then t.AddMianzi()
      else if c == 2 then t.(dazi := t.dazi + 1)
      else if c == 1 then t.(guli := t.guli + 1)
      else t
  }

  lemma {:induction false} HonourTallyNonneg(z: seq<int>, n: int)
    requires |z| == 8 && 1 <= n <= 8
    ensures HonourTally(z, n).Nonneg()
  {
    if n > 1 {
      HonourTallyNonneg(z, n - 1);
    }
  }

  /** What `mianzi_all` combines: the splits of the three numeral suits, the honour tally and the declared melds. */
  datatype Parts = Parts(rm: Split, rp: Split, rs: Split, zt: Tally, nf: int)
  {
    predicate Nonneg()
    {
      rm.a.Nonneg() && rm.b.Nonneg() && rp.a.Nonneg() && rp.b.Nonneg()
      && rs.a.Nonneg() && rs.b.Nonneg() && zt.Nonneg() && nf >= 0
    }
  }

  /** Pattern A (k = 0) or B (k = 1) of a split. */
  function Opt(r: Split, k: int): Tally
  {
    if k == 0 then r.a else r.b
  }

  /** One combination summed: the declared melds count as melds. */
  function Total(mt: Tally, pt: Tally, st: Tally, parts: Parts): Tally
  {
    Tally(parts.nf + mt.mianzi + pt.mianzi + st.mianzi + parts.zt.mianzi,
          mt.dazi + pt.dazi + st.dazi + parts.zt.dazi,
          mt.guli + pt.guli + st.guli + parts.zt.guli)
  }

  /** The running sums after i steps of the innermost loop: melds first, then partials, then isolated tiles. */
  function Partial(t: Tally, i: int): Tally
  {
    Tally(t.mianzi, if i >= 2 then t.dazi else 0, if i >= 3 then t.guli else 0)
  }

  /**
   * The innermost loop of `mianzi_all` as written: `_xiangting` is taken
   * after each of the three sums, not only after the last.
   */
  function InnerScan(x: int, t: Tally, j: bool, i: int): int
    requires 0 <= i <= 3
  {
    if i == 0 then x
    else
      var p := Partial(t, i);
      Min(InnerScan(x, t, j, i - 1), Formula(p.mianzi, p.dazi, p.guli, j))
  }

  function ScanS(x: int, mt: Tally, pt: Tally, parts: Parts, j: bool, k: int): int
    requires 0 <= k <= 2
  {
    if k == 0 then x
    else InnerScan(ScanS(x, mt, pt, parts, j, k - 1), Total(mt, pt, Opt(parts.rs, k - 1), parts), j, 3)
  }

  function ScanP(x: int, mt: Tally, parts: Parts, j: bool, k: int): int
    requires 0 <= k <= 2
  {
    if k == 0 then x
    else ScanS(ScanP(x, mt, parts, j, k - 1), mt, Opt(parts.rp, k - 1), parts, j, 2)
  }

  function ScanM(x: int, parts: Parts, j: bool, k: int): int
    requires 0 <= k <= 2
  {
    if k == 0 then x
    else ScanP(ScanM(x, parts, j, k - 1), Opt(parts.rm, k - 1), parts, j, 2)
  }

  /** The counts the shanten search works on: numeral rows of ten and an honour row of eight, none negative. */
  predicate CountsOk(b: Bingpai)
  {
    SuitRow(b.m) && SuitRow(b.p) && SuitRow(b.s) && |b.z| == 8 && Nonneg(b.z)
  }

  function PartsOf(b: Bingpai, nf: int): Parts
    requires CountsOk(b)
  {
    Parts(MianziSpec(b.m, 1), MianziSpec(b.p, 1), MianziSpec(b.s, 1), HonourTally(b.z, 8), nf)
  }

  /**
   * `mianzi_all(shoupai, jiangpai)`: the least `_xiangting` over the eight
   * ways of choosing pattern A or B per numeral suit, starting from 13.
   */
  function MianziAllSpec(b: Bingpai, nf: int, j: bool): int
    requires CountsOk(b)
  {
    ScanM(13, PartsOf(b, nf), j, 2)
  }

  /** The combination choosing pattern mi, pi and si (0 for A, 1 for B) in the three numeral suits. */
  function Combo(parts: Parts, mi: int, pi: int, si: int): Tally
  {
    Total(Opt(parts.rm, mi), Opt(parts.rp, pi), Opt(parts.rs, si), parts)
  }

  function FinalOf(t: Tally, j: bool): int
  {
    Formula(t.mianzi, t.dazi, t.guli, j)
  }

  /** The inner loop's extra evaluations are harmless: it yields the minimum with the final value. */
  lemma InnerScanFinal(x: int, t: Tally, j: bool)
    requires t.Nonneg()
    ensures InnerScan(x, t, j, 3) == Min(x, FinalOf(t, j))
  {
    FormulaMonotone(t.mianzi, 0, 0, t.dazi, 0, j);
    FormulaMonotone(t.mianzi, t.dazi, 0, t.dazi, t.guli, j);
    assert InnerScan(x, t, j, 1) == Min(x, Formula(t.mianzi, 0, 0, j));
    assert InnerScan(x, t, j, 2) == Min(InnerScan(x, t, j, 1), Formula(t.mianzi, t.dazi, 0, j));
  }

  /** The value `ScanS` reaches is at most x and each final value it saw, and is x or one of them. */
  lemma {:induction false} ScanSBounds(x: int, mt: Tally, pt: Tally, parts: Parts, j: bool, k: int)
    requires parts.Nonneg() && mt.Nonneg() && pt.Nonneg() && 0 <= k <= 2
    ensures var r := ScanS(x, mt, pt, parts, j, k);
      r <= x && (forall si :: 0 <= si < k ==> r <= FinalOf(Total(mt, pt, Opt(parts.rs, si), parts), j))
      && (r == x || exists si :: 0 <= si < k && r == FinalOf(Total(mt, pt, Opt(parts.rs, si), parts), j))
  {
    if k > 0 {
      ScanSBounds(x, mt, pt, parts, j, k - 1);
      InnerScanFinal(ScanS(x, mt, pt, parts, j, k - 1), Total(mt, pt, Opt(parts.rs, k - 1), parts), j);
    }
  }

  lemma {:induction false} ScanPBounds(x: int, mt: Tally, parts: Parts, j: bool, k: int)
    requires parts.Nonneg() && mt.Nonneg() && 0 <= k <= 2
    ensures var r := ScanP(x, mt, parts, j, k);
      r <= x
      && (forall pi, si :: 0 <= pi < k && 0 <= si < 2 ==>
            r <= FinalOf(Total(mt, Opt(parts.rp, pi), Opt(parts.rs, si), parts), j))
      && (r == x || exists pi, si :: 0 <= pi < k && 0 <= si < 2
                      && r == FinalOf(Total(mt, Opt(parts.rp, pi), Opt(parts.rs, si), parts), j))
  {
    if k > 0 {
      ScanPBounds(x, mt, parts, j, k - 1);
      ScanSBounds(ScanP(x, mt, parts, j, k - 1), mt, Opt(parts.rp, k - 1), parts, j, 2);
    }
  }

  lemma {:induction false} ScanMBounds(x: int, parts: Parts, j: bool, k: int)
    requires parts.Nonneg() && 0 <= k <= 2
    ensures var r := ScanM(x, parts, j, k);
      r <= x
      && (forall mi, pi, si :: 0 <= mi < k && 0 <= pi < 2 && 0 <= si < 2 ==> r <= FinalOf(Combo(parts, mi, pi, si), j))
      && (r == x || exists mi, pi, si :: 0 <= mi < k && 0 <= pi < 2 && 0 <= si < 2
                      && r == FinalOf(Combo(parts, mi, pi, si), j))
  {
    if k > 0 {
      var y := ScanM(x, parts, j, k - 1);
      ScanMBounds(x, parts, j, k - 1);
      ScanPBounds(y, Opt(parts.rm, k - 1), parts, j, 2);
      var r := ScanM(x, parts, j, k);
      if r != y {
        var pi, si :| 0 <= pi < 2 && 0 <= si < 2
          && r == FinalOf(Total(Opt(parts.rm, k - 1), Opt(parts.rp, pi), Opt(parts.rs, si), parts), j);
        assert r == FinalOf(Combo(parts, k - 1, pi, si), j);
      }
    }
  }

  lemma PartsNonneg(b: Bingpai, nf: int)
    requires CountsOk(b) && nf >= 0
    ensures PartsOf(b, nf).Nonneg()
  {
    MianziTally(b.m);
    MianziTally(b.p);
    MianziTally(b.s);
    HonourTallyNonneg(b.z, 8);
  }

  /**
   * `mianzi_all` returns the least of 13 and the final `_xiangting` of the
   * eight combinations of patterns (the extra evaluations inside the loop
   * change nothing), and so lies in -1..13.
   */
  lemma MianziAllMinimum(b: Bingpai, nf: int, j: bool)
    requires CountsOk(b) && nf >= 0
    ensures var r := MianziAllSpec(b, nf, j); var parts := PartsOf(b, nf);
      -1 <= r <= 13
      && (forall mi, pi, si :: 0 <= mi < 2 && 0 <= pi < 2 && 0 <= si < 2 ==> r <= FinalOf(Combo(parts, mi, pi, si), j))
      && (r == 13 || exists mi, pi, si :: 0 <= mi < 2 && 0 <= pi < 2 && 0 <= si < 2
                       && r == FinalOf(Combo(parts, mi, pi, si), j))
  {
    PartsNonneg(b, nf);
    ScanMBounds(13, PartsOf(b, nf), j, 2);
    ScanMRange(13, PartsOf(b, nf), j, 2);
  }

  /** A scan started from x >= -1 never goes below -1, the least value of `_xiangting`. */
  lemma ScanMRange(x: int, parts: Parts, j: bool, k: int)
    requires parts.Nonneg() && 0 <= k <= 2 && -1 <= x
    ensures -1 <= ScanM(x, parts, j, k)
  {
    ScanMBounds(x, parts, j, k);
    var r := ScanM(x, parts, j, k);
    if r != x {
      var mi, pi, si :| 0 <= mi < k && 0 <= pi < 2 && 0 <= si < 2 && r == FinalOf(Combo(parts, mi, pi, si), j);
      var t := Combo(parts, mi, pi, si);
      FormulaRange(t.mianzi, t.dazi, t.guli, j);
    }
  }

  /** `mianzi_all` reaches -1 exactly when a pair was set aside and some combination has four melds. */
  lemma MianziAllComplete(b: Bingpai, nf: int, j: bool)
    requires CountsOk(b) && nf >= 0
    ensures MianziAllSpec(b, nf, j) == -1 <==>
      j && exists mi, pi, si :: 0 <= mi < 2 && 0 <= pi < 2 && 0 <= si < 2 && Combo(PartsOf(b, nf), mi, pi, si).mianzi >= 4
  {
    var parts := PartsOf(b, nf);
    PartsNonneg(b, nf);
    MianziAllMinimum(b, nf, j);
    forall mi, pi, si | 0 <= mi < 2 && 0 <= pi < 2 && 0 <= si < 2
      ensures var t := Combo(parts, mi, pi, si); FinalOf(t, j) == -1 <==> j && t.mianzi >= 4
    {
      var t := Combo(parts, mi, pi, si);
      FormulaRange(t.mianzi, t.dazi, t.guli, j);
    }
  }

  // ---------------------------------------------------------------------
  // The search as written: in place on the count lists

  /** `dazi(bingpai)`; `n >> 1` is floor division by two, which `/` is. */
  method Dazi(a: array<int>) returns (r: Split)
    requires SuitRow(a[..])
    ensures r == DaziSpec(a[..])
  {
    ghost var row := a[..];
    ghost var total := DaziFrom(row, 1, 0);
    var npai, nd, ng := 0, 0, 0;
    var n := 1;
    while n < 10
      invariant 1 <= n <= 10 && npai >= 0
      invariant total.0 == nd + DaziFrom(row, n, npai).0 && total.1 == ng + DaziFrom(row, n, npai).1
    {
      DaziStep(row, n, npai);
      npai := npai + a[n];
      if n <= 7 && a[n + 1] == 0 && a[n + 2] == 0 {
        HalfOddDiv(npai);
        nd := nd + npai / 2;
        ng := ng + npai % 2;
        npai := 0;
      }
      n := n + 1;
    }
    HalfOddDiv(npai);
    nd := nd + npai / 2;
    ng := ng + npai % 2;
    r := Split(Tally(0, nd, ng), Tally(0, nd, ng));
  }

  /**
   * `mianzi(bingpai, n)`: takes a run or a triplet out of the list, searches
   * on, and puts the tiles back, so the list is as before on return.
   */
  method Mianzi(a: array<int>, n: int) returns (r: Split)
    requires SuitRow(a[..]) && 1 <= n <= 10
    modifies a
    ensures a[..] == old(a[..]) && r == MianziSpec(a[..], n)
    decreases SumFrom(a[..], 1), 10 - n, 1
  {
    if n > 9 {
      r := Dazi(a);
      return;
    }
    ghost var row := a[..];
    r := Mianzi(a, n + 1);
    if n <= 7 && a[n] > 0 && a[n + 1] > 0 && a[n + 2] > 0 {
      var t := SearchWithoutRun(a, n);
      r := Pick(r, t.AddMianzi());
    }
    ghost var r1 := r;
    if a[n] >= 3 {
      var t := SearchWithoutPung(a, n);
      r := Pick(r, t.AddMianzi());
    }
    MianziUnfold(row, n, r1);
  }

  /** The run branch of `mianzi`: take n, n+1, n+2 out, search from n, put the tiles back. */
  method SearchWithoutRun(a: array<int>, n: int) returns (t: Split)
    requires SuitRow(a[..]) && 1 <= n <= 9 && CanRun(a[..], n)
    modifies a
    ensures a[..] == old(a[..])
    ensures t == MianziSpec(TakeRun(a[..], n), n)
    decreases SumFrom(a[..], 1), 10 - n, 0
  {
    ghost var row := a[..];
    a[n] := a[n] - 1;
    a[n + 1] := a[n + 1] - 1;
    a[n + 2] := a[n + 2] - 1;
    assert a[..] == TakeRun(row, n);
    t := Mianzi(a, n);
    a[n] := a[n] + 1;
    a[n + 1] := a[n + 1] + 1;
    a[n + 2] := a[n + 2] + 1;
    assert a[..] == row;
  }

  /** The triplet branch of `mianzi`: take three of rank n out, search from n, put them back. */
  method SearchWithoutPung(a: array<int>, n: int) returns (t: Split)
    requires SuitRow(a[..]) && 1 <= n <= 9 && a[n] >= 3
    modifies a
    ensures a[..] == old(a[..])
    ensures t == MianziSpec(TakePung(a[..], n), n)
    decreases SumFrom(a[..], 1), 10 - n, 0
  {
    ghost var row := a[..];
    a[n] := a[n] - 3;
    assert a[..] == TakePung(row, n);
    t := Mianzi(a, n);
    a[n] := a[n] + 3;
    assert a[..] == row;
  }

  lemma MianziUnfold(row: seq<int>, n: int, r1: Split)
    requires SuitRow(row) && 1 <= n <= 9
    requires r1 == if CanRun(row, n) then Pick(MianziSpec(row, n + 1), MianziSpec(TakeRun(row, n), n).AddMianzi())
                   else MianziSpec(row, n + 1)
    ensures MianziSpec(row, n) == if row[n] >= 3 then Pick(r1, MianziSpec(TakePung(row, n), n).AddMianzi()) else r1
  {
  }

  /** Slot i of the `[mianzi, dazi, guli]` lists of the source. */
  function Field(t: Tally, i: int): int
  {
    if i == 0 then t.mianzi else if i == 1 then t.dazi else t.guli
  }

  /**
   * `mianzi_all(shoupai, jiangpai)`: searches each numeral suit in place,
   * tallies the honours and scans the eight combinations; the hand is as
   * before on return.
   */
  method MianziAll(sp: Shoupai, jiangpai: bool) returns (xMin: int)
    requires sp.Shaped() && CountsOk(sp.Value().bingpai)
    modifies sp.m, sp.p, sp.s
    ensures sp.Value() == old(sp.Value())
    ensures xMin == MianziAllSpec(sp.Value().bingpai, |sp.fulou|, jiangpai)
  {
    var rm := Mianzi(sp.m, 1);
    var rp := Mianzi(sp.p, 1);
    var rs := Mianzi(sp.s, 1);
    var zt := Tally(0, 0, 0);
    var n := 1;
    while n < 8
      invariant 1 <= n <= 8
      invariant zt == HonourTally(sp.z[..], n)
    {
      var c := sp.z[n];
      if c >= 3 {
        zt := zt.AddMianzi();
      } else if c == 2 {
        zt := zt.(dazi := zt.dazi + 1);
      } else if c == 1 {
        zt := zt.(guli := zt.guli + 1);
      }
      n := n + 1;
    }
    assert Parts(rm, rp, rs, zt, |sp.fulou|) == PartsOf(sp.Value().bingpai, |sp.fulou|);
    xMin := ScanCombinations(rm, rp, rs, zt, |sp.fulou|, jiangpai);
  }

  /**
   * The nested loops of `mianzi_all`: pattern A or B for each numeral suit,
   * the sums built slot by slot, `_xiangting` taken after each slot.
   */
  method ScanCombinations(rm: Split, rp: Split, rs: Split, zt: Tally, nf: int, jiangpai: bool) returns (xMin: int)
    ensures xMin == ScanM(13, Parts(rm, rp, rs, zt, nf), jiangpai, 2)
  {
    ghost var parts := Parts(rm, rp, rs, zt, nf);
    xMin := 13;
    var mi := 0;
    while mi < 2
      invariant 0 <= mi <= 2
      invariant xMin == ScanM(13, parts, jiangpai, mi)
    {
      xMin := ScanPinzu(xMin, Opt(rm, mi), rp, rs, zt, nf, jiangpai, parts);
      mi := mi + 1;
    }
  }

  /** The loop over the patterns of the dots suit, the pattern mt of the characters suit fixed. */
  method ScanPinzu(x0: int, mt: Tally, rp: Split, rs: Split, zt: Tally, nf: int, jiangpai: bool, ghost parts: Parts)
    returns (xMin: int)
    requires parts.rp == rp && parts.rs == rs && parts.zt == zt && parts.nf == nf
    ensures xMin == ScanP(x0, mt, parts, jiangpai, 2)
  {
    xMin := x0;
    var pi := 0;
    while pi < 2
      invariant 0 <= pi <= 2
      invariant xMin == ScanP(x0, mt, parts, jiangpai, pi)
    {
      xMin := ScanSouzu(xMin, mt, Opt(rp, pi), rs, zt, nf, jiangpai, parts);
      pi := pi + 1;
    }
  }

  /** The loop over the patterns of the bamboo suit, the other two patterns fixed. */
  method ScanSouzu(x0: int, mt: Tally, pt: Tally, rs: Split, zt: Tally, nf: int, jiangpai: bool, ghost parts: Parts)
    returns (xMin: int)
    requires parts.rs == rs && parts.zt == zt && parts.nf == nf
    ensures xMin == ScanS(x0, mt, pt, parts, jiangpai, 2)
  {
    xMin := x0;
    var si := 0;
    while si < 2
      invariant 0 <= si <= 2
      invariant xMin == ScanS(x0, mt, pt, parts, jiangpai, si)
    {
      xMin := ScanSlots(xMin, mt, pt, Opt(rs, si), zt, nf, jiangpai, parts);
      si := si + 1;
    }
  }

  /** The innermost loop: the three sums built slot by slot, `_xiangting` taken after each. */
  method ScanSlots(x0: int, mt: Tally, pt: Tally, st: Tally, zt: Tally, nf: int, jiangpai: bool, ghost parts: Parts)
    returns (xMin: int)
    requires parts.zt == zt && parts.nf == nf
    ensures xMin == InnerScan(x0, Total(mt, pt, st, parts), jiangpai, 3)
  {
    ghost var t := Total(mt, pt, st, parts);
    xMin := x0;
    var x := [nf, 0, 0];
    var i := 0;
    while i < 3
      invariant 0 <= i <= 3
      invariant x == if i == 0 then [nf, 0, 0] else [Partial(t, i).mianzi, Partial(t, i).dazi, Partial(t, i).guli]
      invariant xMin == InnerScan(x0, t, jiangpai, i)
    {
      x := x[i := x[i] + Field(mt, i) + Field(pt, i) + Field(st, i) + Field(zt, i)];
      var nx := Formula(x[0], x[1], x[2], jiangpai);
      if nx < xMin {
        xMin := nx;
      }
      i := i + 1;
    }
  }

  // ---------------------------------------------------------------------
  // xiangting_yiban

  /** Valid counts are counts the search may work on. */
  lemma ValidCounts(b: Bingpai)
    requires b.Valid()
    ensures CountsOk(b)
  {
  }

  /** Setting a pair aside keeps the counts workable. */
  lemma PairAsideCounts(b: Bingpai, c: char, n: int)
    requires CountsOk(b) && IsKind(c, n) && b.Row(c)[n] >= 2
    ensures CountsOk(b.Bump(c, n, -2))
  {
    var b1 := b.Bump(c, n, -2);
    assert b1.Row('m') == b1.m && b1.Row('p') == b1.p && b1.Row('s') == b1.s && b1.Row('z') == b1.z;
    assert b.Row('m') == b.m && b.Row('p') == b.p && b.Row('s') == b.s && b.Row('z') == b.z;
  }

  /** `mianzi_all(shoupai, True)` with a pair of (c, n) set aside. */
  function WithPair(b: Bingpai, nf: int, c: char, n: int): int
    requires CountsOk(b) && IsKind(c, n) && b.Row(c)[n] >= 2
  {
    PairAsideCounts(b, c, n);
    MianziAllSpec(b.Bump(c, n, -2), nf, true)
  }

  /** The pair loop over ranks 1..n-1 of suit c, starting from x. */
  function SuitHeads(b: Bingpai, nf: int, c: char, x: int, n: int): int
    requires CountsOk(b) && IsSuit(c) && 1 <= n <= |b.Row(c)|
  {
    if n == 1 then x
    else
      var y := SuitHeads(b, nf, c, x, n - 1);
      if b.Row(c)[n - 1] >= 2 then Min(y, WithPair(b, nf, c, n - 1)) else y
  }

  /** The pair loop over the first k of the suits m, p, s, z. */
  function HeadScan(b: Bingpai, nf: int, x: int, k: int): int
    requires CountsOk(b) && 0 <= k <= 4
  {
    if k == 0 then x
    else
      var c := "mpsz"[k - 1];
      SuitHeads(b, nf, c, HeadScan(b, nf, x, k - 1), |b.Row(c)|)
  }

  /** The least value of `xiangting_yiban`'s loop: no pair set aside, or any pair of a kind held twice. */
  function YibanMin(h: HandState): int
    requires CountsOk(h.bingpai)
  {
    var nf := |h.fulou|;
    HeadScan(h.bingpai, nf, MianziAllSpec(h.bingpai, nf, false), 4)
  }

  /**
   * `xiangting_yiban`: the least value, except that a complete shape right
   * after a call (the draw slot holds the meld) counts as ready, 0.
   */
  function YibanSpec(h: HandState): int
    requires CountsOk(h.bingpai)
  {
    var x := YibanMin(h);
    if x == -1 && HasZimo(h.zimo) && |h.zimo.value| > 2 then 0 else x
  }

  /** A kind of the pair loop: a rank 1..9 of m, p, s or 1..7 of z. */
  predicate PairKind(b: Bingpai, c: char, n: int)
    requires b.Shaped()
  {
    IsSuit(c) && 1 <= n < |b.Row(c)|
  }

  lemma {:induction false} SuitHeadsBounds(b: Bingpai, nf: int, c: char, x: int, n: int)
    requires CountsOk(b) && IsSuit(c) && 1 <= n <= |b.Row(c)|
    ensures var r := SuitHeads(b, nf, c, x, n);
      r <= x
      && (forall k :: 1 <= k < n && b.Row(c)[k] >= 2 ==> r <= WithPair(b, nf, c, k))
      && (r == x || exists k :: 1 <= k < n && b.Row(c)[k] >= 2 && r == WithPair(b, nf, c, k))
  {
    if n > 1 {
      SuitHeadsBounds(b, nf, c, x, n - 1);
    }
  }

  /** The pair loop over the first k suits ends at most at x and at each value with a held pair set aside. */
  lemma {:induction false} HeadScanBelow(b: Bingpai, nf: int, x: int, k: int)
    requires CountsOk(b) && 0 <= k <= 4
    ensures var r := HeadScan(b, nf, x, k);
      r <= x
      && forall i, n :: 0 <= i < k && PairKind(b, "mpsz"[i], n) && b.Row("mpsz"[i])[n] >= 2 ==>
           r <= WithPair(b, nf, "mpsz"[i], n)
  {
    if k > 0 {
      HeadScanBelow(b, nf, x, k - 1);
      var c := "mpsz"[k - 1];
      SuitHeadsBounds(b, nf, c, HeadScan(b, nf, x, k - 1), |b.Row(c)|);
    }
  }

  /** The pair loop over the first k suits ends at x or at the value with some held pair set aside. */
  lemma {:induction false} HeadScanReached(b: Bingpai, nf: int, x: int, k: int)
    requires CountsOk(b) && 0 <= k <= 4
    ensures var r := HeadScan(b, nf, x, k);
      r == x || exists i, n :: 0 <= i < k && PairKind(b, "mpsz"[i], n) && b.Row("mpsz"[i])[n] >= 2
                 && r == WithPair(b, nf, "mpsz"[i], n)
  {
    if k > 0 {
      HeadScanReached(b, nf, x, k - 1);
      var c := "mpsz"[k - 1];
      var y := HeadScan(b, nf, x, k - 1);
      SuitHeadsBounds(b, nf, c, y, |b.Row(c)|);
      var r := HeadScan(b, nf, x, k);
      if r != y {
        var n :| 1 <= n < |b.Row(c)| && b.Row(c)[n] >= 2 && r == WithPair(b, nf, c, n);
        assert PairKind(b, "mpsz"[k - 1], n);
      } else if r != x {
        var i, n :| 0 <= i < k - 1 && PairKind(b, "mpsz"[i], n) && b.Row("mpsz"[i])[n] >= 2
                 && y == WithPair(b, nf, "mpsz"[i], n);
        assert 0 <= i < k;
      }
    }
  }

  /**
   * The loop of `xiangting_yiban` keeps the least value: it is at most the
   * value with no pair set aside and the value with any held pair set
   * aside, and it is one of them.
   */
  lemma YibanMinimum(h: HandState)
    requires CountsOk(h.bingpai)
    ensures var r := YibanMin(h); var b := h.bingpai; var nf := |h.fulou|;
      r <= MianziAllSpec(b, nf, false)
      && (forall c, n :: PairKind(b, c, n) && b.Row(c)[n] >= 2 ==> r <= WithPair(b, nf, c, n))
      && (r == MianziAllSpec(b, nf, false)
          || exists c, n :: PairKind(b, c, n) && b.Row(c)[n] >= 2 && r == WithPair(b, nf, c, n))
  {
    var b := h.bingpai;
    var nf := |h.fulou|;
    HeadScanBelow(b, nf, MianziAllSpec(b, nf, false), 4);
    HeadScanReached(b, nf, MianziAllSpec(b, nf, false), 4);
    forall c, n | PairKind(b, c, n) && b.Row(c)[n] >= 2
      ensures YibanMin(h) <= WithPair(b, nf, c, n)
    {
      var i := if c == 'm' then 0 else if c == 'p' then 1 else if c == 's' then 2 else 3;
      assert "mpsz"[i] == c;
    }
  }

  /**
   * The shanten number of the standard shape lies in -1..13; it is -1
   * exactly when some held pair, set aside, leaves four melds in some
   * combination; and right after a call it is never -1.
   */
  lemma YibanRange(h: HandState)
    requires CountsOk(h.bingpai)
    ensures -1 <= YibanSpec(h) <= 13
    ensures YibanMin(h) == -1 <==>
      exists c, n :: PairKind(h.bingpai, c, n) && h.bingpai.Row(c)[n] >= 2 && WithPair(h.bingpai, |h.fulou|, c, n) == -1
    ensures HasZimo(h.zimo) && |h.zimo.value| > 2 ==> YibanSpec(h) >= 0
  {
    var b := h.bingpai;
    var nf := |h.fulou|;
    YibanMinimum(h);
    MianziAllMinimum(b, nf, false);
    MianziAllComplete(b, nf, false);
    forall c, n | PairKind(b, c, n) && b.Row(c)[n] >= 2
      ensures -1 <= WithPair(b, nf, c, n) <= 13
    {
      PairAsideCounts(b, c, n);
      MianziAllMinimum(b.Bump(c, n, -2), nf, true);
    }
  }

  /** `xiangting_yiban(shoupai)`: sets each held pair aside in place and puts it back. */
  method XiangtingYiban(sp: Shoupai) returns (x: int)
    requires sp.Shaped() && CountsOk(sp.Value().bingpai)
    modifies sp.m, sp.p, sp.s, sp.z
    ensures sp.Value() == old(sp.Value())
    ensures x == YibanSpec(sp.Value())
  {
    ghost var h := sp.Value();
    ghost var b := h.bingpai;
    ghost var nf := |h.fulou|;
    x := MianziAll(sp, false);
    ghost var x0 := x;
    var k := 0;
    while k < 4
      invariant 0 <= k <= 4
      invariant sp.Shaped() && sp.Value() == h
      invariant x == HeadScan(b, nf, x0, k)
    {
      var c := "mpsz"[k];
      x := SuitPairs(sp, h, c, x);
      k := k + 1;
    }
    if x == -1 && sp.zimo.Some? && sp.zimo.value != "" && |sp.zimo.value| > 2 {
      x := 0;
    }
  }

  /** The pair loop over one suit c: each held pair is set aside in turn, keeping the least value. */
  method SuitPairs(sp: Shoupai, ghost h: HandState, c: char, x0: int) returns (x: int)
    requires sp.Shaped() && sp.Value() == h && CountsOk(h.bingpai) && IsSuit(c)
    modifies sp.m, sp.p, sp.s, sp.z
    ensures sp.Shaped() && sp.Value() == h
    ensures x == SuitHeads(h.bingpai, |h.fulou|, c, x0, |h.bingpai.Row(c)|)
  {
    var a := sp.Arr(c);
    assert a[..] == h.bingpai.Row(c);
    x := x0;
    var n := 1;
    while n < a.Length
      invariant 1 <= n <= a.Length
      invariant sp.Shaped() && sp.Value() == h
      invariant x == SuitHeads(h.bingpai, |h.fulou|, c, x0, n)
    {
      if a[n] >= 2 {
        var v := PairAside(sp, h, c, n);
        if v < x {
          x := v;
        }
      }
      n := n + 1;
    }
  }

  /** One step of the pair loop: take two tiles of (c, n) out, run `mianzi_all` with a pair, put them back. */
  method PairAside(sp: Shoupai, ghost h: HandState, c: char, n: int) returns (v: int)
    requires sp.Shaped() && sp.Value() == h && CountsOk(h.bingpai) && IsKind(c, n) && h.bingpai.Row(c)[n] >= 2
    modifies sp.m, sp.p, sp.s, sp.z
    ensures sp.Value() == h
    ensures v == WithPair(h.bingpai, |h.fulou|, c, n)
  {
    PairAsideCounts(h.bingpai, c, n);
    sp.AddAt(c, n, -2);
    v := MianziAll(sp, true);
    sp.AddAt(c, n, 2);
    BumpBack(h.bingpai, c, n);
  }

  // ---------------------------------------------------------------------
  // xiangting_goushi

  /** The thirteen terminals and honours, in the order `xiangting_goushi` visits them. */
  const YAOJIU: seq<(char, int)> :=
    [('m', 1), ('m', 9), ('p', 1), ('p', 9), ('s', 1), ('s', 9),
     ('z', 1), ('z', 2), ('z', 3), ('z', 4), ('z', 5), ('z', 6), ('z', 7)]

  lemma YaojiuKinds()
    ensures |YAOJIU| == 13 && forall i :: 0 <= i < 13 ==> IsKind(YAOJIU[i].0, YAOJIU[i].1)
  {
  }

  function YaojiuCount(b: Bingpai, i: int): int
    requires b.Shaped() && 0 <= i < 13
  {
    YaojiuKinds();
    b.Count(YAOJIU[i].0, YAOJIU[i].1)
  }

  /** Over the first k terminals and honours: how many kinds are held, and how many are held twice or more. */
  function YaojiuTally(b: Bingpai, k: int): (int, int)
    requires b.Shaped() && 0 <= k <= 13
  {
    if k == 0 then (0, 0)
    else
      var (ny, nd) := YaojiuTally(b, k - 1);
      var cnt := YaojiuCount(b, k - 1);
      (ny + (if cnt >= 1 then 1 else 0), nd + (if cnt >= 2 then 1 else 0))
  }

  /** `xiangting_goushi`: unreachable with a declared meld, else 13 less the kinds held, one less with a pair. */
  function GoushiSpec(h: HandState): int
    requires h.bingpai.Shaped()
  {
    if |h.fulou| > 0 then XIANGTING_INF
    else
      var (ny, nd) := YaojiuTally(h.bingpai, 13);
      if nd != 0 then 12 - ny else 13 - ny
  }

  /**
   * The tally counts every kind held and every kind held twice: the first
   * count reaches k exactly when all of the first k are held, the second is
   * positive exactly when one of them is held twice.
   */
  lemma YaojiuTallyCounts(b: Bingpai, k: int)
    requires b.Shaped() && 0 <= k <= 13
    ensures 0 <= YaojiuTally(b, k).1 <= YaojiuTally(b, k).0 <= k
    ensures YaojiuTally(b, k).0 == k <==> forall i :: 0 <= i < k ==> YaojiuCount(b, i) >= 1
    ensures YaojiuTally(b, k).1 > 0 <==> exists i :: 0 <= i < k && YaojiuCount(b, i) >= 2
  {
    YaojiuTallyHeld(b, k);
    YaojiuTallyPair(b, k);
  }

  /** The first count reaches k exactly when all of the first k kinds are held; neither count goes out of 0..k. */
  lemma YaojiuTallyHeld(b: Bingpai, k: int)
    requires b.Shaped() && 0 <= k <= 13
    ensures 0 <= YaojiuTally(b, k).1 <= YaojiuTally(b, k).0 <= k
    ensures YaojiuTally(b, k).0 == k <==> forall i :: 0 <= i < k ==> YaojiuCount(b, i) >= 1
  {
    YaojiuTallyBounds(b, k);
    if YaojiuTally(b, k).0 == k {
      TallyFullHeld(b, k);
    }
    if forall i :: 0 <= i < k ==> YaojiuCount(b, i) >= 1 {
      AllHeldTally(b, k);
    }
  }

  lemma {:induction false} TallyFullHeld(b: Bingpai, k: int)
    requires b.Shaped() && 0 <= k <= 13 && YaojiuTally(b, k).0 == k
    ensures forall i :: 0 <= i < k ==> YaojiuCount(b, i) >= 1
  {
    if k > 0 {
      YaojiuTallyStep(b, k - 1);
      YaojiuTallyBounds(b, k - 1);
      TallyFullHeld(b, k - 1);
    }
  }

  lemma {:induction false} AllHeldTally(b: Bingpai, k: int)
    requires b.Shaped() && 0 <= k <= 13 && forall i :: 0 <= i < k ==> YaojiuCount(b, i) >= 1
    ensures YaojiuTally(b, k).0 == k
  {
    if k > 0 {
      YaojiuTallyStep(b, k - 1);
      AllHeldTally(b, k - 1);
    }
  }

  /** Neither count goes out of 0..k, and the pairs are among the kinds held. */
  lemma {:induction false} YaojiuTallyBounds(b: Bingpai, k: int)
    requires b.Shaped() && 0 <= k <= 13
    ensures 0 <= YaojiuTally(b, k).1 <= YaojiuTally(b, k).0 <= k
  {
    if k > 0 {
      YaojiuTallyBounds(b, k - 1);
      YaojiuTallyStep(b, k - 1);
    }
  }

  /** The second count is positive exactly when one of the first k kinds is held twice. */
  lemma {:induction false} YaojiuTallyPair(b: Bingpai, k: int)
    requires b.Shaped() && 0 <= k <= 13
    ensures YaojiuTally(b, k).1 > 0 <==> exists i :: 0 <= i < k && YaojiuCount(b, i) >= 2
  {
    if k > 0 {
      YaojiuTallyPair(b, k - 1);
      YaojiuTallyStep(b, k - 1);
      if YaojiuCount(b, k - 1) >= 2 {
        YaojiuTallyHeld(b, k - 1);
        assert 0 <= k - 1 < k && YaojiuCount(b, k - 1) >= 2;
      } else if YaojiuTally(b, k - 1).1 > 0 {
        var i :| 0 <= i < k - 1 && YaojiuCount(b, i) >= 2;
        assert 0 <= i < k;
      } else {
        forall i | 0 <= i < k
          ensures YaojiuCount(b, i) < 2
        {
          if i < k - 1 {
            assert !(0 <= i < k - 1 && YaojiuCount(b, i) >= 2);
          }
        }
      }
    }
  }

  /**
   * Without a declared meld the value lies in -1..13, and it is -1 exactly
   * when all thirteen terminals and honours are held and one of them twice.
   */
  lemma GoushiRange(h: HandState)
    requires h.bingpai.Shaped() && |h.fulou| == 0
    ensures -1 <= GoushiSpec(h) <= 13
    ensures GoushiSpec(h) == -1 <==>
      (forall i :: 0 <= i < 13 ==> YaojiuCount(h.bingpai, i) >= 1) && (exists i :: 0 <= i < 13 && YaojiuCount(h.bingpai, i) >= 2)
  {
    YaojiuTallyCounts(h.bingpai, 13);
  }

  /** The suit the goushi loop visits k-th and the ranks it checks there. */
  function YaojiuRanks(c: char): seq<int>
  {
    if c == 'z' then [1, 2, 3, 4, 5, 6, 7] else [1, 9]
  }

  function YaojiuOffset(k: int): int
  {
    if k <= 0 then 0 else if k == 1 then 2 else if k == 2 then 4 else if k == 3 then 6 else 13
  }

  lemma YaojiuAt(k: int, i: int)
    requires 0 <= k < 4 && 0 <= i < |YaojiuRanks("mpsz"[k])|
    ensures YaojiuOffset(k) + i < 13 && YAOJIU[YaojiuOffset(k) + i] == ("mpsz"[k], YaojiuRanks("mpsz"[k])[i])
    ensures YaojiuOffset(k + 1) == YaojiuOffset(k) + |YaojiuRanks("mpsz"[k])|
  {
  }

  lemma YaojiuCountAt(b: Bingpai, k: int, i: int)
    requires b.Shaped() && 0 <= k < 4 && 0 <= i < |YaojiuRanks("mpsz"[k])|
    ensures YaojiuOffset(k) + i < 13 && 0 <= YaojiuRanks("mpsz"[k])[i] < |b.Row("mpsz"[k])|
    ensures YaojiuCount(b, YaojiuOffset(k) + i) == b.Row("mpsz"[k])[YaojiuRanks("mpsz"[k])[i]]
  {
    YaojiuAt(k, i);
  }

  lemma YaojiuTallyStep(b: Bingpai, j: int)
    requires b.Shaped() && 0 <= j < 13
    ensures var cnt := YaojiuCount(b, j);
      YaojiuTally(b, j + 1) == (YaojiuTally(b, j).0 + (if cnt >= 1 then 1 else 0), YaojiuTally(b, j).1 + (if cnt >= 2 then 1 else 0))
  {
  }

  /** One step of the tally, stated by the count at rank i of suit k's terminal ranks. */
  lemma YaojiuRowStep(b: Bingpai, k: int, i: int)
    requires b.Shaped() && 0 <= k < 4 && 0 <= i < |YaojiuRanks("mpsz"[k])|
    ensures var off := YaojiuOffset(k); var c := "mpsz"[k]; var n := YaojiuRanks(c)[i];
      off + i < 13 && 0 <= n < |b.Row(c)|
      && var cnt := b.Row(c)[n];
      YaojiuTally(b, off + i + 1)
        == (YaojiuTally(b, off + i).0 + (if cnt >= 1 then 1 else 0), YaojiuTally(b, off + i).1 + (if cnt >= 2 then 1 else 0))
  {
    YaojiuCountAt(b, k, i);
    YaojiuTallyStep(b, YaojiuOffset(k) + i);
  }

  /** `xiangting_goushi(shoupai)`: the loops over the suits and their terminal ranks. */
  method XiangtingGoushi(sp: Shoupai) returns (x: int)
    requires sp.Shaped()
    ensures x == GoushiSpec(sp.Value())
  {
    if |sp.fulou| > 0 {
      return XIANGTING_INF;
    }
    ghost var b := sp.Value().bingpai;
    var nYaojiu, nDuizi := 0, 0;
    var k := 0;
    while k < 4
      invariant 0 <= k <= 4
      invariant (nYaojiu, nDuizi) == YaojiuTally(b, YaojiuOffset(k))
    {
      var c := "mpsz"[k];
      var a := sp.Arr(c);
      assert a[..] == b.Row(c);
      nYaojiu, nDuizi := YaojiuRow(a, k, b, nYaojiu, nDuizi);
      k := k + 1;
    }
    x := if nDuizi != 0 then 12 - nYaojiu else 13 - nYaojiu;
  }

  /** The inner loop of `xiangting_goushi` over the terminal (or honour) ranks of suit k. */
  method YaojiuRow(a: array<int>, k: int, ghost b: Bingpai, ny0: int, nd0: int) returns (nYaojiu: int, nDuizi: int)
    requires b.Shaped() && 0 <= k < 4 && a[..] == b.Row("mpsz"[k])
    requires (ny0, nd0) == YaojiuTally(b, YaojiuOffset(k))
    ensures (nYaojiu, nDuizi) == YaojiuTally(b, YaojiuOffset(k + 1))
  {
    var nn := YaojiuRanks("mpsz"[k]);
    ghost var off := YaojiuOffset(k);
    YaojiuAt(k, 0);
    nYaojiu, nDuizi := ny0, nd0;
    var i := 0;
    while i < |nn|
      invariant 0 <= i <= |nn|
      invariant nYaojiu == YaojiuTally(b, off + i).0 && nDuizi == YaojiuTally(b, off + i).1
    {
      var n := nn[i];
      YaojiuRowStep(b, k, i);
      var cnt := a[n];
      assert cnt == a[..][n];
      if cnt >= 1 {
        nYaojiu := nYaojiu + 1;
      }
      if cnt >= 2 {
        nDuizi := nDuizi + 1;
      }
      i := i + 1;
    }
  }

  // ---------------------------------------------------------------------
  // xiangting_qidui

  /** The i-th of the 34 kinds in the order the loops visit them: m1..m9, p1..p9, s1..s9, z1..z7. */
  function KindAt(i: int): (k: (char, int))
    requires 0 <= i < 34
    ensures IsKind(k.0, k.1) && k.1 >= 1
  {
    if i < 9 then ('m', i + 1)
    else if i < 18 then ('p', i - 8)
    else if i < 27 then ('s', i - 17)
    else ('z', i - 26)
  }

  function CountAt(b: Bingpai, i: int): int
    requires b.Shaped() && 0 <= i < 34
  {
    b.Count(KindAt(i).0, KindAt(i).1)
  }

  /** Over the first k kinds: how many are held twice or more, and how many exactly once. */
  function PairTally(b: Bingpai, k: int): (int, int)
    requires b.Shaped() && 0 <= k <= 34
  {
    if k == 0 then (0, 0)
    else
      var (nd, ng) := PairTally(b, k - 1);
      var cnt := CountAt(b, k - 1);
      if cnt >= 2 then (nd + 1, ng) else if cnt == 1 then (nd, ng + 1) else (nd, ng)
  }

  /**
   * `xiangting_qidui`: unreachable with a declared meld; else pairs beyond
   * seven are not counted, single kinds only up to the seven kinds the
   * shape needs, and each pair saves two exchanges, each single one.
   */
  function QiduiSpec(h: HandState): int
    requires h.bingpai.Shaped()
  {
    if |h.fulou| > 0 then XIANGTING_INF
    else
      var (nd0, ng0) := PairTally(h.bingpai, 34);
      var nd := if nd0 > 7 then 7 else nd0;
      var ng := if nd + ng0 > 7 then 7 - nd else ng0;
      13 - nd * 2 - ng
  }

  lemma {:induction false} PairTallyBounds(b: Bingpai, k: int)
    requires b.Shaped() && 0 <= k <= 34
    ensures var (nd, ng) := PairTally(b, k); 0 <= nd && 0 <= ng && nd + ng <= k
  {
    if k > 0 {
      PairTallyBounds(b, k - 1);
    }
  }

  /**
   * Without a declared meld the value lies in -1..13, and it is -1 exactly
   * when at least seven kinds are held twice or more.
   */
  lemma QiduiRange(h: HandState)
    requires h.bingpai.Shaped() && |h.fulou| == 0
    ensures -1 <= QiduiSpec(h) <= 13
    ensures QiduiSpec(h) == -1 <==> PairTally(h.bingpai, 34).0 >= 7
  {
    PairTallyBounds(h.bingpai, 34);
  }

  /** `xiangting_qidui(shoupai)`: the loops over every suit and rank. */
  method XiangtingQidui(sp: Shoupai) returns (x: int)
    requires sp.Shaped()
    ensures x == QiduiSpec(sp.Value())
  {
    if |sp.fulou| > 0 {
      return XIANGTING_INF;
    }
    ghost var b := sp.Value().bingpai;
    var nDuizi, nGuli := 0, 0;
    var k := 0;
    while k < 4
      invariant 0 <= k <= 4
      invariant (nDuizi, nGuli) == PairTally(b, if k < 4 then 9 * k else 34)
    {
      var c := "mpsz"[k];
      var a := sp.Arr(c);
      assert a[..] == b.Row(c);
      nDuizi, nGuli := PairsInRow(a, k, b, nDuizi, nGuli);
      k := k + 1;
    }
    if nDuizi > 7 {
      nDuizi := 7;
    }
    if nDuizi + nGuli > 7 {
      nGuli := 7 - nDuizi;
    }
    x := 13 - nDuizi * 2 - nGuli;
  }

  /** The inner loop of `xiangting_qidui` over the ranks of one suit. */
  method PairsInRow(a: array<int>, k: int, ghost b: Bingpai, nd0: int, ng0: int) returns (nDuizi: int, nGuli: int)
    requires b.Shaped() && 0 <= k < 4 && a[..] == b.Row("mpsz"[k])
    requires (nd0, ng0) == PairTally(b, 9 * k)
    ensures (nDuizi, nGuli) == PairTally(b, if k < 3 then 9 * (k + 1) else 34)
  {
    ghost var c := "mpsz"[k];
    nDuizi, nGuli := nd0, ng0;
    var n := 1;
    while n < a.Length
      invariant 1 <= n <= a.Length
      invariant 9 * k + n - 1 <= 34
      invariant (nDuizi, nGuli) == PairTally(b, 9 * k + n - 1)
    {
      assert KindAt(9 * k + n - 1) == (c, n);
      if a[n] >= 2 {
        nDuizi := nDuizi + 1;
      } else if a[n] == 1 {
        nGuli := nGuli + 1;
      }
      n := n + 1;
    }
  }

  // ---------------------------------------------------------------------
  // xiangting

  /** `xiangting`: the least of the three shapes. */
  function XiangtingSpec(h: HandState): int
    requires CountsOk(h.bingpai)
  {
    var y := YibanSpec(h);
    var g := GoushiSpec(h);
    var q := QiduiSpec(h);
    if y <= g && y <= q then y else if g <= q then g else q
  }

  /**
   * The shanten number of a hand lies in -1..13 and is no more than that
   * of any of the three shapes; it is never the value of an unreachable
   * shape.
   */
  lemma XiangtingRange(h: HandState)
    requires CountsOk(h.bingpai)
    ensures var x := XiangtingSpec(h);
      -1 <= x <= 13 && x <= YibanSpec(h) && x <= GoushiSpec(h) && x <= QiduiSpec(h)
      && (x == YibanSpec(h) || x == GoushiSpec(h) || x == QiduiSpec(h))
  {
    YibanRange(h);
    if |h.fulou| == 0 {
      GoushiRange(h);
      QiduiRange(h);
    }
  }

  /** `xiangting(shoupai)`. */
  method Xiangting(sp: Shoupai) returns (x: int)
    requires sp.Shaped() && CountsOk(sp.Value().bingpai)
    modifies sp.m, sp.p, sp.s, sp.z
    ensures sp.Value() == old(sp.Value())
    ensures x == XiangtingSpec(sp.Value())
  {
    var y := XiangtingYiban(sp);
    var g := XiangtingGoushi(sp);
    var q := XiangtingQidui(sp);
    x := if y <= g && y <= q then y else if g <= q then g else q;
  }

  // ---------------------------------------------------------------------
  // The shapes of the shanten tests

  /** The counts of the hand m11259p19z123456 with z3 drawn. */
  const GOUSHI_EXAMPLE: Bingpai :=
    Bingpai(0, [0, 2, 1, 0, 0, 1, 0, 0, 0, 1], [0, 1, 0, 0, 0, 0, 0, 0, 0, 1], [0, 0, 0, 0, 0, 0, 0, 0, 0, 0], [0, 1, 1, 2, 1, 1, 1, 0])

  /** The tally after the first four terminals and honours, m1..p9. */
  lemma GoushiExampleFirst()
    ensures YaojiuTally(GOUSHI_EXAMPLE, 4) == (4, 1)
  {
    assert YaojiuTally(GOUSHI_EXAMPLE, 1) == (1, 1);
    assert YaojiuTally(GOUSHI_EXAMPLE, 2) == (2, 1);
    assert YaojiuTally(GOUSHI_EXAMPLE, 3) == (3, 1);
  }

  /** The tally after the first eight terminals and honours, m1..z2. */
  lemma GoushiExampleMiddle()
    ensures YaojiuTally(GOUSHI_EXAMPLE, 8) == (6, 1)
  {
    GoushiExampleFirst();
    assert YaojiuTally(GOUSHI_EXAMPLE, 5) == (4, 1);
    assert YaojiuTally(GOUSHI_EXAMPLE, 6) == (4, 1);
    assert YaojiuTally(GOUSHI_EXAMPLE, 7) == (5, 1);
  }

  /** The hand m11259p19z123456 with z3 drawn: ten terminals and honours held, two paired, two from thirteen orphans. */
  lemma GoushiExample()
    ensures GoushiSpec(HandState(GOUSHI_EXAMPLE, [], None, false)) == 2
  {
    GoushiExampleMiddle();
    assert YaojiuTally(GOUSHI_EXAMPLE, 9) == (7, 2);
    assert YaojiuTally(GOUSHI_EXAMPLE, 10) == (8, 2);
    assert YaojiuTally(GOUSHI_EXAMPLE, 11) == (9, 2);
    assert YaojiuTally(GOUSHI_EXAMPLE, 12) == (10, 2);
  }

  /** The counts of the hand m1144p3366s89z4567. */
  const QIDUI_EXAMPLE: Bingpai :=
    Bingpai(0, [0, 2, 0, 0, 2, 0, 0, 0, 0, 0], [0, 0, 0, 2, 0, 0, 2, 0, 0, 0], [0, 0, 0, 0, 0, 0, 0, 0, 1, 1], [0, 0, 0, 0, 1, 1, 1, 1])

  /** The tally after the first twelve kinds, m1..p3. */
  lemma QiduiExampleFirst()
    ensures PairTally(QIDUI_EXAMPLE, 12) == (3, 0)
  {
    assert PairTally(QIDUI_EXAMPLE, 1) == (1, 0);
    assert PairTally(QIDUI_EXAMPLE, 2) == (1, 0);
    assert PairTally(QIDUI_EXAMPLE, 3) == (1, 0);
    assert PairTally(QIDUI_EXAMPLE, 4) == (2, 0);
    assert PairTally(QIDUI_EXAMPLE, 5) == (2, 0);
    assert PairTally(QIDUI_EXAMPLE, 6) == (2, 0);
    assert PairTally(QIDUI_EXAMPLE, 7) == (2, 0);
    assert PairTally(QIDUI_EXAMPLE, 8) == (2, 0);
    assert PairTally(QIDUI_EXAMPLE, 9) == (2, 0);
    assert PairTally(QIDUI_EXAMPLE, 10) == (2, 0);
    assert PairTally(QIDUI_EXAMPLE, 11) == (2, 0);
  }

  lemma QiduiExampleMiddle()
    requires PairTally(QIDUI_EXAMPLE, 12) == (3, 0)
    ensures PairTally(QIDUI_EXAMPLE, 24) == (4, 0)
  {
    assert PairTally(QIDUI_EXAMPLE, 13) == (3, 0);
    assert PairTally(QIDUI_EXAMPLE, 14) == (3, 0);
    assert PairTally(QIDUI_EXAMPLE, 15) == (4, 0);
    assert PairTally(QIDUI_EXAMPLE, 16) == (4, 0);
    assert PairTally(QIDUI_EXAMPLE, 17) == (4, 0);
    assert PairTally(QIDUI_EXAMPLE, 18) == (4, 0);
    assert PairTally(QIDUI_EXAMPLE, 19) == (4, 0);
    assert PairTally(QIDUI_EXAMPLE, 20) == (4, 0);
    assert PairTally(QIDUI_EXAMPLE, 21) == (4, 0);
    assert PairTally(QIDUI_EXAMPLE, 22) == (4, 0);
    assert PairTally(QIDUI_EXAMPLE, 23) == (4, 0);
  }

  lemma QiduiExampleLast()
    requires PairTally(QIDUI_EXAMPLE, 24) == (4, 0)
    ensures PairTally(QIDUI_EXAMPLE, 34) == (4, 6)
  {
    assert PairTally(QIDUI_EXAMPLE, 25) == (4, 0);
    assert PairTally(QIDUI_EXAMPLE, 26) == (4, 1);
    assert PairTally(QIDUI_EXAMPLE, 27) == (4, 2);
    assert PairTally(QIDUI_EXAMPLE, 28) == (4, 2);
    assert PairTally(QIDUI_EXAMPLE, 29) == (4, 2);
    assert PairTally(QIDUI_EXAMPLE, 30) == (4, 2);
    assert PairTally(QIDUI_EXAMPLE, 31) == (4, 3);
    assert PairTally(QIDUI_EXAMPLE, 32) == (4, 4);
    assert PairTally(QIDUI_EXAMPLE, 33) == (4, 5);
  }

  /** Four pairs and six single kinds, of which three still count: two from seven pairs. */
  lemma QiduiExample()
    ensures QiduiSpec(HandState(QIDUI_EXAMPLE, [], None, false)) == 2
  {
    QiduiExampleFirst();
    QiduiExampleMiddle();
    QiduiExampleLast();
  }

  /** The counts of the hand m11144p33366s8899. */
  const QIDUI_EXAMPLE_SIX: Bingpai :=
    Bingpai(0, [0, 3, 0, 0, 2, 0, 0, 0, 0, 0], [0, 0, 0, 3, 0, 0, 2, 0, 0, 0], [0, 0, 0, 0, 0, 0, 0, 0, 2, 2], [0, 0, 0, 0, 0, 0, 0, 0])

  lemma QiduiSixFirst()
    ensures PairTally(QIDUI_EXAMPLE_SIX, 12) == (3, 0)
  {
    assert PairTally(QIDUI_EXAMPLE_SIX, 1) == (1, 0);
    assert PairTally(QIDUI_EXAMPLE_SIX, 2) == (1, 0);
    assert PairTally(QIDUI_EXAMPLE_SIX, 3) == (1, 0);
    assert PairTally(QIDUI_EXAMPLE_SIX, 4) == (2, 0);
    assert PairTally(QIDUI_EXAMPLE_SIX, 5) == (2, 0);
    assert PairTally(QIDUI_EXAMPLE_SIX, 6) == (2, 0);
    assert PairTally(QIDUI_EXAMPLE_SIX, 7) == (2, 0);
    assert PairTally(QIDUI_EXAMPLE_SIX, 8) == (2, 0);
    assert PairTally(QIDUI_EXAMPLE_SIX, 9) == (2, 0);
    assert PairTally(QIDUI_EXAMPLE_SIX, 10) == (2, 0);
    assert PairTally(QIDUI_EXAMPLE_SIX, 11) == (2, 0);
  }

  lemma QiduiSixMiddle()
    requires PairTally(QIDUI_EXAMPLE_SIX, 12) == (3, 0)
    ensures PairTally(QIDUI_EXAMPLE_SIX, 24) == (4, 0)
  {
    assert PairTally(QIDUI_EXAMPLE_SIX, 13) == (3, 0);
    assert PairTally(QIDUI_EXAMPLE_SIX, 14) == (3, 0);
    assert PairTally(QIDUI_EXAMPLE_SIX, 15) == (4, 0);
    assert PairTally(QIDUI_EXAMPLE_SIX, 16) == (4, 0);
    assert PairTally(QIDUI_EXAMPLE_SIX, 17) == (4, 0);
    assert PairTally(QIDUI_EXAMPLE_SIX, 18) == (4, 0);
    assert PairTally(QIDUI_EXAMPLE_SIX, 19) == (4, 0);
    assert PairTally(QIDUI_EXAMPLE_SIX, 20) == (4, 0);
    assert PairTally(QIDUI_EXAMPLE_SIX, 21) == (4, 0);
    assert PairTally(QIDUI_EXAMPLE_SIX, 22) == (4, 0);
    assert PairTally(QIDUI_EXAMPLE_SIX, 23) == (4, 0);
  }

  lemma QiduiSixLast()
    requires PairTally(QIDUI_EXAMPLE_SIX, 24) == (4, 0)
    ensures PairTally(QIDUI_EXAMPLE_SIX, 34) == (6, 0)
  {
    assert PairTally(QIDUI_EXAMPLE_SIX, 25) == (4, 0);
    assert PairTally(QIDUI_EXAMPLE_SIX, 26) == (5, 0);
    assert PairTally(QIDUI_EXAMPLE_SIX, 27) == (6, 0);
    assert PairTally(QIDUI_EXAMPLE_SIX, 28) == (6, 0);
    assert PairTally(QIDUI_EXAMPLE_SIX, 29) == (6, 0);
    assert PairTally(QIDUI_EXAMPLE_SIX, 30) == (6, 0);
    assert PairTally(QIDUI_EXAMPLE_SIX, 31) == (6, 0);
    assert PairTally(QIDUI_EXAMPLE_SIX, 32) == (6, 0);
    assert PairTally(QIDUI_EXAMPLE_SIX, 33) == (6, 0);
  }

  /** Six kinds held at least twice, a triplet counting as one pair: one from seven pairs. */
  lemma QiduiSixExample()
    ensures QiduiSpec(HandState(QIDUI_EXAMPLE_SIX, [], None, false)) == 1
  {
    QiduiSixFirst();
    QiduiSixMiddle();
    QiduiSixLast();
  }
}
