/**
 * The special winning shapes of jongpy/core/hule.py: seven pairs
 * (`hule_mianzi_qidui`), thirteen orphans (`hule_mianzi_goushi`) and nine
 * gates (`hule_mianzi_jiulian`).  Each returns no reading or exactly one.
 * The methods walk the count arrays of the hand without changing them and
 * are proved to return what the specification functions here describe;
 * the lemmas say when a reading exists, in terms of the counts, and tie
 * that to the distance-to-win functions of `Xiangting`.
 */
module HuleForms {
  import opened Wrappers
  import opened Exceptions
  import opened Notation
  import opened ShoupaiSpec
  import opened Shoupai
  import opened Hule
  import X = Xiangting

  /** `t + hulepai[2] + '!'` when kind (c, n) is the winning tile `hulepai[0:2]`, else t. */
  function MarkIfWinning(t: string, c: char, n: int, hp: string): (r: string)
    requires 0 <= n <= 9 && |hp| == 3
    ensures r == t || r == t + [hp[2], '!']
  {
    if [c, DigitChar(n)] == hp[..2] then t + [hp[2], '!'] else t
  }

  // ---------------------------------------------------------------------
  // hule_mianzi_qidui

  /**
   * The qidui scan over the first k of the 34 kinds: a kind held twice
   * adds its pair, a kind not held is passed over, any other count ends
   * the scan with no reading.
   */
  function QiduiScan(b: Bingpai, k: int, hp: string): Option<seq<string>>
    requires b.Shaped() && 0 <= k <= 34 && |hp| == 3
  {
    if k == 0 then Some([])
    else match QiduiScan(b, k - 1, hp)
      case None => None
      case Some(ps) =>
        var (c, n) := X.KindAt(k - 1);
        var cnt := X.CountAt(b, k - 1);
        if cnt == 0 then Some(ps)
        else if cnt == 2 then Some(ps + [MarkIfWinning(PairBlock(c, n), c, n, hp)])
        else None
  }

  /** `hule_mianzi_qidui(shoupai, hulepai)`: no reading with a declared meld, else the seven pairs if there are seven. */
  function QiduiForms(h: HandState, hp: string): seq<seq<string>>
    requires h.bingpai.Shaped() && |hp| == 3
  {
    if |h.fulou| > 0 then []
    else match QiduiScan(h.bingpai, 34, hp)
      case None => []
      case Some(ps) => if |ps| == 7 then [ps] else []
  }

  /** `hule_mianzi_qidui`: the loops over the suits and ranks, leaving at the first count other than 0 or 2. */
  method HuleMianziQidui(sp: Shoupai, hp: string, ghost h: HandState) returns (mianzi: seq<seq<string>>)
    requires sp.Shaped() && sp.Value() == h && |hp| == 3
    ensures mianzi == QiduiForms(h, hp)
  {
    if |sp.fulou| > 0 {
      return [];
    }
    ghost var b := h.bingpai;
    var ps: seq<string> := [];
    for k := 0 to 4
      invariant QiduiScan(b, if k < 4 then 9 * k else 34, hp) == Some(ps)
    {
      var c := "mpsz"[k];
      var a := sp.Arr(c);
      sp.ArrRow(c);
      var stop;
      ps, stop := QiduiRow(a, k, hp, b, ps);
      if stop {
        return [];
      }
    }
    mianzi := if |ps| == 7 then [ps] else [];
  }

  /** The rank loop of `hule_mianzi_qidui` over suit k; `stop` when a count other than 0 or 2 ends the search. */
  method QiduiRow(a: array<int>, k: int, hp: string, ghost b: Bingpai, ps0: seq<string>)
    returns (ps: seq<string>, stop: bool)
    requires b.Shaped() && 0 <= k < 4 && a[..] == b.Row("mpsz"[k]) && |hp| == 3
    requires QiduiScan(b, 9 * k, hp) == Some(ps0)
    ensures stop ==> QiduiScan(b, 34, hp).None?
    ensures !stop ==> QiduiScan(b, if k < 3 then 9 * (k + 1) else 34, hp) == Some(ps)
  {
    var c := "mpsz"[k];
    ps := ps0;
    for n := 1 to a.Length
      invariant 9 * k + n - 1 <= 34
      invariant QiduiScan(b, 9 * k + n - 1, hp) == Some(ps)
    {
      assert X.KindAt(9 * k + n - 1) == (c, n);
      if a[n] == 0 {
        continue;
      }
      if a[n] == 2 {
        ps := ps + [MarkIfWinning(PairBlock(c, n), c, n, hp)];
      } else {
        QiduiNoneStays(b, 9 * k + n, hp);
        return ps, true;
      }
    }
    stop := false;
  }

  /** Once the scan has stopped it gives no reading over all 34 kinds. */
  lemma {:induction false} QiduiNoneStays(b: Bingpai, k: int, hp: string)
    requires b.Shaped() && 0 <= k <= 34 && |hp| == 3 && QiduiScan(b, k, hp).None?
    ensures QiduiScan(b, 34, hp).None?
    decreases 34 - k
  {
    if k < 34 {
      QiduiNoneStays(b, k + 1, hp);
    }
  }

  /** The scan goes through exactly when every kind is held zero or two times. */
  lemma {:induction false} QiduiScanSome(b: Bingpai, k: int, hp: string)
    requires b.Shaped() && 0 <= k <= 34 && |hp| == 3
    ensures QiduiScan(b, k, hp).Some? <==> forall i :: 0 <= i < k ==> X.CountAt(b, i) == 0 || X.CountAt(b, i) == 2
  {
    if k > 0 {
      QiduiScanSome(b, k - 1, hp);
      var cnt := X.CountAt(b, k - 1);
      if QiduiScan(b, k - 1, hp).None? {
        var i :| 0 <= i < k - 1 && !(X.CountAt(b, i) == 0 || X.CountAt(b, i) == 2);
        assert QiduiScan(b, k, hp).None?;
      } else if cnt == 0 || cnt == 2 {
        assert QiduiScan(b, k, hp).Some?;
      } else {
        assert QiduiScan(b, k, hp).None?;
      }
    }
  }

  /**
   * When the scan goes through it holds one block per pair, each the pair
   * text of a kind held twice, marked when that kind is the winning tile.
   */
  lemma {:induction false} QiduiScanPairs(b: Bingpai, k: int, hp: string)
    requires b.Shaped() && 0 <= k <= 34 && |hp| == 3
    ensures QiduiScan(b, k, hp).Some? ==>
      var ps := QiduiScan(b, k, hp).value;
      |ps| == X.PairTally(b, k).0
      && forall j :: 0 <= j < |ps| ==> exists i :: (0 <= i < k && X.CountAt(b, i) == 2
           && ps[j] == MarkIfWinning(PairBlock(X.KindAt(i).0, X.KindAt(i).1), X.KindAt(i).0, X.KindAt(i).1, hp))
  {
    if k > 0 {
      QiduiScanPairs(b, k - 1, hp);
      var cnt := X.CountAt(b, k - 1);
      if QiduiScan(b, k - 1, hp).Some? && (cnt == 0 || cnt == 2) {
        var ps0 := QiduiScan(b, k - 1, hp).value;
        var (c, n) := X.KindAt(k - 1);
        var block := MarkIfWinning(PairBlock(c, n), c, n, hp);
        var ps := QiduiScan(b, k, hp).value;
        assert ps == if cnt == 0 then ps0 else ps0 + [block];
        assert X.PairTally(b, k).0 == X.PairTally(b, k - 1).0 + (if cnt == 2 then 1 else 0);
        forall j | 0 <= j < |ps|
          ensures exists i :: (0 <= i < k && X.CountAt(b, i) == 2
            && ps[j] == MarkIfWinning(PairBlock(X.KindAt(i).0, X.KindAt(i).1), X.KindAt(i).0, X.KindAt(i).1, hp))
        {
          if j < |ps0| {
            assert ps[j] == ps0[j];
          } else {
            assert ps[j] == block;
          }
        }
      } else {
        assert QiduiScan(b, k, hp).None?;
      }
    }
  }

  /**
   * There is a seven-pairs reading exactly when the hand has no declared
   * meld, holds every kind zero or two times, and holds seven pairs; the
   * hand is then complete as seven pairs (distance -1).
   */
  lemma QiduiFormsIff(h: HandState, hp: string)
    requires h.bingpai.Shaped() && |hp| == 3
    ensures QiduiForms(h, hp) != [] <==>
      |h.fulou| == 0
      && (forall i :: 0 <= i < 34 ==> X.CountAt(h.bingpai, i) == 0 || X.CountAt(h.bingpai, i) == 2)
      && X.PairTally(h.bingpai, 34).0 == 7
    ensures QiduiForms(h, hp) != [] ==> |QiduiForms(h, hp)| == 1 && |QiduiForms(h, hp)[0]| == 7 && X.QiduiSpec(h) == -1
  {
    QiduiScanSome(h.bingpai, 34, hp);
    QiduiScanPairs(h.bingpai, 34, hp);
    if |h.fulou| == 0 {
      X.QiduiRange(h);
    }
  }

  // ---------------------------------------------------------------------
  // hule_mianzi_goushi

  /**
   * The goushi scan over the first k terminals and honours: a kind held
   * twice goes in front as the pair, a kind held once goes at the end,
   * any other count ends the scan; the number of pairs is counted.
   */
  function GoushiScan(b: Bingpai, k: int, hp: string): Option<(seq<string>, int)>
    requires b.Shaped() && 0 <= k <= 13 && |hp| == 3
  {
    if k == 0 then Some(([], 0))
    else match GoushiScan(b, k - 1, hp)
      case None => None
      case Some((ms, nd)) =>
        var (c, n) := X.YAOJIU[k - 1];
        var cnt := X.YaojiuCount(b, k - 1);
        if cnt == 2 then Some(([MarkIfWinning(PairBlock(c, n), c, n, hp)] + ms, nd + 1))
        else if cnt == 1 then Some((ms + [MarkIfWinning([c, DigitChar(n)], c, n, hp)], nd))
        else None
  }

  /** `hule_mianzi_goushi(shoupai, hulepai)`: no reading with a declared meld, else the thirteen blocks if exactly one is a pair. */
  function GoushiForms(h: HandState, hp: string): seq<seq<string>>
    requires h.bingpai.Shaped() && |hp| == 3
  {
    if |h.fulou| > 0 then []
    else match GoushiScan(h.bingpai, 13, hp)
      case None => []
      case Some((ms, nd)) => if nd == 1 then [ms] else []
  }

  /** `hule_mianzi_goushi`: the loops over the suits and their terminal ranks. */
  method HuleMianziGoushi(sp: Shoupai, hp: string, ghost h: HandState) returns (mianzi: seq<seq<string>>)
    requires sp.Shaped() && sp.Value() == h && |hp| == 3
    ensures mianzi == GoushiForms(h, hp)
  {
    if |sp.fulou| > 0 {
      return [];
    }
    ghost var b := h.bingpai;
    var ms: seq<string> := [];
    var nDuizi := 0;
    for k := 0 to 4
      invariant GoushiScan(b, X.YaojiuOffset(k), hp) == Some((ms, nDuizi))
    {
      var c := "mpsz"[k];
      var a := sp.Arr(c);
      sp.ArrRow(c);
      var stop;
      ms, nDuizi, stop := GoushiRow(a, k, hp, b, ms, nDuizi);
      if stop {
        return [];
      }
    }
    mianzi := if nDuizi == 1 then [ms] else [];
  }

  /** The loop of `hule_mianzi_goushi` over the terminal ranks of suit k; `stop` when a count other than 1 or 2 ends the search. */
  method GoushiRow(a: array<int>, k: int, hp: string, ghost b: Bingpai, ms0: seq<string>, nd0: int)
    returns (ms: seq<string>, nDuizi: int, stop: bool)
    requires b.Shaped() && 0 <= k < 4 && a[..] == b.Row("mpsz"[k]) && |hp| == 3
    requires GoushiScan(b, X.YaojiuOffset(k), hp) == Some((ms0, nd0))
    ensures stop ==> GoushiScan(b, 13, hp).None?
    ensures !stop ==> GoushiScan(b, X.YaojiuOffset(k + 1), hp) == Some((ms, nDuizi))
  {
    var c := "mpsz"[k];
    ms, nDuizi := ms0, nd0;
    var nn := X.YaojiuRanks(c);
    for i := 0 to |nn|
      invariant GoushiScan(b, X.YaojiuOffset(k) + i, hp) == Some((ms, nDuizi))
    {
      var n := nn[i];
      GoushiRowStep(b, k, i, hp, ms, nDuizi);
      assert a[n] == a[..][n];
      if a[n] == 2 {
        ms := [MarkIfWinning(PairBlock(c, n), c, n, hp)] + ms;
        nDuizi := nDuizi + 1;
      } else if a[n] == 1 {
        ms := ms + [MarkIfWinning([c, DigitChar(n)], c, n, hp)];
      } else {
        GoushiNoneStays(b, X.YaojiuOffset(k) + i + 1, hp);
        return ms, nDuizi, true;
      }
    }
    X.YaojiuAt(k, 0);
    stop := false;
  }

  /** One step of the scan, stated by the count at rank i of suit k's terminal ranks. */
  lemma GoushiRowStep(b: Bingpai, k: int, i: int, hp: string, ms: seq<string>, nd: int)
    requires b.Shaped() && 0 <= k < 4 && 0 <= i < |X.YaojiuRanks("mpsz"[k])| && |hp| == 3
    requires X.YaojiuOffset(k) + i <= 13 && GoushiScan(b, X.YaojiuOffset(k) + i, hp) == Some((ms, nd))
    ensures var off := X.YaojiuOffset(k); var c := "mpsz"[k]; var n := X.YaojiuRanks(c)[i];
      off + i < 13 && 0 <= n < |b.Row(c)|
      && var cnt := b.Row(c)[n];
      GoushiScan(b, off + i + 1, hp)
        == if cnt == 2 then Some(([MarkIfWinning(PairBlock(c, n), c, n, hp)] + ms, nd + 1))
           else if cnt == 1 then Some((ms + [MarkIfWinning([c, DigitChar(n)], c, n, hp)], nd))
           else None
  {
    X.YaojiuCountAt(b, k, i);
    X.YaojiuAt(k, i);
  }

  lemma {:induction false} GoushiNoneStays(b: Bingpai, k: int, hp: string)
    requires b.Shaped() && 0 <= k <= 13 && |hp| == 3 && GoushiScan(b, k, hp).None?
    ensures GoushiScan(b, 13, hp).None?
    decreases 13 - k
  {
    if k < 13 {
      GoushiNoneStays(b, k + 1, hp);
    }
  }

  /** The scan goes through exactly when each of the first k terminals and honours is held once or twice. */
  lemma {:induction false} GoushiScanSome(b: Bingpai, k: int, hp: string)
    requires b.Shaped() && 0 <= k <= 13 && |hp| == 3
    ensures GoushiScan(b, k, hp).Some? <==> forall i :: 0 <= i < k ==> X.YaojiuCount(b, i) == 1 || X.YaojiuCount(b, i) == 2
  {
    X.YaojiuKinds();
    if k > 0 {
      GoushiScanSome(b, k - 1, hp);
      var cnt := X.YaojiuCount(b, k - 1);
      if GoushiScan(b, k - 1, hp).None? {
        var i :| 0 <= i < k - 1 && !(X.YaojiuCount(b, i) == 1 || X.YaojiuCount(b, i) == 2);
        assert GoushiScan(b, k, hp).None?;
      } else if cnt == 1 || cnt == 2 {
        assert GoushiScan(b, k, hp).Some?;
      } else {
        assert GoushiScan(b, k, hp).None?;
      }
    }
  }

  /**
   * A scan that goes through has one block per kind and counts the kinds
   * held twice; once there is a pair the first block is the pair text of
   * such a kind.
   */
  lemma {:induction false} GoushiScanShape(b: Bingpai, k: int, hp: string)
    requires b.Shaped() && 0 <= k <= 13 && |hp| == 3
    ensures GoushiScan(b, k, hp).Some? ==>
      var (ms, nd) := GoushiScan(b, k, hp).value;
      |ms| == k && nd == X.YaojiuTally(b, k).1
      && (nd >= 1 ==> exists i :: (0 <= i < k && X.YaojiuCount(b, i) == 2
           && ms[0] == MarkIfWinning(PairBlock(X.YAOJIU[i].0, X.YAOJIU[i].1), X.YAOJIU[i].0, X.YAOJIU[i].1, hp)))
  {
    X.YaojiuKinds();
    if k > 0 {
      GoushiScanShape(b, k - 1, hp);
      var cnt := X.YaojiuCount(b, k - 1);
      if GoushiScan(b, k - 1, hp).Some? && (cnt == 1 || cnt == 2) {
        var (ms0, nd0) := GoushiScan(b, k - 1, hp).value;
        var (c, n) := X.YAOJIU[k - 1];
        var (ms, nd) := GoushiScan(b, k, hp).value;
        assert X.YaojiuTally(b, k).1 == X.YaojiuTally(b, k - 1).1 + (if cnt == 2 then 1 else 0);
        if cnt == 2 {
          assert ms == [MarkIfWinning(PairBlock(c, n), c, n, hp)] + ms0 && nd == nd0 + 1;
          assert ms[0] == MarkIfWinning(PairBlock(X.YAOJIU[k - 1].0, X.YAOJIU[k - 1].1), X.YAOJIU[k - 1].0, X.YAOJIU[k - 1].1, hp);
        } else {
          assert ms == ms0 + [MarkIfWinning([c, DigitChar(n)], c, n, hp)] && nd == nd0;
          if nd >= 1 {
            assert ms[0] == ms0[0];
          }
        }
      } else {
        assert GoushiScan(b, k, hp).None?;
      }
    }
  }

  /**
   * There is a thirteen-orphans reading exactly when the hand has no
   * declared meld and holds each terminal and honour once or twice, exactly
   * one of them twice; the reading then has thirteen blocks with the pair
   * first, and the hand is complete as thirteen orphans (distance -1).
   */
  lemma GoushiFormsIff(h: HandState, hp: string)
    requires h.bingpai.Shaped() && |hp| == 3
    ensures GoushiForms(h, hp) != [] <==>
      |h.fulou| == 0
      && (forall i :: 0 <= i < 13 ==> X.YaojiuCount(h.bingpai, i) == 1 || X.YaojiuCount(h.bingpai, i) == 2)
      && X.YaojiuTally(h.bingpai, 13).1 == 1
    ensures GoushiForms(h, hp) != [] ==>
      |GoushiForms(h, hp)| == 1 && |GoushiForms(h, hp)[0]| == 13 && X.GoushiSpec(h) == -1
      && exists i :: (0 <= i < 13 && X.YaojiuCount(h.bingpai, i) == 2
           && GoushiForms(h, hp)[0][0] == MarkIfWinning(PairBlock(X.YAOJIU[i].0, X.YAOJIU[i].1), X.YAOJIU[i].0, X.YAOJIU[i].1, hp))
  {
    GoushiScanSome(h.bingpai, 13, hp);
    GoushiScanShape(h.bingpai, 13, hp);
    if |h.fulou| == 0 {
      X.GoushiRange(h);
      X.YaojiuTallyCounts(h.bingpai, 13);
    }
  }

  // ---------------------------------------------------------------------
  // hule_mianzi_jiulian

  /**
   * The digits the jiulian loop writes for ranks 1..k-1: each rank must be
   * held, ranks 1 and 9 three times or more; each rank is written as often
   * as it is held, the winning rank w once less.
   */
  function JiulianDigits(row: seq<int>, w: int, k: int): Option<string>
    requires X.SuitRow(row) && 1 <= k <= 10
  {
    if k == 1 then Some([])
    else match JiulianDigits(row, w, k - 1)
      case None => None
      case Some(ds) =>
        var n := k - 1;
        if row[n] == 0 then None
        else if (n == 1 || n == 9) && row[n] < 3 then None
        else
          var nPai := if n == w then row[n] - 1 else row[n];
          Some(ds + Repeat(DigitChar(n), nPai))
  }

  /**
   * `hule_mianzi_jiulian(shoupai, hulepai)`: no reading with a declared meld
   * or an honour winning tile; else the suit letter and digits of the
   * winning tile's suit, with the winning tile and `!` at the end, when
   * that text has fourteen characters before them.
   */
  function JiulianForms(h: HandState, hp: string): seq<seq<string>>
    requires X.CountsOk(h.bingpai) && |hp| == 3 && IsSuit(hp[0]) && IsDigit(hp[1])
  {
    if |h.fulou| > 0 || hp[0] == 'z' then []
    else match JiulianDigits(h.bingpai.Row(hp[0]), DigitValue(hp[1]), 10)
      case None => []
      case Some(ds) => if 1 + |ds| != 14 then [] else [[[hp[0]] + ds + hp[1..] + "!"]]
  }

  /** `hule_mianzi_jiulian`: the loop over ranks 1..9 writing the digits, then the length check. */
  method HuleMianziJiulian(sp: Shoupai, hp: string, ghost h: HandState) returns (r: seq<seq<string>>)
    requires sp.Shaped() && sp.Value() == h && X.CountsOk(h.bingpai)
    requires |hp| == 3 && IsSuit(hp[0]) && IsDigit(hp[1])
    ensures r == JiulianForms(h, hp)
  {
    if |sp.fulou| > 0 {
      return [];
    }
    var s := hp[0];
    if s == 'z' {
      return [];
    }
    var bingpai := sp.Arr(s);
    sp.ArrRow(s);
    ghost var row := h.bingpai.Row(s);
    var w := DigitValue(hp[1]);
    var ok, mianzi := JiulianScan(bingpai, row, s, w);
    if !ok || |mianzi| != 14 {
      return [];
    }
    mianzi := mianzi + hp[1..] + "!";
    return [[mianzi]];
  }

  /** The rank loop of `hule_mianzi_jiulian`: the digits of the suit, the winning tile left out once. */
  method JiulianScan(bingpai: array<int>, ghost row: seq<int>, s: char, w: int) returns (ok: bool, mianzi: string)
    requires X.SuitRow(row) && bingpai[..] == row
    ensures ok <==> JiulianDigits(row, w, 10).Some?
    ensures ok ==> mianzi == [s] + JiulianDigits(row, w, 10).value
  {
    mianzi := [s];
    assert JiulianDigits(row, w, 1) == Some([]) && mianzi[1..] == [];
    for n := 1 to 10
      invariant |mianzi| >= 1 && mianzi[0] == s
      invariant JiulianDigits(row, w, n) == Some(mianzi[1..])
    {
      assert bingpai[n] == row[n];
      if bingpai[n] == 0 {
        JiulianNoneStays(row, w, n + 1);
        return false, mianzi;
      }
      if (n == 1 || n == 9) && bingpai[n] < 3 {
        JiulianNoneStays(row, w, n + 1);
        return false, mianzi;
      }
      var nPai := if n == w then bingpai[n] - 1 else bingpai[n];
      ghost var before := mianzi;
      mianzi := AppendDigits(mianzi, DigitChar(n), nPai);
      assert mianzi[1..] == before[1..] + Repeat(DigitChar(n), nPai);
    }
    assert mianzi == [s] + mianzi[1..];
    ok := true;
  }

  /** The inner loop: k copies of digit d appended one by one. */
  method AppendDigits(t: string, d: char, k: nat) returns (r: string)
    ensures r == t + Repeat(d, k)
  {
    r := t;
    for i := 0 to k
      invariant r == t + Repeat(d, i)
    {
      r := r + [d];
    }
  }

  lemma {:induction false} JiulianNoneStays(row: seq<int>, w: int, k: int)
    requires X.SuitRow(row) && 1 <= k <= 10 && JiulianDigits(row, w, k).None?
    ensures JiulianDigits(row, w, 10).None?
    decreases 10 - k
  {
    if k < 10 {
      JiulianNoneStays(row, w, k + 1);
    }
  }

  /**
   * The digits exist exactly when every rank below k is held, 1 and 9
   * three times or more; there are then as many as the tiles of those
   * ranks, less one when the winning rank is among them.
   */
  lemma {:induction false} JiulianDigitsIff(row: seq<int>, w: int, k: int)
    requires X.SuitRow(row) && 1 <= k <= 10
    ensures JiulianDigits(row, w, k).Some? <==>
      (forall n :: 1 <= n < k ==> row[n] >= 1) && (k > 1 ==> row[1] >= 3) && (k > 9 ==> row[9] >= 3)
    ensures JiulianDigits(row, w, k).Some? ==>
      |JiulianDigits(row, w, k).value| == SumFrom(row[..k], 1) - (if 1 <= w < k then 1 else 0)
  {
    if k == 1 {
      assert row[..1] == [row[0]];
    } else {
      JiulianDigitsIff(row, w, k - 1);
      SumFromPrefix(row, k - 1);
    }
  }

  /**
   * There is a nine-gates reading exactly when the hand has no declared
   * meld, the winning tile is of a numeral suit, and that suit holds every
   * rank, 1 and 9 three times or more, fourteen tiles in all.
   */
  lemma JiulianFormsIff(h: HandState, hp: string)
    requires X.CountsOk(h.bingpai) && |hp| == 3 && IsSuit(hp[0]) && '1' <= hp[1] <= '9'
    ensures JiulianForms(h, hp) != [] <==>
      |h.fulou| == 0 && IsNumeralSuit(hp[0])
      && (forall n :: 1 <= n <= 9 ==> h.bingpai.Row(hp[0])[n] >= 1)
      && h.bingpai.Row(hp[0])[1] >= 3 && h.bingpai.Row(hp[0])[9] >= 3
      && SumFrom(h.bingpai.Row(hp[0]), 1) == 14
    ensures JiulianForms(h, hp) != [] ==>
      |JiulianForms(h, hp)| == 1 && |JiulianForms(h, hp)[0]| == 1 && |JiulianForms(h, hp)[0][0]| == 17
  {
    if hp[0] != 'z' {
      var row := h.bingpai.Row(hp[0]);
      JiulianDigitsIff(row, DigitValue(hp[1]), 10);
      assert row[..10] == row;
    }
  }

  /** A pure nine gates in characters, won on a drawn m1: the single reading the source writes. */
  lemma JiulianExample()
    ensures var b := EMPTY.WithRow('m', [0, 4, 1, 1, 1, 1, 1, 1, 1, 3]);
      JiulianForms(HandState(b, [], Some("m1"), false), "m1_") == [["m11123456789991_!"]]
  {
    var row := [0, 4, 1, 1, 1, 1, 1, 1, 1, 3];
    JiulianExampleDigits(row);
    var b := EMPTY.WithRow('m', row);
    EmptyWithRow(row, b);
    var hp := "m1_";
    assert |hp| == 3 && hp[0] == 'm' && hp[1..] == "1_" && DigitValue(hp[1]) == 1;
    JiulianFormsOf(HandState(b, [], Some("m1"), false), hp, "1112345678999");
    JiulianExampleText();
  }

  lemma EmptyWithRow(row: seq<int>, b: Bingpai)
    requires X.SuitRow(row) && b == EMPTY.WithRow('m', row)
    ensures b.Row('m') == row && X.CountsOk(b)
  {
    assert b.m == row && b.p == EMPTY.p && b.s == EMPTY.s && b.z == EMPTY.z;
  }

  lemma JiulianExampleText()
    ensures ['m'] + "1112345678999" + "1_" + "!" == "m11123456789991_!"
  {
  }

  lemma JiulianFormsOf(h: HandState, hp: string, ds: string)
    requires X.CountsOk(h.bingpai) && |hp| == 3 && IsNumeralSuit(hp[0]) && IsDigit(hp[1]) && |h.fulou| == 0
    requires JiulianDigits(h.bingpai.Row(hp[0]), DigitValue(hp[1]), 10) == Some(ds) && |ds| == 13
    ensures JiulianForms(h, hp) == [[[hp[0]] + ds + hp[1..] + "!"]]
  {
  }

  /** The digits of that hand: each rank as often as held, rank 1 once less. */
  lemma JiulianExampleDigits(row: seq<int>)
    requires row == [0, 4, 1, 1, 1, 1, 1, 1, 1, 3]
    ensures X.SuitRow(row) && JiulianDigits(row, 1, 10) == Some("1112345678999")
  {
    var ds := "";
    for n := 1 to 10
      invariant JiulianDigits(row, 1, n) == Some(ds)
      invariant ds == "1112345678999"[..if n == 1 then 0 else if n == 10 then 13 else n + 1]
    {
      ds := ds + Repeat(DigitChar(n), if n == 1 then 3 else row[n]);
    }
    assert "1112345678999"[..13] == "1112345678999";
  }

  // ---------------------------------------------------------------------
  // hule_mianzi

  /** What a drawn tile must be for `hule_mianzi` to read the hand: a face-up tile, or a meld (which gives no reading). */
  predicate DrawnTileOk(h: HandState, rongpai: string)
  {
    rongpai == "" && HasZimo(h.zimo) && |h.zimo.value| <= 2 ==> ValidPai(h.zimo.value)
  }

  /** The hand `hule_mianzi` reads: the copy, with the claimed tile drawn into it when there is one. */
  function WithRongpai(h: HandState, rongpai: string): (r: (HandState, Outcome))
    requires ValidHand(h) && (rongpai == "" || |rongpai| == 3)
    ensures ValidHand(r.0) && r.0.fulou == h.fulou
    ensures rongpai == "" ==> r == (h, Pass)
    ensures rongpai != "" && r.1.Pass? ==> ValidPai(rongpai)
  {
    ZimoProperties(h, rongpai, true);
    if rongpai != "" then ZimoSpec(h, rongpai, true) else (h, Pass)
  }

  /** `(rongpai or zimo + '_').replace('0', '5')`: the winning tile with its direction, a red five read as a five. */
  function WinningTile(t: string): (hp: string)
    requires |t| == 3 && IsSuit(t[0]) && IsDigit(t[1])
    ensures |hp| == 3 && IsSuit(hp[0]) && IsDigit(hp[1]) && hp[1] != '0'
    ensures hp[0] == t[0] && (hp[1] == t[1] || (t[1] == '0' && hp[1] == '5'))
  {
    Replace(t, '0', '5')
  }

  /**
   * `hule_mianzi(shoupai, rongpai)`: with a claimed tile, draw it into a
   * copy of the hand (which raises when the draw slot is taken or the
   * text is not a tile); no reading unless a tile, not a meld, sits in the
   * draw slot; else the standard readings, then seven pairs, thirteen
   * orphans and nine gates, for the winning tile marked with its direction
   * (`_` for a drawn tile).
   */
  function HuleMianziSpec(h: HandState, rongpai: string): Result<seq<seq<string>>>
    requires ValidHand(h) && (rongpai == "" || |rongpai| == 3) && DrawnTileOk(h, rongpai)
  {
    var (h1, o) := WithRongpai(h, rongpai);
    if o.Fail? then Failure(o.error) else Success(ReadWinning(h1, rongpai))
  }

  /** `hule_mianzi` once the claimed tile, if any, is in the hand h1. */
  function ReadWinning(h1: HandState, rongpai: string): seq<seq<string>>
    requires ValidHand(h1) && (rongpai == "" || (|rongpai| == 3 && ValidPai(rongpai))) && DrawnTileOk(h1, rongpai)
  {
    if !HasZimo(h1.zimo) || |h1.zimo.value| > 2 then []
    else
      var hp := WinningTile(if rongpai != "" then rongpai else h1.zimo.value + "_");
      X.ValidCounts(h1.bingpai);
      YibanSpec(h1, hp) + QiduiForms(h1, hp) + GoushiForms(h1, hp) + JiulianForms(h1, hp)
  }

  /** `hule_mianzi`: works on a copy, so the caller's hand is left as it was. */
  method HuleMianzi(sp: Shoupai, rongpai: string) returns (r: Result<seq<seq<string>>>)
    requires sp.Valid() && (rongpai == "" || |rongpai| == 3) && DrawnTileOk(sp.Value(), rongpai)
    ensures r == HuleMianziSpec(sp.Value(), rongpai)
  {
    ghost var h := sp.Value();
    ghost var h1 := WithRongpai(h, rongpai).0;
    var ns := sp.Copy();
    if rongpai != "" {
      var o := ns.Zimo(rongpai, true);
      if o.Fail? {
        return Failure(o.error);
      }
    }
    assert ns.Value() == h1;
    var all := ReadCopy(ns, h1, rongpai);
    return Success(all);
  }

  /** The readings of the copy ns, which holds the winning tile. */
  method ReadCopy(ns: Shoupai, ghost h1: HandState, rongpai: string) returns (r: seq<seq<string>>)
    requires ns.Valid() && ns.Value() == h1
    requires rongpai == "" || (|rongpai| == 3 && ValidPai(rongpai))
    requires DrawnTileOk(h1, rongpai)
    modifies ns.m, ns.p, ns.s, ns.z
    ensures r == ReadWinning(h1, rongpai)
  {
    if !(ns.zimo.Some? && ns.zimo.value != "") || |ns.zimo.value| > 2 {
      return [];
    }
    var hp := WinningTile(if rongpai != "" then rongpai else ns.zimo.value + "_");
    r := AllForms(ns, hp, h1);
  }

  /** The four searches of `hule_mianzi`, one after the other, on the hand with the winning tile in it. */
  method AllForms(ns: Shoupai, hp: string, ghost h: HandState) returns (r: seq<seq<string>>)
    requires ns.Valid() && ns.Value() == h && |hp| == 3 && IsSuit(hp[0]) && IsDigit(hp[1])
    modifies ns.m, ns.p, ns.s, ns.z
    ensures X.CountsOk(h.bingpai)
    ensures r == YibanSpec(h, hp) + QiduiForms(h, hp) + GoushiForms(h, hp) + JiulianForms(h, hp)
  {
    X.ValidCounts(h.bingpai);
    var yiban := HuleMianziYiban(ns, hp);
    var qidui := HuleMianziQidui(ns, hp, h);
    var goushi := HuleMianziGoushi(ns, hp, h);
    var jiulian := HuleMianziJiulian(ns, hp, h);
    r := yiban + qidui + goushi + jiulian;
  }

  /**
   * Each reading `hule_mianzi` returns has one of the four shapes: a pair
   * and four melds with exactly one block marked for the winning tile,
   * seven pairs, thirteen orphans, or the single nine-gates text.
   */
  lemma HuleMianziShapes(h: HandState, rongpai: string, r: seq<string>)
    requires ValidHand(h) && (rongpai == "" || |rongpai| == 3) && DrawnTileOk(h, rongpai)
    requires forall t :: t in h.fulou ==> '!' !in t
    requires HuleMianziSpec(h, rongpai).Success? && r in HuleMianziSpec(h, rongpai).value
    ensures (|r| == 5 && |MarkedBlocks(r)| == 1) || |r| == 7 || |r| == 13 || |r| == 1
  {
    var (h1, o) := WithRongpai(h, rongpai);
    assert r in ReadWinning(h1, rongpai);
    var hp := WinningTile(if rongpai != "" then rongpai else h1.zimo.value + "_");
    X.ValidCounts(h1.bingpai);
    if r in YibanSpec(h1, hp) {
      YibanReading(h1, hp, r);
    } else if r in QiduiForms(h1, hp) {
      QiduiFormsIff(h1, hp);
    } else if r in GoushiForms(h1, hp) {
      GoushiFormsIff(h1, hp);
    } else {
      assert r in JiulianForms(h1, hp);
    }
  }

  /**
   * No reading without a tile in the draw slot or with a meld there; a
   * claimed tile is refused when the draw slot is already taken, and a
   * claimed tile the hand already holds four of is refused.
   */
  lemma HuleMianziRefusals(h: HandState, rongpai: string)
    requires ValidHand(h) && (rongpai == "" || |rongpai| == 3) && DrawnTileOk(h, rongpai)
    ensures rongpai == "" && (!HasZimo(h.zimo) || |h.zimo.value| > 2) ==> HuleMianziSpec(h, rongpai) == Success([])
    ensures rongpai != "" && HasZimo(h.zimo) ==> HuleMianziSpec(h, rongpai) == Failure(ShoupaiOverFlow)
    ensures rongpai != "" && !HasZimo(h.zimo) && ValidPai(rongpai) && h.bingpai.Count(rongpai[0], DigitValue(rongpai[1])) == 4
      ==> HuleMianziSpec(h, rongpai).Failure?
  {
    ZimoProperties(h, rongpai, true);
  }
}
