/**
 * The situational and bonus pattern lists of jongpy/core/hule.py
 * (`get_pre_hupai` and `get_post_hupai`).
 *
 * A pattern is a name with its value: a number of fan, or `*` for a limit
 * hand.  The situational patterns come from flags of the win (riichi, one
 * shot, last tile, after a quad, robbing a quad, first-turn wins).  The
 * bonus patterns count dora: the tiles that follow the indicators, the red
 * fives, and the tiles that follow the under-indicators.  The source counts
 * them on the text form of the hand, so the model does too.
 */
module Hupai {
  import opened Wrappers
  import opened Exceptions
  import opened Notation
  import opened ShoupaiSpec
  import opened Shoupai
  import opened ShoupaiText
  import Shan

  /** `fanshu`: a number of fan, or `*` for a limit hand. */
  datatype Fanshu = Fan(n: int) | Yakuman

  /** One entry of a pattern list: `{'name': ..., 'fanshu': ...}`. */
  datatype Hupai = Hupai(name: string, fanshu: Fanshu)

  /**
   * The flags `get_pre_hupai` reads: riichi (1 riichi, 2 double riichi), one
   * shot, last tile (1 drawn, 2 discarded), after a quad, robbing a quad,
   * and first-turn win (1 dealer, 2 non-dealer).
   */
  datatype Situation = Situation(lizhi: int, yifa: bool, haidi: int, lingshang: bool, qianggang: bool, tianhu: int)

  // ---------------------------------------------------------------------
  // get_pre_hupai

  /** The situational patterns, in the order `get_pre_hupai` tests them. */
  const PRE_HUPAI: seq<Hupai> := [
    Hupai("立直", Fan(1)), Hupai("ダブル立直", Fan(2)), Hupai("一発", Fan(1)),
    Hupai("海底摸月", Fan(1)), Hupai("河底撈魚", Fan(1)), Hupai("嶺上開花", Fan(1)),
    Hupai("槍槓", Fan(1)), Hupai("天和", Yakuman), Hupai("地和", Yakuman)]

  /** The condition under which entry i of `PRE_HUPAI` is listed. */
  predicate PreApplies(s: Situation, i: int)
  {
    match i
    case 0 => s.lizhi == 1
    case 1 => s.lizhi == 2
    case 2 => s.yifa
    case 3 => s.haidi == 1
    case 4 => s.haidi == 2
    case 5 => s.lingshang
    case 6 => s.qianggang
    case 7 => s.tianhu == 1
    case _ => s.tianhu == 2
  }

  /** The entries among the first k of `PRE_HUPAI` whose condition holds, in table order. */
  function PreHupaiUpTo(s: Situation, k: nat): seq<Hupai>
    requires k <= |PRE_HUPAI|
  {
    if k == 0 then [] else PreHupaiUpTo(s, k - 1) + (if PreApplies(s, k - 1) then [PRE_HUPAI[k - 1]] else [])
  }

  /** `get_pre_hupai(hupai)`: one test and append per situational pattern. */
  method GetPreHupai(s: Situation) returns (pre: seq<Hupai>)
    ensures pre == PreHupaiUpTo(s, |PRE_HUPAI|)
  {
    pre := [];
    assert pre == PreHupaiUpTo(s, 0);
    if s.lizhi == 1 {
      pre := pre + [Hupai("立直", Fan(1))];
    }
    assert pre == PreHupaiUpTo(s, 1);
    if s.lizhi == 2 {
      pre := pre + [Hupai("ダブル立直", Fan(2))];
    }
    assert pre == PreHupaiUpTo(s, 2);
    if s.yifa {
      pre := pre + [Hupai("一発", Fan(1))];
    }
    assert pre == PreHupaiUpTo(s, 3);
    if s.haidi == 1 {
      pre := pre + [Hupai("海底摸月", Fan(1))];
    }
    assert pre == PreHupaiUpTo(s, 4);
    if s.haidi == 2 {
      pre := pre + [Hupai("河底撈魚", Fan(1))];
    }
    assert pre == PreHupaiUpTo(s, 5);
    if s.lingshang {
      pre := pre + [Hupai("嶺上開花", Fan(1))];
    }
    assert pre == PreHupaiUpTo(s, 6);
    if s.qianggang {
      pre := pre + [Hupai("槍槓", Fan(1))];
    }
    assert pre == PreHupaiUpTo(s, 7);
    if s.tianhu == 1 {
      pre := pre + [Hupai("天和", Yakuman)];
    }
    assert pre == PreHupaiUpTo(s, 8);
    if s.tianhu == 2 {
      pre := pre + [Hupai("地和", Yakuman)];
    }
    assert pre == PreHupaiUpTo(s, 9);
  }

  /** Every listed entry is one of the first k, and entry i is listed exactly when its condition holds. */
  lemma {:induction false} PreHupaiUpToIff(s: Situation, k: nat)
    requires k <= |PRE_HUPAI|
    ensures forall e :: e in PreHupaiUpTo(s, k) ==> exists i :: 0 <= i < k && e == PRE_HUPAI[i] && PreApplies(s, i)
    ensures forall i :: 0 <= i < k ==> (PRE_HUPAI[i] in PreHupaiUpTo(s, k) <==> PreApplies(s, i))
  {
    if k > 0 {
      PreHupaiUpToIff(s, k - 1);
      var e := PRE_HUPAI[k - 1];
      forall i | 0 <= i < k - 1
        ensures PRE_HUPAI[i] != e
      {
        assert PRE_HUPAI[i].name != e.name;
      }
    }
  }

  /**
   * `get_pre_hupai` lists each situational pattern exactly when its flag is
   * set: riichi 1 gives 立直 (1 fan) and riichi 2 ダブル立直 (2 fan), first-turn
   * wins 1 and 2 give the limit hands 天和 and 地和.
   */
  lemma PreHupaiIff(s: Situation, pre: seq<Hupai>)
    requires pre == PreHupaiUpTo(s, |PRE_HUPAI|)
    ensures Hupai("立直", Fan(1)) in pre <==> s.lizhi == 1
    ensures Hupai("ダブル立直", Fan(2)) in pre <==> s.lizhi == 2
    ensures Hupai("一発", Fan(1)) in pre <==> s.yifa
    ensures Hupai("海底摸月", Fan(1)) in pre <==> s.haidi == 1
    ensures Hupai("河底撈魚", Fan(1)) in pre <==> s.haidi == 2
    ensures Hupai("嶺上開花", Fan(1)) in pre <==> s.lingshang
    ensures Hupai("槍槓", Fan(1)) in pre <==> s.qianggang
    ensures Hupai("天和", Yakuman) in pre <==> s.tianhu == 1
    ensures Hupai("地和", Yakuman) in pre <==> s.tianhu == 2
    ensures forall e :: e in pre ==> e in PRE_HUPAI
  {
    PreHupaiUpToIff(s, |PRE_HUPAI|);
    assert PRE_HUPAI[0] in pre <==> s.lizhi == 1;
    assert PRE_HUPAI[1] in pre <==> s.lizhi == 2;
    assert PRE_HUPAI[2] in pre <==> s.yifa;
    assert PRE_HUPAI[3] in pre <==> s.haidi == 1;
    assert PRE_HUPAI[4] in pre <==> s.haidi == 2;
    assert PRE_HUPAI[5] in pre <==> s.lingshang;
    assert PRE_HUPAI[6] in pre <==> s.qianggang;
    assert PRE_HUPAI[7] in pre <==> s.tianhu == 1;
    assert PRE_HUPAI[8] in pre <==> s.tianhu == 2;
  }

  // ---------------------------------------------------------------------
  // get_post_hupai

  /** The end of the text run that starts at i: the first suit letter or comma at or after i. */
  function RunEnd(t: string, i: nat): (j: nat)
    requires i <= |t|
    ensures i <= j <= |t|
    ensures forall k :: i <= k < j ==> !IsSuit(t[k]) && t[k] != ','
    ensures j < |t| ==> IsSuit(t[j]) || t[j] == ','
    decreases |t| - i
  {
    if i == |t| || IsSuit(t[i]) || t[i] == ',' then i else RunEnd(t, i + 1)
  }

  /**
   * `re.findall(r'[mpsz][^mpsz,]*', t)`: each suit letter with what follows
   * it up to the next suit letter or comma.
   */
  function SuitRuns(t: string): (r: seq<string>)
    ensures forall k :: 0 <= k < |r| ==> |r[k]| >= 1 && IsSuit(r[k][0])
    ensures forall k, i :: 0 <= k < |r| && 1 <= i < |r[k]| ==> !IsSuit(r[k][i]) && r[k][i] != ','
    decreases |t|
  {
    if |t| == 0 then []
    else if IsSuit(t[0]) then
      var j := RunEnd(t, 1);
      [t[..j]] + SuitRuns(t[j..])
    else SuitRuns(t[1..])
  }

  /** The count of rank d in the runs of suit c, a red five counting as a five. */
  function DoraIn(runs: seq<string>, c: char, d: char): nat
    requires forall k :: 0 <= k < |runs| ==> |runs[k]| >= 1
  {
    if |runs| == 0 then 0
    else
      var m := runs[|runs| - 1];
      DoraIn(runs[..|runs| - 1], c, d) + (if m[0] != c then 0 else Occurrences(Replace(m, '0', '5'), d))
  }

  /**
   * The dora count of the indicator list `inds` over `runs`: each indicator
   * names its dora through `zhenbaopai`, whose failure on a text that is
   * not a tile ends the count.
   */
  function DoraCount(runs: seq<string>, inds: seq<string>): (r: Result<nat>)
    requires forall k :: 0 <= k < |runs| ==> |runs[k]| >= 1
    ensures r.Failure? <==> exists k :: 0 <= k < |inds| && !ValidPai(inds[k])
    ensures r.Failure? ==> r.error == PaiFormat
  {
    if |inds| == 0 then Success(0)
    else
      var prev := DoraCount(runs, inds[..|inds| - 1]);
      var z := Shan.Zhenbaopai(inds[|inds| - 1]);
      if prev.Failure? then prev
      else if z.Failure? then Failure(z.error)
      else Success(prev.value + DoraIn(runs, z.value[0], z.value[1]))
  }

  /** `fubaopai or []`: no under-indicators when none are given. */
  function UnderIndicators(fubaopai: Option<seq<string>>): seq<string>
  {
    if fubaopai.Some? then fubaopai.value else []
  }

  /** A bonus pattern worth n fan, listed only when n is positive. */
  function Listed(name: string, n: nat): seq<Hupai>
  {
    if n > 0 then [Hupai(name, Fan(n))] else []
  }

  /** The bonus patterns `get_post_hupai` reads off the text `paistr` of the hand. */
  function BonusPatterns(paistr: string, baopai: seq<string>, fubaopai: Option<seq<string>>): (r: Result<seq<Hupai>>)
    ensures r.Failure? <==>
      (exists k :: 0 <= k < |baopai| && !ValidPai(baopai[k]))
      || (exists k :: 0 <= k < |UnderIndicators(fubaopai)| && !ValidPai(UnderIndicators(fubaopai)[k]))
    ensures r.Failure? ==> r.error == PaiFormat
  {
    var runs := SuitRuns(paistr);
    var dora := DoraCount(runs, baopai);
    var ura := DoraCount(runs, UnderIndicators(fubaopai));
    if dora.Failure? then Failure(dora.error)
    else if ura.Failure? then Failure(ura.error)
    else Success(Listed("ドラ", dora.value) + Listed("赤ドラ", Occurrences(paistr, '0')) + Listed("裏ドラ", ura.value))
  }

  /**
   * `get_post_hupai`: the winning tile (when it was won off a discard) is
   * drawn into a copy of the hand, and the bonus patterns are counted on the
   * text of that copy.
   */
  function PostHupaiSpec(h: HandState, rongpai: string, baopai: seq<string>, fubaopai: Option<seq<string>>): Result<seq<Hupai>>
    requires ValidHand(h)
  {
    ZimoProperties(h, rongpai, true);
    var z := ZimoSpec(h, rongpai, true);
    if rongpai == "" then BonusPatterns(StrSpec(h), baopai, fubaopai)
    else if z.1.Fail? then Failure(z.1.error)
    else BonusPatterns(StrSpec(z.0), baopai, fubaopai)
  }

  /** `get_post_hupai(shoupai, rongpai, baopai, fubaopai)`, as `PostHupaiSpec` gives it; the hand itself is left alone. */
  method GetPostHupai(sp: Shoupai, rongpai: string, baopai: seq<string>, fubaopai: Option<seq<string>>) returns (r: Result<seq<Hupai>>)
    requires sp.Valid()
    ensures r == PostHupaiSpec(sp.Value(), rongpai, baopai, fubaopai)
  {
    var ns := sp.Copy();
    if rongpai != "" {
      var o := ns.Zimo(rongpai, true);
      if o.Fail? {
        return Failure(o.error);
      }
    }
    var paistr := ToString(ns, ns.Value());
    r := CountBonus(paistr, baopai, fubaopai);
  }

  /** The counting part of `get_post_hupai`, on the text of the hand. */
  method CountBonus(paistr: string, baopai: seq<string>, fubaopai: Option<seq<string>>) returns (r: Result<seq<Hupai>>)
    ensures r == BonusPatterns(paistr, baopai, fubaopai)
  {
    var suitstr := SuitRuns(paistr);
    var post: seq<Hupai> := [];
    var nBaopai := CountDora(suitstr, baopai);
    if nBaopai.Failure? {
      return Failure(nBaopai.error);
    }
    if nBaopai.value > 0 {
      post := post + [Hupai("ドラ", Fan(nBaopai.value))];
    }
    assert post == Listed("ドラ", nBaopai.value);
    var nHongpai := Occurrences(paistr, '0');
    if nHongpai > 0 {
      post := post + [Hupai("赤ドラ", Fan(nHongpai))];
    }
    assert post == Listed("ドラ", nBaopai.value) + Listed("赤ドラ", nHongpai);
    var nFubaopai := CountDora(suitstr, UnderIndicators(fubaopai));
    if nFubaopai.Failure? {
      return Failure(nFubaopai.error);
    }
    if nFubaopai.value > 0 {
      post := post + [Hupai("裏ドラ", Fan(nFubaopai.value))];
    }
    assert post == Listed("ドラ", nBaopai.value) + Listed("赤ドラ", nHongpai) + Listed("裏ドラ", nFubaopai.value);
    assert nBaopai == DoraCount(SuitRuns(paistr), baopai);
    assert nFubaopai == DoraCount(SuitRuns(paistr), UnderIndicators(fubaopai));
    return Success(post);
  }

  /** The indicator loop of `get_post_hupai`. */
  method CountDora(suitstr: seq<string>, inds: seq<string>) returns (r: Result<nat>)
    requires forall k :: 0 <= k < |suitstr| ==> |suitstr[k]| >= 1
    ensures r == DoraCount(suitstr, inds)
  {
    var n := 0;
    for i := 0 to |inds|
      invariant DoraCount(suitstr, inds[..i]) == Success(n)
    {
      assert inds[..i + 1][..i] == inds[..i];
      var p := Shan.Zhenbaopai(inds[i]);
      if p.Failure? {
        return Failure(p.error);
      }
      var nn := CountRank(suitstr, p.value[0], p.value[1]);
      n := n + nn;
    }
    assert inds[..|inds|] == inds;
    r := Success(n);
  }

  /** The run loop of `get_post_hupai` for one dora: the runs of its suit, with red fives read as fives. */
  method CountRank(suitstr: seq<string>, c: char, d: char) returns (n: nat)
    requires forall k :: 0 <= k < |suitstr| ==> |suitstr[k]| >= 1
    ensures n == DoraIn(suitstr, c, d)
  {
    n := 0;
    for i := 0 to |suitstr|
      invariant n == DoraIn(suitstr[..i], c, d)
    {
      assert suitstr[..i + 1][..i] == suitstr[..i];
      var m := suitstr[i];
      if m[0] != c {
        continue;
      }
      m := Replace(m, '0', '5');
      n := n + Occurrences(m, d);
    }
    assert suitstr[..|suitstr|] == suitstr;
  }

  /** The list `BonusPatterns` gives on success: the three counts, each listed only when positive. */
  lemma BonusPatternsParts(paistr: string, baopai: seq<string>, fubaopai: Option<seq<string>>, l: seq<Hupai>)
    requires BonusPatterns(paistr, baopai, fubaopai) == Success(l)
    ensures DoraCount(SuitRuns(paistr), baopai).Success? && DoraCount(SuitRuns(paistr), UnderIndicators(fubaopai)).Success?
    ensures l == Listed("ドラ", DoraCount(SuitRuns(paistr), baopai).value) + Listed("赤ドラ", multiset(paistr)['0'])
      + Listed("裏ドラ", DoraCount(SuitRuns(paistr), UnderIndicators(fubaopai)).value)
  {
    OccurrencesMultiset(paistr, '0');
  }

  /** A pattern name is listed with n fan by `Listed` exactly when n is its positive count. */
  lemma ListedIff(name: string, k: nat, other: string, n: int)
    ensures Hupai(name, Fan(n)) in Listed(name, k) <==> n > 0 && n == k
    ensures name != other ==> Hupai(other, Fan(n)) !in Listed(name, k)
  {
  }

  /**
   * What `get_post_hupai` lists: at most the three bonus patterns, each
   * with a positive count, and each present exactly when its count is
   * positive.  The red-five count is the number of `0` in the text of the
   * hand.
   */
  lemma BonusPatternsListed(paistr: string, baopai: seq<string>, fubaopai: Option<seq<string>>, l: seq<Hupai>)
    requires BonusPatterns(paistr, baopai, fubaopai) == Success(l)
    ensures |l| <= 3
    ensures forall e :: e in l ==> e.fanshu.Fan? && e.fanshu.n > 0
    ensures forall n :: Hupai("ドラ", Fan(n)) in l <==> n > 0 && DoraCount(SuitRuns(paistr), baopai) == Success(n)
    ensures forall n :: Hupai("赤ドラ", Fan(n)) in l <==> n > 0 && multiset(paistr)['0'] == n
    ensures forall n :: Hupai("裏ドラ", Fan(n)) in l <==> n > 0 && DoraCount(SuitRuns(paistr), UnderIndicators(fubaopai)) == Success(n)
  {
    BonusPatternsParts(paistr, baopai, fubaopai, l);
    var runs := SuitRuns(paistr);
    assert "ドラ" != "赤ドラ" && "ドラ" != "裏ドラ" && "赤ドラ"[0] != "裏ドラ"[0];
    ListedThree("ドラ", "赤ドラ", "裏ドラ", DoraCount(runs, baopai).value, multiset(paistr)['0'],
      DoraCount(runs, UnderIndicators(fubaopai)).value);
  }

  /** Three patterns of distinct names listed one after another: each is present with n fan exactly when n is its positive count. */
  lemma ListedThree(a: string, b: string, c: string, ka: nat, kb: nat, kc: nat)
    requires a != b && a != c && b != c
    ensures var l := Listed(a, ka) + Listed(b, kb) + Listed(c, kc);
      |l| <= 3
      && (forall e :: e in l ==> e.fanshu.Fan? && e.fanshu.n > 0)
      && (forall n :: Hupai(a, Fan(n)) in l <==> n > 0 && n == ka)
      && (forall n :: Hupai(b, Fan(n)) in l <==> n > 0 && n == kb)
      && (forall n :: Hupai(c, Fan(n)) in l <==> n > 0 && n == kc)
  {
    var l := Listed(a, ka) + Listed(b, kb) + Listed(c, kc);
    forall n
      ensures Hupai(a, Fan(n)) in l <==> n > 0 && n == ka
      ensures Hupai(b, Fan(n)) in l <==> n > 0 && n == kb
      ensures Hupai(c, Fan(n)) in l <==> n > 0 && n == kc
    {
      ListedIff(a, ka, b, n);
      ListedIff(a, ka, c, n);
      ListedIff(b, kb, a, n);
      ListedIff(b, kb, c, n);
      ListedIff(c, kc, a, n);
      ListedIff(c, kc, b, n);
    }
  }

  /** The red-five pattern is listed exactly when the text of the hand shows a red five. */
  lemma BonusRedFive(paistr: string, baopai: seq<string>, fubaopai: Option<seq<string>>, l: seq<Hupai>)
    requires BonusPatterns(paistr, baopai, fubaopai) == Success(l)
    ensures (exists e :: e in l && e.name == "赤ドラ") <==> '0' in paistr
  {
    BonusPatternsListed(paistr, baopai, fubaopai, l);
    if '0' in paistr {
      assert Hupai("赤ドラ", Fan(multiset(paistr)['0'])) in l;
    }
    if e :| e in l && e.name == "赤ドラ" {
      assert e == Hupai("赤ドラ", Fan(e.fanshu.n));
    }
  }

  /** `m.replace('0', '5')` before counting: a red five counts as a five and no longer as a `0`. */
  lemma RedFiveCountsAsFive(m: string, d: char)
    ensures Occurrences(Replace(m, '0', '5'), d)
      == if d == '5' then multiset(m)['5'] + multiset(m)['0'] else if d == '0' then 0 else multiset(m)[d]
  {
    RedFiveOccurrences(m, d);
    OccurrencesMultiset(m, d);
    OccurrencesMultiset(m, '0');
    OccurrencesMultiset(m, '5');
  }

  /** The same count, by recursion from the end as `Occurrences` is defined. */
  lemma {:induction false} RedFiveOccurrences(m: string, d: char)
    ensures Occurrences(Replace(m, '0', '5'), d)
      == if d == '5' then Occurrences(m, '5') + Occurrences(m, '0') else if d == '0' then 0 else Occurrences(m, d)
  {
    if |m| > 0 {
      var p := m[..|m| - 1];
      var x := m[|m| - 1];
      assert m == p + [x];
      RedFiveOccurrences(p, d);
      ReplaceSnoc(p, x);
      OccurrencesSnoc(Replace(p, '0', '5'), if x == '0' then '5' else x, d);
      OccurrencesSnoc(p, x, d);
      OccurrencesSnoc(p, x, '0');
    }
  }

  lemma OccurrencesSnoc(p: string, x: char, d: char)
    ensures Occurrences(p + [x], d) == Occurrences(p, d) + (if x == d then 1 else 0)
  {
    assert (p + [x])[..|p|] == p;
  }

  lemma ReplaceSnoc(p: string, x: char)
    ensures Replace(p + [x], '0', '5') == Replace(p, '0', '5') + [if x == '0' then '5' else x]
  {
  }

  /** The dora count of two lists of indicators is the sum of their counts: each indicator adds its own dora. */
  lemma {:induction false} DoraCountAppend(runs: seq<string>, a: seq<string>, b: seq<string>)
    requires forall k :: 0 <= k < |runs| ==> |runs[k]| >= 1
    requires DoraCount(runs, a).Success? && DoraCount(runs, b).Success?
    ensures DoraCount(runs, a + b) == Success(DoraCount(runs, a).value + DoraCount(runs, b).value)
  {
    if |b| > 0 {
      var b0 := b[..|b| - 1];
      assert (a + b)[..|a + b| - 1] == a + b0;
      DoraCountAppend(runs, a, b0);
    } else {
      assert a + b == a;
    }
  }

  /** An indicator that names a dora of another suit, or a suit with no runs, adds nothing. */
  lemma {:induction false} DoraInOtherSuit(runs: seq<string>, c: char, d: char)
    requires forall k :: 0 <= k < |runs| ==> |runs[k]| >= 1 && runs[k][0] != c
    ensures DoraIn(runs, c, d) == 0
  {
    if |runs| > 0 {
      DoraInOtherSuit(runs[..|runs| - 1], c, d);
    }
  }
}
