/**
 * The rule-dependent move filters of the game (the static helpers of
 * jongpy/core/game.py): they ask the hand for its moves and then narrow
 * them by the rule table, the wall count and the number of quads made.
 * The rule table is the map `Rule.Rule` builds; each filter reads the
 * entries it needs, which the source looks up without a default.
 */
module Game {
  import opened Wrappers
  import opened Exceptions
  import opened Notation
  import opened ShoupaiSpec
  import opened ShoupaiMoves
  import opened Shoupai
  import opened Xiangting
  import opened Rule

  /** The rule table holds an integer under key. */
  predicate HasInt(rule: map<string, RuleValue>, key: string)
  {
    key in rule && rule[key].IntValue?
  }

  /** The rule table holds a flag under key. */
  predicate HasFlag(rule: map<string, RuleValue>, key: string)
  {
    key in rule && rule[key].BoolValue?
  }

  // ---------------------------------------------------------------------
  // get_dapai_

  /**
   * The kind a called meld claimed: its suit and the digit marked with a
   * seat, a red five read as a five.  A meld without a marked digit makes
   * the source's regular-expression search fail.
   */
  function ClaimedKind(zm: string): (r: Result<string>)
    requires |zm| > 0
    ensures r.Failure? <==> ClaimedDigit(zm).None?
    ensures r.Success? ==> |r.value| == 2 && r.value[0] == zm[0] && IsDigit(r.value[1]) && r.value[1] != '0'
  {
    match ClaimedDigit(zm)
    case None => Failure(NoMatch)
    case Some(d) => Success(KindText(zm[0], RankOf(d)))
  }

  /** The choices whose kind, a red five read as a five, is not k, in their order. */
  function OtherKinds(l: seq<string>, k: string): (r: seq<string>)
    ensures forall e :: e in r <==> e in l && Replace(e, '0', '5') != k
    ensures |r| <= |l|
  {
    if |l| == 0 then []
    else (if Replace(l[0], '0', '5') != k then [l[0]] else []) + OtherKinds(l[1..], k)
  }

  /**
   * `get_dapai_(rule, shoupai)`: with `allow_fulou_slide` 0 the hand's
   * own list that forbids swapping after a call; with 1, right after a
   * call, the unrestricted list less the claimed kind; otherwise the
   * unrestricted list.
   */
  function GetDapaiRule(rule: map<string, RuleValue>, h: HandState): (r: Result<Option<seq<string>>>)
    requires HasInt(rule, "allow_fulou_slide") && h.bingpai.Shaped()
    ensures !HasZimo(h.zimo) ==> r == Success(None)
    ensures rule["allow_fulou_slide"].i != 0 && r.Success? && r.value.Some? ==>
      GetDapaiSpec(h, false).Success? && GetDapaiSpec(h, false).value.Some?
      && forall e :: e in r.value.value ==> e in GetDapaiSpec(h, false).value.value
  {
    var slide := rule["allow_fulou_slide"].i;
    if slide == 0 then GetDapaiSpec(h, true)
    else if slide == 1 && HasZimo(h.zimo) && |h.zimo.value| > 2 then
      GetDapaiUnchecked(h);
      var zm := h.zimo.value;
      match ClaimedKind(zm)
      case Failure(e) => Failure(e)
      case Success(k) => Success(Some(OtherKinds(DapaiMain(h, [], zm) + DrawnChoice(zm), k)))
    else GetDapaiSpec(h, false)
  }

  /** With a tile in the draw slot the unrestricted list is the held kinds followed by the drawn tile. */
  lemma GetDapaiUnchecked(h: HandState)
    requires h.bingpai.Shaped() && HasZimo(h.zimo)
    ensures GetDapaiSpec(h, false) == Success(Some(DapaiMain(h, [], h.zimo.value) + DrawnChoice(h.zimo.value)))
  {
  }

  /**
   * At level 1 right after a call, a tile is offered exactly when the
   * unrestricted list offers it and it is not of the claimed kind.
   */
  lemma DapaiRuleClaimedKind(rule: map<string, RuleValue>, h: HandState, u: seq<string>, l: seq<string>, e: string)
    requires HasInt(rule, "allow_fulou_slide") && rule["allow_fulou_slide"].i == 1
    requires h.bingpai.Shaped() && HasZimo(h.zimo) && |h.zimo.value| > 2
    requires GetDapaiSpec(h, false) == Success(Some(u)) && GetDapaiRule(rule, h) == Success(Some(l))
    ensures ClaimedKind(h.zimo.value).Success?
    ensures e in l <==> e in u && Replace(e, '0', '5') != ClaimedKind(h.zimo.value).value
  {
    GetDapaiUnchecked(h);
  }

  /** A kind the deny list names yields no choice; any other yields what it yields without the list. */
  lemma KindDapaiDeny(row: seq<int>, c: char, n: int, deny: seq<string>, zm: string, e: string)
    requires RowShape(c, row) && 1 <= n < |row| && e in KindDapai(row, c, n, deny, zm)
    ensures e in KindDapai(row, c, n, [], zm)
  {
  }

  lemma {:induction false} RowDapaiDeny(row: seq<int>, c: char, k: int, deny: seq<string>, zm: string, e: string)
    requires RowShape(c, row) && k <= |row| && e in RowDapai(row, c, k, deny, zm)
    ensures e in RowDapai(row, c, k, [], zm)
    decreases k
  {
    if k > 1 {
      if e in RowDapai(row, c, k - 1, deny, zm) {
        RowDapaiDeny(row, c, k - 1, deny, zm, e);
      } else {
        KindDapaiDeny(row, c, k - 1, deny, zm, e);
      }
    }
  }

  lemma {:induction false} SuitsDapaiDeny(b: Bingpai, i: int, deny: seq<string>, zm: string, e: string)
    requires b.Shaped() && 0 <= i <= 4 && e in SuitsDapai(b, i, deny, zm)
    ensures e in SuitsDapai(b, i, [], zm)
    decreases i
  {
    if i > 0 {
      if e in SuitsDapai(b, i - 1, deny, zm) {
        SuitsDapaiDeny(b, i - 1, deny, zm, e);
      } else {
        RowDapaiDeny(b.Row(SUITS[i - 1]), SUITS[i - 1], |b.Row(SUITS[i - 1])|, deny, zm, e);
      }
    }
  }

  /** A held kind's text read with a red five as a five is the kind. */
  lemma KindOfHeld(e: string)
    requires |e| == 2 && IsSuit(e[0]) && IsDigit(e[1])
    ensures Replace(e, '0', '5') == Kind(e)
  {
    assert Replace(e, '0', '5')[1] == DigitChar(Rank(e));
  }

  /**
   * Level 1 is the more permissive rule: right after a call, every tile
   * level 0 offers is offered at level 1 too.
   */
  lemma DapaiLevelOneWider(rule: map<string, RuleValue>, h: HandState, l0: seq<string>, l1: seq<string>, e: string)
    requires HasInt(rule, "allow_fulou_slide") && rule["allow_fulou_slide"].i == 1
    requires h.bingpai.Valid() && HasZimo(h.zimo) && |h.zimo.value| > 2
    requires GetDapaiSpec(h, true) == Success(Some(l0)) && GetDapaiRule(rule, h) == Success(Some(l1))
    requires e in l0
    ensures e in l1
  {
    var zm := h.zimo.value;
    GetDapaiParts(h, true);
    GetDapaiSound(h, true, l0, e);
    var deny := DenyOf(zm, true).value;
    assert e in SuitsDapai(h.bingpai, 4, deny, zm);
    SuitsDapaiDeny(h.bingpai, 4, deny, zm, e);
    KindOfHeld(e);
    GetDapaiUnchecked(h);
    DapaiRuleClaimedKind(rule, h, DapaiMain(h, [], zm) + DrawnChoice(zm), l1, e);
  }

  // ---------------------------------------------------------------------
  // get_chi_mianzi_, get_peng_mianzi_, get_gang_mianzi_

  /**
   * The last narrowing the claim filters share: None, an error or an
   * empty list passes through as the hand gave it; a refusal gives the
   * empty list; otherwise the empty list when the wall is used up.
   */
  function Narrow(q: Result<Option<seq<string>>>, refuse: bool, paishu: int): (r: Result<Option<seq<string>>>)
    ensures q.Failure? || q.value.None? || |q.value.value| == 0 ==> r == q
    ensures q.Success? && q.value.Some? && |q.value.value| > 0 ==>
      r.Success? && r.value.Some? && (r.value.value == q.value.value <==> !refuse && paishu != 0)
      && (r.value.value != q.value.value ==> r.value.value == [])
  {
    if q.Failure? || q.value.None? || |q.value.value| == 0 then q
    else if refuse || paishu == 0 then Success(Some([]))
    else q
  }

  /**
   * The count the level-1 rule reads for a claimed tile, as written: the
   * count at the index of the tile's digit, which for a red five `0` is
   * the number of red fives held rather than of fives.
   */
  function ClaimedCountAsWritten(h: HandState, p: string): int
    requires h.bingpai.Shaped() && ValidPai(p) && IsNumeralSuit(p[0])
  {
    ValidPaiShape(p);
    h.bingpai.Row(p[0])[DigitValue(p[1])]
  }

  /** The count of the claimed tile's kind the hand holds, red fives included. */
  function ClaimedCount(h: HandState, p: string): int
    requires h.bingpai.Shaped() && ValidPai(p) && IsNumeralSuit(p[0])
  {
    ValidPaiShape(p);
    h.bingpai.Row(p[0])[Rank(p)]
  }

  /**
   * `get_chi_mianzi_` as written: the chows the hand offers (checking
   * swaps at level 0), none at level 1 when three melds are declared and
   * the count at the claimed digit's index is two, none when the wall is
   * used up.
   */
  function ChiRuleAsWritten(rule: map<string, RuleValue>, h: HandState, p: string, paishu: int): (r: Result<Option<seq<string>>>)
    requires HasInt(rule, "allow_fulou_slide") && h.bingpai.Shaped()
    ensures r.Success? && r.value.Some? && |r.value.value| > 0 ==> paishu != 0 && r == ChiSpec(h, p, rule["allow_fulou_slide"].i == 0)
    ensures r != ChiSpec(h, p, rule["allow_fulou_slide"].i == 0) ==> r == Success(Some([]))
  {
    var slide := rule["allow_fulou_slide"].i;
    var q := ChiSpec(h, p, slide == 0);
    if q.Success? && q.value.Some? && |q.value.value| > 0 then
      ChiSound(h, p, slide == 0, q.value.value, q.value.value[0]);
      Narrow(q, slide == 1 && |h.fulou| == 3 && ClaimedCountAsWritten(h, p) == 2, paishu)
    else q
  }

  /**
   * `get_chi_mianzi_` as intended: at level 1 a hand with three melds
   * that holds exactly two tiles of the claimed kind may not chow, since
   * after the chow it would hold only tiles of that kind and could not
   * discard.
   */
  function ChiRule(rule: map<string, RuleValue>, h: HandState, p: string, paishu: int): (r: Result<Option<seq<string>>>)
    requires HasInt(rule, "allow_fulou_slide") && h.bingpai.Shaped()
    ensures r.Success? && r.value.Some? && |r.value.value| > 0 ==> paishu != 0 && r == ChiSpec(h, p, rule["allow_fulou_slide"].i == 0)
    ensures r != ChiSpec(h, p, rule["allow_fulou_slide"].i == 0) ==> r == Success(Some([]))
  {
    var slide := rule["allow_fulou_slide"].i;
    var q := ChiSpec(h, p, slide == 0);
    if q.Success? && q.value.Some? && |q.value.value| > 0 then
      ChiSound(h, p, slide == 0, q.value.value, q.value.value[0]);
      Narrow(q, slide == 1 && |h.fulou| == 3 && ClaimedCount(h, p) == 2, paishu)
    else q
  }

  /**
   * Every chow the rule offers is one the hand offers, made of tiles it
   * holds; none is offered from an empty wall, nor at level 1 when three
   * melds are declared and two tiles of the claimed kind are held.
   */
  lemma ChiRuleSound(rule: map<string, RuleValue>, h: HandState, p: string, paishu: int, l: seq<string>, e: string)
    requires HasInt(rule, "allow_fulou_slide") && h.bingpai.Shaped()
    requires ChiRule(rule, h, p, paishu) == Success(Some(l)) && e in l
    ensures ChiSpec(h, p, rule["allow_fulou_slide"].i == 0) == Success(Some(l))
    ensures paishu != 0 && ValidPai(p) && IsNumeralSuit(p[0])
    ensures !(rule["allow_fulou_slide"].i == 1 && |h.fulou| == 3 && ClaimedCount(h, p) == 2)
    ensures ChowOf(e, h.bingpai.Row(p[0]), p[0], Rank(p), p[1])
  {
    var q := ChiSpec(h, p, rule["allow_fulou_slide"].i == 0);
    ChiSound(h, p, rule["allow_fulou_slide"].i == 0, q.value.value, q.value.value[0]);
    ChiSound(h, p, rule["allow_fulou_slide"].i == 0, l, e);
  }

  /**
   * The rule returns the hand's answer unchanged exactly when that answer
   * is None, an error or no chow, or when the wall is not used up and the
   * level-1 refusal does not apply; otherwise it returns no chow.
   */
  lemma ChiRuleKeeps(rule: map<string, RuleValue>, h: HandState, p: string, paishu: int)
    requires HasInt(rule, "allow_fulou_slide") && h.bingpai.Shaped()
    ensures var slide := rule["allow_fulou_slide"].i;
      var q := ChiSpec(h, p, slide == 0);
      var r := ChiRule(rule, h, p, paishu);
      (r == q <==>
        q.Failure? || q.value.None? || |q.value.value| == 0
        || (paishu != 0 && !(slide == 1 && |h.fulou| == 3 && ClaimedCount(h, p) == 2)))
      && (r != q ==> r == Success(Some([])))
  {
    var q := ChiSpec(h, p, rule["allow_fulou_slide"].i == 0);
    if q.Success? && q.value.Some? && |q.value.value| > 0 {
      ChiSound(h, p, rule["allow_fulou_slide"].i == 0, q.value.value, q.value.value[0]);
    }
  }

  /** The hand m4 m5 m5 m6 with three melds declared, no red five held and nothing drawn. */
  const SLIDE_HAND: HandState :=
    HandState(Bingpai(0, [0, 0, 0, 0, 1, 2, 1, 0, 0, 0], [0, 0, 0, 0, 0, 0, 0, 0, 0, 0],
      [0, 0, 0, 0, 0, 0, 0, 0, 0, 0], [0, 0, 0, 0, 0, 0, 0, 0]),
      ["p123-", "s789-", "z111="], None, false)

  /**
   * Claiming the red five m0 from the left with the hand m4 m5 m5 m6 and
   * three melds at level 1: the hand offers the chow m40-6, which would
   * leave it holding only m5 m5.  As written the rule reads the red-five
   * count (0) instead of the count of fives (2) and lets the chow through;
   * as intended it refuses it.
   */
  lemma ChiRuleRedFive()
    ensures ChiSpec(SLIDE_HAND, "m0-", false) == Success(Some(["m40-6"]))
    ensures ChiRuleAsWritten(map["allow_fulou_slide" := IntValue(1)], SLIDE_HAND, "m0-", 10) == Success(Some(["m40-6"]))
    ensures ChiRule(map["allow_fulou_slide" := IntValue(1)], SLIDE_HAND, "m0-", 10) == Success(Some([]))
  {
    var row := SLIDE_HAND.bingpai.Row('m');
    assert ValidPai("m0-") && Direction("m0-") == Some('-') && Rank("m0-") == 5;
    assert DigitChar(4) == '4' && DigitChar(6) == '6';
    assert ChiRight(row, 'm', 5, '0', ChiLimit(3), false) == [];
    assert ChiMiddle(row, 'm', 5, '0', ChiLimit(3), false) == ["m40-6"];
    assert ChiLeft(row, 'm', 5, '0', ChiLimit(3), false) == [];
    assert ChiLimit(|SLIDE_HAND.fulou|) == ChiLimit(3);
    assert [] + ["m40-6"] + [] == ["m40-6"];
  }

  /** `get_peng_mianzi_`: the pungs the hand offers, none when the wall is used up. */
  function PengRule(h: HandState, p: string, paishu: int): (r: Result<Option<seq<string>>>)
    requires h.bingpai.Shaped()
    ensures r.Success? && r.value.Some? && |r.value.value| > 0 ==> paishu != 0 && r == PengSpec(h, p)
    ensures r != PengSpec(h, p) ==> paishu == 0 && r == Success(Some([]))
  {
    Narrow(PengSpec(h, p), false, paishu)
  }

  /**
   * Every pung the rule offers is one the hand offers, made of tiles it
   * holds, and only from a wall that is not used up; a non-empty wall
   * passes the hand's answer through unchanged.
   */
  lemma PengRuleSound(h: HandState, p: string, paishu: int, l: seq<string>, e: string)
    requires h.bingpai.Valid() && PengRule(h, p, paishu) == Success(Some(l)) && e in l
    ensures paishu != 0 && PengSpec(h, p) == Success(Some(l))
    ensures ValidPai(p) && 1 <= Rank(p) < |h.bingpai.Row(p[0])|
    ensures PungOf(e, h.bingpai.Row(p[0]), p[0], Rank(p), p[1], Direction(p).value)
  {
    PengSound(h, p, l, e);
  }

  /**
   * `get_gang_mianzi_` outside the tile-wait comparisons: the quads the
   * hand offers; none after riichi when `allow_angang_after_lizhi` is 0
   * or when the comparison of waits (`keepsWaits`, decided by the caller)
   * rejects the quad; none when the wall is used up or four quads have
   * been made.
   */
  function GangRule(rule: map<string, RuleValue>, h: HandState, p: Option<string>, paishu: int, nGang: int, keepsWaits: bool): (r: Result<Option<seq<string>>>)
    requires HasInt(rule, "allow_angang_after_lizhi") && h.bingpai.Shaped()
    ensures r.Success? && r.value.Some? && |r.value.value| > 0 ==>
      r == GangMianziSpec(h, p) && paishu != 0 && nGang != 4
      && (h.lizhi ==> rule["allow_angang_after_lizhi"].i != 0 && keepsWaits)
    ensures r != GangMianziSpec(h, p) ==> r == Success(Some([]))
  {
    var q := GangMianziSpec(h, p);
    if q.Failure? || q.value.None? || |q.value.value| == 0 then q
    else if h.lizhi && (rule["allow_angang_after_lizhi"].i == 0 || !keepsWaits) then Success(Some([]))
    else Narrow(q, nGang == 4, paishu)
  }

  /**
   * A quad is offered only when the hand offers it, the wall is not used
   * up, fewer than four quads were made and, after riichi, the rule allows
   * quads and the waits are kept; conversely under those conditions the
   * hand's list is returned whole.
   */
  lemma GangRuleKeeps(rule: map<string, RuleValue>, h: HandState, p: Option<string>, paishu: int, nGang: int, keepsWaits: bool, l: seq<string>)
    requires HasInt(rule, "allow_angang_after_lizhi") && h.bingpai.Shaped()
    requires GangMianziSpec(h, p) == Success(Some(l)) && |l| > 0
    ensures var r := GangRule(rule, h, p, paishu, nGang, keepsWaits);
      r.Success? && r.value.Some?
      && (r.value.value == l <==>
          paishu != 0 && nGang != 4 && (h.lizhi ==> rule["allow_angang_after_lizhi"].i != 0 && keepsWaits))
      && (r.value.value != l ==> r.value.value == [])
  {
  }

  /** After riichi with quads disallowed, no quad is offered whatever the hand holds. */
  lemma GangRuleLizhi(rule: map<string, RuleValue>, h: HandState, p: Option<string>, paishu: int, nGang: int, keepsWaits: bool)
    requires HasInt(rule, "allow_angang_after_lizhi") && rule["allow_angang_after_lizhi"].i == 0
    requires h.bingpai.Shaped() && h.lizhi
    ensures var r := GangRule(rule, h, p, paishu, nGang, keepsWaits);
      r.Failure? || r.value.None? || r.value.value == []
  {
  }

  // ---------------------------------------------------------------------
  // allow_pingju_

  /**
   * `allow_pingju_`: an abortive draw may be declared on the first draw,
   * with a tile in the draw slot, when the rule allows it and the hand
   * holds at least nine kinds of terminals and honours.
   */
  function PingjuSpec(rule: map<string, RuleValue>, h: HandState, diyizimo: bool): bool
    requires HasFlag(rule, "interrupted_pingju") && h.bingpai.Shaped()
  {
    diyizimo && HasZimo(h.zimo) && rule["interrupted_pingju"].b && YaojiuTally(h.bingpai, 13).0 >= 9
  }

  /** `allow_pingju_(rule, shoupai, diyizimo)`: the guards, then the count over each suit's terminal ranks. */
  method AllowPingju(rule: map<string, RuleValue>, sp: Shoupai, diyizimo: bool) returns (r: bool)
    requires HasFlag(rule, "interrupted_pingju") && sp.Shaped()
    ensures r == PingjuSpec(rule, sp.Value(), diyizimo)
  {
    if !(diyizimo && sp.zimo.Some? && sp.zimo.value != "") {
      return false;
    }
    if !rule["interrupted_pingju"].b {
      return false;
    }
    ghost var b := sp.Value().bingpai;
    var nYaojiu := 0;
    var k := 0;
    while k < 4
      invariant 0 <= k <= 4
      invariant nYaojiu == YaojiuTally(b, YaojiuOffset(k)).0
    {
      var c := "mpsz"[k];
      var a := sp.Arr(c);
      assert a[..] == b.Row(c);
      nYaojiu := KindsInRow(a, k, b, nYaojiu);
      k := k + 1;
    }
    return nYaojiu >= 9;
  }

  /** The inner loop of `allow_pingju_` over one suit: each terminal or honour rank held adds one. */
  method KindsInRow(a: array<int>, k: int, ghost b: Bingpai, n0: int) returns (nYaojiu: int)
    requires b.Shaped() && 0 <= k < 4 && a[..] == b.Row("mpsz"[k])
    requires n0 == YaojiuTally(b, YaojiuOffset(k)).0
    ensures nYaojiu == YaojiuTally(b, YaojiuOffset(k + 1)).0
  {
    var nn := YaojiuRanks("mpsz"[k]);
    ghost var off := YaojiuOffset(k);
    YaojiuAt(k, 0);
    nYaojiu := n0;
    var i := 0;
    while i < |nn|
      invariant 0 <= i <= |nn|
      invariant nYaojiu == YaojiuTally(b, off + i).0
    {
      var n := nn[i];
      YaojiuCountAt(b, k, i);
      YaojiuTallyStep(b, off + i);
      assert a[n] == a[..][n] == YaojiuCount(b, off + i);
      if a[n] > 0 {
        nYaojiu := nYaojiu + 1;
      }
      i := i + 1;
    }
  }

  /** The positions, among the first k terminals and honours, of the kinds the hand holds. */
  function HeldYaojiu(b: Bingpai, k: int): set<int>
    requires b.Shaped() && 0 <= k <= 13
  {
    set i | 0 <= i < k && YaojiuCount(b, i) >= 1
  }

  /** The tally's first count is the number of distinct terminal and honour kinds held. */
  lemma {:induction false} HeldYaojiuCount(b: Bingpai, k: int)
    requires b.Shaped() && 0 <= k <= 13
    ensures |HeldYaojiu(b, k)| == YaojiuTally(b, k).0
  {
    if k > 0 {
      HeldYaojiuCount(b, k - 1);
      HeldYaojiuStep(b, k);
    }
  }

  lemma HeldYaojiuStep(b: Bingpai, k: int)
    requires b.Shaped() && 0 < k <= 13
    ensures HeldYaojiu(b, k) == HeldYaojiu(b, k - 1) + (if YaojiuCount(b, k - 1) >= 1 then {k - 1} else {})
    ensures k - 1 !in HeldYaojiu(b, k - 1)
  {
  }

  /**
   * The abortive draw is allowed exactly on the first draw, with a tile
   * drawn and the rule on, when nine or more distinct terminal and honour
   * kinds are held; such a concealed hand is at most four exchanges from
   * thirteen orphans.
   */
  lemma PingjuKinds(rule: map<string, RuleValue>, h: HandState, diyizimo: bool)
    requires HasFlag(rule, "interrupted_pingju") && h.bingpai.Shaped()
    ensures PingjuSpec(rule, h, diyizimo) <==>
      diyizimo && HasZimo(h.zimo) && rule["interrupted_pingju"].b && |HeldYaojiu(h.bingpai, 13)| >= 9
    ensures PingjuSpec(rule, h, diyizimo) && |h.fulou| == 0 ==> GoushiSpec(h) <= 4
  {
    HeldYaojiuCount(h.bingpai, 13);
    YaojiuTallyCounts(h.bingpai, 13);
  }

  // ---------------------------------------------------------------------
  // allow_no_daopai

  /**
   * `allow_no_daopai`: a ready hand may be kept hidden at an exhaustive
   * draw only once the wall is used up, with no tile in the draw slot,
   * when the rule allows it and the hand is not in riichi; then it is
   * allowed exactly when the hand is ready (shanten 0) and has a wait,
   * the latter decided by the caller (`hasWaits`).
   */
  function NoDaopai(rule: map<string, RuleValue>, h: HandState, paishu: int, hasWaits: bool): (r: bool)
    requires HasFlag(rule, "declare_no_tingpai") && CountsOk(h.bingpai)
    ensures r ==> paishu <= 0 && !HasZimo(h.zimo) && rule["declare_no_tingpai"].b && !h.lizhi && hasWaits
    ensures r ==> XiangtingSpec(h) == 0
  {
    if paishu > 0 || HasZimo(h.zimo) then false
    else if !rule["declare_no_tingpai"].b then false
    else if h.lizhi then false
    else XiangtingSpec(h) == 0 && hasWaits
  }

  /**
   * Keeping the hand hidden is allowed only for a hand that is ready and
   * has a wait, at the end of the wall, with nothing drawn, the rule on
   * and no riichi; each of these conditions is needed.
   */
  lemma NoDaopaiGuards(rule: map<string, RuleValue>, h: HandState, paishu: int, hasWaits: bool)
    requires HasFlag(rule, "declare_no_tingpai") && CountsOk(h.bingpai)
    ensures NoDaopai(rule, h, paishu, hasWaits) <==>
      paishu <= 0 && !HasZimo(h.zimo) && rule["declare_no_tingpai"].b && !h.lizhi
      && XiangtingSpec(h) == 0 && hasWaits
    ensures NoDaopai(rule, h, paishu, hasWaits) ==> YibanSpec(h) >= 0 && GoushiSpec(h) >= 0 && QiduiSpec(h) >= 0
  {
    XiangtingRange(h);
  }
}
