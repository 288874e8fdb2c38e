/**
 * The rule configuration (jongpy/core/rule.py): a table of defaults,
 * overridden key by key by the caller's parameters.
 */
module Rule {

  /** The kinds of value the rule table holds. */
  datatype RuleValue =
    | IntValue(i: int)
    | BoolValue(b: bool)
    | TextList(items: seq<string>)
    | PerSuit(counts: map<char, int>)

  /** The defaults, key by key (rule.py lines 6-49). */
  const DEFAULTS: map<string, RuleValue> := map[
    "origin_points" := IntValue(25000),
    "rank_bounus" := TextList(["20.0", "10.0", "-10.0", "-20.0"]),
    "hongpai" := PerSuit(map['m' := 1, 'p' := 1, 's' := 1]),
    "fulou_duanyaojiu" := BoolValue(true),
    "allow_fulou_slide" := IntValue(0),
    "n_zhuang" := IntValue(2),
    "interrupted_pingju" := BoolValue(true),
    "pingju_manguan" := BoolValue(true),
    "declare_no_tingpai" := BoolValue(false),
    "penalty_no_tingpai" := BoolValue(true),
    "n_max_simultaneous_hule" := IntValue(2),
    "continuous_zhuang" := IntValue(2),
    "minus_interruption" := BoolValue(true),
    "stop_last_game" := BoolValue(true),
    "extra_game_method" := IntValue(1),
    "yifa" := BoolValue(true),
    "fubaopai" := BoolValue(true),
    "gang_baopai" := BoolValue(true),
    "gang_fubaopai" := BoolValue(true),
    "gang_baopai_delay" := BoolValue(true),
    "lizhi_no_zimo" := BoolValue(false),
    "allow_angang_after_lizhi" := IntValue(2),
    "compound_damanguan" := BoolValue(true),
    "double_damanguan" := BoolValue(true),
    "counting_damanguan" := BoolValue(true),
    "damanguan_baojia" := BoolValue(true),
    "ceiled_manguan" := BoolValue(true)
  ]

  /** The parameters written over a base table: every key of either, a parameter winning over the base. */
  ghost predicate IsMerge(base: map<string, RuleValue>, param: map<string, RuleValue>, r: map<string, RuleValue>)
  {
    r.Keys == base.Keys + param.Keys
    && (forall k :: k in param ==> k in r && r[k] == param[k])
    && (forall k :: k in base && k !in param ==> k in r && r[k] == base[k])
  }

  /** What `rule(param)` returns: the parameters written over the defaults. */
  ghost predicate IsRule(param: map<string, RuleValue>, r: map<string, RuleValue>)
  {
    IsMerge(DEFAULTS, param, r)
  }

  /** `rule(param)`: the defaults, then each parameter written over them. */
  method Rule(param: map<string, RuleValue>) returns (r: map<string, RuleValue>)
    ensures r.Keys == DEFAULTS.Keys + param.Keys
    ensures forall k :: k in param ==> k in r && r[k] == param[k]
    ensures forall k :: k in DEFAULTS && k !in param ==> k in r && r[k] == DEFAULTS[k]
  {
    r := Merge(DEFAULTS, param);
  }

  /** The loop of `rule`: each parameter written over the table in turn. */
  method Merge(base: map<string, RuleValue>, param: map<string, RuleValue>) returns (r: map<string, RuleValue>)
    ensures IsMerge(base, param, r)
  {
    r := base;
    var todo := param.Keys;
    while todo != {}
      invariant todo <= param.Keys
      invariant r.Keys == base.Keys + (param.Keys - todo)
      invariant forall k :: k in param && k !in todo ==> k in r && r[k] == param[k]
      invariant forall k :: k in base && (k !in param || k in todo) ==> k in r && r[k] == base[k]
      decreases todo
    {
      var k :| k in todo;
      r := r[k := param[k]];
      todo := todo - {k};
    }
  }

  /** The result is determined by the parameters: two calls with the same overrides agree. */
  lemma RuleUnique(param: map<string, RuleValue>, r1: map<string, RuleValue>, r2: map<string, RuleValue>)
    requires IsRule(param, r1) && IsRule(param, r2)
    ensures r1 == r2
  {
    MergeUnique(DEFAULTS, param, r1, r2);
  }

  lemma MergeUnique(base: map<string, RuleValue>, param: map<string, RuleValue>, r1: map<string, RuleValue>, r2: map<string, RuleValue>)
    requires IsMerge(base, param, r1) && IsMerge(base, param, r2)
    ensures r1 == r2
  {
    forall k | k in r1.Keys
      ensures r1[k] == r2[k]
    {
      if k in param {
        assert r1[k] == param[k] == r2[k];
      } else {
        assert r1[k] == base[k] == r2[k];
      }
    }
  }

  /**
   * The tests' overrides: `origin_points` 30000 replaces the default
   * 25000, and `allow_fulou_slide` keeps its default 0; nothing else is
   * added or lost.
   */
  lemma RuleExample(r: map<string, RuleValue>)
    requires IsRule(map["origin_points" := IntValue(30000)], r)
    ensures r == DEFAULTS["origin_points" := IntValue(30000)]
    ensures r["allow_fulou_slide"] == IntValue(0) && r["origin_points"] == IntValue(30000)
  {
    MergeUnique(DEFAULTS, map["origin_points" := IntValue(30000)], r, DEFAULTS["origin_points" := IntValue(30000)]);
    DefaultSlide();
  }

  /** `allow_fulou_slide` is 0 unless overridden. */
  lemma DefaultSlide()
    ensures "allow_fulou_slide" in DEFAULTS && DEFAULTS["allow_fulou_slide"] == IntValue(0)
  {
  }
}
