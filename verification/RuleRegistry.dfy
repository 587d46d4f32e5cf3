/** The in-memory registry: which rule, of which ConfigMap, applies to a pod. */
module RuleRegistry {
  import opened Kube
  import opened Rules
  import opened Strings

  type Instruments = map<string, InjectConfig>

  /** The two ordered rule lists an entry carries. */
  datatype Section = SdkRules | SpanMetricRules

  function RulesOf(section: Section, inst: InjectConfig): seq<Rule> {
    match section
    case SdkRules => inst.rules
    case SpanMetricRules => if inst.spanMetrics then inst.bpfRules else []
  }

  datatype Candidate = Candidate(rule: Rule, config: InjectConfig)

  function Tagged(rules: seq<Rule>, inst: InjectConfig): seq<Candidate> {
    if rules == [] then [] else [Candidate(rules[0], inst)] + Tagged(rules[1..], inst)
  }

  /** All rule lists in key order, one after the other. */
  ghost function Candidates(section: Section, m: Instruments, keys: seq<string>): seq<Candidate>
    requires forall k :: k in keys ==> k in m
  {
    if keys == [] then []
    else Tagged(RulesOf(section, m[keys[0]]), m[keys[0]]) + Candidates(section, m, keys[1..])
  }

  /** The first candidate that selects the pod decides; a skip rule decides for no match. */
  ghost function FirstMatch(cs: seq<Candidate>, input: MatchInput): Option<Candidate> {
    if cs == [] then None
    else if !cs[0].rule.selector(input) then FirstMatch(cs[1..], input)
    else if cs[0].rule.config.mode == Skip then None
    else Some(cs[0])
  }

  ghost function MatchResult(section: Section, m: Instruments, p: PodInfo): Option<Candidate> {
    FirstMatch(Candidates(section, m, Sorted(m.Keys)), InputOf(p))
  }

  ghost predicate AnyHit(section: Section, inst: InjectConfig, p: PodInfo) {
    exists i :: 0 <= i < |RulesOf(section, inst)| && RulesOf(section, inst)[i].selector(InputOf(p))
  }

  /** The least key with a rule that selects the pod. */
  ghost predicate IsWinner(section: Section, m: Instruments, p: PodInfo, w: string) {
    && w in m && AnyHit(section, m[w], p)
    && forall k :: k in m && AnyHit(section, m[k], p) ==> k == w || Less(w, k)
  }

  /** What one entry alone says about the pod. */
  ghost function Verdict(section: Section, inst: InjectConfig, p: PodInfo): Option<Candidate> {
    FirstMatch(Tagged(RulesOf(section, inst), inst), InputOf(p))
  }

  lemma {:induction false} FirstMatchConcat(rules: seq<Rule>, inst: InjectConfig, rest: seq<Candidate>, input: MatchInput)
    ensures FirstMatch(Tagged(rules, inst) + rest, input)
      == if exists i :: 0 <= i < |rules| && rules[i].selector(input)
         then FirstMatch(Tagged(rules, inst), input) else FirstMatch(rest, input)
  {
    if rules == [] {
      assert Tagged(rules, inst) + rest == rest;
    } else {
      var cs := Tagged(rules, inst);
      assert (cs + rest)[1..] == Tagged(rules[1..], inst) + rest;
      assert cs[1..] == Tagged(rules[1..], inst);
      FirstMatchConcat(rules[1..], inst, rest, input);
      if rules[0].selector(input) {
      } else if i :| 0 <= i < |rules| && rules[i].selector(input) {
        assert rules[1..][i - 1].selector(input);
      } else {
        assert forall i | 0 <= i < |rules| - 1 :: rules[1..][i] == rules[i + 1];
      }
    }
  }

  lemma {:induction false} WinnerDecidesSuffix(section: Section, m: Instruments, p: PodInfo, keys: seq<string>, i: nat)
    requires forall k :: k in keys ==> k in m
    requires i <= |keys|
    requires forall j :: 0 <= j < i ==> !AnyHit(section, m[keys[j]], p)
    requires i < |keys| ==> AnyHit(section, m[keys[i]], p)
    ensures FirstMatch(Candidates(section, m, keys), InputOf(p))
      == if i < |keys| then Verdict(section, m[keys[i]], p) else None
  {
    if keys != [] {
      var inst := m[keys[0]];
      FirstMatchConcat(RulesOf(section, inst), inst, Candidates(section, m, keys[1..]), InputOf(p));
      if i > 0 {
        assert !AnyHit(section, m[keys[0]], p);
        assert forall j | 0 <= j < |keys| - 1 :: keys[1..][j] == keys[j + 1];
        WinnerDecidesSuffix(section, m, p, keys[1..], i - 1);
      }
    }
  }

  /** The match is the winning entry's own verdict. */
  lemma WinnerDecides(section: Section, m: Instruments, p: PodInfo, w: string)
    requires IsWinner(section, m, p, w)
    ensures MatchResult(section, m, p) == Verdict(section, m[w], p)
  {
    var keys := Sorted(m.Keys);
    var i :| 0 <= i < |keys| && keys[i] == w;
    forall j | 0 <= j < i ensures !AnyHit(section, m[keys[j]], p) {
      assert keys[j] in m;
      LessIsAsymmetric(keys[j], w);
    }
    WinnerDecidesSuffix(section, m, p, keys, i);
  }

  lemma NoWinnerNoMatch(section: Section, m: Instruments, p: PodInfo)
    requires forall k :: k in m ==> !AnyHit(section, m[k], p)
    ensures MatchResult(section, m, p) == None
  {
    var keys := Sorted(m.Keys);
    assert forall k | k in keys :: k in m;
    WinnerDecidesSuffix(section, m, p, keys, |keys|);
  }

  /** The position of the first key with a hit, searching from `i`. */
  lemma {:induction false} FirstHitFrom(section: Section, m: Instruments, p: PodInfo, keys: seq<string>, n: nat) returns (i: nat)
    decreases n
    requires forall k :: k in keys ==> k in m
    requires n < |keys| && AnyHit(section, m[keys[n]], p)
    ensures i < |keys| && AnyHit(section, m[keys[i]], p)
    ensures forall j :: 0 <= j < i ==> !AnyHit(section, m[keys[j]], p)
  {
    if j :| 0 <= j < n && AnyHit(section, m[keys[j]], p) {
      i := FirstHitFrom(section, m, p, keys, j);
    } else {
      i := n;
    }
  }

  lemma WinnerExists(section: Section, m: Instruments, p: PodInfo) returns (w: string)
    requires exists k :: k in m && AnyHit(section, m[k], p)
    ensures IsWinner(section, m, p, w)
  {
    var keys := Sorted(m.Keys);
    assert forall k | k in keys :: k in m;
    var k0 :| k0 in m && AnyHit(section, m[k0], p);
    var n :| 0 <= n < |keys| && keys[n] == k0;
    var i := FirstHitFrom(section, m, p, keys, n);
    w := keys[i];
    forall k | k in m && AnyHit(section, m[k], p) ensures k == w || Less(w, k) {
      var j :| 0 <= j < |keys| && keys[j] == k;
      assert i <= j;
    }
  }

  // ---- the match, rule by rule

  /** The rule at `i` selects the pod and none before it does. */
  ghost predicate IsFirstHit(rules: seq<Rule>, p: PodInfo, i: nat) {
    && i < |rules| && rules[i].selector(MatchInput(p.namespace, p.chain, p.labels, p.annotations))
    && forall j :: 0 <= j < i ==> !rules[j].selector(MatchInput(p.namespace, p.chain, p.labels, p.annotations))
  }

  ghost predicate SelectsNothing(rules: seq<Rule>, p: PodInfo) {
    forall j :: 0 <= j < |rules| ==> !rules[j].selector(MatchInput(p.namespace, p.chain, p.labels, p.annotations))
  }

  lemma {:induction false} FirstHitDecides(rules: seq<Rule>, inst: InjectConfig, p: PodInfo, i: nat)
    requires IsFirstHit(rules, p, i)
    ensures FirstMatch(Tagged(rules, inst), InputOf(p))
      == if rules[i].config.mode == Skip then None else Some(Candidate(rules[i], inst))
  {
    assert Tagged(rules, inst)[1..] == Tagged(rules[1..], inst);
    if i > 0 {
      assert forall j | 0 <= j < |rules| - 1 :: rules[1..][j] == rules[j + 1];
      FirstHitDecides(rules[1..], inst, p, i - 1);
    }
  }

  lemma EntryWins(section: Section, m: Instruments, p: PodInfo, w: string, i: nat)
    requires w in m && IsFirstHit(RulesOf(section, m[w]), p, i)
    requires forall k :: k in m ==> k == w || Less(w, k) || SelectsNothing(RulesOf(section, m[k]), p)
    ensures MatchResult(section, m, p)
      == if RulesOf(section, m[w])[i].config.mode == Skip then None else Some(Candidate(RulesOf(section, m[w])[i], m[w]))
  {
    var rules := RulesOf(section, m[w]);
    assert AnyHit(section, m[w], p) by { assert rules[i].selector(InputOf(p)); }
    WinnerDecides(section, m, p, w);
    FirstHitDecides(rules, m[w], p, i);
  }

  /**
   The first rule that selects the pod, in the ConfigMap with the least key that has one, decides: the
   pod matches that rule with that ConfigMap's configuration, unless the rule is a skip rule.
   */
  lemma FirstRuleDecides(m: Instruments, p: PodInfo, w: string, i: nat)
    requires w in m && IsFirstHit(m[w].rules, p, i)
    requires forall k :: k in m ==> k == w || Less(w, k) || SelectsNothing(m[k].rules, p)
    ensures MatchResult(SdkRules, m, p) == None <==> m[w].rules[i].config.mode == Skip
    ensures m[w].rules[i].config.mode != Skip ==> MatchResult(SdkRules, m, p) == Some(Candidate(m[w].rules[i], m[w]))
  {
    EntryWins(SdkRules, m, p, w, i);
  }

  /** The span-metrics query does the same with the span-metrics rules of the ConfigMaps that report span metrics. */
  lemma FirstSpanRuleDecides(m: Instruments, p: PodInfo, w: string, i: nat)
    requires w in m && m[w].spanMetrics && IsFirstHit(m[w].bpfRules, p, i)
    requires forall k :: k in m && m[k].spanMetrics ==> k == w || Less(w, k) || SelectsNothing(m[k].bpfRules, p)
    ensures MatchResult(SpanMetricRules, m, p) == None <==> m[w].bpfRules[i].config.mode == Skip
    ensures m[w].bpfRules[i].config.mode != Skip ==> MatchResult(SpanMetricRules, m, p) == Some(Candidate(m[w].bpfRules[i], m[w]))
  {
    EntryWins(SpanMetricRules, m, p, w, i);
  }

  /** Without a rule that selects the pod neither query finds one. */
  lemma NoRuleNoMatch(m: Instruments, p: PodInfo)
    ensures (forall k :: k in m ==> SelectsNothing(m[k].rules, p)) ==> MatchResult(SdkRules, m, p) == None
    ensures (forall k :: k in m && m[k].spanMetrics ==> SelectsNothing(m[k].bpfRules, p)) ==> MatchResult(SpanMetricRules, m, p) == None
  {
    if forall k :: k in m ==> SelectsNothing(m[k].rules, p) {
      NoWinnerNoMatch(SdkRules, m, p);
    }
    if forall k :: k in m && m[k].spanMetrics ==> SelectsNothing(m[k].bpfRules, p) {
      NoWinnerNoMatch(SpanMetricRules, m, p);
    }
  }

  /** Publishing or dropping an entry that sorts after the winner changes no answer. */
  lemma LaterEntriesDoNotMatter(section: Section, m: Instruments, p: PodInfo, w: string, key: string, inst: InjectConfig)
    requires IsWinner(section, m, p, w) && Less(w, key)
    ensures MatchResult(section, m[key := inst], p) == MatchResult(section, m, p)
    ensures MatchResult(section, m - {key}, p) == MatchResult(section, m, p)
  {
    LessIsAsymmetric(w, key);
    assert IsWinner(section, m[key := inst], p, w);
    assert IsWinner(section, m - {key}, p, w);
    WinnerDecides(section, m, p, w);
    WinnerDecides(section, m[key := inst], p, w);
    WinnerDecides(section, m - {key}, p, w);
  }

  /** So does publishing or dropping an entry none of whose rules selects the pod. */
  lemma UnrelatedEntriesDoNotMatter(section: Section, m: Instruments, p: PodInfo, key: string, inst: InjectConfig)
    requires !AnyHit(section, inst, p) && (key in m ==> !AnyHit(section, m[key], p))
    ensures MatchResult(section, m[key := inst], p) == MatchResult(section, m, p)
    ensures MatchResult(section, m - {key}, p) == MatchResult(section, m, p)
  {
    if exists k :: k in m && AnyHit(section, m[k], p) {
      var w := WinnerExists(section, m, p);
      assert IsWinner(section, m[key := inst], p, w);
      assert IsWinner(section, m - {key}, p, w);
      WinnerDecides(section, m, p, w);
      WinnerDecides(section, m[key := inst], p, w);
      WinnerDecides(section, m - {key}, p, w);
    } else {
      NoWinnerNoMatch(section, m, p);
      NoWinnerNoMatch(section, m[key := inst], p);
      NoWinnerNoMatch(section, m - {key}, p);
    }
  }

  /** The entries that report span metrics, with those rules in the place of the SDK rules. */
  ghost function SpanMetricView(m: Instruments): Instruments {
    map k | k in m && m[k].spanMetrics :: m[k].(rules := m[k].bpfRules)
  }

  ghost function RuleOf(c: Option<Candidate>): Option<Rule> {
    if c.Some? then Some(c.value.rule) else None
  }

  lemma {:induction false} TagsDoNotMatter(rules: seq<Rule>, a: InjectConfig, b: InjectConfig, input: MatchInput)
    ensures RuleOf(FirstMatch(Tagged(rules, a), input)) == RuleOf(FirstMatch(Tagged(rules, b), input))
  {
    if rules != [] {
      assert Tagged(rules, a)[1..] == Tagged(rules[1..], a) && Tagged(rules, b)[1..] == Tagged(rules[1..], b);
      TagsDoNotMatter(rules[1..], a, b, input);
    }
  }

  /** The span-metrics query is the SDK match on the span-metrics sublist. */
  lemma SpanMetricsIsMatchOnSublist(m: Instruments, p: PodInfo)
    ensures RuleOf(MatchResult(SpanMetricRules, m, p)) == RuleOf(MatchResult(SdkRules, SpanMetricView(m), p))
  {
    var v := SpanMetricView(m);
    assert forall k | k in v :: RulesOf(SdkRules, v[k]) == RulesOf(SpanMetricRules, m[k]);
    if exists k :: k in m && AnyHit(SpanMetricRules, m[k], p) {
      var w := WinnerExists(SpanMetricRules, m, p);
      assert w in v;
      forall k | k in v && AnyHit(SdkRules, v[k], p) ensures k == w || Less(w, k) {
        assert AnyHit(SpanMetricRules, m[k], p);
      }
      WinnerDecides(SpanMetricRules, m, p, w);
      WinnerDecides(SdkRules, v, p, w);
      TagsDoNotMatter(m[w].bpfRules, m[w], v[w], InputOf(p));
    } else {
      NoWinnerNoMatch(SpanMetricRules, m, p);
      forall k | k in v ensures !AnyHit(SdkRules, v[k], p) {
        assert !AnyHit(SpanMetricRules, m[k], p);
      }
      NoWinnerNoMatch(SdkRules, v, p);
    }
  }

  /** An entry without rules contributes nothing and is not kept. */
  ghost function Contributing(m: Instruments): Instruments {
    map k | k in m && m[k].rules != [] :: m[k]
  }

  class Registry {
    var instruments: Instruments

    ghost predicate Valid()
      reads this
    {
      forall k :: k in instruments ==> instruments[k].rules != []
    }

    constructor ()
      ensures Valid() && instruments == map[]
    {
      instruments := map[];
    }

    method Set(key: string, inst: InjectConfig)
      requires Valid()
      modifies this
      ensures Valid() && instruments == Contributing(old(instruments)[key := inst])
      ensures instruments == if inst.rules == [] then old(instruments) - {key} else old(instruments)[key := inst]
    {
      if |inst.rules| == 0 {
        instruments := instruments - {key};
      } else {
        instruments := instruments[key := inst];
      }
    }

    method Replace(snapshot: Instruments)
      modifies this
      ensures Valid() && instruments == Contributing(snapshot)
      ensures forall k :: k in instruments <==> k in snapshot && snapshot[k].rules != []
      ensures forall k :: k in instruments ==> instruments[k] == snapshot[k]
    {
      instruments := map[];
      var todo := snapshot.Keys;
      while todo != {}
        invariant todo <= snapshot.Keys
        invariant instruments == map k | k in snapshot && k !in todo && snapshot[k].rules != [] :: snapshot[k]
        decreases |todo|
      {
        var key :| key in todo;
        if |snapshot[key].rules| > 0 {
          instruments := instruments[key := snapshot[key]];
        }
        todo := todo - {key};
      }
    }

    method Delete(key: string)
      requires Valid()
      modifies this
      ensures Valid() && instruments == old(instruments) - {key}
    {
      instruments := instruments - {key};
    }

    method Match(p: PodInfo) returns (r: Option<Candidate>)
      ensures r == MatchResult(SdkRules, instruments, p)
    {
      r := Query(SdkRules, p);
    }

    method BPFGeneratesSpanMetrics(p: PodInfo) returns (r: Option<Rule>)
      ensures r == RuleOf(MatchResult(SpanMetricRules, instruments, p))
    {
      var c := Query(SpanMetricRules, p);
      r := if c.Some? then Some(c.value.rule) else None;
    }

    /** The outer loop of both queries: keys in ascending order. */
    method Query(section: Section, p: PodInfo) returns (r: Option<Candidate>)
      ensures r == MatchResult(section, instruments, p)
    {
      var keys := SortKeys(instruments.Keys);
      var i := 0;
      while i < |keys|
        invariant 0 <= i <= |keys|
        invariant forall k :: k in keys ==> k in instruments
        invariant MatchResult(section, instruments, p) == FirstMatch(Candidates(section, instruments, keys[i..]), InputOf(p))
      {
        var inst := instruments[keys[i]];
        EntryDecides(section, instruments, keys, i, p);
        var hit, verdict := QueryEntry(section, inst, p);
        if hit {
          return verdict;
        }
        i := i + 1;
      }
      return None;
    }
  }

  /** The inner loop: one entry's rules in order. */
  method QueryEntry(section: Section, inst: InjectConfig, p: PodInfo) returns (hit: bool, r: Option<Candidate>)
    ensures hit <==> AnyHit(section, inst, p)
    ensures r == Verdict(section, inst, p)
  {
    var rules, input := RulesOf(section, inst), InputOf(p);
    var j := 0;
    while j < |rules|
      invariant 0 <= j <= |rules|
      invariant forall l :: 0 <= l < j ==> !rules[l].selector(input)
      invariant FirstMatch(Tagged(rules, inst), input) == FirstMatch(Tagged(rules[j..], inst), input)
    {
      assert Tagged(rules[j..], inst) == [Candidate(rules[j], inst)] + Tagged(rules[j..][1..], inst);
      assert rules[j..][1..] == rules[j + 1..];
      if rules[j].selector(input) {
        if rules[j].config.mode == Skip {
          return true, None;
        }
        return true, Some(Candidate(rules[j], inst));
      }
      j := j + 1;
    }
    return false, None;
  }

  lemma EntryDecides(section: Section, m: Instruments, keys: seq<string>, i: nat, p: PodInfo)
    requires i < |keys| && forall k :: k in keys ==> k in m
    ensures FirstMatch(Candidates(section, m, keys[i..]), InputOf(p)) ==
      if AnyHit(section, m[keys[i]], p) then Verdict(section, m[keys[i]], p)
      else FirstMatch(Candidates(section, m, keys[i + 1..]), InputOf(p))
  {
    assert keys[i..][1..] == keys[i + 1..];
    var inst := m[keys[i]];
    FirstMatchConcat(RulesOf(section, inst), inst, Candidates(section, m, keys[i + 1..]), InputOf(p));
  }
}
