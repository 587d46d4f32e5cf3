/**
 Admission, sweep and gauge classify the same pod. Their agreement keeps an admitted pod from being
 restarted again, and makes repeated sweeps come to rest.
 */
module Agreement {
  import opened Kube
  import opened Strings
  import opened Rules
  import opened RuleRegistry
  import opened Config
  import opened PodInfos
  import opened PodWebhook
  import opened Payload
  import opened Rollout
  import Collector

  /** The gauge state of a pod with that outcome before it is acted on; a missing version has none. */
  function GaugeStateOf(o: Outcome): Option<Collector.Status> {
    match o
    case Success => Some(Collector.PendingRestart)
    case NoMatchingSelector => Some(Collector.Unmatched)
    case AlreadyInstrumented => Some(Collector.Instrumented)
    case LDPreloadConflict => Some(Collector.Skipped)
    case NoSDKConfig => None
  }

  /** Gauge and admission counter agree on a pod exactly when it is unmatched or its image version is set. */
  lemma GaugeAgreesWithAdmission(cfg: SDKInject, match': Option<Candidate>, pod: Pod)
    ensures GaugeStateOf(Decision(cfg, match', pod)) == Some(Collector.StatusOf(cfg, match', pod))
      <==> match'.None? || Effective(cfg, match'.value).imageVersion != ""
  {
  }

  /** Without a version the webhook does nothing, yet the gauge reports a restart as pending. */
  lemma GaugeDisagreesWithoutVersion(cfg: SDKInject, c: Candidate, pod: Pod)
    requires Effective(cfg, c).imageVersion == "" && INJECT !in pod.meta.annotations && !PreloadsSomethingElse(pod)
    ensures Decision(cfg, Some(c), pod) == NoSDKConfig && Collector.StatusOf(cfg, Some(c), pod) == Collector.PendingRestart
  {
  }

  /** A targeted sweep restarts a pod for what admission would do to it, or to strip an injection nobody asks for. */
  lemma SweepAgreesWithAdmission(v: View, targets: set<RestartCriterion>, pod: Pod)
    ensures IsSelected(v, ByTargets(targets), pod) <==>
      && IsCandidate(pod) && IsTargeted(v, targets, pod) && ResolveWorkload(Info(pod.meta, v.rs)).Some?
      && (Decision(v.cfg, MatchOf(v, pod), pod) == Success || (MatchOf(v, pod).None? && IsInstrumented(pod.meta)))
  {
  }

  /** For a matched pod with a version, the three deciders say the same. */
  lemma ThreeDecidersAgree(v: View, targets: set<RestartCriterion>, pod: Pod)
    requires MatchOf(v, pod).Some? && Effective(v.cfg, MatchOf(v, pod).value).imageVersion != ""
    requires IsCandidate(pod) && IsTargeted(v, targets, pod) && ResolveWorkload(Info(pod.meta, v.rs)).Some?
    ensures Collector.StatusOf(v.cfg, MatchOf(v, pod), pod) == Collector.PendingRestart <==> Decision(v.cfg, MatchOf(v, pod), pod) == Success
    ensures Decision(v.cfg, MatchOf(v, pod), pod) == Success <==> IsSelected(v, ByTargets(targets), pod)
  {
    SweepAgreesWithAdmission(v, targets, pod);
  }

  // ---- what a match depends on

  /** Pods on which every selector answers alike have the same first match. */
  lemma {:induction false} SameHitsSameFirst(rules: seq<Rule>, inst: InjectConfig, a: MatchInput, b: MatchInput)
    requires forall i :: 0 <= i < |rules| ==> rules[i].selector(a) == rules[i].selector(b)
    ensures FirstMatch(Tagged(rules, inst), a) == FirstMatch(Tagged(rules, inst), b)
  {
    if rules != [] {
      assert Tagged(rules, inst)[1..] == Tagged(rules[1..], inst);
      assert forall i | 0 <= i < |rules| - 1 :: rules[1..][i] == rules[i + 1];
      SameHitsSameFirst(rules[1..], inst, a, b);
    }
  }

  /** Every selector of the section answers alike on both pods. */
  ghost predicate SameHits(section: Section, m: Instruments, p: PodInfo, q: PodInfo) {
    forall k, i :: k in m && 0 <= i < |RulesOf(section, m[k])| ==>
      RulesOf(section, m[k])[i].selector(InputOf(p)) == RulesOf(section, m[k])[i].selector(InputOf(q))
  }

  lemma SameHitsSameVerdict(section: Section, m: Instruments, k: string, p: PodInfo, q: PodInfo)
    requires SameHits(section, m, p, q) && k in m
    ensures AnyHit(section, m[k], p) <==> AnyHit(section, m[k], q)
    ensures Verdict(section, m[k], p) == Verdict(section, m[k], q)
  {
    var rules := RulesOf(section, m[k]);
    assert forall i | 0 <= i < |rules| :: rules[i].selector(InputOf(p)) == rules[i].selector(InputOf(q));
    SameHitsSameFirst(rules, m[k], InputOf(p), InputOf(q));
  }

  lemma SameHitsSameMatch(section: Section, m: Instruments, p: PodInfo, q: PodInfo)
    requires SameHits(section, m, p, q)
    ensures MatchResult(section, m, p) == MatchResult(section, m, q)
  {
    forall k | k in m ensures AnyHit(section, m[k], p) <==> AnyHit(section, m[k], q) {
      SameHitsSameVerdict(section, m, k, p, q);
    }
    if exists k :: k in m && AnyHit(section, m[k], p) {
      var w := WinnerExists(section, m, p);
      assert IsWinner(section, m, q, w);
      WinnerDecides(section, m, p, w);
      WinnerDecides(section, m, q, w);
      SameHitsSameVerdict(section, m, w, p, q);
    } else {
      NoWinnerNoMatch(section, m, p);
      NoWinnerNoMatch(section, m, q);
    }
  }

  function Marked(input: MatchInput, value: string): MatchInput {
    input.(annotations := input.annotations[INJECT := value])
  }

  /** The selector does not look at the inject annotation. */
  ghost predicate IgnoresInject(r: Rule) {
    forall input: MatchInput, value: string :: r.selector(Marked(input, value)) == r.selector(input)
  }

  ghost predicate AllIgnoreInject(section: Section, m: Instruments) {
    forall k, i :: k in m && 0 <= i < |RulesOf(section, m[k])| ==> IgnoresInject(RulesOf(section, m[k])[i])
  }

  /** Annotating a pod as injected does not change which rule applies to it. */
  lemma MatchIgnoresInject(section: Section, m: Instruments, p: PodInfo, value: string)
    requires AllIgnoreInject(section, m)
    ensures MatchResult(section, m, p.(annotations := p.annotations[INJECT := value])) == MatchResult(section, m, p)
  {
    var q := p.(annotations := p.annotations[INJECT := value]);
    assert InputOf(q) == Marked(InputOf(p), value);
    forall k, i | k in m && 0 <= i < |RulesOf(section, m[k])|
      ensures RulesOf(section, m[k])[i].selector(InputOf(q)) == RulesOf(section, m[k])[i].selector(InputOf(p))
    {
      assert IgnoresInject(RulesOf(section, m[k])[i]);
    }
    SameHitsSameMatch(section, m, q, p);
  }

  // ---- the pod that is stored

  /**
   A pod on its way in: the view its admission is answered with, the registry as that admission's
   second query finds it, the pod as submitted, and the name it is stored under. Admission reads
   ReplicaSets from the API server, sweeps read them from a cache, and either may fail to find one.
   */
  datatype Submission = Submission(at: View, later: Instruments, pod: Pod, name: string)

  ghost function AdmissionMatch(s: Submission): Option<Candidate> {
    MatchOf(s.at, s.pod)
  }

  ghost function AdmissionDecision(s: Submission): Outcome {
    Decision(s.at.cfg, AdmissionMatch(s), s.pod)
  }

  /** The pod as the webhook returns it. */
  ghost function Returned(s: Submission): Pod {
    Admitted(s.at.instruments, s.later, s.at.cfg, s.at.rs, s.pod)
  }

  function Named(pod: Pod, name: string): Pod {
    pod.(meta := pod.meta.(name := name))
  }

  /** The pod as it is stored: one created from a name prefix is only named after admission. */
  ghost function Stored(s: Submission): Pod {
    Named(Returned(s), s.name)
  }

  /** A later sweep gets the match that admission got. */
  ghost predicate SameAnswer(s: Submission, v: View) {
    MatchOf(v, Stored(s)) == AdmissionMatch(s)
  }

  lemma StoredForm(s: Submission)
    ensures AdmissionDecision(s) == Success ==>
      && AdmissionMatch(s).Some?
      && Stored(s).meta == Annotated(s.pod.meta, WantedHash(s.at.cfg, AdmissionMatch(s).value)).(name := s.name)
      && !PreloadsSomethingElse(Stored(s))
    ensures AdmissionDecision(s) != Success ==> Stored(s) == Named(s.pod, s.name)
  {
    if AdmissionDecision(s) == Success {
      SuccessfulAdmission(s.at.instruments, s.later, s.at.cfg, s.at.rs, s.pod);
      RenamingKeepsPreloads(Returned(s), s.name);
    }
  }

  lemma RenamingKeepsPreloads(pod: Pod, name: string)
    ensures PreloadsSomethingElse(Named(pod, name)) <==> PreloadsSomethingElse(pod)
  {
  }

  // ---- selectors that answer alike

  /** The chain with the pod's own link renamed. */
  function Renamed(chain: seq<Owner>, name: string): seq<Owner> {
    if chain != [] && chain[0].kind == "Pod" then [Owner("Pod", name)] + chain[1..] else chain
  }

  /** The selector does not look at the name of the pod itself. */
  ghost predicate IgnoresPodName(r: Rule) {
    forall input: MatchInput, name: string :: r.selector(input.(chain := Renamed(input.chain, name))) == r.selector(input)
  }

  ghost predicate AllIgnorePodName(section: Section, m: Instruments) {
    forall k, i :: k in m && 0 <= i < |RulesOf(section, m[k])| ==> IgnoresPodName(RulesOf(section, m[k])[i])
  }

  /** Both lookups resolve the pod's owners alike; only a ReplicaSet is looked up. */
  predicate LookupsAgree(meta: ObjectMeta, r1: ReplicaSets, r2: ReplicaSets) {
    match ControllerRef(meta.owners)
    case None => true
    case Some(o) => o.kind == "ReplicaSet" ==> DeploymentOf(r1, meta.namespace, o.name) == DeploymentOf(r2, meta.namespace, o.name)
  }

  /** They agree exactly if the pod gets the same chain from both. */
  lemma LookupsAgreeOnChain(meta: ObjectMeta, r1: ReplicaSets, r2: ReplicaSets)
    ensures LookupsAgree(meta, r1, r2) <==> Info(meta, r1).chain == Info(meta, r2).chain
  {
    assert |Chain(meta, r1)| >= 2 ==> Chain(meta, r1)[2..] == Chain(meta, r2)[2..] <==> LookupsAgree(meta, r1, r2);
  }

  lemma SameChain(meta: ObjectMeta, name: string, r1: ReplicaSets, r2: ReplicaSets)
    requires LookupsAgree(meta, r1, r2)
    ensures Chain(meta.(name := name), r2) == Renamed(Chain(meta, r1), name)
  {
    assert Chain(meta.(name := name), r2)[1..] == Chain(meta, r1)[1..];
  }

  lemma StoredInfo(s: Submission, rs: ReplicaSets)
    requires LookupsAgree(s.pod.meta, s.at.rs, rs)
    ensures var p, q := Info(s.pod.meta, s.at.rs), Info(Stored(s).meta, rs);
      && q.chain == Renamed(p.chain, s.name) && q.namespace == p.namespace && q.labels == p.labels
      && (q.annotations == p.annotations || q.annotations == p.annotations[INJECT := Get(q.annotations, INJECT)])
  {
    StoredForm(s);
    SameChain(s.pod.meta, s.name, s.at.rs, rs);
    hide MatchResult, Stored, Chain, Renamed, Decision, WantedHash;
    assert Stored(s).meta.owners == s.pod.meta.owners && Stored(s).meta.namespace == s.pod.meta.namespace;
    StoredChain(s.pod.meta, Stored(s).meta, s.name, rs);
  }

  lemma StoredChain(meta: ObjectMeta, stored: ObjectMeta, name: string, rs: ReplicaSets)
    requires stored.name == name && stored.owners == meta.owners && stored.namespace == meta.namespace
    ensures Chain(stored, rs) == Chain(meta.(name := name), rs)
  {
  }

  lemma BlindToBoth(r: Rule, a: MatchInput, b: MatchInput, name: string)
    requires IgnoresInject(r) && IgnoresPodName(r)
    requires b.chain == Renamed(a.chain, name) && b.namespace == a.namespace && b.labels == a.labels
    requires b.annotations == a.annotations || b.annotations == a.annotations[INJECT := Get(b.annotations, INJECT)]
    ensures r.selector(b) == r.selector(a)
  {
    var named := a.(chain := Renamed(a.chain, name));
    assert r.selector(named) == r.selector(a);
    if b.annotations != a.annotations {
      assert b == Marked(named, Get(b.annotations, INJECT));
    } else {
      assert b == named;
    }
  }

  /**
   Selectors that look neither at the inject annotation nor at the pod's own name answer a sweep as
   they answered admission, provided both find the same Deployment above the pod.
   */
  lemma BlindSelectorsAnswerAlike(s: Submission, v: View)
    requires v.instruments == s.at.instruments && LookupsAgree(s.pod.meta, s.at.rs, v.rs)
    requires AllIgnoreInject(SdkRules, v.instruments) && AllIgnorePodName(SdkRules, v.instruments)
    ensures SameAnswer(s, v)
  {
    var p, q := Info(s.pod.meta, s.at.rs), Info(Stored(s).meta, v.rs);
    StoredInfo(s, v.rs);
    hide Stored, Info;
    forall k, i | k in v.instruments && 0 <= i < |RulesOf(SdkRules, v.instruments[k])|
      ensures RulesOf(SdkRules, v.instruments[k])[i].selector(InputOf(q)) == RulesOf(SdkRules, v.instruments[k])[i].selector(InputOf(p))
    {
      BlindToBoth(RulesOf(SdkRules, v.instruments[k])[i], InputOf(p), InputOf(q), s.name);
    }
    SameHitsSameMatch(SdkRules, v.instruments, q, p);
  }

  // ---- when a stored pod is restarted again

  /**
   After a successful admission the stored pod carries an injection and preloads nothing else. The
   gauge calls it instrumented exactly when its later match wants the annotation it got; a second
   admission leaves it alone exactly when that match has a version besides.
   */
  lemma AdmittedIsInstrumented(s: Submission, v: View)
    requires AdmissionDecision(s) == Success
    ensures var after, later := Stored(s), MatchOf(v, Stored(s));
      var wanted := WantedHash(s.at.cfg, AdmissionMatch(s).value);
      && IsInstrumented(after.meta)
      && !PreloadsSomethingElse(after)
      && (Collector.StatusOf(v.cfg, later, after) == Collector.Instrumented <==> later.Some? && WantedHash(v.cfg, later.value) == wanted)
      && (Decision(v.cfg, later, after) == AlreadyInstrumented <==>
          later.Some? && Effective(v.cfg, later.value).imageVersion != "" && WantedHash(v.cfg, later.value) == wanted)
      && (v.cfg == s.at.cfg && SameAnswer(s, v) ==>
          Collector.StatusOf(v.cfg, later, after) == Collector.Instrumented && Decision(v.cfg, later, after) == AlreadyInstrumented)
  {
    hide MatchResult, Admitted;
    StoredForm(s);
  }

  /** The match a sweep gets asks for something else than what admission did to the pod. */
  ghost predicate AnswersDiffer(s: Submission, v: View) {
    var at, later := AdmissionMatch(s), MatchOf(v, Stored(s));
    if AdmissionDecision(s) == Success then
      later.None? || (Effective(v.cfg, later.value).imageVersion != "" && WantedHash(v.cfg, later.value) != WantedHash(s.at.cfg, at.value))
    else if later.None? then IsInstrumented(s.pod.meta)
    else Decision(v.cfg, later, s.pod) == Success
  }

  /**
   A stored pod is stale at a sweep exactly when the sweep's match, of the pod with its name and its
   annotation, with the sweep's registry, configuration and lookups, asks for something else than
   what admission did to it.
   */
  lemma RestartLoopExactlyWhen(s: Submission, v: View)
    ensures IsStale(v, Stored(s)) <==> AnswersDiffer(s, v)
  {
    hide MatchResult, Admitted;
    StoredForm(s);
    RenamingKeepsPreloads(s.pod, s.name);
  }

  /** Under the same configuration and answer only an unmatched pod whose template already carried the annotation is stale again. */
  lemma SameAnswerLoopsExactlyWhen(s: Submission, v: View)
    requires v.cfg == s.at.cfg && SameAnswer(s, v)
    ensures IsStale(v, Stored(s)) <==> AdmissionMatch(s).None? && IsInstrumented(s.pod.meta)
  {
    hide MatchResult, Admitted, IsStale;
    RestartLoopExactlyWhen(s, v);
  }

  /** A pod from a template without the annotation is stored in a state no sweep selects, if sweeps get the answer admission got. */
  lemma NoRestartLoop(s: Submission, v: View, sweep: Sweep)
    requires INJECT !in s.pod.meta.annotations && v.cfg == s.at.cfg && SameAnswer(s, v)
    ensures !IsSelected(v, sweep, Stored(s))
  {
    SameAnswerLoopsExactlyWhen(s, v);
    StoredForm(s);
  }

  // ---- repeated sweeps come to rest

  /** The pods left after the patched workloads' pods are gone. */
  ghost function Surviving(v: View, pods: seq<Pod>, patched: set<WorkloadKey>): seq<Pod> {
    if pods == [] then []
    else
      (if ResolveWorkload(Info(pods[0].meta, v.rs)).Some? && KeyOf(v, pods[0]) in patched then [] else [pods[0]])
      + Surviving(v, pods[1..], patched)
  }

  ghost function StoreAll(arrivals: seq<Submission>): seq<Pod> {
    if arrivals == [] then [] else [Stored(arrivals[0])] + StoreAll(arrivals[1..])
  }

  /** Sweeps with this view have the configuration, and get for every new pod the answer, its admission had. */
  ghost predicate AnswersHold(v: View, arrivals: seq<Submission>) {
    forall i :: 0 <= i < |arrivals| ==> arrivals[i].at.cfg == v.cfg && SameAnswer(arrivals[i], v)
  }

  /** How many pods the sweep would still restart something for. */
  ghost function Unsettled(v: View, sweep: Sweep, pods: seq<Pod>): nat {
    if pods == [] then 0 else (if IsSelected(v, sweep, pods[0]) then 1 else 0) + Unsettled(v, sweep, pods[1..])
  }

  /** One sweep, some of whose patches succeed, followed by the rollout of the patched workloads. */
  ghost predicate Round(v: View, sweep: Sweep, before: seq<Pod>, patched: set<WorkloadKey>, arrivals: seq<Submission>, after: seq<Pod>) {
    && patched <= ToRestart(v, sweep, before)
    && (forall i :: 0 <= i < |arrivals| ==> INJECT !in arrivals[i].pod.meta.annotations)
    && after == Surviving(v, before, patched) + StoreAll(arrivals)
  }

  lemma {:induction false} UnsettledConcat(v: View, sweep: Sweep, a: seq<Pod>, b: seq<Pod>)
    ensures Unsettled(v, sweep, a + b) == Unsettled(v, sweep, a) + Unsettled(v, sweep, b)
  {
    if a == [] {
      assert a + b == b;
    } else {
      assert (a + b)[1..] == a[1..] + b;
      UnsettledConcat(v, sweep, a[1..], b);
    }
  }

  lemma {:induction false} FreshPodsAreSettled(v: View, sweep: Sweep, arrivals: seq<Submission>)
    requires AnswersHold(v, arrivals)
    requires forall i :: 0 <= i < |arrivals| ==> INJECT !in arrivals[i].pod.meta.annotations
    ensures Unsettled(v, sweep, StoreAll(arrivals)) == 0
  {
    hide Stored, IsSelected, MatchResult;
    if arrivals != [] {
      assert forall i | 0 <= i < |arrivals| - 1 :: arrivals[1..][i] == arrivals[i + 1];
      FreshPodsAreSettled(v, sweep, arrivals[1..]);
      NoRestartLoop(arrivals[0], v, sweep);
      assert StoreAll(arrivals)[1..] == StoreAll(arrivals[1..]);
    }
  }

  /** Every selected pod of a patched workload leaves; nothing else changes the count. */
  lemma {:induction false} SurvivorsAreFewer(v: View, sweep: Sweep, pods: seq<Pod>, patched: set<WorkloadKey>)
    ensures Unsettled(v, sweep, Surviving(v, pods, patched)) <= Unsettled(v, sweep, pods)
    ensures (exists p :: p in pods && IsSelected(v, sweep, p) && KeyOf(v, p) in patched) ==>
      Unsettled(v, sweep, Surviving(v, pods, patched)) < Unsettled(v, sweep, pods)
    ensures (forall p :: p in pods && IsSelected(v, sweep, p) ==> KeyOf(v, p) in patched) ==>
      Unsettled(v, sweep, Surviving(v, pods, patched)) == 0
  {
    if pods != [] {
      SurvivorsAreFewer(v, sweep, pods[1..], patched);
      var rest := Surviving(v, pods[1..], patched);
      if ResolveWorkload(Info(pods[0].meta, v.rs)).Some? && KeyOf(v, pods[0]) in patched {
        assert Surviving(v, pods, patched) == rest;
      } else {
        assert Surviving(v, pods, patched) == [pods[0]] + rest;
        assert ([pods[0]] + rest)[1..] == rest;
      }
      assert forall p :: p in pods <==> p == pods[0] || p in pods[1..];
    }
  }

  /** A round that patches anything leaves strictly fewer unsettled pods; one that patches everything leaves none. */
  lemma RoundSettles(v: View, sweep: Sweep, before: seq<Pod>, patched: set<WorkloadKey>, arrivals: seq<Submission>, after: seq<Pod>)
    requires Round(v, sweep, before, patched, arrivals, after) && AnswersHold(v, arrivals)
    ensures Unsettled(v, sweep, after) <= Unsettled(v, sweep, before)
    ensures patched != {} ==> Unsettled(v, sweep, after) < Unsettled(v, sweep, before)
    ensures patched == ToRestart(v, sweep, before) ==> Unsettled(v, sweep, after) == 0
  {
    SurvivorsAreFewer(v, sweep, before, patched);
    FreshPodsAreSettled(v, sweep, arrivals);
    UnsettledConcat(v, sweep, Surviving(v, before, patched), StoreAll(arrivals));
    if patched != {} {
      var k :| k in patched;
      assert k in ToRestart(v, sweep, before);
    }
    if patched == ToRestart(v, sweep, before) {
      assert forall p | p in before && IsSelected(v, sweep, p) :: KeyOf(v, p) in ToRestart(v, sweep, before);
    }
  }

  /** Nothing is left to restart exactly when no pod is unsettled. */
  lemma {:induction false} SettledMeansNothingToDo(v: View, sweep: Sweep, pods: seq<Pod>)
    ensures Unsettled(v, sweep, pods) == 0 <==> ToRestart(v, sweep, pods) == {}
  {
    if pods != [] {
      SettledMeansNothingToDo(v, sweep, pods[1..]);
      assert forall p :: p in pods <==> p == pods[0] || p in pods[1..];
      if IsSelected(v, sweep, pods[0]) {
        assert KeyOf(v, pods[0]) in ToRestart(v, sweep, pods);
      } else {
        assert ToRestart(v, sweep, pods) == ToRestart(v, sweep, pods[1..]);
      }
    }
  }

  /** One round of a run, with the view its sweep decides with. */
  datatype RoundRecord = RoundRecord(view: View, patched: set<WorkloadKey>, arrivals: seq<Submission>, after: seq<Pod>)

  /** A run of rounds, each of which patches something. */
  ghost predicate Run(sweep: Sweep, start: seq<Pod>, rounds: seq<RoundRecord>)
    decreases |rounds|
  {
    rounds == [] || (
      && rounds[0].patched != {}
      && Round(rounds[0].view, sweep, start, rounds[0].patched, rounds[0].arrivals, rounds[0].after)
      && Run(sweep, rounds[0].after, rounds[1..]))
  }

  /** Two sweeps with the same registry and configuration, which resolve the owners of these pods alike. */
  ghost predicate AreSteady(v: View, w: View, pods: seq<Pod>) {
    && v.instruments == w.instruments && v.cfg == w.cfg
    && forall i :: 0 <= i < |pods| ==> LookupsAgree(pods[i].meta, v.rs, w.rs)
  }

  lemma {:induction false} SteadyCount(v: View, w: View, sweep: Sweep, pods: seq<Pod>)
    requires AreSteady(v, w, pods)
    ensures Unsettled(v, sweep, pods) == Unsettled(w, sweep, pods)
  {
    if pods != [] {
      SameSelectionIn(v, w, sweep, pods[0]);
      hide IsSelected, LookupsAgree;
      assert forall i | 0 <= i < |pods| - 1 :: pods[1..][i] == pods[i + 1];
      SteadyCount(v, w, sweep, pods[1..]);
    }
  }

  lemma SameSelectionIn(v: View, w: View, sweep: Sweep, p: Pod)
    requires v.instruments == w.instruments && v.cfg == w.cfg && LookupsAgree(p.meta, v.rs, w.rs)
    ensures IsSelected(v, sweep, p) <==> IsSelected(w, sweep, p)
  {
    assert Info(p.meta, v.rs) == Info(p.meta, w.rs);
    hide Info, MatchResult;
  }

  /** Sweeping and rolling out stops by itself: no run is longer than the unsettled pods it starts with. */
  lemma {:induction false} SweepsComeToRest(sweep: Sweep, start: seq<Pod>, rounds: seq<RoundRecord>)
    requires Run(sweep, start, rounds)
    requires forall i :: 0 <= i < |rounds| ==> AnswersHold(rounds[i].view, rounds[i].arrivals)
    requires forall i :: 0 < i < |rounds| ==> AreSteady(rounds[i - 1].view, rounds[i].view, rounds[i - 1].after)
    ensures rounds != [] ==> |rounds| <= Unsettled(rounds[0].view, sweep, start)
    decreases |rounds|
  {
    hide AnswersHold, AreSteady, Round;
    if rounds != [] {
      var r := rounds[0];
      RoundSettles(r.view, sweep, start, r.patched, r.arrivals, r.after);
      assert forall i | 0 <= i < |rounds| - 1 :: rounds[1..][i] == rounds[i + 1];
      SweepsComeToRest(sweep, r.after, rounds[1..]);
      if |rounds| > 1 {
        assert rounds[1..][0] == rounds[1];
        assert AreSteady(rounds[1 - 1].view, rounds[1].view, rounds[1 - 1].after);
        SteadyCount(r.view, rounds[1].view, sweep, r.after);
      }
    }
  }

  // ---- pods that are selected again

  lemma SoleSurvivor(v: View, p: Pod)
    requires ResolveWorkload(Info(p.meta, v.rs)).Some?
    ensures Surviving(v, [p], {KeyOf(v, p)}) == []
  {
    hide Info, ResolveWorkload, KeyOf;
    assert [p][1..] == [];
    assert Surviving(v, [p], {KeyOf(v, p)}) == [] + Surviving(v, [], {KeyOf(v, p)});
  }

  lemma SoleArrival(s: Submission)
    ensures StoreAll([s]) == [Stored(s)]
  {
    hide Stored;
    assert [s][1..] == [];
    assert StoreAll([s]) == [Stored(s)] + StoreAll([]);
  }

  lemma SoleRestart(v: View, sweep: Sweep, p: Pod)
    requires IsSelected(v, sweep, p)
    ensures KeyOf(v, p) in ToRestart(v, sweep, [p])
  {
    hide IsSelected, KeyOf;
    assert p in [p];
  }

  lemma SelectedHasWorkload(v: View, sweep: Sweep, p: Pod)
    requires IsSelected(v, sweep, p)
    ensures ResolveWorkload(Info(p.meta, v.rs)).Some?
  {
    hide MatchResult, Info, ResolveWorkload;
  }

  /** A selected pod that is replaced by another one of an unannotated template is one round. */
  lemma Replacement(v: View, sweep: Sweep, was: Submission, next: Submission)
    requires INJECT !in next.pod.meta.annotations && IsSelected(v, sweep, Stored(was))
    ensures Round(v, sweep, [Stored(was)], {KeyOf(v, Stored(was))}, [next], [Stored(next)])
  {
    hide MatchResult, Stored, IsSelected, KeyOf, Surviving, StoreAll, ToRestart, Info, ResolveWorkload;
    var p := Stored(was);
    SelectedHasWorkload(v, sweep, p);
    SoleSurvivor(v, p);
    SoleArrival(next);
    SoleRestart(v, sweep, p);
  }

  /** Submissions that are each selected once stored make a run in which each replaces the one before. */
  lemma {:induction false} ReplacedForEver(v: View, sweep: Sweep, subs: seq<Submission>) returns (rounds: seq<RoundRecord>)
    requires subs != []
    requires forall i :: 0 <= i < |subs| ==> INJECT !in subs[i].pod.meta.annotations && IsSelected(v, sweep, Stored(subs[i]))
    ensures |rounds| == |subs| - 1 && Run(sweep, [Stored(subs[0])], rounds)
    ensures forall i :: 0 <= i < |rounds| ==> rounds[i].view == v && rounds[i].arrivals == [subs[i + 1]]
    decreases |subs|
  {
    hide IsSelected, Stored, KeyOf, Round;
    rounds := [];
    if |subs| > 1 {
      assert forall i | 0 <= i < |subs| - 1 :: subs[1..][i] == subs[i + 1];
      var rest := ReplacedForEver(v, sweep, subs[1..]);
      Replacement(v, sweep, subs[0], subs[1]);
      rounds := [RoundRecord(v, {KeyOf(v, Stored(subs[0]))}, [subs[1]], [Stored(subs[1])])] + rest;
      assert rounds[1..] == rest;
    }
  }

  function Published(rule: Rule): Instruments {
    map["injector/node-a" := InjectConfig("1.0", [rule], false, [])]
  }

  /** With one published rule a pod's match is that rule, if it selects the pod. */
  lemma SoleRuleDecides(rule: Rule, p: PodInfo)
    requires rule.config.mode != Skip
    ensures MatchResult(SdkRules, Published(rule), p)
      == if rule.selector(InputOf(p)) then Some(Candidate(rule, Published(rule)["injector/node-a"])) else None
  {
    var m, key := Published(rule), "injector/node-a";
    assert RulesOf(SdkRules, m[key])[0] == rule;
    if rule.selector(InputOf(p)) {
      assert IsWinner(SdkRules, m, p, key);
      WinnerDecides(SdkRules, m, p, key);
      assert Tagged(m[key].rules, m[key])[0] == Candidate(rule, m[key]);
    } else {
      NoWinnerNoMatch(SdkRules, m, p);
    }
  }

  /** A pod that runs nothing yet, submitted without a name. */
  function Template(owner: OwnerRef): Pod {
    Pod(ObjectMeta("", "shop", map[], map[], [owner], false), "", [], [], [])
  }

  /** A rule that misses the template at admission and selects the pod at the sweep: the pod is stored unchanged and stale. */
  lemma MissedThenSelected(cfg: SDKInject, rule: Rule, s: Submission, v: View)
    requires rule.config.mode != Skip && v.cfg == cfg && v.instruments == Published(rule)
    requires s.at.instruments == Published(rule) && s.pod.meta.annotations == map[] && s.pod.containers == [] && s.pod.initContainers == []
    requires !rule.selector(InputOf(Info(s.pod.meta, s.at.rs)))
    requires rule.selector(InputOf(Info(Named(s.pod, s.name).meta, v.rs)))
    ensures AdmissionMatch(s) == None && Stored(s) == Named(s.pod, s.name) && IsStale(v, Stored(s))
  {
    SoleRuleDecides(rule, Info(s.pod.meta, s.at.rs));
    SoleRuleDecides(rule, Info(Named(s.pod, s.name).meta, v.rs));
    hide MatchResult, Info;
    StoredForm(s);
  }

  // ---- a rule on the pod's own name

  /** Selects pods by a prefix of their own name. */
  function ByPodName(prefix: string): Rule {
    Rule(
      (input: MatchInput) => input.chain != [] && input.chain[0].kind == "Pod" && prefix <= input.chain[0].name,
      RuleConfig(Install, [], 0))
  }

  const DAEMON := OwnerRef("apps/v1", "DaemonSet", "web", "u1", true)

  const DAEMON_TARGET := RestartCriterion("shop", "DaemonSet", "web", "")

  function ByNameView(cfg: SDKInject, prefix: string): View {
    View(Published(ByPodName(prefix)), cfg, map[])
  }

  function OfDaemonSet(cfg: SDKInject, prefix: string, name: string): Submission {
    Submission(ByNameView(cfg, prefix), Published(ByPodName(prefix)), Template(DAEMON), name)
  }

  lemma DaemonChain(name: string)
    ensures Chain(Named(Template(DAEMON), name).meta, map[]) == [Owner("Pod", name), Owner("DaemonSet", "web")]
  {
    assert FlaggedRef(Template(DAEMON).meta.owners) == Some(DAEMON);
  }

  lemma DaemonIsTargeted(cfg: SDKInject, prefix: string, name: string)
    ensures var v, p := ByNameView(cfg, prefix), Named(Template(DAEMON), name);
      IsCandidate(p) && IsTargeted(v, {DAEMON_TARGET}, p) && ResolveWorkload(Info(p.meta, v.rs)).Some?
  {
    DaemonChain(name);
    var info := Info(Named(Template(DAEMON), name).meta, map[]);
    assert info.chain[1].kind == "DaemonSet" && info.chain[1].name == "web";
    assert MatchesTarget(info, DAEMON_TARGET);
  }

  /** The rule misses the unnamed pod at admission and selects it once stored, although no selector looks at the annotation. */
  lemma ByNameIsSelected(cfg: SDKInject, prefix: string, name: string)
    requires prefix != "" && prefix <= name
    ensures AllIgnoreInject(SdkRules, Published(ByPodName(prefix)))
    ensures IsSelected(ByNameView(cfg, prefix), ByTargets({DAEMON_TARGET}), Stored(OfDaemonSet(cfg, prefix, name)))
  {
    ByNameIgnoresInject(prefix);
    DaemonIsTargeted(cfg, prefix, name);
    DaemonChain("");
    DaemonChain(name);
    assert Named(Template(DAEMON), "") == Template(DAEMON);
    MissedThenSelected(cfg, ByPodName(prefix), OfDaemonSet(cfg, prefix, name), ByNameView(cfg, prefix));
    hide IsStale, IsTargeted, IsCandidate, ResolveWorkload, Stored, AllIgnoreInject;
  }

  lemma ByNameIgnoresInject(prefix: string)
    ensures AllIgnoreInject(SdkRules, Published(ByPodName(prefix)))
  {
    assert forall input: MatchInput, value: string :: Marked(input, value).chain == input.chain;
    assert IgnoresInject(ByPodName(prefix));
  }

  /** With a rule on the pod's name, sweeps and rollouts of a DaemonSet never come to rest: there is a run over any names. */
  lemma ByNameRuleNeverRests(cfg: SDKInject, prefix: string, names: seq<string>) returns (rounds: seq<RoundRecord>)
    requires prefix != "" && names != [] && forall i :: 0 <= i < |names| ==> prefix <= names[i]
    ensures |rounds| == |names| - 1
    ensures Run(ByTargets({DAEMON_TARGET}), [Stored(OfDaemonSet(cfg, prefix, names[0]))], rounds)
    ensures forall i :: 0 <= i < |rounds| ==> rounds[i].view == ByNameView(cfg, prefix)
  {
    hide Stored, IsSelected, ByNameView, Run;
    var subs := seq(|names|, i requires 0 <= i < |names| => OfDaemonSet(cfg, prefix, names[i]));
    forall i | 0 <= i < |subs|
      ensures INJECT !in subs[i].pod.meta.annotations
      ensures IsSelected(ByNameView(cfg, prefix), ByTargets({DAEMON_TARGET}), Stored(subs[i]))
    {
      ByNameIsSelected(cfg, prefix, names[i]);
    }
    rounds := ReplacedForEver(ByNameView(cfg, prefix), ByTargets({DAEMON_TARGET}), subs);
  }

  // ---- a lookup that fails at admission

  /** Selects the pods of Deployment `web`. */
  function ByDeployment(): Rule {
    Rule((input: MatchInput) => Owner("Deployment", "web") in input.chain, RuleConfig(Install, [], 0))
  }

  const DEPLOYMENT_TARGET := RestartCriterion("shop", "Deployment", "web", "")

  function ReplicaSetRef(r: string): OwnerRef {
    OwnerRef("apps/v1", "ReplicaSet", r, "u2", true)
  }

  /** The cache knows these ReplicaSets of the Deployment. */
  function KnownSets(sets: set<string>): ReplicaSets {
    map r | r in sets :: ("shop", r) := [OwnerRef("apps/v1", "Deployment", "web", "u3", true)]
  }

  function CachedView(cfg: SDKInject, sets: set<string>): View {
    View(Published(ByDeployment()), cfg, KnownSets(sets))
  }

  /** A pod of ReplicaSet `r`, admitted while the ReplicaSet cannot be read. */
  function OfNewSet(cfg: SDKInject, r: string, name: string): Submission {
    Submission(View(Published(ByDeployment()), cfg, map[]), Published(ByDeployment()), Template(ReplicaSetRef(r)), name)
  }

  lemma SetChain(sets: set<string>, r: string, name: string)
    ensures var meta := Named(Template(ReplicaSetRef(r)), name).meta;
      && Chain(meta, map[]) == [Owner("Pod", name), Owner("ReplicaSet", r)]
      && (r in sets ==> Chain(meta, KnownSets(sets)) == [Owner("Pod", name), Owner("ReplicaSet", r), Owner("Deployment", "web")])
  {
    assert FlaggedRef(Template(ReplicaSetRef(r)).meta.owners) == Some(ReplicaSetRef(r));
    if r in sets {
      var refs := KnownSets(sets)[("shop", r)];
      assert FlaggedRef(refs) == Some(refs[0]);
    }
  }

  lemma ByDeploymentIsBlind()
    ensures AllIgnoreInject(SdkRules, Published(ByDeployment())) && AllIgnorePodName(SdkRules, Published(ByDeployment()))
  {
    var r := ByDeployment();
    assert forall input: MatchInput, value: string :: Marked(input, value).chain == input.chain;
    assert IgnoresInject(r);
    forall input: MatchInput, name: string ensures r.selector(input.(chain := Renamed(input.chain, name))) == r.selector(input) {
      RenamingKeepsDeployments(input.chain, name);
    }
    assert IgnoresPodName(r);
  }

  lemma RenamingKeepsDeployments(chain: seq<Owner>, name: string)
    ensures Owner("Deployment", "web") in Renamed(chain, name) <==> Owner("Deployment", "web") in chain
  {
    if chain != [] {
      assert chain == [chain[0]] + chain[1..];
    }
  }

  lemma SetIsTargeted(cfg: SDKInject, sets: set<string>, r: string, name: string)
    requires r in sets
    ensures var v, p := CachedView(cfg, sets), Named(Template(ReplicaSetRef(r)), name);
      IsCandidate(p) && IsTargeted(v, {DEPLOYMENT_TARGET}, p) && ResolveWorkload(Info(p.meta, v.rs)).Some?
  {
    SetChain(sets, r, name);
    var info := Info(Named(Template(ReplicaSetRef(r)), name).meta, KnownSets(sets));
    assert info.chain[2].kind == "Deployment" && info.chain[2].name == "web";
    assert MatchesTarget(info, DEPLOYMENT_TARGET);
  }

  /**
   Selectors that look neither at the annotation nor at the pod's name do not help when the lookup
   of the pod's ReplicaSet fails at admission: the rule on its Deployment then misses the pod, which is
   stored unchanged and selected by the next sweep.
   */
  lemma LateLookupIsSelected(cfg: SDKInject, sets: set<string>, r: string, name: string)
    requires r in sets
    ensures AllIgnoreInject(SdkRules, Published(ByDeployment())) && AllIgnorePodName(SdkRules, Published(ByDeployment()))
    ensures var s := OfNewSet(cfg, r, name);
      && Stored(s) == Named(s.pod, name)
      && !LookupsAgree(s.pod.meta, s.at.rs, CachedView(cfg, sets).rs)
      && IsSelected(CachedView(cfg, sets), ByTargets({DEPLOYMENT_TARGET}), Stored(s))
  {
    ByDeploymentIsBlind();
    SetIsTargeted(cfg, sets, r, name);
    SetLookupFails(cfg, sets, r, name);
    SetIsStale(cfg, sets, r, name);
    hide IsStale, IsTargeted, IsCandidate, ResolveWorkload, Stored, AllIgnoreInject, AllIgnorePodName;
  }

  lemma SetLookupFails(cfg: SDKInject, sets: set<string>, r: string, name: string)
    requires r in sets
    ensures !LookupsAgree(OfNewSet(cfg, r, name).pod.meta, map[], KnownSets(sets))
  {
    assert FlaggedRef(Template(ReplicaSetRef(r)).meta.owners) == Some(ReplicaSetRef(r));
    var refs := KnownSets(sets)[("shop", r)];
    assert FlaggedRef(refs) == Some(refs[0]);
  }

  lemma SetIsStale(cfg: SDKInject, sets: set<string>, r: string, name: string)
    requires r in sets
    ensures Stored(OfNewSet(cfg, r, name)) == Named(Template(ReplicaSetRef(r)), name)
    ensures IsStale(CachedView(cfg, sets), Stored(OfNewSet(cfg, r, name)))
  {
    SetChain(sets, r, "");
    SetChain(sets, r, name);
    assert Named(Template(ReplicaSetRef(r)), "") == Template(ReplicaSetRef(r));
    var chain := [Owner("Pod", name), Owner("ReplicaSet", r), Owner("Deployment", "web")];
    assert chain[2] in chain;
    MissedThenSelected(cfg, ByDeployment(), OfNewSet(cfg, r, name), CachedView(cfg, sets));
  }

  /** If the lookup fails at every admission the rollouts never come to rest: there is a run over any new ReplicaSets. */
  lemma LateLookupsNeverRest(cfg: SDKInject, sets: seq<string>, name: string) returns (rounds: seq<RoundRecord>)
    requires sets != []
    ensures |rounds| == |sets| - 1
    ensures Run(ByTargets({DEPLOYMENT_TARGET}), [Stored(OfNewSet(cfg, sets[0], name))], rounds)
    ensures forall i :: 0 <= i < |rounds| ==> rounds[i].view == CachedView(cfg, Elements(sets))
  {
    hide Stored, IsSelected, CachedView, Run;
    var subs := seq(|sets|, i requires 0 <= i < |sets| => OfNewSet(cfg, sets[i], name));
    forall i | 0 <= i < |subs|
      ensures INJECT !in subs[i].pod.meta.annotations
      ensures IsSelected(CachedView(cfg, Elements(sets)), ByTargets({DEPLOYMENT_TARGET}), Stored(subs[i]))
    {
      assert sets[i] in Elements(sets);
      LateLookupIsSelected(cfg, Elements(sets), sets[i], name);
    }
    rounds := ReplacedForEver(CachedView(cfg, Elements(sets)), ByTargets({DEPLOYMENT_TARGET}), subs);
  }
}
