/** What admission, sweeps and the gauge look at, over the fields of the pod and the objects around it. */
module SweepTerms {
  import opened Kube
  import opened Strings
  import opened Rules
  import opened RuleRegistry
  import opened Config
  import opened PodInfos
  import opened PodWebhook
  import opened Payload
  import opened Rollout
  import Collector
  import Fnv
  import EnvList

  // ---- what is read off a pod

  /** The first entry called LD_PRELOAD is neither empty nor the injector's library. */
  predicate HasForeignPreload(c: Container) {
    exists i ::
      && 0 <= i < |c.env| && c.env[i].name == "LD_PRELOAD" && (forall j :: 0 <= j < i ==> c.env[j].name != "LD_PRELOAD")
      && c.env[i].value != ""
      && c.env[i].value != "/__otel_sdk_auto_instrumentation__/dist/injector/libotelinject.so"
  }

  lemma PreloadIsFirstEntry(c: Container)
    ensures IsPreloadConflict(c) <==> HasForeignPreload(c)
  {
    var i := EnvList.IndexOf(c.env, "LD_PRELOAD");
    forall k | 0 <= k < |c.env| && c.env[k].name == "LD_PRELOAD" && (forall j :: 0 <= j < k ==> c.env[j].name != "LD_PRELOAD")
      ensures k == i
    {
      assert !(k < i) && !(i < k);
    }
  }

  /** A pod has a foreign preload if one of its containers or init containers does. */
  lemma ForeignPreloadExactly(pod: Pod)
    ensures PreloadsSomethingElse(pod) <==>
      (exists c :: c in pod.containers && HasForeignPreload(c)) || (exists c :: c in pod.initContainers && HasForeignPreload(c))
  {
    forall c ensures IsPreloadConflict(c) <==> HasForeignPreload(c) {
      PreloadIsFirstEntry(c);
    }
    assert forall i | 0 <= i < |pod.containers| :: pod.containers[i] in pod.containers;
    assert forall i | 0 <= i < |pod.initContainers| :: pod.initContainers[i] in pod.initContainers;
  }

  /** The pod carries any injection, or the one with this annotation. */
  lemma InjectionIsAnnotation(meta: ObjectMeta, hash: string)
    ensures IsInstrumented(meta) <==> "beyla.grafana.com/inject" in meta.annotations && meta.annotations["beyla.grafana.com/inject"] != ""
    ensures IsInstrumentedWithWantedConfig(meta, hash) <==>
      "beyla.grafana.com/inject" in meta.annotations && meta.annotations["beyla.grafana.com/inject"] == hash
  {
  }

  /** The image version a match is injected with. */
  function VersionOf(cfg: SDKInject, c: Candidate): string {
    if c.config.imageVersion != "" then c.config.imageVersion else cfg.imageVersion
  }

  /** The annotation a match asks for. */
  function AnnotationOf(cfg: SDKInject, c: Candidate): string {
    Fnv.Base32(Fnv.Fold(c.rule.config.digest, Bytes(cfg.imageRoot + ":" + VersionOf(cfg, c))))
  }

  lemma WantedIsAnnotation(cfg: SDKInject, c: Candidate)
    ensures WantedHash(cfg, c) == AnnotationOf(cfg, c) && Effective(cfg, c) == cfg.(imageVersion := VersionOf(cfg, c))
  {
    HashOfFields(Effective(cfg, c), c.rule.config.digest);
  }

  predicate Carries(meta: ObjectMeta, annotation: string) {
    "beyla.grafana.com/inject" in meta.annotations && meta.annotations["beyla.grafana.com/inject"] == annotation
  }

  /** Each admission outcome, by match, version, annotation and preloads. */
  lemma DecisionExactly(cfg: SDKInject, hit: Option<Candidate>, pod: Pod)
    ensures Decision(cfg, hit, pod) == NoMatchingSelector <==> hit.None?
    ensures Decision(cfg, hit, pod) == NoSDKConfig <==> hit.Some? && VersionOf(cfg, hit.value) == ""
    ensures Decision(cfg, hit, pod) == AlreadyInstrumented <==>
      hit.Some? && VersionOf(cfg, hit.value) != "" && Carries(pod.meta, AnnotationOf(cfg, hit.value))
    ensures Decision(cfg, hit, pod) == LDPreloadConflict <==>
      && hit.Some? && VersionOf(cfg, hit.value) != "" && !Carries(pod.meta, AnnotationOf(cfg, hit.value))
      && ((exists c :: c in pod.containers && HasForeignPreload(c)) || exists c :: c in pod.initContainers && HasForeignPreload(c))
  {
    hide PreloadsSomethingElse, WantedHash, AnnotationOf, HasForeignPreload;
    ForeignPreloadExactly(pod);
    if hit.Some? {
      WantedIsAnnotation(cfg, hit.value);
    }
  }

  // ---- which workloads a sweep restarts

  /** Some link of the chain has the target's kind and, if the target has one, its name. */
  predicate IsUnder(chain: seq<Owner>, t: RestartCriterion) {
    exists i :: 0 <= i < |chain| && chain[i].kind == t.kind && (t.name == "" || chain[i].name == t.name)
  }

  /** The namespaces no sweep touches. */
  predicate IsProtected(namespace: string) {
    namespace in {
      "kube-system", "kube-public", "kube-node-lease",
      "cert-manager", "monitoring", "local-path-storage", "grafana-alloy",
      "gke-connect", "gke-gmp-system", "gke-managed-cim", "gke-managed-filestorecsi", "gke-managed-metrics-server",
      "gke-managed-system", "gke-system", "gke-managed-volumepopulator", "gatekeeper-system", "beyla-k8s-injector"}
  }

  /** Live, owned, and in no protected namespace. */
  predicate MayBeRestarted(pod: Pod) {
    && !pod.meta.terminating && |pod.meta.owners| > 0
    && !IsProtected(pod.meta.namespace)
  }

  predicate IsInjected(pod: Pod) {
    "beyla.grafana.com/inject" in pod.meta.annotations && pod.meta.annotations["beyla.grafana.com/inject"] != ""
  }

  predicate HasPreloads(pod: Pod) {
    (exists c :: c in pod.containers && HasForeignPreload(c)) || exists c :: c in pod.initContainers && HasForeignPreload(c)
  }

  /** The pod should lose its injection, or get one it does not have and can take. */
  predicate NeedsRestart(cfg: SDKInject, hit: Option<Candidate>, pod: Pod) {
    if hit.None? then IsInjected(pod)
    else VersionOf(cfg, hit.value) != "" && !Carries(pod.meta, AnnotationOf(cfg, hit.value)) && !HasPreloads(pod)
  }

  /** Why a workload is restarted by a sweep for targets. */
  ghost predicate IsReason(v: View, targets: set<RestartCriterion>, p: Pod, k: WorkloadKey) {
    && MayBeRestarted(p)
    && (exists t :: t in targets && t.namespace == p.meta.namespace && IsUnder(Info(p.meta, v.rs).chain, t))
    && NeedsRestart(v.cfg, MatchResult(SdkRules, v.instruments, Info(p.meta, v.rs)), p)
    && IsOwnedBy(Info(p.meta, v.rs), k)
  }

  /** Why a workload is restarted by a cleanup. */
  ghost predicate IsCleanupReason(v: View, p: Pod, k: WorkloadKey) {
    && MayBeRestarted(p) && IsInjected(p)
    && MatchResult(SdkRules, v.instruments, Info(p.meta, v.rs)) == None
    && IsOwnedBy(Info(p.meta, v.rs), k)
  }

  lemma StaleExactly(v: View, p: Pod)
    ensures IsStale(v, p) <==> NeedsRestart(v.cfg, MatchResult(SdkRules, v.instruments, Info(p.meta, v.rs)), p)
  {
    hide MatchResult, PreloadsSomethingElse, HasForeignPreload, WantedHash, AnnotationOf;
    ForeignPreloadExactly(p);
    if MatchOf(v, p).Some? {
      WantedIsAnnotation(v.cfg, MatchOf(v, p).value);
    }
  }

  lemma TargetedExactly(v: View, targets: set<RestartCriterion>, p: Pod)
    ensures IsTargeted(v, targets, p) <==>
      exists t :: t in targets && t.namespace == p.meta.namespace && IsUnder(Info(p.meta, v.rs).chain, t)
  {
    hide Info;
    assert forall t :: MatchesTarget(Info(p.meta, v.rs), t) <==> IsUnder(Info(p.meta, v.rs).chain, t);
  }

  lemma SelectedExactly(v: View, sweep: Sweep, p: Pod, k: WorkloadKey)
    ensures IsSelected(v, sweep, p) && KeyOf(v, p) == k <==>
      match sweep
      case ByTargets(targets) => IsReason(v, targets, p, k)
      case Cleanup => IsCleanupReason(v, p, k)
  {
    WorkloadIsTopmost(Info(p.meta, v.rs), k);
    StaleExactly(v, p);
    if sweep.ByTargets? {
      TargetedExactly(v, sweep.targets, p);
    }
    assert IsCandidate(p) <==> MayBeRestarted(p);
    hide MatchResult, Info, IsStale, NeedsRestart, IsTargeted, IsUnder, ResolveWorkload, IsTopRollable, MayBeRestarted, IsCandidate;
  }

  /**
   A sweep for targets restarts a workload exactly if some listed pod gives a reason: live, owned,
   unprotected, under a target of its namespace, needing a restart, and with that workload on top.
   */
  lemma RestartedExactly(v: View, targets: set<RestartCriterion>, pods: seq<Pod>, k: WorkloadKey)
    ensures k in ToRestart(v, ByTargets(targets), pods) <==> exists p :: p in pods && IsReason(v, targets, p, k)
  {
    hide IsSelected, KeyOf, IsReason;
    forall p ensures IsSelected(v, ByTargets(targets), p) && KeyOf(v, p) == k <==> IsReason(v, targets, p, k) {
      SelectedExactly(v, ByTargets(targets), p, k);
    }
  }

  /** A cleanup restarts a workload exactly if some listed pod is injected though no rule matches it. */
  lemma CleanedUpExactly(v: View, pods: seq<Pod>, k: WorkloadKey)
    ensures k in ToRestart(v, Cleanup, pods) <==> exists p :: p in pods && IsCleanupReason(v, p, k)
  {
    hide IsSelected, KeyOf, IsCleanupReason;
    forall p ensures IsSelected(v, Cleanup, p) && KeyOf(v, p) == k <==> IsCleanupReason(v, p, k) {
      SelectedExactly(v, Cleanup, p, k);
    }
  }

  /** A cleanup needs one list over all namespaces; a sweep for targets one in each unprotected namespace they name. */
  lemma FailsToListExactly(api: Api, targets: set<RestartCriterion>)
    ensures ListFails(api, targets, true) <==> api.listAllFails
    ensures ListFails(api, targets, false) <==> exists t :: t in targets && t.namespace in api.listFailsIn && !IsProtected(t.namespace)
  {
  }

  // ---- the gauge

  /** Which pods a scrape counts. */
  predicate IsScraped(pod: Pod) {
    !pod.meta.terminating && pod.meta.namespace !in {"kube-system", "kube-node-lease", "kube-public"}
  }

  /** Each gauge state, by match, annotation and preloads. */
  lemma StatusExactly(cfg: SDKInject, hit: Option<Candidate>, pod: Pod)
    ensures Collector.StatusOf(cfg, hit, pod) == Collector.Unmatched <==> hit.None?
    ensures Collector.StatusOf(cfg, hit, pod) == Collector.Instrumented <==> hit.Some? && Carries(pod.meta, AnnotationOf(cfg, hit.value))
    ensures Collector.StatusOf(cfg, hit, pod) == Collector.Skipped <==>
      hit.Some? && !Carries(pod.meta, AnnotationOf(cfg, hit.value)) && HasPreloads(pod)
  {
    hide PreloadsSomethingElse, WantedHash, AnnotationOf, HasForeignPreload;
    ForeignPreloadExactly(pod);
    if hit.Some? {
      WantedIsAnnotation(cfg, hit.value);
    }
  }

  /** The labels a pod is counted under. */
  lemma LabelsExactly(m: Instruments, cfg: SDKInject, rs: ReplicaSets, pod: Pod)
    ensures var l, info := Collector.LabelsOf(m, cfg, rs, pod), Info(pod.meta, rs);
      && l.namespace == pod.meta.namespace && l.nodeName == pod.nodeName
      && info.chain != [] && l.workload == info.chain[|info.chain| - 1]
      && l.status == Collector.StatusOf(cfg, MatchResult(SdkRules, m, info), pod)
  {
    hide MatchResult;
  }

  /** The positions in the list of the pods that satisfy `f`. */
  ghost function Positions(pods: seq<Pod>, f: Pod -> bool): set<int> {
    set i | 0 <= i < |pods| && f(pods[i])
  }

  lemma OneMorePosition(pods: seq<Pod>, f: Pod -> bool)
    requires pods != []
    ensures |Positions(pods, f)| == |Positions(pods[..|pods| - 1], f)| + if f(pods[|pods| - 1]) then 1 else 0
  {
    var n := |pods| - 1;
    var before := Positions(pods[..n], f);
    assert n !in before;
    assert forall i | 0 <= i < n :: pods[..n][i] == pods[i];
    assert Positions(pods, f) == before + if f(pods[n]) then {n} else {};
  }

  /** The gauge counts every scraped pod of the list once, under its own labels. */
  lemma {:induction false} CountedExactly(m: Instruments, cfg: SDKInject, rs: ReplicaSets, pods: seq<Pod>, l: Collector.LabelTuple)
    ensures multiset(Collector.CountedLabels(m, cfg, rs, pods))[l]
      == |Positions(pods, p => IsScraped(p) && Collector.LabelsOf(m, cfg, rs, p) == l)|
    ensures |Collector.CountedLabels(m, cfg, rs, pods)| == |Positions(pods, p => IsScraped(p))|
  {
    hide Collector.LabelsOf, IsScraped;
    var under := p => IsScraped(p) && Collector.LabelsOf(m, cfg, rs, p) == l;
    var all := p => IsScraped(p);
    if pods == [] {
      assert Positions(pods, under) == {} && Positions(pods, all) == {};
    } else {
      var n := |pods| - 1;
      CountedExactly(m, cfg, rs, pods[..n], l);
      OneMorePosition(pods, under);
      OneMorePosition(pods, all);
      ScrapedIsCounted(pods[n]);
      hide Positions, Collector.IsCounted;
    }
  }

  lemma ScrapedIsCounted(pod: Pod)
    ensures Collector.IsCounted(pod) <==> IsScraped(pod)
  {
  }
}
