/** Which workloads one sweep restarts. */
module Rollout {
  import opened Kube
  import opened Strings
  import opened Rules
  import opened RuleRegistry
  import opened Config
  import opened PodInfos
  import opened PodWebhook
  import opened Payload

  /** Namespaces a sweep never touches. */
  const PROTECTED: set<string> := {
    "kube-system", "kube-public", "kube-node-lease",
    "cert-manager", "monitoring", "local-path-storage", "grafana-alloy",
    "gke-connect", "gke-gmp-system", "gke-managed-cim", "gke-managed-filestorecsi", "gke-managed-metrics-server",
    "gke-managed-system", "gke-system", "gke-managed-volumepopulator",
    "gatekeeper-system", "beyla-k8s-injector"}

  datatype WorkloadKey = WorkloadKey(namespace: string, kind: string, name: string)

  predicate IsRollable(kind: string) {
    kind == "Deployment" || kind == "StatefulSet" || kind == "DaemonSet"
  }

  /** The top-most owner that can be rolled out, walking the chain from its end. */
  function WorkloadIn(namespace: string, chain: seq<Owner>): Option<WorkloadKey> {
    if chain == [] then None
    else
      var top := chain[|chain| - 1];
      if IsRollable(top.kind) then Some(WorkloadKey(namespace, top.kind, top.name))
      else WorkloadIn(namespace, chain[..|chain| - 1])
  }

  function ResolveWorkload(info: PodInfo): Option<WorkloadKey> {
    WorkloadIn(info.namespace, info.chain)
  }

  /** Link `i` of the chain can be rolled out, and no link above it can. */
  predicate IsTopRollable(chain: seq<Owner>, i: int) {
    && 0 <= i < |chain| && chain[i].kind in {"Deployment", "StatefulSet", "DaemonSet"}
    && forall j :: i < j < |chain| ==> chain[j].kind !in {"Deployment", "StatefulSet", "DaemonSet"}
  }

  lemma {:induction false} TopRollableDecides(namespace: string, chain: seq<Owner>, i: int)
    requires IsTopRollable(chain, i)
    ensures WorkloadIn(namespace, chain) == Some(WorkloadKey(namespace, chain[i].kind, chain[i].name))
    decreases |chain|
  {
    if i < |chain| - 1 {
      assert chain[|chain| - 1].kind !in {"Deployment", "StatefulSet", "DaemonSet"};
      TopRollableDecides(namespace, chain[..|chain| - 1], i);
    }
  }

  lemma {:induction false} TopRollable(namespace: string, chain: seq<Owner>) returns (i: nat)
    ensures WorkloadIn(namespace, chain).Some? ==> IsTopRollable(chain, i)
    decreases |chain|
  {
    i := 0;
    if chain != [] {
      if chain[|chain| - 1].kind in {"Deployment", "StatefulSet", "DaemonSet"} {
        i := |chain| - 1;
      } else {
        i := TopRollable(namespace, chain[..|chain| - 1]);
      }
    }
  }

  /** `k` names the top-most link of the pod's chain that can be rolled out. */
  ghost predicate IsOwnedBy(info: PodInfo, k: WorkloadKey) {
    exists i :: IsTopRollable(info.chain, i) && info.chain[i].kind == k.kind && info.chain[i].name == k.name && k.namespace == info.namespace
  }

  /** The workload of a pod is the top-most link of its chain that is a Deployment, StatefulSet or DaemonSet, in the pod's namespace. */
  lemma WorkloadIsTopmost(info: PodInfo, k: WorkloadKey)
    ensures ResolveWorkload(info) == Some(k) <==> IsOwnedBy(info, k)
  {
    if ResolveWorkload(info).Some? {
      var i := TopRollable(info.namespace, info.chain);
      TopRollableDecides(info.namespace, info.chain, i);
    }
    forall i | IsTopRollable(info.chain, i)
      ensures ResolveWorkload(info) == Some(WorkloadKey(info.namespace, info.chain[i].kind, info.chain[i].name))
    {
      TopRollableDecides(info.namespace, info.chain, i);
    }
  }

  predicate MatchesTarget(info: PodInfo, t: RestartCriterion) {
    exists i :: 0 <= i < |info.chain| && info.chain[i].kind == t.kind && (t.name == "" || t.name == info.chain[i].name)
  }

  /** The registry, configuration and ReplicaSet view a sweep decides with. */
  datatype View = View(instruments: Instruments, cfg: SDKInject, rs: ReplicaSets)

  ghost function MatchOf(v: View, pod: Pod): Option<Candidate> {
    MatchResult(SdkRules, v.instruments, Info(pod.meta, v.rs))
  }

  /** Live, owned, and outside the protected namespaces. */
  predicate IsCandidate(pod: Pod) {
    !pod.meta.terminating && pod.meta.owners != [] && pod.meta.namespace !in PROTECTED
  }

  predicate IsTargeted(v: View, targets: set<RestartCriterion>, pod: Pod) {
    exists t :: t in targets && t.namespace == pod.meta.namespace && MatchesTarget(Info(pod.meta, v.rs), t)
  }

  /** Recreating the pod would change it: it should lose its injection, or get the wanted one. */
  ghost predicate IsStale(v: View, pod: Pod) {
    match MatchOf(v, pod)
    case None => IsInstrumented(pod.meta)
    case Some(c) =>
      && Effective(v.cfg, c).imageVersion != ""
      && !IsInstrumentedWithWantedConfig(pod.meta, WantedHash(v.cfg, c))
      && !PreloadsSomethingElse(pod)
  }

  /** A sweep is asked for by targets, or is a cleanup over every instrumented pod. */
  datatype Sweep = ByTargets(targets: set<RestartCriterion>) | Cleanup

  ghost predicate IsSelected(v: View, sweep: Sweep, pod: Pod) {
    && IsCandidate(pod)
    && ResolveWorkload(Info(pod.meta, v.rs)).Some?
    && match sweep
       case ByTargets(targets) => IsTargeted(v, targets, pod) && IsStale(v, pod)
       case Cleanup => IsInstrumented(pod.meta) && MatchOf(v, pod).None?
  }

  function KeyOf(v: View, pod: Pod): WorkloadKey {
    match ResolveWorkload(Info(pod.meta, v.rs))
    case Some(k) => k
    case None => WorkloadKey("", "", "")
  }

  /** The workloads a sweep over `pods` is to restart. */
  ghost function ToRestart(v: View, sweep: Sweep, pods: seq<Pod>): set<WorkloadKey> {
    set p | p in pods && IsSelected(v, sweep, p) :: KeyOf(v, p)
  }

  /** What the API answers during a sweep. */
  datatype Api = Api(pods: seq<Pod>, listAllFails: bool, listFailsIn: set<string>, patchFails: set<WorkloadKey>)

  /** Some list the sweep needs fails. */
  predicate ListFails(api: Api, targets: set<RestartCriterion>, cleanup: bool) {
    if cleanup then api.listAllFails
    else exists t :: t in targets && t.namespace !in PROTECTED && t.namespace in api.listFailsIn
  }

  predicate Distinct<T(==)>(s: seq<T>) {
    forall i, j :: 0 <= i < j < |s| ==> s[i] != s[j]
  }

  function SweepOf(targets: set<RestartCriterion>, cleanup: bool): Sweep {
    if cleanup then Cleanup else ByTargets(targets)
  }

  class Sweeper {
    const registry: Registry
    const cfg: SDKInject

    constructor (registry: Registry, cfg: SDKInject)
      ensures this.registry == registry && this.cfg == cfg
    {
      this.registry, this.cfg := registry, cfg;
    }

    ghost function ViewOf(rs: ReplicaSets): View
      reads registry
    {
      View(registry.instruments, cfg, rs)
    }

    method MatchesAnyTarget(info: PodInfo, targets: seq<RestartCriterion>) returns (r: bool)
      ensures r <==> exists t :: t in targets && MatchesTarget(info, t)
    {
      var i := 0;
      while i < |targets|
        invariant 0 <= i <= |targets|
        invariant forall j :: 0 <= j < i ==> !MatchesTarget(info, targets[j])
      {
        if MatchesTarget(info, targets[i]) {
          return true;
        }
        i := i + 1;
      }
      return false;
    }

    /** Whether the pod is to lose its injection or get the wanted one; a cleanup only removes. */
    method IsUnsettled(pod: Pod, info: PodInfo, cleanup: bool, ghost rs: ReplicaSets) returns (r: bool)
      requires info == Info(pod.meta, rs)
      ensures r <==>
        if cleanup then IsInstrumented(pod.meta) && MatchOf(ViewOf(rs), pod).None? else IsStale(ViewOf(rs), pod)
    {
      var hit := registry.Match(info);
      if hit.None? {
        return IsInstrumented(pod.meta);
      }
      if cleanup {
        return false;
      }
      var effective := cfg.WithConfigMapOverrides(hit.value.config);
      if effective.imageVersion == "" {
        return false;
      }
      var want := PodConfigHash(effective, hit.value.rule.config);
      if IsInstrumentedWithWantedConfig(pod.meta, want) {
        return false;
      }
      return !PreloadsSomethingElse(pod);
    }

    /** One pass of the loop body: the workload to restart for this pod, if any. */
    method SweepPod(pod: Pod, nsTargets: seq<RestartCriterion>, cleanup: bool, rs: ReplicaSets) returns (key: Option<WorkloadKey>)
      requires pod.meta.namespace !in PROTECTED
      requires forall t :: t in nsTargets ==> t.namespace == pod.meta.namespace
      ensures key == if IsSelected(ViewOf(rs), SweepOf(Elements(nsTargets), cleanup), pod) then Some(KeyOf(ViewOf(rs), pod)) else None
    {
      key := None;
      if pod.meta.terminating || |pod.meta.owners| == 0 {
        return;
      }
      var info := Resolve(pod.meta, rs);
      var targeted := MatchesAnyTarget(info, nsTargets);
      if !cleanup && !targeted {
        return;
      }
      var unsettled := IsUnsettled(pod, info, cleanup, rs);
      if unsettled {
        key := ResolveWorkload(info);
      }
    }

    /** The targets grouped by namespace. */
    method GroupTargets(targets: seq<RestartCriterion>) returns (byNamespace: map<string, seq<RestartCriterion>>)
      ensures GroupsBy(byNamespace, targets)
    {
      byNamespace := map[];
      var i := 0;
      while i < |targets|
        invariant 0 <= i <= |targets|
        invariant GroupsBy(byNamespace, targets[..i])
      {
        var t := targets[i];
        ghost var was := byNamespace;
        byNamespace := byNamespace[t.namespace := (if t.namespace in byNamespace then byNamespace[t.namespace] else []) + [t]];
        assert targets[..i + 1] == targets[..i] + [t];
        assert forall u, n :: n in was && u in was[n] ==> n in byNamespace && u in byNamespace[n];
        i := i + 1;
      }
      assert targets[..i] == targets;
    }

    /** The instrumented pods grouped by namespace. */
    method GroupInstrumented(pods: seq<Pod>) returns (byNamespace: map<string, seq<Pod>>)
      ensures GroupsInstrumented(byNamespace, pods)
    {
      byNamespace := map[];
      var i := 0;
      while i < |pods|
        invariant 0 <= i <= |pods|
        invariant GroupsInstrumented(byNamespace, pods[..i])
      {
        var p := pods[i];
        ghost var was := byNamespace;
        if IsInstrumented(p.meta) {
          byNamespace := byNamespace[p.meta.namespace := (if p.meta.namespace in byNamespace then byNamespace[p.meta.namespace] else []) + [p]];
        }
        assert pods[..i + 1] == pods[..i] + [p];
        assert forall q, n :: n in was && q in was[n] ==> n in byNamespace && q in byNamespace[n];
        i := i + 1;
      }
      assert pods[..i] == pods;
    }

    /** The inner loop: the pods of one namespace. */
    method SweepNamespace(pods: seq<Pod>, nsTargets: seq<RestartCriterion>, cleanup: bool, rs: ReplicaSets, found: set<WorkloadKey>)
      returns (r: set<WorkloadKey>)
      requires forall p :: p in pods ==> p.meta.namespace !in PROTECTED
      requires forall p, t :: p in pods && t in nsTargets ==> t.namespace == p.meta.namespace
      ensures r == found + ToRestart(ViewOf(rs), SweepOf(Elements(nsTargets), cleanup), pods)
    {
      ghost var v, sweep := ViewOf(rs), SweepOf(Elements(nsTargets), cleanup);
      r := found;
      var i := 0;
      while i < |pods|
        invariant 0 <= i <= |pods|
        invariant r == found + ToRestart(v, sweep, pods[..i])
      {
        assert pods[i] in pods;
        var key := SweepPod(pods[i], nsTargets, cleanup, rs);
        ToRestartSnoc(v, sweep, pods, i);
        if key.Some? {
          r := r + {key.value};
        }
        i := i + 1;
      }
      assert pods[..i] == pods;
    }

    /** The middle of the loop body: list the namespace's pods and sweep them. */
    method SweepGroup(ns: string, byNamespace: map<string, seq<RestartCriterion>>, listed: seq<Pod>, cleanup: bool, rs: ReplicaSets,
        found: set<WorkloadKey>, ghost targets: seq<RestartCriterion>, ghost pods: seq<Pod>)
      returns (r: set<WorkloadKey>)
      requires ns !in PROTECTED && ns in byNamespace
      requires cleanup ==> byNamespace[ns] == [] || forall t :: t in byNamespace[ns] ==> t.namespace == ns
      requires !cleanup ==> forall t :: t in byNamespace[ns] <==> t in targets && t.namespace == ns
      requires forall p :: p in listed ==> p in pods && p.meta.namespace == ns
      requires forall p :: p in pods && p.meta.namespace == ns && (cleanup ==> IsInstrumented(p.meta)) ==> p in listed
      ensures r == found + ToRestart(ViewOf(rs), SweepOf(Elements(targets), cleanup), PodsIn(pods, {ns}))
    {
      r := SweepNamespace(listed, byNamespace[ns], cleanup, rs, found);
      ghost var v := ViewOf(rs);
      ghost var s1, s2 := SweepOf(Elements(byNamespace[ns]), cleanup), SweepOf(Elements(targets), cleanup);
      forall p: Pod | p.meta.namespace == ns ensures IsSelected(v, s1, p) <==> IsSelected(v, s2, p) {
        SameSelection(v, targets, byNamespace[ns], cleanup, ns, p);
      }
      SameRestarts(v, s1, listed, s2, PodsIn(pods, {ns}));
    }

    /** The patch loop: every workload once, in any order, whatever happens to the others. */
    method PatchAll(keys: set<WorkloadKey>, api: Api) returns (err: bool, attempted: seq<WorkloadKey>)
      ensures Distinct(attempted) && Elements(attempted) == keys
      ensures err <==> exists k :: k in keys && k in api.patchFails
    {
      err, attempted := false, [];
      var todo := keys;
      while todo != {}
        invariant todo <= keys
        invariant Distinct(attempted) && Elements(attempted) == keys - todo
        invariant err <==> exists k :: k in keys - todo && k in api.patchFails
        decreases |todo|
      {
        var k :| k in todo;
        assert k !in attempted by { assert k !in Elements(attempted); }
        if k in api.patchFails {
          err := true;
        }
        ElementsSnoc(attempted, k);
        attempted := attempted + [k];
        todo := todo - {k};
      }
    }

    /** All lists first; only when none failed are the workloads patched. */
    method RolloutMatching(targets: seq<RestartCriterion>, cleanup: bool, rs: ReplicaSets, api: Api)
      returns (err: bool, attempted: seq<WorkloadKey>)
      ensures ListFails(api, Elements(targets), cleanup) ==> err && attempted == []
      ensures !ListFails(api, Elements(targets), cleanup) ==>
        var wanted := ToRestart(ViewOf(rs), SweepOf(Elements(targets), cleanup), api.pods);
        && Distinct(attempted)
        && Elements(attempted) == wanted
        && (err <==> exists k :: k in wanted && k in api.patchFails)
      ensures !ListFails(api, Elements(targets), cleanup) ==> forall k :: k in attempted <==> exists p ::
        && p in api.pods && IsSelected(ViewOf(rs), SweepOf(Elements(targets), cleanup), p) && IsOwnedBy(Info(p.meta, rs), k)
    {
      var listErr, toRestart := CollectRestarts(targets, cleanup, rs, api);
      if listErr {
        return true, [];
      }
      err, attempted := PatchAll(toRestart, api);
      forall k ensures k in attempted <==> exists p ::
        && p in api.pods && IsSelected(ViewOf(rs), SweepOf(Elements(targets), cleanup), p) && IsOwnedBy(Info(p.meta, rs), k)
      {
        assert k in attempted <==> k in Elements(attempted);
        RestartedOwns(ViewOf(rs), SweepOf(Elements(targets), cleanup), api.pods, k);
      }
    }

    /** The body of the outer loop. */
    method SweepNext(ns: string, byNamespace: map<string, seq<RestartCriterion>>, cleanupPods: map<string, seq<Pod>>,
        cleanup: bool, rs: ReplicaSets, api: Api, found: set<WorkloadKey>, ghost targets: seq<RestartCriterion>)
      returns (listErr: bool, r: set<WorkloadKey>)
      requires ns in byNamespace && Planned(byNamespace, cleanupPods, targets, cleanup, api.pods)
      ensures listErr <==> !cleanup && ns !in PROTECTED && ns in api.listFailsIn
      ensures !listErr ==> r == found + ToRestart(ViewOf(rs), SweepOf(Elements(targets), cleanup), PodsIn(api.pods, {ns}))
    {
      listErr, r := false, found;
      if ns in PROTECTED {
        assert ToRestart(ViewOf(rs), SweepOf(Elements(targets), cleanup), PodsIn(api.pods, {ns})) == {};
        return;
      }
      var listed: seq<Pod> := [];
      if cleanup {
        if ns in cleanupPods {
          listed := cleanupPods[ns];
        }
      } else {
        if ns in api.listFailsIn {
          return true, found;
        }
        listed := PodsIn(api.pods, {ns});
      }
      r := SweepGroup(ns, byNamespace, listed, cleanup, rs, found, targets, api.pods);
    }

    /** The outer loop: one list per namespace, in any order. */
    method SweepAll(byNamespace: map<string, seq<RestartCriterion>>, cleanupPods: map<string, seq<Pod>>,
        cleanup: bool, rs: ReplicaSets, api: Api, ghost targets: seq<RestartCriterion>)
      returns (listErr: bool, r: set<WorkloadKey>)
      requires Planned(byNamespace, cleanupPods, targets, cleanup, api.pods)
      ensures listErr <==> !cleanup && exists n :: n in byNamespace && n !in PROTECTED && n in api.listFailsIn
      ensures !listErr ==> r == ToRestart(ViewOf(rs), SweepOf(Elements(targets), cleanup), PodsIn(api.pods, byNamespace.Keys))
    {
      ghost var v, sweep := ViewOf(rs), SweepOf(Elements(targets), cleanup);
      listErr, r := false, {};
      var todo := byNamespace.Keys;
      while todo != {}
        invariant todo <= byNamespace.Keys
        invariant r == ToRestart(v, sweep, PodsIn(api.pods, byNamespace.Keys - todo))
        invariant cleanup || forall n :: n in byNamespace.Keys - todo && n !in PROTECTED ==> n !in api.listFailsIn
        decreases |todo|
      {
        var ns :| ns in todo;
        ghost var done := byNamespace.Keys - todo;
        RestartOneMore(v, sweep, api.pods, done, ns);
        listErr, r := SweepNext(ns, byNamespace, cleanupPods, cleanup, rs, api, r, targets);
        if listErr {
          return;
        }
        todo := todo - {ns};
        assert byNamespace.Keys - todo == done + {ns};
      }
      assert byNamespace.Keys - {} == byNamespace.Keys;
    }

    method CollectRestarts(targets: seq<RestartCriterion>, cleanup: bool, rs: ReplicaSets, api: Api)
      returns (listErr: bool, toRestart: set<WorkloadKey>)
      ensures listErr <==> ListFails(api, Elements(targets), cleanup)
      ensures !listErr ==> toRestart == ToRestart(ViewOf(rs), SweepOf(Elements(targets), cleanup), api.pods)
    {
      var byNamespace := GroupTargets(targets);
      var cleanupPods: map<string, seq<Pod>> := map[];
      if cleanup {
        if api.listAllFails {
          return true, {};
        }
        cleanupPods := GroupInstrumented(api.pods);
        byNamespace := byNamespace + map n | n in cleanupPods :: [];
      }
      listErr, toRestart := SweepAll(byNamespace, cleanupPods, cleanup, rs, api, targets);
      NamespacesCovered(ViewOf(rs), SweepOf(Elements(targets), cleanup), api.pods, byNamespace.Keys, targets, cleanup);
      if !cleanup {
        TargetNamespaces(byNamespace, targets);
      }
    }
  }

  /** The grouped targets, and for a cleanup the grouped pods, cover what the sweep is asked for. */
  ghost predicate Planned(byNamespace: map<string, seq<RestartCriterion>>, cleanupPods: map<string, seq<Pod>>,
      targets: seq<RestartCriterion>, cleanup: bool, pods: seq<Pod>)
  {
    if cleanup then
      && GroupsInstrumented(cleanupPods, pods)
      && forall n, t :: n in byNamespace && t in byNamespace[n] ==> t.namespace == n
    else GroupsBy(byNamespace, targets)
  }

  /** A workload is to be restarted if it is the top-most rollable owner of a selected pod. */
  lemma RestartedOwns(v: View, sweep: Sweep, pods: seq<Pod>, k: WorkloadKey)
    ensures k in ToRestart(v, sweep, pods) <==> exists p :: p in pods && IsSelected(v, sweep, p) && IsOwnedBy(Info(p.meta, v.rs), k)
  {
    forall p | IsSelected(v, sweep, p) ensures KeyOf(v, p) == k <==> IsOwnedBy(Info(p.meta, v.rs), k) {
      WorkloadIsTopmost(Info(p.meta, v.rs), k);
    }
    hide IsSelected, KeyOf, IsOwnedBy;
  }

  lemma ElementsSnoc<T>(s: seq<T>, x: T)
    ensures Elements(s + [x]) == Elements(s) + {x}
  {
  }

  lemma TargetNamespaces(byNamespace: map<string, seq<RestartCriterion>>, targets: seq<RestartCriterion>)
    requires GroupsBy(byNamespace, targets)
    ensures forall n :: n in byNamespace <==> exists t :: t in Elements(targets) && t.namespace == n
  {
    forall n | n in byNamespace ensures exists t :: t in Elements(targets) && t.namespace == n {
      FailingTarget(byNamespace, targets, n);
    }
  }

  lemma FailingTarget(byNamespace: map<string, seq<RestartCriterion>>, targets: seq<RestartCriterion>, ns: string)
    requires GroupsBy(byNamespace, targets) && ns in byNamespace
    ensures exists t :: t in Elements(targets) && t.namespace == ns
  {
    var t := byNamespace[ns][0];
    assert t in byNamespace[ns];
    assert t in Elements(targets);
  }

  lemma NamespacesCovered(v: View, sweep: Sweep, pods: seq<Pod>, namespaces: set<string>, targets: seq<RestartCriterion>, cleanup: bool)
    requires sweep == SweepOf(Elements(targets), cleanup)
    requires forall t :: t in targets ==> t.namespace in namespaces
    requires cleanup ==> forall p :: p in pods && IsInstrumented(p.meta) ==> p.meta.namespace in namespaces
    ensures ToRestart(v, sweep, PodsIn(pods, namespaces)) == ToRestart(v, sweep, pods)
  {
    SameRestarts(v, sweep, PodsIn(pods, namespaces), sweep, pods);
  }

  /** The pods of the given namespaces, in list order. */
  function PodsIn(pods: seq<Pod>, namespaces: set<string>): (r: seq<Pod>)
    ensures forall p :: p in r <==> p in pods && p.meta.namespace in namespaces
  {
    if pods == [] then []
    else (if pods[0].meta.namespace in namespaces then [pods[0]] else []) + PodsIn(pods[1..], namespaces)
  }

  lemma SameSelection(v: View, targets: seq<RestartCriterion>, nsTargets: seq<RestartCriterion>, cleanup: bool, ns: string, pod: Pod)
    requires pod.meta.namespace == ns
    requires !cleanup ==> forall t :: t in nsTargets <==> t in targets && t.namespace == ns
    ensures IsSelected(v, SweepOf(Elements(nsTargets), cleanup), pod) <==> IsSelected(v, SweepOf(Elements(targets), cleanup), pod)
  {
    if !cleanup {
      assert forall t :: t in Elements(nsTargets) <==> t in Elements(targets) && t.namespace == ns;
      assert IsTargeted(v, Elements(nsTargets), pod) <==> IsTargeted(v, Elements(targets), pod);
    }
  }

  lemma RestartOneMore(v: View, sweep: Sweep, pods: seq<Pod>, done: set<string>, ns: string)
    ensures ToRestart(v, sweep, PodsIn(pods, done + {ns})) == ToRestart(v, sweep, PodsIn(pods, done)) + ToRestart(v, sweep, PodsIn(pods, {ns}))
  {
    forall k | k in ToRestart(v, sweep, PodsIn(pods, done + {ns}))
      ensures k in ToRestart(v, sweep, PodsIn(pods, done)) + ToRestart(v, sweep, PodsIn(pods, {ns}))
    {
      var p :| p in PodsIn(pods, done + {ns}) && IsSelected(v, sweep, p) && KeyOf(v, p) == k;
      assert p in PodsIn(pods, done) || p in PodsIn(pods, {ns});
    }
    assert forall p | p in PodsIn(pods, done) || p in PodsIn(pods, {ns}) :: p in PodsIn(pods, done + {ns});
  }

  /** Two pod lists and two sweeps that select the same pods restart the same workloads. */
  lemma SameRestarts(v: View, s1: Sweep, pods1: seq<Pod>, s2: Sweep, pods2: seq<Pod>)
    requires forall p :: p in pods1 && IsSelected(v, s1, p) <==> p in pods2 && IsSelected(v, s2, p)
    ensures ToRestart(v, s1, pods1) == ToRestart(v, s2, pods2)
  {
    forall k | k in ToRestart(v, s1, pods1) ensures k in ToRestart(v, s2, pods2) {
      var p :| p in pods1 && IsSelected(v, s1, p) && KeyOf(v, p) == k;
      assert p in pods2 && IsSelected(v, s2, p);
    }
    forall k | k in ToRestart(v, s2, pods2) ensures k in ToRestart(v, s1, pods1) {
      var p :| p in pods2 && IsSelected(v, s2, p) && KeyOf(v, p) == k;
      assert p in pods1 && IsSelected(v, s1, p);
    }
  }

  ghost predicate GroupsBy(byNamespace: map<string, seq<RestartCriterion>>, targets: seq<RestartCriterion>) {
    && (forall t :: t in targets ==> t.namespace in byNamespace && t in byNamespace[t.namespace])
    && (forall n :: n in byNamespace ==> byNamespace[n] != [])
    && (forall n, t :: n in byNamespace && t in byNamespace[n] ==> t.namespace == n && t in targets)
  }

  ghost predicate GroupsInstrumented(byNamespace: map<string, seq<Pod>>, pods: seq<Pod>) {
    && (forall p :: p in pods && IsInstrumented(p.meta) ==> p.meta.namespace in byNamespace && p in byNamespace[p.meta.namespace])
    && (forall n, p :: n in byNamespace && p in byNamespace[n] ==> p.meta.namespace == n && p in pods && IsInstrumented(p.meta))
  }

  lemma ToRestartSnoc(v: View, sweep: Sweep, pods: seq<Pod>, i: nat)
    requires i < |pods|
    ensures ToRestart(v, sweep, pods[..i + 1])
      == ToRestart(v, sweep, pods[..i]) + (if IsSelected(v, sweep, pods[i]) then {KeyOf(v, pods[i])} else {})
  {
    assert pods[..i + 1] == pods[..i] + [pods[i]];
  }
}
