/** One reconcile of one ConfigMap key, against a cluster that holds still meanwhile. */
module Reconciler {
  import opened Kube
  import opened Strings
  import opened Rules
  import opened RuleRegistry
  import opened Config
  import opened PodInfos
  import opened PodWebhook
  import opened Payload
  import opened Rollout
  import opened ClusterState

  /** `Later` is a timed requeue; `Failed` is an error, which the work queue retries with back-off. */
  datatype Result = Done | Later | Failed

  /** Everything a reconcile is answered by its surroundings. */
  datatype World = World(
    cluster: Cluster,
    getFails: bool,
    nodeGetFails: set<string>,
    listFails: bool,
    webhookReady: bool,
    serviceDials: bool,
    rs: ReplicaSets,
    api: Api)

  predicate NodeReadFails(w: World, cm: ConfigMap) {
    cm.node.Some? && cm.node.value != "" && cm.node.value in w.nodeGetFails
  }

  // ---- refreshing the registry

  /** The refresh stops on this ConfigMap: its node cannot be read, or its payload makes the parser panic. */
  ghost predicate StopsRefresh(w: World, cm: ConfigMap) {
    cm.node.Some? && (NodeReadFails(w, cm) || (NodeEligible(w.cluster.nodes, cm.node.value) && ParseOf(cm).Panicked?))
  }

  ghost predicate RefreshFails(w: World) {
    w.listFails || exists k :: k in w.cluster.configMaps && StopsRefresh(w, w.cluster.configMaps[k])
  }

  /** The entries collected from the ConfigMaps in `keys`, those without rules included. */
  ghost predicate Collected(w: World, keys: set<string>, acc: Instruments) {
    && acc.Keys <= keys <= w.cluster.configMaps.Keys
    && forall k :: k in keys ==> Entry(Contributing(acc), k) == Prescribed(w.cluster, k)
  }

  lemma CollectedAll(w: World, acc: Instruments)
    requires Collected(w, w.cluster.configMaps.Keys, acc)
    ensures Contributing(acc) == Snapshot(w.cluster)
  {
    forall k ensures Entry(Contributing(acc), k) == Prescribed(w.cluster, k) {
      assert k !in w.cluster.configMaps ==> k !in acc;
    }
    AgreementIsSnapshot(w.cluster, Contributing(acc));
  }

  lemma CollectOneMore(w: World, keys: set<string>, acc: Instruments, k: string, next: Instruments)
    requires Collected(w, keys, acc) && k in w.cluster.configMaps && k !in keys
    requires next.Keys <= acc.Keys + {k} && forall j :: j != k ==> Entry(next, j) == Entry(acc, j)
    requires Entry(Contributing(next), k) == Prescribed(w.cluster, k)
    ensures Collected(w, keys + {k}, next)
  {
    forall j | j in keys ensures Entry(Contributing(next), j) == Prescribed(w.cluster, j) {
      assert Entry(next, j) == Entry(acc, j);
    }
  }

  // ---- the contract of a reconcile

  datatype Reading =
    | Unreadable
    | Missing
    | Unannotated
    | NodeUnknown
    | Ineligible
    | BadPayload
    | Crash
    | Loaded(inst: InjectConfig, targets: set<RestartCriterion>, cleanup: bool)

  /** What reading the key's ConfigMap and its node comes to. */
  ghost function ReadingOf(w: World, key: string): Reading {
    if w.getFails then Unreadable
    else if key !in w.cluster.configMaps then Missing
    else
      var cm := w.cluster.configMaps[key];
      if cm.node.None? then Unannotated
      else if NodeReadFails(w, cm) then NodeUnknown
      else if !NodeEligible(w.cluster.nodes, cm.node.value) then Ineligible
      else match ParseOf(cm)
        case Invalid => BadPayload
        case Panicked => Crash
        case Parsed(inst, targets) => Loaded(inst, targets, AsksForCleanup(cm))
  }

  /** What is left behind: the registry, the result, and the workloads patched, in order. */
  datatype Effect = Effect(registry: Instruments, result: Result, attempted: seq<WorkloadKey>)

  /** A sweep patches exactly the prescribed workloads, each once, or none at all when a list fails. */
  ghost predicate Swept(v: View, targets: set<RestartCriterion>, cleanup: bool, api: Api, attempted: seq<WorkloadKey>) {
    if ListFails(api, targets, cleanup) then attempted == []
    else Distinct(attempted) && Elements(attempted) == ToRestart(v, SweepOf(targets, cleanup), api.pods)
  }

  ghost predicate SweepFails(targets: set<RestartCriterion>, cleanup: bool, api: Api, attempted: seq<WorkloadKey>) {
    ListFails(api, targets, cleanup) || exists k :: k in attempted && k in api.patchFails
  }

  /** The gated part: with restarts enabled, readiness first, then for a cleanup a full refresh, then the sweep. */
  ghost predicate RolledOut(w: World, cfg: SDKInject, before: Instruments, targets: set<RestartCriterion>, cleanup: bool, e: Effect) {
    if cfg.noAutoRestart then e == Effect(before, Done, [])
    else if !w.webhookReady || !w.serviceDials then e == Effect(before, Later, [])
    else if cleanup && RefreshFails(w) then e == Effect(before, Failed, [])
    else
      && e.registry == (if cleanup then Snapshot(w.cluster) else before)
      && Swept(View(e.registry, cfg, w.rs), targets, cleanup, w.api, e.attempted)
      && e.result == if cleanup && SweepFails(targets, cleanup, w.api, e.attempted) then Failed else Done
  }

  ghost predicate Reconciled(w: World, cfg: SDKInject, before: Instruments, key: string, e: Effect) {
    match ReadingOf(w, key)
    case Unreadable => e == Effect(before, Failed, [])
    case Missing => RolledOut(w, cfg, before - {key}, {}, true, e)
    case Unannotated => e == Effect(before - {key}, Done, [])
    case NodeUnknown => e == Effect(before - {key}, Failed, [])
    case Ineligible => e == Effect(before - {key}, Done, [])
    case BadPayload => e == Effect(before - {key}, Done, [])
    case Crash => e == Effect(before, Failed, [])
    case Loaded(inst, targets, cleanup) =>
      if !cleanup && targets == {} then e == Effect(Contributing(before[key := inst]), Done, [])
      else RolledOut(w, cfg, Contributing(before[key := inst]), targets, cleanup, e)
  }

  class ConfigMapReconciler {
    const registry: Registry
    const sweeper: Sweeper
    const cfg: SDKInject

    constructor (registry: Registry, cfg: SDKInject)
      requires registry.Valid()
      ensures this.registry == registry && this.cfg == cfg && Valid()
    {
      this.registry, this.cfg := registry, cfg;
      sweeper := new Sweeper(registry, cfg);
    }

    ghost predicate Valid()
      reads registry
    {
      registry.Valid() && sweeper.registry == registry && sweeper.cfg == cfg
    }

    method StateNodeEligible(w: World, cm: ConfigMap) returns (eligible: bool, err: bool)
      requires cm.node.Some?
      ensures err <==> NodeReadFails(w, cm)
      ensures eligible <==> !err && NodeEligible(w.cluster.nodes, cm.node.value)
      ensures var n := cm.node.value;
        && (err <==> n != "" && n in w.nodeGetFails)
        && (eligible <==> n == "" || (n !in w.nodeGetFails && n in w.cluster.nodes && !w.cluster.nodes[n]))
    {
      var nodeName := cm.node.value;
      if nodeName == "" {
        return true, false;
      }
      if nodeName in w.nodeGetFails {
        return false, true;
      }
      if nodeName !in w.cluster.nodes || w.cluster.nodes[nodeName] {
        return false, false;
      }
      return true, false;
    }

    /** The body of the refresh loop: one listed ConfigMap. */
    method RefreshOne(w: World, key: string, acc: Instruments, ghost done: set<string>) returns (stop: bool, next: Instruments)
      requires key in w.cluster.configMaps && key !in done && Collected(w, done, acc)
      ensures stop <==> StopsRefresh(w, w.cluster.configMaps[key])
      ensures !stop ==> Collected(w, done + {key}, next)
    {
      stop, next := false, acc;
      var cm := w.cluster.configMaps[key];
      if cm.node.None? {
        CollectOneMore(w, done, acc, key, next);
        return;
      }
      var eligible, err := StateNodeEligible(w, cm);
      if err {
        return true, acc;
      }
      if !eligible {
        CollectOneMore(w, done, acc, key, next);
        return;
      }
      var status, inst, _ := ParseConfigMap(cm);
      if status.ParsePanicked? {
        return true, acc;
      }
      if status.ParseOk? {
        next := acc[key := inst];
      }
      CollectOneMore(w, done, acc, key, next);
    }

    /** Loads every ConfigMap, or leaves the registry alone. */
    method RefreshRegistry(w: World) returns (err: bool)
      requires Valid()
      modifies registry
      ensures Valid()
      ensures err <==> RefreshFails(w)
      ensures registry.instruments == if err then old(registry.instruments) else Snapshot(w.cluster)
    {
      if w.listFails {
        return true;
      }
      var instruments: Instruments := map[];
      var todo := w.cluster.configMaps.Keys;
      ghost var done: set<string> := {};
      while todo != {}
        invariant todo !! done && todo + done == w.cluster.configMaps.Keys
        invariant Collected(w, done, instruments)
        invariant forall k :: k in done ==> !StopsRefresh(w, w.cluster.configMaps[k])
        invariant registry.instruments == old(registry.instruments)
        decreases |todo|
      {
        var key :| key in todo;
        var stop, next := RefreshOne(w, key, instruments, done);
        if stop {
          return true;
        }
        instruments, todo, done := next, todo - {key}, done + {key};
      }
      CollectedAll(w, instruments);
      registry.Replace(instruments);
      return false;
    }

    method ReconcileRollouts(w: World, targets: seq<RestartCriterion>, cleanup: bool)
      returns (result: Result, attempted: seq<WorkloadKey>)
      requires Valid()
      modifies registry
      ensures Valid()
      ensures RolledOut(w, cfg, old(registry.instruments), Elements(targets), cleanup, Effect(registry.instruments, result, attempted))
    {
      result, attempted := Done, [];
      if cfg.noAutoRestart {
        return;
      }
      if !w.webhookReady {
        return Later, [];
      }
      if !w.serviceDials {
        return Later, [];
      }
      if cleanup {
        var refreshErr := RefreshRegistry(w);
        if refreshErr {
          return Failed, [];
        }
      }
      var err;
      err, attempted := sweeper.RolloutMatching(targets, cleanup, w.rs, w.api);
      assert forall k :: k in attempted <==> k in Elements(attempted);
      if err && cleanup {
        result := Failed;
      }
    }

    method HasInstallRule(rules: seq<Rule>) returns (r: bool)
      ensures r <==> exists i :: 0 <= i < |rules| && rules[i].config.mode != Skip
    {
      var i := 0;
      while i < |rules|
        invariant 0 <= i <= |rules|
        invariant forall j :: 0 <= j < i ==> rules[j].config.mode == Skip
      {
        if rules[i].config.mode != Skip {
          return true;
        }
        i := i + 1;
      }
      return false;
    }

    /** The part after the payload is parsed. */
    method Load(w: World, key: string, inst: InjectConfig, targets: seq<RestartCriterion>)
      returns (result: Result, attempted: seq<WorkloadKey>)
      requires Valid()
      requires ReadingOf(w, key).Loaded? && ReadingOf(w, key).inst == inst && ReadingOf(w, key).targets == Elements(targets)
      modifies registry
      ensures Valid()
      ensures Reconciled(w, cfg, old(registry.instruments), key, Effect(registry.instruments, result, attempted))
    {
      registry.Set(key, inst);
      var installs := HasInstallRule(inst.rules);
      var cleanup := w.cluster.configMaps[key].instrumentation.Some? && !installs;
      assert cleanup == ReadingOf(w, key).cleanup;
      assert targets == [] <==> Elements(targets) == {} by {
        if targets != [] { assert targets[0] in Elements(targets); }
      }
      if !cleanup && |targets| == 0 {
        return Done, [];
      }
      result, attempted := ReconcileRollouts(w, targets, cleanup);
    }

    method Reconcile(w: World, key: string) returns (result: Result, attempted: seq<WorkloadKey>)
      requires Valid()
      modifies registry
      ensures Valid()
      ensures Reconciled(w, cfg, old(registry.instruments), key, Effect(registry.instruments, result, attempted))
    {
      if w.getFails {
        return Failed, [];
      }
      if key !in w.cluster.configMaps {
        registry.Delete(key);
        assert Elements<RestartCriterion>([]) == {};
        result, attempted := ReconcileRollouts(w, [], true);
        return;
      }
      var cm := w.cluster.configMaps[key];
      if cm.node.None? {
        registry.Delete(key);
        return Done, [];
      }
      var eligible, err := StateNodeEligible(w, cm);
      if err || !eligible {
        registry.Delete(key);
        return if err then Failed else Done, [];
      }
      var status, inst, targets := ParseConfigMap(cm);
      if status.ParsePanicked? {
        return Failed, [];
      }
      if status.ParseInvalid? {
        registry.Delete(key);
        return Done, [];
      }
      result, attempted := Load(w, key, inst, targets);
    }
  }

  // ---- what a reconcile achieves

  /** Unless it fails, a reconcile leaves the key's entry as the cluster prescribes it. */
  lemma KeyAgreesAfterwards(w: World, cfg: SDKInject, before: Instruments, key: string, e: Effect)
    requires Reconciled(w, cfg, before, key, e) && e.result != Failed
    ensures Entry(e.registry, key) == Prescribed(w.cluster, key)
  {
    assert Entry(Snapshot(w.cluster), key) == Prescribed(w.cluster, key);
  }

  /** Every other entry stays, or all entries are the snapshot. */
  lemma OthersStayOrRefresh(w: World, cfg: SDKInject, before: Instruments, key: string, e: Effect)
    requires Reconciled(w, cfg, before, key, e)
    requires forall k :: k in before ==> before[k].rules != []
    ensures (forall k :: k != key ==> Entry(e.registry, k) == Entry(before, k)) || e.registry == Snapshot(w.cluster)
  {
  }

  /** A reconcile of a cleanup kind, one for a deleted key or for a map that installs nothing. */
  ghost predicate IsCleanup(w: World, key: string) {
    ReadingOf(w, key).Missing? || (ReadingOf(w, key).Loaded? && ReadingOf(w, key).cleanup)
  }

  /** Past both checks, with every ConfigMap loaded and the pods listed. */
  ghost predicate ReachesPods(w: World) {
    w.webhookReady && w.serviceDials && !RefreshFails(w) && !w.api.listAllFails
  }

  /**
   A cleanup that gets as far as the pods has loaded the full snapshot and patches each workload that
   owns a live, owned, instrumented pod outside the protected namespaces which no loaded rule matches,
   and no other; it succeeds exactly when every patch does. One that does not get there patches nothing.
   */
  lemma CleanupExactly(w: World, cfg: SDKInject, before: Instruments, key: string, e: Effect)
    requires Reconciled(w, cfg, before, key, e) && IsCleanup(w, key) && !cfg.noAutoRestart
    ensures !ReachesPods(w) ==> e.attempted == [] && e.result != Done
    ensures ReachesPods(w) ==>
      && e.registry == Snapshot(w.cluster)
      && Distinct(e.attempted)
      && (forall k :: k in e.attempted <==> IsOrphaned(w, k))
      && (e.result == Done <==> forall k :: k in e.attempted ==> k !in w.api.patchFails)
  {
    var v := View(e.registry, cfg, w.rs);
    var wanted := ToRestart(v, Cleanup, w.api.pods);
    if ReachesPods(w) {
      assert Elements(e.attempted) == wanted;
      forall k ensures k in e.attempted <==> IsOrphaned(w, k) {
        assert k in e.attempted <==> k in wanted;
        if k in wanted {
          var p :| p in w.api.pods && IsSelected(v, Cleanup, p) && KeyOf(v, p) == k;
          assert ResolveWorkload(Info(p.meta, w.rs)) == Some(k);
        }
        forall p | p in w.api.pods && IsSelected(v, Cleanup, p) && KeyOf(v, p) == k ensures k in wanted {
        }
      }
    }
  }

  /** The workload owns a candidate pod that is instrumented though nothing in the snapshot matches it. */
  ghost predicate IsOrphaned(w: World, k: WorkloadKey) {
    exists p ::
      && p in w.api.pods && IsCandidate(p) && IsInstrumented(p.meta)
      && ResolveWorkload(Info(p.meta, w.rs)) == Some(k)
      && MatchResult(SdkRules, Snapshot(w.cluster), Info(p.meta, w.rs)).None?
  }

  /** A refresh that fails leaves the registry without this key's old entry but otherwise alone, and patches nothing. */
  lemma FailedRefreshPatchesNothing(w: World, cfg: SDKInject, before: Instruments, key: string, e: Effect)
    requires Reconciled(w, cfg, before, key, e) && IsCleanup(w, key) && RefreshFails(w)
    requires forall k :: k in before ==> before[k].rules != []
    ensures e.attempted == [] && (e.result == Failed || cfg.noAutoRestart || !w.webhookReady || !w.serviceDials)
    ensures forall k :: k != key ==> Entry(e.registry, k) == Entry(before, k)
  {
  }

  /** Restart targets never widen or narrow a cleanup. */
  lemma CleanupIgnoresTargets(w: World, cfg: SDKInject, before: Instruments, a: set<RestartCriterion>, b: set<RestartCriterion>, e: Effect)
    ensures RolledOut(w, cfg, before, a, true, e) <==> RolledOut(w, cfg, before, b, true, e)
  {
  }

  /** Nothing is patched with restarts disabled, before the webhook is ready, or while its service cannot be dialled. */
  lemma GatedReconcilePatchesNothing(w: World, cfg: SDKInject, before: Instruments, key: string, e: Effect)
    requires Reconciled(w, cfg, before, key, e)
    requires cfg.noAutoRestart || !w.webhookReady || !w.serviceDials
    ensures e.attempted == []
  {
  }

  /** Reconciling the key again in the same surroundings changes the registry no further. */
  lemma ReconcileTwice(w: World, cfg: SDKInject, before: Instruments, key: string, e1: Effect, e2: Effect)
    requires forall k :: k in before ==> before[k].rules != []
    requires Reconciled(w, cfg, before, key, e1) && Reconciled(w, cfg, e1.registry, key, e2)
    ensures e2.registry == e1.registry
  {
  }
}
