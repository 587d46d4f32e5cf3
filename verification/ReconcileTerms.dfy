/** What reconciles and whole runs leave in the registry, over the ConfigMaps and nodes themselves. */
module ReconcileTerms {
  import opened Kube
  import opened Rules
  import opened RuleRegistry
  import opened Config
  import opened PodInfos
  import opened PodWebhook
  import opened Payload
  import opened Rollout
  import opened ClusterState
  import opened Reconciler
  import opened SweepTerms
  import opened Machine
  import Strings
  import opened RegistryInvariant
  import opened RegistryRuns

  // ---- what a ConfigMap is registered as

  /** The ConfigMap names a node that is not there or is terminating. */
  predicate NamesDepartedNode(nodes: map<string, bool>, cm: ConfigMap) {
    cm.node.Some? && cm.node.value != "" && (cm.node.value !in nodes || nodes[cm.node.value])
  }

  predicate NamesLiveNodeOrNone(nodes: map<string, bool>, cm: ConfigMap) {
    cm.node.Some? && (cm.node.value == "" || (cm.node.value in nodes && !nodes[cm.node.value]))
  }

  predicate IsMalformed(cm: ConfigMap) {
    cm.instrumentation == Some(Malformed) || cm.eligible == Some(Malformed)
  }

  /** The parser reaches a list of two or more entries, one of them null. */
  predicate MakesParserPanic(cm: ConfigMap) {
    && cm.instrumentation != Some(Malformed) && cm.eligible.Some? && cm.eligible.value.Doc?
    && |cm.eligible.value.value| >= 2 && exists i :: 0 <= i < |cm.eligible.value.value| && cm.eligible.value.value[i] == None
  }

  /** The ConfigMap publishes `inst`: it is well-formed, its document holds rules, and its node is there or not asked for. */
  ghost predicate Publishes(nodes: map<string, bool>, cm: ConfigMap, inst: InjectConfig) {
    && NamesLiveNodeOrNone(nodes, cm) && !IsMalformed(cm) && !MakesParserPanic(cm)
    && cm.instrumentation == Some(Doc(inst)) && inst.rules != []
  }

  lemma PrescribedExactly(c: Cluster, key: string, inst: InjectConfig)
    ensures Prescribed(c, key) == Some(inst) <==> key in c.configMaps && Publishes(c.nodes, c.configMaps[key], inst)
  {
    if key in c.configMaps {
      var cm := c.configMaps[key];
      ParseByDocuments(cm);
      assert NamesLiveNodeOrNone(c.nodes, cm) <==> cm.node.Some? && NodeEligible(c.nodes, cm.node.value);
      assert ParseOf(cm).Parsed? <==> !IsMalformed(cm) && !MakesParserPanic(cm);
      if cm.instrumentation.Some? && cm.instrumentation.value.Doc? {
        assert cm.instrumentation == Some(Doc(cm.instrumentation.value.value));
      }
      hide NodeEligible, NamesLiveNodeOrNone, ParseOf, MakesParserPanic, IsAskedForBy;
    }
  }

  /** The snapshot holds exactly the documents that are published. */
  lemma SnapshotExactly(c: Cluster, key: string, inst: InjectConfig)
    ensures key in Snapshot(c) && Snapshot(c)[key] == inst <==> key in c.configMaps && Publishes(c.nodes, c.configMaps[key], inst)
  {
    PrescribedExactly(c, key, inst);
    hide Contribution;
  }

  // ---- what one reconcile leaves behind

  /**
   A reconcile that does not fail registers exactly what its ConfigMap publishes. In particular a map
   that is gone, lost its annotation or names a departed node is no longer registered.
   */
  lemma RegistersExactly(w: World, cfg: SDKInject, before: Instruments, key: string, e: Effect)
    requires Reconciled(w, cfg, before, key, e) && e.result != Failed
    ensures forall inst :: key in e.registry && e.registry[key] == inst <==>
      key in w.cluster.configMaps && Publishes(w.cluster.nodes, w.cluster.configMaps[key], inst)
    ensures key in w.cluster.configMaps && NamesDepartedNode(w.cluster.nodes, w.cluster.configMaps[key]) ==> key !in e.registry
  {
    KeyAgreesAfterwards(w, cfg, before, key, e);
    hide Reconciled, Prescribed, Snapshot;
    forall inst ensures key in e.registry && e.registry[key] == inst <==>
      key in w.cluster.configMaps && Publishes(w.cluster.nodes, w.cluster.configMaps[key], inst)
    {
      PrescribedExactly(w.cluster, key, inst);
    }
  }

  predicate NodeIsUnreadable(w: World, cm: ConfigMap) {
    cm.node.Some? && cm.node.value != "" && cm.node.value in w.nodeGetFails
  }

  /** A map that cannot be used is dropped; one that cannot be read, or that crashes the parser, is left as it was. */
  lemma UnusableMaps(w: World, cfg: SDKInject, before: Instruments, key: string, e: Effect)
    requires Reconciled(w, cfg, before, key, e)
    ensures w.getFails ==> e == Effect(before, Failed, [])
    ensures !w.getFails && key in w.cluster.configMaps ==>
      var cm := w.cluster.configMaps[key];
      && (cm.node == None ==> e == Effect(before - {key}, Done, []))
      && (NodeIsUnreadable(w, cm) ==> e == Effect(before - {key}, Failed, []))
      && (!NodeIsUnreadable(w, cm) && NamesDepartedNode(w.cluster.nodes, cm) ==> e == Effect(before - {key}, Done, []))
      && (!NodeIsUnreadable(w, cm) && NamesLiveNodeOrNone(w.cluster.nodes, cm) && IsMalformed(cm) ==>
            e == Effect(before - {key}, Done, []))
      && (!NodeIsUnreadable(w, cm) && NamesLiveNodeOrNone(w.cluster.nodes, cm) && MakesParserPanic(cm) ==>
            e == Effect(before, Failed, []))
  {
    if key in w.cluster.configMaps {
      ParseByDocuments(w.cluster.configMaps[key]);
    }
    hide ParseOf, RolledOut;
  }

  /** The ConfigMap can be read and parsed, and so can its node. */
  predicate IsUsableMap(w: World, key: string) {
    && !w.getFails && key in w.cluster.configMaps
    && var cm := w.cluster.configMaps[key];
      NamesLiveNodeOrNone(w.cluster.nodes, cm) && !NodeIsUnreadable(w, cm) && !IsMalformed(cm) && !MakesParserPanic(cm)
  }

  /** The registry once the ConfigMap was loaded: its document if that has rules, else no entry. */
  function WithMap(before: Instruments, key: string, cm: ConfigMap): Instruments {
    if cm.instrumentation.Some? && cm.instrumentation.value.Doc? && cm.instrumentation.value.value.rules != []
    then before[key := cm.instrumentation.value.value] else before - {key}
  }

  /** The ConfigMap has an instrumentation document, every rule of which, if any, is a skip rule. */
  ghost predicate OnlySkips(cm: ConfigMap) {
    && cm.instrumentation.Some? && cm.instrumentation.value.Doc?
    && forall r :: r in cm.instrumentation.value.value.rules ==> r.config.mode == Skip
  }

  /** The restart list of the ConfigMap has a usable entry with these fields. */
  ghost predicate IsTarget(cm: ConfigMap, t: RestartCriterion) {
    cm.eligible.Some? && cm.eligible.value.Doc? && IsAskedForBy(t, cm.eligible.value.value)
  }

  ghost predicate AsksForTargets(cm: ConfigMap) {
    exists t :: IsTarget(cm, t)
  }

  lemma OnlySkipsAsks(cm: ConfigMap)
    ensures OnlySkips(cm) <==> AsksForCleanup(cm)
  {
    if OnlySkips(cm) {
      assert forall i | 0 <= i < |cm.instrumentation.value.value.rules| ::
        cm.instrumentation.value.value.rules[i] in cm.instrumentation.value.value.rules;
    }
  }

  lemma TargetsAreDeclared(cm: ConfigMap)
    requires !IsMalformed(cm) && !MakesParserPanic(cm)
    ensures ParseOf(cm).Parsed? && (ParseOf(cm).targets != {} <==> AsksForTargets(cm))
    ensures forall t :: t in ParseOf(cm).targets <==> IsTarget(cm, t)
  {
    ParseByDocuments(cm);
    hide IsAskedForBy;
    if ParseOf(cm).targets != {} {
      var t :| t in ParseOf(cm).targets;
      assert IsTarget(cm, t);
    }
  }

  lemma LoadsMap(w: World, before: Instruments, key: string)
    requires IsUsableMap(w, key) && forall k :: k in before ==> before[k].rules != []
    ensures ReadingOf(w, key).Loaded?
    ensures var cm := w.cluster.configMaps[key];
      && ReadingOf(w, key).cleanup == OnlySkips(cm)
      && Contributing(before[key := ReadingOf(w, key).inst]) == WithMap(before, key, cm)
      && (ReadingOf(w, key).targets != {} <==> AsksForTargets(cm))
      && forall t :: t in ReadingOf(w, key).targets <==> IsTarget(cm, t)
  {
    ParseByDocuments(w.cluster.configMaps[key]);
    OnlySkipsAsks(w.cluster.configMaps[key]);
    TargetsAreDeclared(w.cluster.configMaps[key]);
  }

  /** A reconcile with nothing to restart ends once the map is loaded; so does every reconcile when restarts are disabled. */
  lemma NothingToRestart(w: World, cfg: SDKInject, before: Instruments, key: string, e: Effect)
    requires Reconciled(w, cfg, before, key, e) && IsUsableMap(w, key) && forall k :: k in before ==> before[k].rules != []
    ensures var cm := w.cluster.configMaps[key];
      cfg.noAutoRestart || (!OnlySkips(cm) && !AsksForTargets(cm)) ==> e == Effect(WithMap(before, key, cm), Done, [])
  {
    LoadsMap(w, before, key);
    hide ReadingOf, Contributing;
  }

  /** The reconcile asks for restarts: of a deleted map's pods, of those no rule installs for, or of targets. */
  ghost predicate AsksForRestarts(w: World, key: string) {
    || (!w.getFails && key !in w.cluster.configMaps)
    || (IsUsableMap(w, key) && (OnlySkips(w.cluster.configMaps[key]) || AsksForTargets(w.cluster.configMaps[key])))
  }

  function Loaded(w: World, before: Instruments, key: string): Instruments {
    if key in w.cluster.configMaps then WithMap(before, key, w.cluster.configMaps[key]) else before - {key}
  }

  /** Restarts wait until the webhook is ready and its service answers; the timed retry has everything loaded before. */
  lemma RestartsWait(w: World, cfg: SDKInject, before: Instruments, key: string, e: Effect)
    requires Reconciled(w, cfg, before, key, e) && AsksForRestarts(w, key) && forall k :: k in before ==> before[k].rules != []
    requires !cfg.noAutoRestart && (!w.webhookReady || !w.serviceDials)
    ensures e == Effect(Loaded(w, before, key), Later, [])
  {
    if key in w.cluster.configMaps {
      LoadsMap(w, before, key);
      hide ReadingOf, Contributing;
    }
  }

  /** Some namespace that a target names, and that may be swept, cannot be listed. */
  ghost predicate ListsFail(w: World, cm: ConfigMap) {
    exists t :: IsTarget(cm, t) && t.namespace in w.api.listFailsIn && !IsProtected(t.namespace)
  }

  ghost predicate IsTargetReason(w: World, cfg: SDKInject, registry: Instruments, cm: ConfigMap, p: Pod, k: WorkloadKey) {
    && MayBeRestarted(p)
    && (exists t :: IsTarget(cm, t) && t.namespace == p.meta.namespace && IsUnder(Info(p.meta, w.rs).chain, t))
    && NeedsRestart(cfg, MatchResult(SdkRules, registry, Info(p.meta, w.rs)), p)
    && IsOwnedBy(Info(p.meta, w.rs), k)
  }

  /**
   A sweep for targets, past the gates, always ends as done; it patches, each once, exactly the
   workloads that one of the listed pods gives a reason for, or none if a list fails.
   */
  lemma TargetsAreSwept(w: World, cfg: SDKInject, before: Instruments, key: string, e: Effect)
    requires Reconciled(w, cfg, before, key, e) && IsUsableMap(w, key) && forall k :: k in before ==> before[k].rules != []
    requires AsksForTargets(w.cluster.configMaps[key]) && !OnlySkips(w.cluster.configMaps[key])
    requires !cfg.noAutoRestart && w.webhookReady && w.serviceDials
    ensures e.result == Done && e.registry == WithMap(before, key, w.cluster.configMaps[key])
    ensures ListsFail(w, w.cluster.configMaps[key]) ==> e.attempted == []
    ensures !ListsFail(w, w.cluster.configMaps[key]) ==>
      && Distinct(e.attempted)
      && forall k :: k in e.attempted <==>
           exists p :: p in w.api.pods && IsTargetReason(w, cfg, e.registry, w.cluster.configMaps[key], p, k)
  {
    LoadsMap(w, before, key);
    hide ReadingOf, WithMap, IsUsableMap, OnlySkips, AsksForTargets, IsTarget, IsProtected, ListFails, Reconciled;
    var targets, cm := ReadingOf(w, key).targets, w.cluster.configMaps[key];
    FailsToListExactly(w.api, targets);
    LoadedIsSwept(w, cfg, before, key, e);
    if !ListsFail(w, cm) {
      SweptWorkloads(View(e.registry, cfg, w.rs), targets, cm, w, e.attempted);
    }
  }

  lemma LoadedIsSwept(w: World, cfg: SDKInject, before: Instruments, key: string, e: Effect)
    requires Reconciled(w, cfg, before, key, e) && ReadingOf(w, key).Loaded?
    requires !ReadingOf(w, key).cleanup && ReadingOf(w, key).targets != {}
    requires !cfg.noAutoRestart && w.webhookReady && w.serviceDials
    ensures e.result == Done && e.registry == Contributing(before[key := ReadingOf(w, key).inst])
    ensures Swept(View(e.registry, cfg, w.rs), ReadingOf(w, key).targets, false, w.api, e.attempted)
  {
    hide ReadingOf, Contributing, Swept, SweepFails, RefreshFails, Snapshot;
  }

  lemma SweptWorkloads(v: View, targets: set<RestartCriterion>, cm: ConfigMap, w: World, attempted: seq<WorkloadKey>)
    requires forall t :: t in targets <==> IsTarget(cm, t)
    requires v.rs == w.rs && Strings.Elements(attempted) == ToRestart(v, ByTargets(targets), w.api.pods)
    ensures forall k :: k in attempted <==> exists p :: p in w.api.pods && IsTargetReason(w, v.cfg, v.instruments, cm, p, k)
  {
    forall k ensures k in attempted <==> exists p :: p in w.api.pods && IsTargetReason(w, v.cfg, v.instruments, cm, p, k) {
      assert k in attempted <==> k in Strings.Elements(attempted);
      RestartedExactly(v, targets, w.api.pods, k);
      forall p ensures IsReason(v, targets, p, k) <==> IsTargetReason(w, v.cfg, v.instruments, cm, p, k) {
        hide IsTarget, IsUnder, NeedsRestart, MayBeRestarted, IsOwnedBy, MatchResult, Info;
      }
      hide IsReason, IsTargetReason;
    }
  }

  /** A refresh fails if the maps cannot be listed, a live annotation's node cannot be read, or a map it reads crashes the parser. */
  lemma RefreshFailsExactly(w: World)
    ensures RefreshFails(w) <==> w.listFails || exists k :: k in w.cluster.configMaps && var cm := w.cluster.configMaps[k];
      NodeIsUnreadable(w, cm) || (NamesLiveNodeOrNone(w.cluster.nodes, cm) && MakesParserPanic(cm))
  {
    forall k | k in w.cluster.configMaps
      ensures var cm := w.cluster.configMaps[k];
        StopsRefresh(w, cm) <==> NodeIsUnreadable(w, cm) || (NamesLiveNodeOrNone(w.cluster.nodes, cm) && MakesParserPanic(cm))
    {
      ParseByDocuments(w.cluster.configMaps[k]);
    }
    hide StopsRefresh, NodeIsUnreadable, NamesLiveNodeOrNone, MakesParserPanic;
  }

  /** The pod is injected, may be restarted, and no published rule matches it. */
  ghost predicate IsLeftOver(w: World, p: Pod, k: WorkloadKey) {
    && MayBeRestarted(p) && IsInjected(p) && IsOwnedBy(Info(p.meta, w.rs), k)
    && MatchResult(SdkRules, Snapshot(w.cluster), Info(p.meta, w.rs)) == None
  }

  /**
   A cleanup past the gates whose refresh and pod list succeed patches, each once, exactly the
   workloads that own a left-over pod, and fails exactly when a patch does.
   */
  lemma LeftOversAreSwept(w: World, cfg: SDKInject, before: Instruments, key: string, e: Effect)
    requires Reconciled(w, cfg, before, key, e)
    requires !w.getFails && (key !in w.cluster.configMaps || (IsUsableMap(w, key) && OnlySkips(w.cluster.configMaps[key])))
    requires !cfg.noAutoRestart && w.webhookReady && w.serviceDials && !RefreshFails(w) && !w.api.listAllFails
    ensures e.registry == Snapshot(w.cluster) && Distinct(e.attempted)
    ensures forall k :: k in e.attempted <==> exists p :: p in w.api.pods && IsLeftOver(w, p, k)
    ensures e.result == if exists k :: k in e.attempted && k in w.api.patchFails then Failed else Done
  {
    CleanupIsAskedFor(w, key);
    CleanupIsNotPutOff(w, cfg, before, key, e);
    assert ReachesPods(w);
    hide Reconciled, Snapshot, RefreshFails, IsLeftOver, IsOrphaned, IsCleanup, IsUsableMap, OnlySkips;
    CleanupExactly(w, cfg, before, key, e);
    forall k ensures k in e.attempted <==> exists p :: p in w.api.pods && IsLeftOver(w, p, k) {
      OrphansAreLeftOver(w, k);
    }
  }

  lemma CleanupIsNotPutOff(w: World, cfg: SDKInject, before: Instruments, key: string, e: Effect)
    requires Reconciled(w, cfg, before, key, e) && IsCleanup(w, key) && w.webhookReady && w.serviceDials
    ensures e.result != Later
  {
    hide ReadingOf, Snapshot, RefreshFails, Swept, SweepFails, Contributing;
  }

  lemma OrphansAreLeftOver(w: World, k: WorkloadKey)
    ensures IsOrphaned(w, k) <==> exists p :: p in w.api.pods && IsLeftOver(w, p, k)
  {
    forall p: Pod ensures ResolveWorkload(Info(p.meta, w.rs)) == Some(k) <==> IsOwnedBy(Info(p.meta, w.rs), k) {
      WorkloadIsTopmost(Info(p.meta, w.rs), k);
    }
    hide Info;
    forall p: Pod ensures IsCandidate(p) && IsInstrumented(p.meta) <==> MayBeRestarted(p) && IsInjected(p) {
    }
    hide MayBeRestarted, IsInjected, IsInstrumented, IsCandidate, IsOwnedBy, MatchResult, ResolveWorkload;
  }

  lemma CleanupIsAskedFor(w: World, key: string)
    requires !w.getFails && (key !in w.cluster.configMaps || (IsUsableMap(w, key) && OnlySkips(w.cluster.configMaps[key])))
    ensures IsCleanup(w, key)
  {
    if key in w.cluster.configMaps {
      LoadsMap(w, map[], key);
    }
  }

  // ---- what whole runs leave behind

  /**
   After any run of the one worker, a key that nothing announces, that is not being processed and
   whose changes were all passed on is registered with exactly what its ConfigMap publishes.
   */
  lemma RunsRegisterExactly(cfg: SDKInject, c: Cluster, steps: seq<Step>, key: string)
    requires CanRun(cfg, Init(c, 1), steps)
    ensures var s := Final(cfg, Init(c, 1), steps);
      !IsMarked(s, key) && !IsProcessed(s, key) && key !in s.lost ==>
        && (forall inst :: key in s.registry && s.registry[key] == inst <==>
             key in s.cluster.configMaps && Publishes(s.cluster.nodes, s.cluster.configMaps[key], inst))
        && (key in s.cluster.configMaps && NamesDepartedNode(s.cluster.nodes, s.cluster.configMaps[key]) ==> key !in s.registry)
  {
    RegistryFollowsCluster(cfg, c, steps, key);
    var s := Final(cfg, Init(c, 1), steps);
    hide Final, CanRun, Prescribed, IsMarked, IsProcessed;
    forall inst ensures Prescribed(s.cluster, key) == Some(inst) <==>
      key in s.cluster.configMaps && Publishes(s.cluster.nodes, s.cluster.configMaps[key], inst)
    {
      PrescribedExactly(s.cluster, key, inst);
    }
  }
}
