/** Exactly when a change that is never announced leaves the registry wrong, and for how long. */
module DroppedEvents {
  import opened Kube
  import opened RuleRegistry
  import opened Config
  import opened Payload
  import opened ClusterState
  import opened Reconciler
  import opened Machine
  import opened RegistryInvariant

  // ---- what the watches pass on

  /** At the start exactly the annotated ConfigMaps and all nodes are announced, and nothing is registered, queued or lost. */
  lemma AnnouncedAtStart(c: Cluster, workers: nat, key: string, name: string)
    ensures var s := Init(c, workers);
      && (key in s.configMapEvents <==> key in c.configMaps && c.configMaps[key].node.Some?)
      && (name in s.nodeEvents <==> name in c.nodes)
      && s.cluster == c && s.registry == map[] && s.dirty == {} && s.retry == {} && s.lost == {} && s.log == []
      && |s.workers| == workers && forall w :: w in s.workers ==> w == Idle
  {
  }

  /** The watch on ConfigMaps passes on what is annotated now, or was when it was deleted. */
  lemma MapIsAnnounced(cfg: SDKInject, s: State, step: Step, key: string)
    requires Enabled(cfg, s, step) && (step.PutConfigMap? || step.RemoveConfigMap?)
    ensures key in Apply(cfg, s, step).configMapEvents <==>
      || key in s.configMapEvents
      || (key == step.key && if step.PutConfigMap? then step.cm.node.Some? else s.cluster.configMaps[key].node.Some?)
    ensures Apply(cfg, s, step).nodeEvents == s.nodeEvents && Apply(cfg, s, step).dirty == s.dirty
  {
  }

  /** The watch on nodes passes on what appears, goes, or starts or stops terminating. */
  lemma NodeIsAnnounced(cfg: SDKInject, s: State, step: Step, name: string)
    requires Enabled(cfg, s, step) && (step.PutNode? || step.RemoveNode?)
    ensures name in Apply(cfg, s, step).nodeEvents <==>
      || name in s.nodeEvents
      || (name == step.name && (name !in s.cluster.nodes || step.RemoveNode? || s.cluster.nodes[name] != step.terminating))
    ensures Apply(cfg, s, step).configMapEvents == s.configMapEvents && Apply(cfg, s, step).dirty == s.dirty
  {
  }

  /** A ConfigMap's event queues its key; a node's queues the maps that name it, or none if they cannot be listed. */
  lemma EventIsQueued(cfg: SDKInject, s: State, step: Step, key: string)
    requires Enabled(cfg, s, step) && (step.DeliverConfigMap? || step.DeliverNode?)
    ensures step.DeliverConfigMap? ==> (key in Apply(cfg, s, step).dirty <==> key in s.dirty || key == step.key)
    ensures step.DeliverNode? ==> (key in Apply(cfg, s, step).dirty <==>
      || key in s.dirty
      || (!step.fails && key in s.cluster.configMaps && s.cluster.configMaps[key].node == Some(step.name)))
  {
  }

  /** The key is settled: nothing is outstanding and the worker is not about to write its entry. */
  ghost predicate IsSettled(s: State, key: string) {
    Inv(s) && IsFresh(s, key) && !(WillWrite(s.workers[0]) && s.workers[0].key == key)
  }

  /** Removing the annotation of a settled map announces nothing, and leaves its entry stale exactly when it had one. */
  lemma StrippedExactly(cfg: SDKInject, s: State, key: string, cm: ConfigMap)
    requires IsSettled(s, key) && cm.node.None?
    ensures var t := Apply(cfg, s, PutConfigMap(key, cm));
      !IsMarked(t, key) && (Agrees(t, key) <==> Prescribed(s.cluster, key).None?)
  {
    hide ParseOf;
    assert Agrees(s, key);
  }

  // ---- until when

  /** Nothing brings the key back: no event, no resync, no refresh. */
  predicate LeavesAlone(step: Step, key: string) {
    && !(step.PutConfigMap? && step.key == key && step.cm.node.Some?)
    && !(step.Resync? && step.key == key)
    && !step.Replace?
  }

  /** Unannotated, not queued, and in no worker's hands. */
  predicate IsStranded(s: State, key: string) {
    && !IsAnnotated(s.cluster, key) && !IsProcessed(s, key)
    && key !in s.configMapEvents && key !in s.dirty && key !in s.retry
  }

  lemma OutsideStrands(cfg: SDKInject, s: State, step: Step, key: string)
    requires IsStranded(s, key) && Enabled(cfg, s, step) && LeavesAlone(step, key) && IsOutside(step)
    ensures IsStranded(Apply(cfg, s, step), key) && Apply(cfg, s, step).registry == s.registry
  {
  }

  lemma WorkStrands(cfg: SDKInject, s: State, step: Step, key: string)
    requires IsStranded(s, key) && Enabled(cfg, s, step) && !IsOutside(step)
    ensures IsStranded(Apply(cfg, s, step), key)
  {
    hide ParseOf, Swept, SweepFails, Contributing;
  }

  lemma WorkKeepsEntry(cfg: SDKInject, s: State, step: Step, key: string)
    requires !IsProcessed(s, key) && Enabled(cfg, s, step) && !IsOutside(step) && !step.Replace?
    requires forall k :: k in s.registry ==> s.registry[k].rules != []
    ensures Entry(Apply(cfg, s, step).registry, key) == Entry(s.registry, key)
    ensures forall k :: k in Apply(cfg, s, step).registry ==> Apply(cfg, s, step).registry[k].rules != []
  {
    hide ParseOf, Swept, SweepFails;
  }

  lemma StepStrands(cfg: SDKInject, s: State, step: Step, key: string)
    requires IsStranded(s, key) && Enabled(cfg, s, step) && LeavesAlone(step, key)
    requires forall k :: k in s.registry ==> s.registry[k].rules != []
    ensures var t := Apply(cfg, s, step);
      && IsStranded(t, key) && Entry(t.registry, key) == Entry(s.registry, key)
      && forall k :: k in t.registry ==> t.registry[k].rules != []
  {
    if IsOutside(step) {
      OutsideStrands(cfg, s, step, key);
    } else {
      hide Enabled, Apply;
      WorkStrands(cfg, s, step, key);
      WorkKeepsEntry(cfg, s, step, key);
    }
  }

  lemma {:induction false} RunStrands(cfg: SDKInject, s: State, steps: seq<Step>, key: string)
    requires IsStranded(s, key) && CanRun(cfg, s, steps)
    requires forall i :: 0 <= i < |steps| ==> LeavesAlone(steps[i], key)
    requires forall k :: k in s.registry ==> s.registry[k].rules != []
    ensures IsStranded(Final(cfg, s, steps), key) && Entry(Final(cfg, s, steps).registry, key) == Entry(s.registry, key)
    decreases |steps|
  {
    hide IsStranded, LeavesAlone, Enabled, Apply;
    if steps != [] {
      StepStrands(cfg, s, steps[0], key);
      assert forall i | 0 <= i < |steps| - 1 :: steps[1..][i] == steps[i + 1];
      RunStrands(cfg, Apply(cfg, s, steps[0]), steps[1..], key);
    }
  }

  /**
   The entry of a map whose annotation was removed stays as it was over every run in which the map is
   not annotated again, no resync brings its key back and no refresh ends: wrong exactly if it was there.
   */
  lemma StrippedUntilAnnounced(cfg: SDKInject, s: State, key: string, cm: ConfigMap, steps: seq<Step>)
    requires IsSettled(s, key) && !IsProcessed(s, key) && cm.node.None?
    requires CanRun(cfg, Apply(cfg, s, PutConfigMap(key, cm)), steps)
    requires forall i :: 0 <= i < |steps| ==> LeavesAlone(steps[i], key)
    ensures var t := Final(cfg, Apply(cfg, s, PutConfigMap(key, cm)), steps);
      && !IsMarked(t, key) && Prescribed(t.cluster, key) == None
      && (Agrees(t, key) <==> Prescribed(s.cluster, key).None?)
  {
    var stripped := Apply(cfg, s, PutConfigMap(key, cm));
    StrippedExactly(cfg, s, key, cm);
    StrippedIsStranded(cfg, s, key, cm);
    hide Apply, Prescribed, IsMarked, IsStranded, IsSettled, LeavesAlone;
    RunStrands(cfg, stripped, steps, key);
    StrandedFacts(stripped, key);
    StrandedFacts(Final(cfg, stripped, steps), key);
  }

  lemma StrippedIsStranded(cfg: SDKInject, s: State, key: string, cm: ConfigMap)
    requires IsSettled(s, key) && !IsProcessed(s, key) && cm.node.None?
    ensures var t := Apply(cfg, s, PutConfigMap(key, cm));
      IsStranded(t, key) && forall k :: k in t.registry ==> t.registry[k].rules != []
  {
    hide Prescribed;
  }

  lemma StrandedFacts(s: State, key: string)
    requires IsStranded(s, key)
    ensures Prescribed(s.cluster, key) == None && !IsMarked(s, key)
  {
  }

  // ---- a node event that finds no list

  predicate ChangesNode(step: Step, name: string) {
    (step.PutNode? && step.name == name) || (step.RemoveNode? && step.name == name)
  }

  /** The map has an entry whenever its node allows one. */
  ghost predicate HasRules(cm: ConfigMap) {
    ParseOf(cm).Parsed? && ParseOf(cm).inst.rules != []
  }

  /**
   A node changes and the delivery of its event cannot list the maps bound to it: a settled map of
   that node is left wrong exactly when it has rules and the change decides whether they apply.
   */
  lemma DroppedNodeEventExactly(cfg: SDKInject, s: State, key: string, name: string, change: Step)
    requires IsSettled(s, key) && name != ""
    requires key in s.cluster.configMaps && s.cluster.configMaps[key].node == Some(name)
    requires ChangesNode(change, name) && Enabled(cfg, s, change) && name in Apply(cfg, s, change).nodeEvents
    ensures var changed := Apply(cfg, s, change);
      var t := Apply(cfg, changed, DeliverNode(name, true));
      && !IsMarked(t, key)
      && (Agrees(t, key) <==>
          !HasRules(s.cluster.configMaps[key]) || NodeEligible(changed.cluster.nodes, name) == NodeEligible(s.cluster.nodes, name))
  {
    hide ParseOf;
    assert Agrees(s, key);
  }
}
