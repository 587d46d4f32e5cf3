/** Whole runs: where the registry ends up, and the two ways it can go wrong. */
module RegistryRuns {
  import opened Kube
  import opened Rules
  import opened RuleRegistry
  import opened Config
  import opened Payload
  import opened ClusterState
  import opened Reconciler
  import opened Machine
  import opened RegistryInvariant

  lemma {:induction false} RunKeepsInv(cfg: SDKInject, s: State, steps: seq<Step>)
    requires Inv(s) && CanRun(cfg, s, steps)
    ensures Inv(Final(cfg, s, steps))
    decreases |steps|
  {
    hide Inv, Enabled, Apply;
    if steps != [] {
      StepKeepsInv(cfg, s, steps[0]);
      RunKeepsInv(cfg, Apply(cfg, s, steps[0]), steps[1..]);
    }
  }

  /**
   After any run of the one worker, a key that nothing announces, that is not being processed and
   whose changes were all passed on is registered exactly as the cluster prescribes.
   */
  lemma RegistryFollowsCluster(cfg: SDKInject, c: Cluster, steps: seq<Step>, key: string)
    requires CanRun(cfg, Init(c, 1), steps)
    ensures var s := Final(cfg, Init(c, 1), steps);
      !IsMarked(s, key) && !IsProcessed(s, key) && key !in s.lost ==> Entry(s.registry, key) == Prescribed(s.cluster, key)
  {
    InitInv(c);
    RunKeepsInv(cfg, Init(c, 1), steps);
    var s := Final(cfg, Init(c, 1), steps);
    if !IsMarked(s, key) && !IsProcessed(s, key) && key !in s.lost {
      assert IsFresh(s, key) && s.workers[0].Busy? ==> s.workers[0].key != key;
      assert Agrees(s, key);
    }
  }

  // ---- runs in which every change is passed on

  /** The step's change never reaches the queue. */
  predicate Drops(s: State, step: Step) {
    || (step.PutConfigMap? && step.cm.node.None? && IsAnnotated(s.cluster, step.key))
    || (step.DeliverNode? && step.fails && BoundTo(s.cluster, step.name) != {})
  }

  ghost predicate DropsNothing(cfg: SDKInject, s: State, steps: seq<Step>)
    requires CanRun(cfg, s, steps)
    decreases |steps|
  {
    steps == [] || (!Drops(s, steps[0]) && DropsNothing(cfg, Apply(cfg, s, steps[0]), steps[1..]))
  }

  lemma StepLosesNothing(cfg: SDKInject, s: State, step: Step)
    requires Enabled(cfg, s, step) && !Drops(s, step) && s.lost == {} && s.lostSinceList == {}
    ensures Apply(cfg, s, step).lost == {} && Apply(cfg, s, step).lostSinceList == {}
  {
    hide ParseOf, Swept, SweepFails;
  }

  lemma {:induction false} RunLosesNothing(cfg: SDKInject, s: State, steps: seq<Step>)
    requires CanRun(cfg, s, steps) && DropsNothing(cfg, s, steps) && s.lost == {} && s.lostSinceList == {}
    ensures Final(cfg, s, steps).lost == {}
    decreases |steps|
  {
    hide Enabled, Apply, Drops;
    if steps != [] {
      StepLosesNothing(cfg, s, steps[0]);
      RunLosesNothing(cfg, Apply(cfg, s, steps[0]), steps[1..]);
    }
  }

  /** Every event is delivered, the queue is empty and the workers are idle. */
  predicate IsQuiet(s: State) {
    && s.configMapEvents == {} && s.nodeEvents == {} && s.dirty == {} && s.retry == {}
    && forall i :: 0 <= i < |s.workers| ==> s.workers[i].Idle?
  }

  /** When such a run comes to rest, the registry is the snapshot of the cluster, restarts enabled or not. */
  lemma QuietRegistryIsSnapshot(cfg: SDKInject, c: Cluster, steps: seq<Step>)
    requires CanRun(cfg, Init(c, 1), steps) && DropsNothing(cfg, Init(c, 1), steps)
    requires IsQuiet(Final(cfg, Init(c, 1), steps))
    ensures Final(cfg, Init(c, 1), steps).registry == Snapshot(Final(cfg, Init(c, 1), steps).cluster)
  {
    var s := Final(cfg, Init(c, 1), steps);
    RunLosesNothing(cfg, Init(c, 1), steps);
    forall k ensures Entry(s.registry, k) == Prescribed(s.cluster, k) {
      RegistryFollowsCluster(cfg, c, steps, k);
    }
    AgreementIsSnapshot(s.cluster, s.registry);
  }

  /** A refresh repairs every entry gone stale before it listed the ConfigMaps. */
  lemma RefreshRepairs(cfg: SDKInject, s: State, i: nat, key: string)
    requires Inv(s) && Enabled(cfg, s, Replace(i))
    requires !IsMarked(s, key) && key !in s.lostSinceList
    ensures Agrees(Apply(cfg, s, Replace(i)), key)
  {
    var t := Apply(cfg, s, Replace(i));
    ReplaceKeepsInv(cfg, s, i);
    assert IsFresh(t, key);
  }

  // ---- building runs

  lemma {:induction false} RunSnoc(cfg: SDKInject, s: State, steps: seq<Step>, step: Step)
    requires CanRun(cfg, s, steps) && Enabled(cfg, Final(cfg, s, steps), step)
    ensures CanRun(cfg, s, steps + [step])
    ensures Final(cfg, s, steps + [step]) == Apply(cfg, Final(cfg, s, steps), step)
    decreases |steps|
  {
    hide Enabled, Apply;
    if steps == [] {
      assert steps + [step] == [step] && [step][1..] == [];
    } else {
      assert (steps + [step])[1..] == steps[1..] + [step];
      RunSnoc(cfg, Apply(cfg, s, steps[0]), steps[1..], step);
    }
  }

  lemma EmptyRun(cfg: SDKInject, s: State)
    ensures CanRun(cfg, s, []) && Final(cfg, s, []) == s
  {
  }

  lemma Extend(cfg: SDKInject, s: State, steps: seq<Step>, t: State, step: Step) returns (longer: seq<Step>)
    requires CanRun(cfg, s, steps) && Final(cfg, s, steps) == t && Enabled(cfg, t, step)
    ensures CanRun(cfg, s, longer) && Final(cfg, s, longer) == Apply(cfg, t, step)
  {
    RunSnoc(cfg, s, steps, step);
    longer := steps + [step];
  }

  /** A selector map that names no node and installs one rule. */
  function Simple(rule: Rule): ConfigMap {
    ConfigMap(Some(""), Some(Doc(InjectConfig("", [rule], false, []))), None)
  }

  lemma SimpleFacts(c: Cluster, key: string, rule: Rule)
    requires rule.config.mode != Skip && key in c.configMaps && c.configMaps[key] == Simple(rule)
    ensures Prescribed(c, key) == Some(InjectConfig("", [rule], false, []))
    ensures ParseOf(Simple(rule)) == Parsed(InjectConfig("", [rule], false, []), {}) && JobOf(Simple(rule), {}) == None
  {
    var rules := Simple(rule).instrumentation.value.value.rules;
    assert rules[0].config.mode != Skip;
    assert !AsksForCleanup(Simple(rule));
  }

  /** One worker takes the key of a simple map and registers it. */
  lemma RegisterSimple(cfg: SDKInject, s: State, steps: seq<Step>, t: State, i: nat, key: string, rule: Rule)
    returns (longer: seq<Step>)
    requires CanRun(cfg, s, steps) && Final(cfg, s, steps) == t
    requires rule.config.mode != Skip && key in t.cluster.configMaps && t.cluster.configMaps[key] == Simple(rule)
    requires i < |t.workers| && t.workers[i].Idle? && key in t.configMapEvents && !IsProcessed(t, key) && key !in t.dirty
    ensures CanRun(cfg, s, longer)
    ensures Final(cfg, s, longer) == t.(configMapEvents := t.configMapEvents - {key}, lost := t.lost - {key},
      registry := Contributing(t.registry[key := InjectConfig("", [rule], false, [])]))
  {
    hide ParseOf, JobOf, Contributing, CanRun, Final;
    SimpleFacts(t.cluster, key, rule);
    longer := Extend(cfg, s, steps, t, DeliverConfigMap(key));
    var t1 := Apply(cfg, t, DeliverConfigMap(key));
    longer := Extend(cfg, s, longer, t1, Take(i, key));
    var t2 := Apply(cfg, t1, Take(i, key));
    longer := Extend(cfg, s, longer, t2, Get(i, false));
    var t3 := Apply(cfg, t2, Get(i, false));
    longer := Extend(cfg, s, longer, t3, ReadNode(i, false));
    var t4 := Apply(cfg, t3, ReadNode(i, false));
    assert t4.workers[i].pc == Setting(InjectConfig("", [rule], false, []), None);
    longer := Extend(cfg, s, longer, t4, Set(i));
    assert t4.workers[i := Idle] == t.workers;
    assert t.dirty + {key} - {key} == t.dirty;
  }

  /** Without its annotation a registered map stays registered, and the system comes to rest that way. */
  lemma StrippedEntryStays(cfg: SDKInject, key: string, rule: Rule) returns (steps: seq<Step>)
    requires rule.config.mode != Skip
    ensures CanRun(cfg, Init(Cluster(map[key := Simple(rule)], map[]), 1), steps)
    ensures var s := Final(cfg, Init(Cluster(map[key := Simple(rule)], map[]), 1), steps);
      IsQuiet(s) && key in s.registry && Prescribed(s.cluster, key) == None
  {
    var s := Init(Cluster(map[key := Simple(rule)], map[]), 1);
    steps := RegisterSimple(cfg, s, [], s, 0, key, rule);
    var t := Final(cfg, s, steps);
    var bare := Simple(rule).(node := None);
    steps := Extend(cfg, s, steps, t, PutConfigMap(key, bare));
  }

  /**
   With two workers the invariant fails: one lists the ConfigMaps for a deleted key, the other
   registers a map created since, and the first then replaces the registry with what it listed.
   */
  lemma TwoWorkersForget(cfg: SDKInject, gone: string, key: string, rule: Rule) returns (steps: seq<Step>)
    requires !cfg.noAutoRestart && rule.config.mode != Skip && gone != key
    ensures CanRun(cfg, Init(Cluster(map[], map[]), 2), steps)
    ensures var s := Final(cfg, Init(Cluster(map[], map[]), 2), steps);
      && !IsMarked(s, key) && !IsProcessed(s, key) && s.lost == {}
      && key !in s.registry && Prescribed(s.cluster, key).Some?
  {
    hide CanRun, Final;
    var s := Init(Cluster(map[], map[]), 2);
    var t: State;
    steps, t := ReachListed(cfg, s, gone);
    steps := Extend(cfg, s, steps, t, PutConfigMap(key, Simple(rule)));
    var t1 := Apply(cfg, t, PutConfigMap(key, Simple(rule)));
    steps := RegisterSimple(cfg, s, steps, t1, 1, key, rule);
    var t2 := Final(cfg, s, steps);
    SimpleFacts(t2.cluster, key, rule);
    steps := Extend(cfg, s, steps, t2, Replace(0));
  }

  /** The first worker, on a key that is not there, gets as far as the gate. */
  lemma ReachGate(cfg: SDKInject, s: State, gone: string) returns (steps: seq<Step>, t: State)
    requires !cfg.noAutoRestart && s == Init(Cluster(map[], map[]), 2)
    ensures CanRun(cfg, s, steps) && Final(cfg, s, steps) == t
    ensures t == s.(workers := [Busy(gone, Gate(Job({}, true, false, false, None))), Idle])
  {
    hide CanRun, Final;
    EmptyRun(cfg, s);
    steps := Extend(cfg, s, [], s, Resync(gone));
    var t1 := Apply(cfg, s, Resync(gone));
    steps := Extend(cfg, s, steps, t1, Take(0, gone));
    var t2 := Apply(cfg, t1, Take(0, gone));
    assert t2 == s.(workers := [Busy(gone, Start), Idle]);
    steps := Extend(cfg, s, steps, t2, Get(0, false));
    var t3 := Apply(cfg, t2, Get(0, false));
    steps := Extend(cfg, s, steps, t3, Drop(0));
    t := Apply(cfg, t3, Drop(0));
  }

  /** From there it finds the webhook reachable and lists the ConfigMaps. */
  lemma ReachListed(cfg: SDKInject, s: State, gone: string) returns (steps: seq<Step>, t: State)
    requires !cfg.noAutoRestart && s == Init(Cluster(map[], map[]), 2)
    ensures CanRun(cfg, s, steps) && Final(cfg, s, steps) == t
    ensures t == s.(workers := [Busy(gone, Refreshing(Job({}, true, true, true, Some(Load(Cluster(map[], map[]), map[]))), map[], map[])), Idle])
  {
    hide CanRun, Final;
    var t4: State;
    steps, t4 := ReachGate(cfg, s, gone);
    steps := Extend(cfg, s, steps, t4, CheckReady(0, true));
    var t5 := Apply(cfg, t4, CheckReady(0, true));
    steps := Extend(cfg, s, steps, t5, CheckDial(0, true));
    var t6 := Apply(cfg, t5, CheckDial(0, true));
    steps := Extend(cfg, s, steps, t6, List(0, false));
    t := Apply(cfg, t6, List(0, false));
  }
}
