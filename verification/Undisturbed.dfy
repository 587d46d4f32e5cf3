/** The two views of a reconcile agree: the method's effect is a run of the worker during which nothing else happens. */
module Undisturbed {
  import opened Kube
  import opened RuleRegistry
  import opened Config
  import opened Payload
  import opened Rollout
  import opened ClusterState
  import opened Reconciler
  import opened Machine
  import opened RegistryRuns

  /** The worker is done, the effect is in place, and a result other than `Done` holds the key back for a retry. */
  ghost predicate IsEffect(s: State, t: State, i: nat, key: string, e: Effect) {
    && |t.workers| == |s.workers| && i < |s.workers| && t.workers == s.workers[i := Idle]
    && t.cluster == s.cluster && t.configMapEvents == s.configMapEvents && t.nodeEvents == s.nodeEvents && t.dirty == s.dirty
    && t.registry == e.registry
    && t.retry == s.retry + (if e.result == Done then {} else {key})
    && ((t.log == s.log && e.attempted == [])
        || (|t.log| == |s.log| + 1 && t.log[..|s.log|] == s.log && t.log[|s.log|].attempted == e.attempted))
  }

  lemma SweepIsARun(cfg: SDKInject, s: State, i: nat, w: World, key: string, job: Job, e: Effect) returns (steps: seq<Step>)
    requires i < |s.workers| && s.workers[i] == Busy(key, Sweeping(job))
    requires e.registry == s.registry && Swept(View(e.registry, cfg, w.rs), job.targets, job.cleanup, w.api, e.attempted)
    requires e.result == if job.cleanup && SweepFails(job.targets, job.cleanup, w.api, e.attempted) then Failed else Done
    ensures CanRun(cfg, s, steps) && IsEffect(s, Final(cfg, s, steps), i, key, e)
  {
    hide CanRun, Final, Swept, SweepFails;
    EmptyRun(cfg, s);
    steps := Extend(cfg, s, [], s, Sweep(i, w.rs, w.api, e.attempted));
  }

  /** Two runs in a row. */
  lemma {:induction false} RunConcat(cfg: SDKInject, s: State, a: seq<Step>, b: seq<Step>)
    requires CanRun(cfg, s, a) && CanRun(cfg, Final(cfg, s, a), b)
    ensures CanRun(cfg, s, a + b) && Final(cfg, s, a + b) == Final(cfg, Final(cfg, s, a), b)
    decreases |a|
  {
    hide Enabled, Apply;
    if a == [] {
      assert a + b == b;
    } else {
      assert (a + b)[1..] == a[1..] + b;
      RunConcat(cfg, Apply(cfg, s, a[0]), a[1..], b);
    }
  }

  lemma StepThen(cfg: SDKInject, s: State, step: Step, rest: seq<Step>)
    requires Enabled(cfg, s, step) && CanRun(cfg, Apply(cfg, s, step), rest)
    ensures CanRun(cfg, s, [step] + rest) && Final(cfg, s, [step] + rest) == Final(cfg, Apply(cfg, s, step), rest)
  {
    hide Enabled, Apply;
    assert ([step] + rest)[1..] == rest;
  }

  /** The listed maps still to be looked at, and those already collected. */
  ghost predicate IsRefreshing(s: State, i: nat, w: World, key: string, job: Job, todo: map<string, ConfigMap>, acc: Instruments) {
    && i < |s.workers| && s.workers[i] == Busy(key, Refreshing(job, todo, acc))
    && w.cluster == s.cluster
    && todo.Keys <= s.cluster.configMaps.Keys && (forall k :: k in todo ==> todo[k] == s.cluster.configMaps[k])
    && Collected(w, s.cluster.configMaps.Keys - todo.Keys, acc)
  }

  /** If no map stops the refresh, it goes through all of them in some order and replaces the registry. */
  lemma {:induction false} RefreshIsARun(cfg: SDKInject, s: State, i: nat, w: World, key: string, job: Job,
      todo: map<string, ConfigMap>, acc: Instruments) returns (steps: seq<Step>, last: Job)
    requires IsRefreshing(s, i, w, key, job, todo, acc) && !RefreshFails(w)
    ensures CanRun(cfg, s, steps) && last.targets == job.targets && last.cleanup == job.cleanup
    ensures Final(cfg, s, steps) == s.(registry := Snapshot(w.cluster), lost := s.lostSinceList,
      workers := s.workers[i := Busy(key, Sweeping(last))])
    decreases |todo|
  {
    hide CanRun, Final, ParseOf;
    if todo == map[] {
      assert s.cluster.configMaps.Keys - todo.Keys == w.cluster.configMaps.Keys;
      CollectedAll(w, acc);
      EmptyRun(cfg, s);
      steps := Extend(cfg, s, [], s, Replace(i));
      last := job;
    } else {
      var k :| k in todo;
      var step := Refresh(i, k, NodeReadFails(w, todo[k]));
      var next := RefreshStep(cfg, s, i, w, key, job, todo, acc, k);
      var t := Apply(cfg, s, step);
      steps, last := RefreshIsARun(cfg, t, i, w, key, WithRead(job, k, s.cluster), todo - {k}, next);
      StepThen(cfg, s, step, steps);
      steps := [step] + steps;
      assert s.workers == t.workers[i := s.workers[i]];
    }
  }

  lemma RefreshStep(cfg: SDKInject, s: State, i: nat, w: World, key: string, job: Job,
      todo: map<string, ConfigMap>, acc: Instruments, k: string) returns (next: Instruments)
    requires IsRefreshing(s, i, w, key, job, todo, acc) && !RefreshFails(w) && k in todo
    ensures Enabled(cfg, s, Refresh(i, k, NodeReadFails(w, todo[k])))
    ensures var t := Apply(cfg, s, Refresh(i, k, NodeReadFails(w, todo[k])));
      && t == s.(workers := s.workers[i := Busy(key, Refreshing(WithRead(job, k, s.cluster), todo - {k}, next))])
      && IsRefreshing(t, i, w, key, WithRead(job, k, s.cluster), todo - {k}, next)
  {
    hide ParseOf;
    var t := Apply(cfg, s, Refresh(i, k, NodeReadFails(w, todo[k])));
    assert !StopsRefresh(w, s.cluster.configMaps[k]);
    next := t.workers[i].pc.acc;
    var done := s.cluster.configMaps.Keys - todo.Keys;
    assert done + {k} == s.cluster.configMaps.Keys - (todo - {k}).Keys;
    CollectOneMore(w, done, acc, k, next);
  }

  /** A refresh that fails ends the reconcile before anything is replaced. */
  lemma FailedRefreshIsARun(cfg: SDKInject, s: State, i: nat, w: World, key: string, job: Job) returns (steps: seq<Step>)
    requires i < |s.workers| && s.workers[i] == Busy(key, Listing(job)) && w.cluster == s.cluster && RefreshFails(w)
    ensures CanRun(cfg, s, steps) && IsEffect(s, Final(cfg, s, steps), i, key, Effect(s.registry, Failed, []))
  {
    hide CanRun, Final, ParseOf;
    EmptyRun(cfg, s);
    steps := Extend(cfg, s, [], s, List(i, w.listFails));
    if !w.listFails {
      var t := Apply(cfg, s, List(i, false));
      var k :| k in w.cluster.configMaps && StopsRefresh(w, w.cluster.configMaps[k]);
      steps := Extend(cfg, s, steps, t, Refresh(i, k, NodeReadFails(w, w.cluster.configMaps[k])));
    }
  }

  /** From the listing to the sweep, when nothing stops the refresh. */
  lemma CleanupIsARun(cfg: SDKInject, s: State, i: nat, w: World, key: string, job: Job, e: Effect) returns (steps: seq<Step>)
    requires i < |s.workers| && s.workers[i] == Busy(key, Listing(job)) && w.cluster == s.cluster && !RefreshFails(w)
    requires job.cleanup && e.registry == Snapshot(w.cluster)
    requires Swept(View(e.registry, cfg, w.rs), job.targets, true, w.api, e.attempted)
    requires e.result == if SweepFails(job.targets, true, w.api, e.attempted) then Failed else Done
    ensures CanRun(cfg, s, steps) && IsEffect(s, Final(cfg, s, steps), i, key, e)
  {
    hide CanRun, Final, ParseOf, Swept, SweepFails, RefreshFails, Snapshot;
    ListSucceeds(w);
    EmptyRun(cfg, s);
    steps := Extend(cfg, s, [], s, List(i, false));
    var t := Apply(cfg, s, List(i, false));
    var listed := job.(loaded := Some(Load(s.cluster, map[])));
    NothingCollected(t, i, w, key, listed);
    var refresh, last := RefreshIsARun(cfg, t, i, w, key, listed, s.cluster.configMaps, map[]);
    RunConcat(cfg, s, steps, refresh);
    var u := Final(cfg, t, refresh);
    var sweep := SweepIsARun(cfg, u, i, w, key, last, e);
    RunConcat(cfg, s, steps + refresh, sweep);
    steps := steps + refresh + sweep;
  }

  lemma ListSucceeds(w: World)
    requires !RefreshFails(w)
    ensures !w.listFails
  {
  }

  lemma NothingCollected(s: State, i: nat, w: World, key: string, job: Job)
    requires i < |s.workers| && s.workers[i] == Busy(key, Refreshing(job, s.cluster.configMaps, map[])) && w.cluster == s.cluster
    ensures IsRefreshing(s, i, w, key, job, s.cluster.configMaps, map[])
  {
    assert s.cluster.configMaps.Keys - s.cluster.configMaps.Keys == {};
  }

  /** From the gate on, with both checks passed. */
  lemma PassedGateIsARun(cfg: SDKInject, s: State, i: nat, w: World, key: string, job: Job, e: Effect) returns (steps: seq<Step>)
    requires i < |s.workers| && s.workers[i] == Busy(key, Dial(job)) && w.cluster == s.cluster
    requires !cfg.noAutoRestart && w.webhookReady && w.serviceDials
    requires RolledOut(w, cfg, s.registry, job.targets, job.cleanup, e)
    ensures CanRun(cfg, s, steps) && IsEffect(s, Final(cfg, s, steps), i, key, e)
  {
    hide CanRun, Final, Swept, SweepFails, RefreshFails, Snapshot;
    EmptyRun(cfg, s);
    steps := Extend(cfg, s, [], s, CheckDial(i, true));
    var t := Apply(cfg, s, CheckDial(i, true));
    var j := job.(dialled := true);
    var rest: seq<Step>;
    if !job.cleanup {
      rest := SweepIsARun(cfg, t, i, w, key, j, e);
    } else if RefreshFails(w) {
      rest := FailedRefreshIsARun(cfg, t, i, w, key, j);
    } else {
      rest := CleanupIsARun(cfg, t, i, w, key, j, e);
    }
    RunConcat(cfg, s, steps, rest);
    steps := steps + rest;
  }

  lemma GateIsARun(cfg: SDKInject, s: State, i: nat, w: World, key: string, job: Job, e: Effect) returns (steps: seq<Step>)
    requires i < |s.workers| && s.workers[i] == Busy(key, Gate(job)) && w.cluster == s.cluster
    requires !cfg.noAutoRestart && RolledOut(w, cfg, s.registry, job.targets, job.cleanup, e)
    ensures CanRun(cfg, s, steps) && IsEffect(s, Final(cfg, s, steps), i, key, e)
  {
    hide CanRun, Final, Swept, SweepFails, RefreshFails, Snapshot;
    EmptyRun(cfg, s);
    steps := Extend(cfg, s, [], s, CheckReady(i, w.webhookReady));
    var t := Apply(cfg, s, CheckReady(i, w.webhookReady));
    if w.webhookReady && !w.serviceDials {
      steps := Extend(cfg, s, steps, t, CheckDial(i, false));
    } else if w.webhookReady {
      var rest := PassedGateIsARun(cfg, t, i, w, key, job.(ready := true), e);
      RunConcat(cfg, s, steps, rest);
      steps := steps + rest;
    }
  }

  /** The step that writes the registry, and the rollout behind it. */
  lemma WriteIsARun(cfg: SDKInject, s: State, i: nat, w: World, key: string, step: Step, job: Job, e: Effect) returns (steps: seq<Step>)
    requires i < |s.workers| && s.workers[i].Busy? && s.workers[i].key == key && w.cluster == s.cluster
    requires (step == Drop(i) && s.workers[i].pc == Dropping(ThenRollOut) && job == Job({}, true, false, false, None))
      || (step == Set(i) && s.workers[i].pc.Setting? && s.workers[i].pc.next == Some(job))
    requires RolledOut(w, cfg, Apply(cfg, s, step).registry, job.targets, job.cleanup, e)
    ensures CanRun(cfg, s, steps) && IsEffect(s, Final(cfg, s, steps), i, key, e)
  {
    hide CanRun, Final, Swept, SweepFails, RefreshFails, Snapshot;
    EmptyRun(cfg, s);
    steps := Extend(cfg, s, [], s, step);
    if !cfg.noAutoRestart {
      var rest := GateIsARun(cfg, Apply(cfg, s, step), i, w, key, job, e);
      RunConcat(cfg, s, steps, rest);
      steps := steps + rest;
    }
  }

  /** The part after a successful read of an annotated map. */
  lemma LoadIsARun(cfg: SDKInject, s: State, i: nat, w: World, key: string, e: Effect) returns (steps: seq<Step>)
    requires w.cluster == s.cluster && !w.getFails && key in s.cluster.configMaps && s.cluster.configMaps[key].node.Some?
    requires i < |s.workers| && s.workers[i] == Busy(key, Read(s.cluster.configMaps[key]))
    requires Reconciled(w, cfg, s.registry, key, e)
    ensures CanRun(cfg, s, steps) && IsEffect(s, Final(cfg, s, steps), i, key, e)
  {
    hide CanRun, Final, RolledOut, ParseOf, NodeEligible, AsksForCleanup;
    if ReadingOf(w, key).Loaded? {
      steps := LoadedIsARun(cfg, s, i, w, key, e);
    } else {
      var fails := NodeReadFails(w, s.cluster.configMaps[key]);
      EmptyRun(cfg, s);
      steps := Extend(cfg, s, [], s, ReadNode(i, fails));
      if !ReadingOf(w, key).Crash? {
        steps := Extend(cfg, s, steps, Apply(cfg, s, ReadNode(i, fails)), Drop(i));
      }
    }
  }

  lemma LoadedIsARun(cfg: SDKInject, s: State, i: nat, w: World, key: string, e: Effect) returns (steps: seq<Step>)
    requires w.cluster == s.cluster && ReadingOf(w, key).Loaded?
    requires i < |s.workers| && s.workers[i] == Busy(key, Read(s.cluster.configMaps[key]))
    requires Reconciled(w, cfg, s.registry, key, e)
    ensures CanRun(cfg, s, steps) && IsEffect(s, Final(cfg, s, steps), i, key, e)
  {
    hide CanRun, Final, RolledOut, ParseOf, NodeEligible, AsksForCleanup;
    EmptyRun(cfg, s);
    steps := Extend(cfg, s, [], s, ReadNode(i, false));
    var t := Apply(cfg, s, ReadNode(i, false));
    var Loaded(inst, targets, cleanup) := ReadingOf(w, key);
    if !cleanup && targets == {} {
      steps := Extend(cfg, s, steps, t, Set(i));
    } else {
      var rest := WriteIsARun(cfg, t, i, w, key, Set(i), Job(targets, cleanup, false, false, None), e);
      RunConcat(cfg, s, steps, rest);
      steps := steps + rest;
    }
  }

  /** Whatever the method may do to a cluster that holds still, the worker can do in steps. */
  lemma ReconcileIsARun(cfg: SDKInject, s: State, i: nat, w: World, key: string, e: Effect) returns (steps: seq<Step>)
    requires w.cluster == s.cluster && i < |s.workers| && s.workers[i] == Busy(key, Start)
    requires Reconciled(w, cfg, s.registry, key, e)
    ensures CanRun(cfg, s, steps) && IsEffect(s, Final(cfg, s, steps), i, key, e)
  {
    hide CanRun, Final, RolledOut;
    EmptyRun(cfg, s);
    steps := Extend(cfg, s, [], s, Get(i, w.getFails));
    var t := Apply(cfg, s, Get(i, w.getFails));
    match ReadingOf(w, key)
    case Unreadable =>
    case Missing =>
      var rest := WriteIsARun(cfg, t, i, w, key, Drop(i), Job({}, true, false, false, None), e);
      RunConcat(cfg, s, steps, rest);
      steps := steps + rest;
    case Unannotated => steps := Extend(cfg, s, steps, t, Drop(i));
    case _ =>
      var rest := LoadIsARun(cfg, t, i, w, key, e);
      RunConcat(cfg, s, steps, rest);
      steps := steps + rest;
  }
}
