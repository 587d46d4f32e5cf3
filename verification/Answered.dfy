/**
 The other direction: a worker that takes a key to the end while nothing else happens, and whose calls
 are answered by fixed surroundings, has the effect of the reconcile method in these surroundings.
 */
module Answered {
  import opened RuleRegistry
  import opened Config
  import opened Payload
  import opened ClusterState
  import opened Reconciler
  import opened Machine
  import opened Undisturbed

  /** The step belongs to worker `i`, and its call is answered as `w` answers. */
  ghost predicate IsAnswered(w: World, s: State, i: nat, step: Step) {
    At(s, i) &&
      match step
      case Get(j, fails) => j == i && fails == w.getFails
      case ReadNode(j, fails) => j == i && s.workers[i].pc.Read? && fails == NodeReadFails(w, s.workers[i].pc.cm)
      case Drop(j) => j == i
      case Set(j) => j == i
      case CheckReady(j, ok) => j == i && ok == w.webhookReady
      case CheckDial(j, ok) => j == i && ok == w.serviceDials
      case List(j, fails) => j == i && fails == w.listFails
      case Refresh(j, k, fails) =>
        j == i && s.workers[i].pc.Refreshing? && k in s.workers[i].pc.todo && fails == NodeReadFails(w, s.workers[i].pc.todo[k])
      case Replace(j) => j == i
      case Sweep(j, rs, api, _) => j == i && rs == w.rs && api == w.api
      case _ => false
  }

  ghost predicate AllAnswered(cfg: SDKInject, w: World, s: State, i: nat, steps: seq<Step>)
    requires CanRun(cfg, s, steps)
    decreases |steps|
  {
    steps == [] || (IsAnswered(w, s, i, steps[0]) && AllAnswered(cfg, w, Apply(cfg, s, steps[0]), i, steps[1..]))
  }

  /** Nothing but the worker and the registry differs. */
  ghost predicate OnlyWorked(s0: State, s: State, i: nat) {
    && |s.workers| == |s0.workers| && i < |s0.workers| && s.workers == s0.workers[i := s.workers[i]]
    && s.cluster == s0.cluster && s.configMapEvents == s0.configMapEvents && s.nodeEvents == s0.nodeEvents
    && s.dirty == s0.dirty && s.retry == s0.retry && s.log == s0.log
  }

  /** The registry once the key's own entry is written. */
  ghost function Written(w: World, before: Instruments, key: string): Instruments {
    match ReadingOf(w, key)
    case Missing => before - {key}
    case Loaded(inst, _, _) => Contributing(before[key := inst])
    case _ => before
  }

  /** The rollout the reading of the key asks for. */
  ghost predicate IsAskedFor(w: World, key: string, job: Job) {
    match ReadingOf(w, key)
    case Missing => job.targets == {} && job.cleanup
    case Loaded(_, targets, cleanup) => job.targets == targets && job.cleanup == cleanup && (cleanup || targets != {})
    case _ => false
  }

  /** How far the refresh is: what it looked at is collected, and none of it stops the refresh. */
  ghost predicate IsHalfway(w: World, todo: map<string, ConfigMap>, acc: Instruments) {
    && todo.Keys <= w.cluster.configMaps.Keys && (forall k :: k in todo ==> todo[k] == w.cluster.configMaps[k])
    && Collected(w, w.cluster.configMaps.Keys - todo.Keys, acc)
    && forall k :: k in w.cluster.configMaps && k !in todo ==> !StopsRefresh(w, w.cluster.configMaps[k])
  }

  /** What the position of the worker says about the reading of the key and the registry. */
  ghost predicate IsOnPath(cfg: SDKInject, w: World, before: Instruments, key: string, m: Instruments, pc: Pc) {
    match pc
    case Start => m == before
    case Read(cm) =>
      m == before && !w.getFails && key in w.cluster.configMaps && w.cluster.configMaps[key] == cm && cm.node.Some?
    case Dropping(after) =>
      && m == before
      && (match after
          case ThenStop => var r := ReadingOf(w, key); r.Unannotated? || r.Ineligible? || r.BadPayload?
          case ThenRetry => ReadingOf(w, key).NodeUnknown?
          case ThenRollOut => ReadingOf(w, key).Missing?)
    case Setting(inst, next) =>
      && m == before && ReadingOf(w, key).Loaded? && ReadingOf(w, key).inst == inst
      && (next.None? <==> !ReadingOf(w, key).cleanup && ReadingOf(w, key).targets == {})
      && (next.Some? ==> IsAskedFor(w, key, next.value))
    case Gate(job) => m == Written(w, before, key) && IsAskedFor(w, key, job) && !cfg.noAutoRestart
    case Dial(job) => m == Written(w, before, key) && IsAskedFor(w, key, job) && !cfg.noAutoRestart && w.webhookReady
    case Listing(job) =>
      && m == Written(w, before, key) && IsAskedFor(w, key, job) && !cfg.noAutoRestart
      && w.webhookReady && w.serviceDials && job.cleanup
    case Refreshing(job, todo, acc) =>
      && m == Written(w, before, key) && IsAskedFor(w, key, job) && !cfg.noAutoRestart
      && w.webhookReady && w.serviceDials && job.cleanup && !w.listFails && IsHalfway(w, todo, acc)
    case Sweeping(job) =>
      && m == (if job.cleanup then Snapshot(w.cluster) else Written(w, before, key))
      && IsAskedFor(w, key, job) && !cfg.noAutoRestart
      && w.webhookReady && w.serviceDials && (job.cleanup ==> !RefreshFails(w))
  }

  ghost predicate IsDoing(cfg: SDKInject, w: World, s0: State, s: State, i: nat, key: string) {
    && OnlyWorked(s0, s, i) && w.cluster == s0.cluster
    && s.workers[i].Busy? && s.workers[i].key == key
    && IsOnPath(cfg, w, s0.registry, key, s.registry, s.workers[i].pc)
  }

  ghost predicate HasEnded(cfg: SDKInject, w: World, s0: State, s: State, i: nat, key: string) {
    exists e :: Reconciled(w, cfg, s0.registry, key, e) && IsEffect(s0, s, i, key, e)
  }

  ghost predicate IsDoingOrDone(cfg: SDKInject, w: World, s0: State, s: State, i: nat, key: string) {
    IsDoing(cfg, w, s0, s, i, key) || HasEnded(cfg, w, s0, s, i, key)
  }

  lemma Ends(cfg: SDKInject, w: World, s0: State, s: State, i: nat, key: string, e: Effect)
    requires Reconciled(w, cfg, s0.registry, key, e) && IsEffect(s0, s, i, key, e)
    ensures HasEnded(cfg, w, s0, s, i, key)
  {
  }

  // ---- one step

  lemma GetGoesOn(cfg: SDKInject, w: World, s0: State, s: State, i: nat, key: string, step: Step)
    requires IsDoing(cfg, w, s0, s, i, key) && Enabled(cfg, s, step) && IsAnswered(w, s, i, step) && step.Get?
    ensures IsDoingOrDone(cfg, w, s0, Apply(cfg, s, step), i, key)
  {
    hide ParseOf, RolledOut;
    if w.getFails {
      Ends(cfg, w, s0, Apply(cfg, s, step), i, key, Effect(s0.registry, Failed, []));
    }
  }

  lemma ReadNodeGoesOn(cfg: SDKInject, w: World, s0: State, s: State, i: nat, key: string, step: Step)
    requires IsDoing(cfg, w, s0, s, i, key) && Enabled(cfg, s, step) && IsAnswered(w, s, i, step) && step.ReadNode?
    ensures IsDoingOrDone(cfg, w, s0, Apply(cfg, s, step), i, key)
  {
    hide ParseOf, RolledOut;
    if ReadingOf(w, key).Crash? {
      Ends(cfg, w, s0, Apply(cfg, s, step), i, key, Effect(s0.registry, Failed, []));
    }
  }

  lemma DropGoesOn(cfg: SDKInject, w: World, s0: State, s: State, i: nat, key: string, step: Step)
    requires IsDoing(cfg, w, s0, s, i, key) && Enabled(cfg, s, step) && IsAnswered(w, s, i, step) && step.Drop?
    ensures IsDoingOrDone(cfg, w, s0, Apply(cfg, s, step), i, key)
  {
    hide ReadingOf;
    var t := Apply(cfg, s, step);
    match s.workers[i].pc.after
    case ThenStop => Ends(cfg, w, s0, t, i, key, Effect(s0.registry - {key}, Done, []));
    case ThenRetry => Ends(cfg, w, s0, t, i, key, Effect(s0.registry - {key}, Failed, []));
    case ThenRollOut =>
      if cfg.noAutoRestart {
        Ends(cfg, w, s0, t, i, key, Effect(s0.registry - {key}, Done, []));
      }
  }

  lemma SetGoesOn(cfg: SDKInject, w: World, s0: State, s: State, i: nat, key: string, step: Step)
    requires IsDoing(cfg, w, s0, s, i, key) && Enabled(cfg, s, step) && IsAnswered(w, s, i, step) && step.Set?
    ensures IsDoingOrDone(cfg, w, s0, Apply(cfg, s, step), i, key)
  {
    hide ReadingOf;
    var t := Apply(cfg, s, step);
    if s.workers[i].pc.next.None? || cfg.noAutoRestart {
      Ends(cfg, w, s0, t, i, key, Effect(t.registry, Done, []));
    }
  }

  lemma GatedEffect(cfg: SDKInject, w: World, before: Instruments, key: string, job: Job, e: Effect)
    requires IsAskedFor(w, key, job) && RolledOut(w, cfg, Written(w, before, key), job.targets, job.cleanup, e)
    ensures Reconciled(w, cfg, before, key, e)
  {
    hide ReadingOf, RolledOut;
  }

  lemma CheckGoesOn(cfg: SDKInject, w: World, s0: State, s: State, i: nat, key: string, step: Step)
    requires IsDoing(cfg, w, s0, s, i, key) && Enabled(cfg, s, step) && IsAnswered(w, s, i, step)
    requires step.CheckReady? || step.CheckDial?
    ensures IsDoingOrDone(cfg, w, s0, Apply(cfg, s, step), i, key)
  {
    hide ReadingOf, Written, Swept, SweepFails, RefreshFails;
    var t := Apply(cfg, s, step);
    if !step.ok {
      GatedEffect(cfg, w, s0.registry, key, s.workers[i].pc.job, Effect(s.registry, Later, []));
      Ends(cfg, w, s0, t, i, key, Effect(s.registry, Later, []));
    }
  }

  lemma ListGoesOn(cfg: SDKInject, w: World, s0: State, s: State, i: nat, key: string, step: Step)
    requires IsDoing(cfg, w, s0, s, i, key) && Enabled(cfg, s, step) && IsAnswered(w, s, i, step) && step.List?
    ensures IsDoingOrDone(cfg, w, s0, Apply(cfg, s, step), i, key)
  {
    hide ReadingOf, Written, Swept, SweepFails, ParseOf;
    var t := Apply(cfg, s, step);
    if step.fails {
      GatedEffect(cfg, w, s0.registry, key, s.workers[i].pc.job, Effect(s.registry, Failed, []));
      Ends(cfg, w, s0, t, i, key, Effect(s.registry, Failed, []));
    } else {
      assert w.cluster.configMaps.Keys - w.cluster.configMaps.Keys == {};
      assert IsHalfway(w, w.cluster.configMaps, map[]);
    }
  }

  lemma RefreshMovesOn(w: World, s: State, i: nat, pc: Pc, key: string)
    requires At(s, i) && pc.Refreshing? && key in pc.todo && w.cluster == s.cluster && IsHalfway(w, pc.todo, pc.acc)
    ensures var t := RefreshFrom(s, i, pc, key, NodeReadFails(w, pc.todo[key]));
      if StopsRefresh(w, w.cluster.configMaps[key]) then t == Again(s, i)
      else
        && t.workers[i].Busy? && t.workers[i].pc.Refreshing?
        && t == Go(s, i, Refreshing(WithRead(pc.job, key, s.cluster), pc.todo - {key}, t.workers[i].pc.acc))
        && IsHalfway(w, pc.todo - {key}, t.workers[i].pc.acc)
  {
    hide ParseOf;
    var t := RefreshFrom(s, i, pc, key, NodeReadFails(w, pc.todo[key]));
    var done := w.cluster.configMaps.Keys - pc.todo.Keys;
    assert done + {key} == w.cluster.configMaps.Keys - (pc.todo - {key}).Keys;
    if !StopsRefresh(w, w.cluster.configMaps[key]) {
      CollectOneMore(w, done, pc.acc, key, t.workers[i].pc.acc);
    }
  }

  lemma RefreshGoesOn(cfg: SDKInject, w: World, s0: State, s: State, i: nat, key: string, step: Step)
    requires IsDoing(cfg, w, s0, s, i, key) && Enabled(cfg, s, step) && IsAnswered(w, s, i, step) && step.Refresh?
    ensures IsDoingOrDone(cfg, w, s0, Apply(cfg, s, step), i, key)
  {
    hide ReadingOf, Written, Swept, SweepFails, RefreshFrom, IsHalfway, StopsRefresh;
    var t := Apply(cfg, s, step);
    HalfwayKeys(w, s.workers[i].pc.todo, s.workers[i].pc.acc, step.key);
    RefreshMovesOn(w, s, i, s.workers[i].pc, step.key);
    if StopsRefresh(w, w.cluster.configMaps[step.key]) {
      GatedEffect(cfg, w, s0.registry, key, s.workers[i].pc.job, Effect(s.registry, Failed, []));
      Ends(cfg, w, s0, t, i, key, Effect(s.registry, Failed, []));
    }
  }

  lemma HalfwayKeys(w: World, todo: map<string, ConfigMap>, acc: Instruments, k: string)
    requires IsHalfway(w, todo, acc) && k in todo
    ensures k in w.cluster.configMaps
  {
  }

  lemma ReplaceGoesOn(cfg: SDKInject, w: World, s0: State, s: State, i: nat, key: string, step: Step)
    requires IsDoing(cfg, w, s0, s, i, key) && Enabled(cfg, s, step) && IsAnswered(w, s, i, step) && step.Replace?
    ensures IsDoingOrDone(cfg, w, s0, Apply(cfg, s, step), i, key)
  {
    hide ReadingOf, Written, StopsRefresh;
    var pc := s.workers[i].pc;
    assert w.cluster.configMaps.Keys - pc.todo.Keys == w.cluster.configMaps.Keys;
    CollectedAll(w, pc.acc);
  }

  lemma SweepGoesOn(cfg: SDKInject, w: World, s0: State, s: State, i: nat, key: string, step: Step)
    requires IsDoing(cfg, w, s0, s, i, key) && Enabled(cfg, s, step) && IsAnswered(w, s, i, step) && step.Sweep?
    ensures IsDoingOrDone(cfg, w, s0, Apply(cfg, s, step), i, key)
  {
    hide ReadingOf, Written, Swept, SweepFails, RefreshFails, Snapshot;
    var t, job := Apply(cfg, s, step), s.workers[i].pc.job;
    var failed := SweepFails(job.targets, job.cleanup, w.api, step.attempted);
    var e := Effect(s.registry, if job.cleanup && failed then Failed else Done, step.attempted);
    GatedEffect(cfg, w, s0.registry, key, job, e);
    Ends(cfg, w, s0, t, i, key, e);
  }

  lemma StepGoesOn(cfg: SDKInject, w: World, s0: State, s: State, i: nat, key: string, step: Step)
    requires IsDoing(cfg, w, s0, s, i, key) && Enabled(cfg, s, step) && IsAnswered(w, s, i, step)
    ensures IsDoingOrDone(cfg, w, s0, Apply(cfg, s, step), i, key)
  {
    hide IsDoing, IsDoingOrDone, Enabled, Apply;
    match step
    case Get(_, _) => GetGoesOn(cfg, w, s0, s, i, key, step);
    case ReadNode(_, _) => ReadNodeGoesOn(cfg, w, s0, s, i, key, step);
    case Drop(_) => DropGoesOn(cfg, w, s0, s, i, key, step);
    case Set(_) => SetGoesOn(cfg, w, s0, s, i, key, step);
    case CheckReady(_, _) => CheckGoesOn(cfg, w, s0, s, i, key, step);
    case CheckDial(_, _) => CheckGoesOn(cfg, w, s0, s, i, key, step);
    case List(_, _) => ListGoesOn(cfg, w, s0, s, i, key, step);
    case Refresh(_, _, _) => RefreshGoesOn(cfg, w, s0, s, i, key, step);
    case Replace(_) => ReplaceGoesOn(cfg, w, s0, s, i, key, step);
    case Sweep(_, _, _, _) => SweepGoesOn(cfg, w, s0, s, i, key, step);
    case _ => assert false;
  }

  // ---- the whole run

  lemma {:induction false} RunGoesOn(cfg: SDKInject, w: World, s0: State, s: State, i: nat, key: string, steps: seq<Step>)
    requires IsDoingOrDone(cfg, w, s0, s, i, key) && CanRun(cfg, s, steps) && AllAnswered(cfg, w, s, i, steps)
    ensures IsDoingOrDone(cfg, w, s0, Final(cfg, s, steps), i, key)
    decreases |steps|
  {
    hide IsDoing, IsDoingOrDone, Enabled, Apply;
    if steps != [] {
      StillBusy(cfg, w, s0, s, i, key, steps[0]);
      StepGoesOn(cfg, w, s0, s, i, key, steps[0]);
      RunGoesOn(cfg, w, s0, Apply(cfg, s, steps[0]), i, key, steps[1..]);
    }
  }

  lemma StillBusy(cfg: SDKInject, w: World, s0: State, s: State, i: nat, key: string, step: Step)
    requires IsDoingOrDone(cfg, w, s0, s, i, key) && IsAnswered(w, s, i, step)
    ensures IsDoing(cfg, w, s0, s, i, key)
  {
    hide Reconciled, IsOnPath;
  }

  /** Step by step or at once: a key taken to the end in fixed surroundings has an effect the method may have. */
  lemma StepsAreAReconcile(cfg: SDKInject, s: State, i: nat, w: World, key: string, steps: seq<Step>)
    requires w.cluster == s.cluster && i < |s.workers| && s.workers[i] == Busy(key, Start)
    requires CanRun(cfg, s, steps) && AllAnswered(cfg, w, s, i, steps)
    requires |Final(cfg, s, steps).workers| == |s.workers| && Final(cfg, s, steps).workers[i].Idle?
    ensures exists e :: Reconciled(w, cfg, s.registry, key, e) && IsEffect(s, Final(cfg, s, steps), i, key, e)
  {
    hide Reconciled, IsEffect;
    assert IsDoing(cfg, w, s, s, i, key);
    RunGoesOn(cfg, w, s, s, i, key, steps);
  }
}
