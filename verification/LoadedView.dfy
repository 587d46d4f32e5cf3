/**
 What a cleanup sweep decides with: with one worker, exactly the ConfigMaps listed for it, each taken
 with its node as it was when that node was read.
 */
module LoadedView {
  import opened Kube
  import opened Rules
  import opened RuleRegistry
  import opened Config
  import opened Payload
  import opened ClusterState
  import opened Reconciler
  import opened Machine

  /** What a listed map contributes, with its node as it was read. */
  ghost function LoadedEntry(load: Load, key: string): Option<InjectConfig> {
    if key in load.nodesAt && key in load.listed.configMaps
    then Contribution(load.nodesAt[key].nodes, load.listed.configMaps[key])
    else None
  }

  /** The registry holds what the refresh loaded, and nothing else. */
  ghost predicate IsLoaded(m: Instruments, load: Load) {
    forall k :: Entry(m, k) == LoadedEntry(load, k)
  }

  /** Every listed map was looked at. */
  predicate IsComplete(load: Load) {
    load.nodesAt.Keys == load.listed.configMaps.Keys
  }

  /** The listing and the node reads were answered by these states of the cluster. */
  ghost predicate IsFrom(load: Load, held: set<Cluster>) {
    load.listed in held && forall k :: k in load.nodesAt ==> load.nodesAt[k] in held
  }

  /** The refresh under way: the maps still to be looked at, and what was collected from the others. */
  ghost predicate IsLoading(load: Load, todo: map<string, ConfigMap>, acc: Instruments) {
    && (forall k :: k in todo ==> k in load.listed.configMaps && todo[k] == load.listed.configMaps[k])
    && load.nodesAt.Keys == load.listed.configMaps.Keys - todo.Keys
    && acc.Keys <= load.nodesAt.Keys
    && IsLoaded(Contributing(acc), load)
  }

  ghost predicate LoadsFrom(s: State, w: Worker, held: set<Cluster>) {
    w.Busy? ==>
      match w.pc
      case Refreshing(job, todo, acc) =>
        job.loaded.Some? && IsFrom(job.loaded.value, held) && IsLoading(job.loaded.value, todo, acc)
      case Sweeping(job) => job.cleanup ==> LoadedBy(s.registry, job, held)
      case _ => true
  }

  /** The registry is what the job's refresh loaded, completely, from these states of the cluster. */
  ghost predicate LoadedBy(m: Instruments, job: Job, held: set<Cluster>) {
    && job.loaded.Some? && IsFrom(job.loaded.value, held)
    && IsComplete(job.loaded.value) && IsLoaded(m, job.loaded.value)
  }

  /** The states the cluster was in during a run. */
  ghost function Held(cfg: SDKInject, s: State, steps: seq<Step>): (held: set<Cluster>)
    requires CanRun(cfg, s, steps)
    ensures s.cluster in held && Final(cfg, s, steps).cluster in held
    decreases |steps|
  {
    {s.cluster} + if steps == [] then {} else Held(cfg, Apply(cfg, s, steps[0]), steps[1..])
  }

  // ---- one step

  lemma ListLoads(cfg: SDKInject, s: State, i: nat, held: set<Cluster>)
    requires |s.workers| == 1 && Enabled(cfg, s, List(i, false)) && s.cluster in held
    ensures LoadsFrom(Apply(cfg, s, List(i, false)), Apply(cfg, s, List(i, false)).workers[0], held)
  {
    hide Contribution;
  }

  lemma ReadLoads(load: Load, c: Cluster, todo: map<string, ConfigMap>, acc: Instruments, key: string, next: Instruments)
    requires IsLoading(load, todo, acc) && key in todo
    requires next.Keys <= acc.Keys + {key} && forall j :: j != key ==> Entry(next, j) == Entry(acc, j)
    requires Entry(Contributing(next), key) == Contribution(c.nodes, todo[key])
    ensures IsLoading(load.(nodesAt := load.nodesAt[key := c]), todo - {key}, next)
  {
    hide Contribution;
    var after := load.(nodesAt := load.nodesAt[key := c]);
    forall k ensures Entry(Contributing(next), k) == LoadedEntry(after, k) {
      if k != key {
        assert Entry(next, k) == Entry(acc, k);
        assert Entry(Contributing(acc), k) == LoadedEntry(load, k);
      }
    }
  }

  lemma RefreshLoads(cfg: SDKInject, s: State, i: nat, key: string, fails: bool, held: set<Cluster>)
    requires |s.workers| == 1 && Enabled(cfg, s, Refresh(i, key, fails)) && s.cluster in held
    requires LoadsFrom(s, s.workers[0], held)
    ensures var t := Apply(cfg, s, Refresh(i, key, fails)); LoadsFrom(t, t.workers[0], held)
  {
    hide ParseOf, IsLoading;
    var t := Apply(cfg, s, Refresh(i, key, fails));
    if t.workers[0].Busy? {
      var pc, next := s.workers[0].pc, t.workers[0].pc;
      RefreshCollects(s, i, pc, key, fails);
      ReadLoads(pc.job.loaded.value, s.cluster, pc.todo, pc.acc, key, next.acc);
    }
  }

  lemma RefreshCollects(s: State, i: nat, pc: Pc, key: string, fails: bool)
    requires At(s, i) && pc.Refreshing? && key in pc.todo && pc.job.loaded.Some?
    requires IsLoading(pc.job.loaded.value, pc.todo, pc.acc)
    requires RefreshFrom(s, i, pc, key, fails).workers[i].Busy?
    ensures var next := RefreshFrom(s, i, pc, key, fails).workers[i].pc;
      && next.Refreshing? && next.todo == pc.todo - {key} && next.job == WithRead(pc.job, key, s.cluster)
      && next.acc.Keys <= pc.acc.Keys + {key}
      && (forall j :: j != key ==> Entry(next.acc, j) == Entry(pc.acc, j))
      && Entry(Contributing(next.acc), key) == Contribution(s.cluster.nodes, pc.todo[key])
  {
    hide ParseOf;
    assert key !in pc.acc;
  }

  lemma ReplaceLoads(cfg: SDKInject, s: State, i: nat, held: set<Cluster>)
    requires |s.workers| == 1 && Enabled(cfg, s, Replace(i)) && LoadsFrom(s, s.workers[0], held)
    ensures var t := Apply(cfg, s, Replace(i)); LoadsFrom(t, t.workers[0], held)
  {
    hide Contribution;
    assert s.workers[0].pc.todo.Keys == {};
  }

  lemma OtherStepsLoad(cfg: SDKInject, s: State, step: Step, held: set<Cluster>)
    requires |s.workers| == 1 && Enabled(cfg, s, step) && LoadsFrom(s, s.workers[0], held)
    requires !(step.List? && !step.fails) && !step.Refresh? && !step.Replace?
    ensures var t := Apply(cfg, s, step); |t.workers| == 1 && LoadsFrom(t, t.workers[0], held)
  {
    hide ParseOf, Swept, SweepFails, IsLoading, IsFrom, IsLoaded;
  }

  /** Whatever a worker has loaded stays loaded until it has swept, when it is the only one. */
  lemma StepLoads(cfg: SDKInject, s: State, step: Step, held: set<Cluster>)
    requires |s.workers| == 1 && Enabled(cfg, s, step) && s.cluster in held && LoadsFrom(s, s.workers[0], held)
    ensures var t := Apply(cfg, s, step); |t.workers| == 1 && LoadsFrom(t, t.workers[0], held)
  {
    if step.List? && !step.fails {
      ListLoads(cfg, s, step.i, held);
    } else if step.Refresh? {
      RefreshLoads(cfg, s, step.i, step.key, step.fails, held);
    } else if step.Replace? {
      ReplaceLoads(cfg, s, step.i, held);
    } else {
      OtherStepsLoad(cfg, s, step, held);
    }
  }

  lemma MoreHeld(s: State, w: Worker, held: set<Cluster>, more: set<Cluster>)
    requires LoadsFrom(s, w, held) && held <= more
    ensures LoadsFrom(s, w, more)
  {
    hide IsLoading, IsLoaded;
  }

  // ---- whole runs

  /** Every cleanup in the log decided with what its own refresh had loaded. */
  ghost predicate LogIsLoaded(s: State, held: set<Cluster>) {
    forall j :: 0 <= j < |s.log| && s.log[j].job.cleanup ==> LoadedBy(s.log[j].view.instruments, s.log[j].job, held)
  }

  lemma StepKeepsLogLoaded(cfg: SDKInject, s: State, step: Step, held: set<Cluster>)
    requires |s.workers| == 1 && Enabled(cfg, s, step) && LoadsFrom(s, s.workers[0], held) && LogIsLoaded(s, held)
    ensures LogIsLoaded(Apply(cfg, s, step), held)
  {
    hide ParseOf, Swept, SweepFails, IsLoading, LoadedBy, Contributing;
  }

  lemma {:induction false} RunLoads(cfg: SDKInject, s: State, steps: seq<Step>, held: set<Cluster>)
    requires |s.workers| == 1 && CanRun(cfg, s, steps)
    requires LoadsFrom(s, s.workers[0], held) && LogIsLoaded(s, held)
    ensures LogIsLoaded(Final(cfg, s, steps), held + Held(cfg, s, steps))
    decreases |steps|
  {
    hide LoadsFrom, LoadedBy, Enabled, Apply;
    var more := held + {s.cluster};
    MoreHeld(s, s.workers[0], held, more);
    MoreLogged(s, held, more);
    if steps == [] {
      MoreLogged(s, held, held + Held(cfg, s, steps));
    } else {
      StepLoads(cfg, s, steps[0], more);
      StepKeepsLogLoaded(cfg, s, steps[0], more);
      RunLoads(cfg, Apply(cfg, s, steps[0]), steps[1..], more);
      assert more + Held(cfg, Apply(cfg, s, steps[0]), steps[1..]) == held + Held(cfg, s, steps);
    }
  }

  lemma MoreLogged(s: State, held: set<Cluster>, more: set<Cluster>)
    requires LogIsLoaded(s, held) && held <= more
    ensures LogIsLoaded(s, more)
  {
    hide IsLoaded;
  }

  /**
   In every run of the one worker each cleanup sweep decided with a registry that holds exactly the
   contributions of a complete listing the cluster once gave, each with its node as the cluster once had it.
   */
  lemma CleanupsAreLoaded(cfg: SDKInject, c: Cluster, steps: seq<Step>)
    requires CanRun(cfg, Init(c, 1), steps)
    ensures LogIsLoaded(Final(cfg, Init(c, 1), steps), Held(cfg, Init(c, 1), steps))
  {
    RunLoads(cfg, Init(c, 1), steps, {});
    assert {} + Held(cfg, Init(c, 1), steps) == Held(cfg, Init(c, 1), steps);
  }
}
