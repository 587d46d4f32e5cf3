/**
 Reconciles as interleaved steps: a work queue and its workers on one side, a cluster that changes
 between any two steps on the other. The cluster is what the informer caches hold, so an event is
 delivered at some point after the change that caused it.
 */
module Machine {
  import opened Kube
  import opened Rules
  import opened RuleRegistry
  import opened Config
  import opened PodInfos
  import opened Payload
  import opened Rollout
  import opened ClusterState
  import opened Reconciler

  // ---- state

  /** What a worker does once the entry is dropped. */
  datatype AfterDrop = ThenStop | ThenRetry | ThenRollOut

  /** A refresh: the cluster when the ConfigMaps were listed, and the cluster when each map's node was read. */
  datatype Load = Load(listed: Cluster, nodesAt: map<string, Cluster>)

  /** A requested rollout, and what this reconcile has found out so far. */
  datatype Job = Job(targets: set<RestartCriterion>, cleanup: bool, ready: bool, dialled: bool, loaded: Option<Load>)

  /** The job once the node of one more listed map was read. */
  function WithRead(job: Job, key: string, c: Cluster): Job {
    match job.loaded
    case None => job
    case Some(load) => job.(loaded := Some(load.(nodesAt := load.nodesAt[key := c])))
  }

  /** The position of a worker between two of its calls. */
  datatype Pc =
    | Start
    | Read(cm: ConfigMap)
    | Dropping(after: AfterDrop)
    | Setting(inst: InjectConfig, next: Option<Job>)
    | Gate(job: Job)
    | Dial(job: Job)
    | Listing(job: Job)
    | Refreshing(job: Job, todo: map<string, ConfigMap>, acc: Instruments)
    | Sweeping(job: Job)

  datatype Worker = Idle | Busy(key: string, pc: Pc)

  /** One sweep, as it was decided and carried out. */
  datatype LogEntry = LogEntry(key: string, job: Job, view: View, api: Api, attempted: seq<WorkloadKey>, failed: bool)

  /**
   `lost` holds the keys for which a change was not passed on, since the last refresh or the last
   time the key was read; `lostSinceList` those since the refresh under way listed the ConfigMaps.
   */
  datatype State = State(
    cluster: Cluster,
    configMapEvents: set<string>,
    nodeEvents: set<string>,
    dirty: set<string>,
    retry: set<string>,
    workers: seq<Worker>,
    registry: Instruments,
    log: seq<LogEntry>,
    lost: set<string>,
    lostSinceList: set<string>)

  predicate IsAnnotated(c: Cluster, key: string) {
    key in c.configMaps && c.configMaps[key].node.Some?
  }

  /** The ConfigMaps bound to a node. */
  function BoundTo(c: Cluster, node: string): set<string> {
    set k | k in c.configMaps && c.configMaps[k].node == Some(node)
  }

  /** At the start every annotated ConfigMap and every node is announced, and nothing is registered. */
  function Init(c: Cluster, workers: nat): State {
    State(c, (set k | k in c.configMaps && IsAnnotated(c, k)), c.nodes.Keys, {}, {}, seq(workers, i => Idle), map[], [], {}, {})
  }

  // ---- steps

  datatype Step =
    | PutConfigMap(key: string, cm: ConfigMap)
    | RemoveConfigMap(key: string)
    | PutNode(name: string, terminating: bool)
    | RemoveNode(name: string)
    | DeliverConfigMap(key: string)
    | DeliverNode(name: string, fails: bool)
    | RetryDue(key: string)
    | Resync(key: string)
    | Take(i: nat, key: string)
    | Get(i: nat, fails: bool)
    | ReadNode(i: nat, fails: bool)
    | Drop(i: nat)
    | Set(i: nat)
    | CheckReady(i: nat, ok: bool)
    | CheckDial(i: nat, ok: bool)
    | List(i: nat, fails: bool)
    | Refresh(i: nat, key: string, fails: bool)
    | Replace(i: nat)
    | Sweep(i: nat, rs: ReplicaSets, api: Api, attempted: seq<WorkloadKey>)

  predicate IsProcessed(s: State, key: string) {
    exists i :: 0 <= i < |s.workers| && s.workers[i].Busy? && s.workers[i].key == key
  }

  predicate At(s: State, i: nat) {
    i < |s.workers| && s.workers[i].Busy?
  }

  predicate CanFailNodeRead(cm: ConfigMap) {
    cm.node.Some? && cm.node.value != ""
  }

  ghost predicate Enabled(cfg: SDKInject, s: State, step: Step) {
    match step
    case PutConfigMap(_, _) => true
    case RemoveConfigMap(key) => key in s.cluster.configMaps
    case PutNode(_, _) => true
    case RemoveNode(name) => name in s.cluster.nodes
    case DeliverConfigMap(key) => key in s.configMapEvents
    case DeliverNode(name, _) => name in s.nodeEvents
    case RetryDue(key) => key in s.retry
    case Resync(_) => true
    case Take(i, key) => i < |s.workers| && s.workers[i].Idle? && key in s.dirty && !IsProcessed(s, key)
    case Get(i, _) => At(s, i) && s.workers[i].pc.Start?
    case ReadNode(i, fails) =>
      && At(s, i) && s.workers[i].pc.Read? && s.workers[i].pc.cm.node.Some?
      && (fails ==> CanFailNodeRead(s.workers[i].pc.cm))
    case Drop(i) => At(s, i) && s.workers[i].pc.Dropping?
    case Set(i) => At(s, i) && s.workers[i].pc.Setting?
    case CheckReady(i, _) => At(s, i) && s.workers[i].pc.Gate?
    case CheckDial(i, _) => At(s, i) && s.workers[i].pc.Dial?
    case List(i, _) => At(s, i) && s.workers[i].pc.Listing?
    case Refresh(i, key, fails) =>
      && At(s, i) && s.workers[i].pc.Refreshing? && key in s.workers[i].pc.todo
      && (fails ==> CanFailNodeRead(s.workers[i].pc.todo[key]))
    case Replace(i) => At(s, i) && s.workers[i].pc.Refreshing? && s.workers[i].pc.todo == map[]
    case Sweep(i, rs, api, attempted) =>
      && At(s, i) && s.workers[i].pc.Sweeping?
      && Swept(View(s.registry, cfg, rs), s.workers[i].pc.job.targets, s.workers[i].pc.job.cleanup, api, attempted)
  }

  function Go(s: State, i: nat, pc: Pc): State
    requires At(s, i)
  {
    s.(workers := s.workers[i := Busy(s.workers[i].key, pc)])
  }

  function Stop(s: State, i: nat): State
    requires At(s, i)
  {
    s.(workers := s.workers[i := Idle])
  }

  /** The reconcile failed, panicked or asked to be called later: the queue holds the key back for a while. */
  function Again(s: State, i: nat): State
    requires At(s, i)
  {
    s.(workers := s.workers[i := Idle], retry := s.retry + {s.workers[i].key})
  }

  function RollOut(cfg: SDKInject, s: State, i: nat, job: Job): State
    requires At(s, i)
  {
    if cfg.noAutoRestart then Stop(s, i) else Go(s, i, Gate(job))
  }

  function Lose(s: State, keys: set<string>): State {
    s.(lost := s.lost + keys, lostSinceList := s.lostSinceList + keys)
  }

  /** The watch only passes on objects that carry the annotation; on an update, the new object decides. */
  function PutMap(s: State, key: string, cm: ConfigMap): State {
    var r := s.(cluster := s.cluster.(configMaps := s.cluster.configMaps[key := cm]));
    if cm.node.Some? then r.(configMapEvents := r.configMapEvents + {key})
    else if IsAnnotated(s.cluster, key) then Lose(r, {key})
    else r
  }

  function RemoveMap(s: State, key: string): State {
    var r := s.(cluster := s.cluster.(configMaps := s.cluster.configMaps - {key}));
    if IsAnnotated(s.cluster, key) then r.(configMapEvents := r.configMapEvents + {key}) else r
  }

  /** Node updates are passed on when the deletion timestamp changes. */
  function PutNodeIn(s: State, name: string, terminating: bool): State {
    if name in s.cluster.nodes && s.cluster.nodes[name] == terminating then s
    else s.(cluster := s.cluster.(nodes := s.cluster.nodes[name := terminating]), nodeEvents := s.nodeEvents + {name})
  }

  /** A node event enqueues the maps bound to the node; if they cannot be listed the event is dropped. */
  function NodeDelivered(s: State, name: string, fails: bool): State {
    var r := s.(nodeEvents := s.nodeEvents - {name});
    if fails then Lose(r, BoundTo(s.cluster, name)) else r.(dirty := r.dirty + BoundTo(s.cluster, name))
  }

  function GetMap(s: State, i: nat, fails: bool): State
    requires At(s, i)
  {
    var key := s.workers[i].key;
    var r := s.(lost := s.lost - {key});
    if fails then Again(s, i)
    else if key !in s.cluster.configMaps then Go(r, i, Dropping(ThenRollOut))
    else if s.cluster.configMaps[key].node.None? then Go(r, i, Dropping(ThenStop))
    else Go(r, i, Read(s.cluster.configMaps[key]))
  }

  ghost function JobOf(cm: ConfigMap, targets: set<RestartCriterion>): Option<Job> {
    if !AsksForCleanup(cm) && targets == {} then None else Some(Job(targets, AsksForCleanup(cm), false, false, None))
  }

  ghost function ReadNodeOf(s: State, i: nat, cm: ConfigMap, fails: bool): State
    requires At(s, i) && cm.node.Some?
  {
    if fails then Go(s, i, Dropping(ThenRetry))
    else if !NodeEligible(s.cluster.nodes, cm.node.value) then Go(s, i, Dropping(ThenStop))
    else match ParseOf(cm)
      case Invalid => Go(s, i, Dropping(ThenStop))
      case Panicked => Again(s, i)
      case Parsed(inst, targets) => Go(s, i, Setting(inst, JobOf(cm, targets)))
  }

  function DropEntry(cfg: SDKInject, s: State, i: nat, after: AfterDrop): State
    requires At(s, i)
  {
    var r := s.(registry := s.registry - {s.workers[i].key});
    match after
    case ThenStop => Stop(r, i)
    case ThenRetry => Again(r, i)
    case ThenRollOut => RollOut(cfg, r, i, Job({}, true, false, false, None))
  }

  ghost function SetEntry(cfg: SDKInject, s: State, i: nat, inst: InjectConfig, next: Option<Job>): State
    requires At(s, i)
  {
    var r := s.(registry := Contributing(s.registry[s.workers[i].key := inst]));
    if next.None? then Stop(r, i) else RollOut(cfg, r, i, next.value)
  }

  function Dialled(s: State, i: nat, job: Job, ok: bool): State
    requires At(s, i)
  {
    var j := job.(dialled := ok);
    if !ok then Again(s, i) else Go(s, i, if job.cleanup then Listing(j) else Sweeping(j))
  }

  ghost function RefreshFrom(s: State, i: nat, pc: Pc, key: string, fails: bool): State
    requires At(s, i) && pc.Refreshing? && key in pc.todo
  {
    var cm, rest, job := pc.todo[key], pc.todo - {key}, WithRead(pc.job, key, s.cluster);
    if cm.node.None? then Go(s, i, Refreshing(job, rest, pc.acc))
    else if fails then Again(s, i)
    else if !NodeEligible(s.cluster.nodes, cm.node.value) then Go(s, i, Refreshing(job, rest, pc.acc))
    else match ParseOf(cm)
      case Invalid => Go(s, i, Refreshing(job, rest, pc.acc))
      case Panicked => Again(s, i)
      case Parsed(inst, _) => Go(s, i, Refreshing(job, rest, pc.acc[key := inst]))
  }

  ghost function Logged(cfg: SDKInject, s: State, i: nat, job: Job, rs: ReplicaSets, api: Api, attempted: seq<WorkloadKey>): State
    requires At(s, i)
  {
    var failed := SweepFails(job.targets, job.cleanup, api, attempted);
    var r := s.(log := s.log + [LogEntry(s.workers[i].key, job, View(s.registry, cfg, rs), api, attempted, failed)]);
    if job.cleanup && failed then Again(r, i) else Stop(r, i)
  }

  ghost function Apply(cfg: SDKInject, s: State, step: Step): State
    requires Enabled(cfg, s, step)
  {
    match step
    case PutConfigMap(key, cm) => PutMap(s, key, cm)
    case RemoveConfigMap(key) => RemoveMap(s, key)
    case PutNode(name, terminating) => PutNodeIn(s, name, terminating)
    case RemoveNode(name) => s.(cluster := s.cluster.(nodes := s.cluster.nodes - {name}), nodeEvents := s.nodeEvents + {name})
    case DeliverConfigMap(key) => s.(configMapEvents := s.configMapEvents - {key}, dirty := s.dirty + {key})
    case DeliverNode(name, fails) => NodeDelivered(s, name, fails)
    case RetryDue(key) => s.(retry := s.retry - {key}, dirty := s.dirty + {key})
    case Resync(key) => s.(dirty := s.dirty + {key})
    case Take(i, key) => s.(dirty := s.dirty - {key}, workers := s.workers[i := Busy(key, Start)])
    case Get(i, fails) => GetMap(s, i, fails)
    case ReadNode(i, fails) => ReadNodeOf(s, i, s.workers[i].pc.cm, fails)
    case Drop(i) => DropEntry(cfg, s, i, s.workers[i].pc.after)
    case Set(i) => SetEntry(cfg, s, i, s.workers[i].pc.inst, s.workers[i].pc.next)
    case CheckReady(i, ok) => if ok then Go(s, i, Dial(s.workers[i].pc.job.(ready := ok))) else Again(s, i)
    case CheckDial(i, ok) => Dialled(s, i, s.workers[i].pc.job, ok)
    case List(i, fails) =>
      if fails then Again(s, i)
      else
        var job := s.workers[i].pc.job.(loaded := Some(Load(s.cluster, map[])));
        Go(s.(lostSinceList := {}), i, Refreshing(job, s.cluster.configMaps, map[]))
    case Refresh(i, key, fails) => RefreshFrom(s, i, s.workers[i].pc, key, fails)
    case Replace(i) =>
      Go(s.(registry := Contributing(s.workers[i].pc.acc), lost := s.lostSinceList), i, Sweeping(s.workers[i].pc.job))
    case Sweep(i, rs, api, attempted) => Logged(cfg, s, i, s.workers[i].pc.job, rs, api, attempted)
  }

  ghost predicate CanRun(cfg: SDKInject, s: State, steps: seq<Step>)
    decreases |steps|
  {
    steps == [] || (Enabled(cfg, s, steps[0]) && CanRun(cfg, Apply(cfg, s, steps[0]), steps[1..]))
  }

  ghost function Final(cfg: SDKInject, s: State, steps: seq<Step>): State
    requires CanRun(cfg, s, steps)
    decreases |steps|
  {
    if steps == [] then s else Final(cfg, Apply(cfg, s, steps[0]), steps[1..])
  }
}
