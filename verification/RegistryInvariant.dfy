/** With one worker, the registry follows the cluster, whatever interleaves with a reconcile. */
module RegistryInvariant {
  import opened Kube
  import opened RuleRegistry
  import opened Config
  import opened Payload
  import opened ClusterState
  import opened Reconciler
  import opened Machine

  /** Something in the system still announces a change of the key: an event, the queue, or a retry. */
  predicate IsMarked(s: State, key: string) {
    || key in s.configMapEvents
    || key in s.dirty
    || key in s.retry
    || (key in s.cluster.configMaps && s.cluster.configMaps[key].node.Some? && s.cluster.configMaps[key].node.value in s.nodeEvents)
  }

  /** The registry holds for the key what the cluster prescribes. */
  ghost predicate Agrees(s: State, key: string) {
    Entry(s.registry, key) == Prescribed(s.cluster, key)
  }

  /** Nothing about the key has changed, or will be announced, since the worker read it. */
  predicate IsFresh(s: State, key: string) {
    !IsMarked(s, key) && key !in s.lost
  }

  /** The worker still has to write its key's entry. */
  predicate WillWrite(w: Worker) {
    w.Busy? && (w.pc.Start? || w.pc.Read? || w.pc.Dropping? || w.pc.Setting?)
  }

  /** The refresh under way has the key right: listed and not looked at, or looked at and collected. */
  ghost predicate Tracks(s: State, todo: map<string, ConfigMap>, acc: Instruments, key: string) {
    if key in todo then
      || (key in s.cluster.configMaps && s.cluster.configMaps[key] == todo[key])
      || (todo[key].node.None? && !IsAnnotated(s.cluster, key))
    else Entry(Contributing(acc), key) == Prescribed(s.cluster, key)
  }

  /** What the worker has in hand is what the cluster says, unless a change is on its way. */
  ghost predicate WorkerKnows(s: State, w: Worker) {
    w.Busy? ==>
      match w.pc
      case Read(cm) => cm.node.Some? && (IsFresh(s, w.key) ==> w.key in s.cluster.configMaps && s.cluster.configMaps[w.key] == cm)
      case Dropping(after) => !after.ThenRetry? && IsFresh(s, w.key) ==> Prescribed(s.cluster, w.key) == None
      case Setting(inst, _) => IsFresh(s, w.key) ==> Prescribed(s.cluster, w.key) == if inst.rules == [] then None else Some(inst)
      case Refreshing(_, todo, acc) => todo.Keys !! acc.Keys && forall k :: !IsMarked(s, k) && k !in s.lostSinceList ==> Tracks(s, todo, acc, k)
      case _ => true
  }

  /** Every key that is not marked, lost or about to be written agrees. */
  ghost predicate RegistryKnows(s: State)
    requires |s.workers| == 1
  {
    forall k :: IsFresh(s, k) && !(WillWrite(s.workers[0]) && s.workers[0].key == k) ==> Agrees(s, k)
  }

  ghost predicate Inv(s: State) {
    && |s.workers| == 1
    && (forall k :: k in s.registry ==> s.registry[k].rules != [])
    && RegistryKnows(s)
    && WorkerKnows(s, s.workers[0])
  }

  lemma InitInv(c: Cluster)
    ensures Inv(Init(c, 1))
  {
    var s := Init(c, 1);
    forall k | IsFresh(s, k) ensures Agrees(s, k) {
      assert !(k in c.configMaps && IsAnnotated(c, k));
    }
  }

  // ---- changes around the worker

  /** The key is marked, or its change was dropped and is known to be. */
  predicate IsAccounted(t: State, key: string) {
    IsMarked(t, key) || (key in t.lost && key in t.lostSinceList)
  }

  /** The ConfigMap under the key is the same, or neither version carries the annotation. */
  ghost predicate SameMap(s: State, t: State, key: string) {
    || (key in s.cluster.configMaps && key in t.cluster.configMaps && s.cluster.configMaps[key] == t.cluster.configMaps[key])
    || (!IsAnnotated(s.cluster, key) && !IsAnnotated(t.cluster, key))
  }

  /** For a key the change does not account for, nothing changed. */
  ghost predicate IsUntouched(s: State, t: State, key: string) {
    !IsAccounted(t, key) ==>
      !IsMarked(s, key) && SameMap(s, t, key) && Prescribed(t.cluster, key) == Prescribed(s.cluster, key)
  }

  ghost predicate Around(s: State, t: State) {
    && t.workers == s.workers && t.registry == s.registry
    && s.lost <= t.lost && s.lostSinceList <= t.lostSinceList
    && forall k :: IsUntouched(s, t, k)
  }

  lemma AroundKeepsInv(s: State, t: State)
    requires Inv(s) && Around(s, t)
    ensures Inv(t)
  {
    hide Prescribed, IsMarked;
    var w := s.workers[0];
    forall k | IsFresh(t, k) && !(WillWrite(w) && w.key == k) ensures Agrees(t, k) {
      assert IsUntouched(s, t, k);
      assert Agrees(s, k);
    }
    if w.Busy? && w.pc.Refreshing? {
      forall k | !IsMarked(t, k) && k !in t.lostSinceList ensures Tracks(t, w.pc.todo, w.pc.acc, k) {
        assert IsUntouched(s, t, k);
      }
    } else if w.Busy? {
      assert IsUntouched(s, t, w.key);
    }
  }

  /** Steps of the surroundings, and of the queue before a worker takes the key. */
  predicate IsOutside(step: Step) {
    || step.PutConfigMap? || step.RemoveConfigMap? || step.PutNode? || step.RemoveNode?
    || step.DeliverConfigMap? || step.DeliverNode? || step.RetryDue? || step.Resync?
  }

  lemma OutsideIsAround(cfg: SDKInject, s: State, step: Step)
    requires IsOutside(step) && Enabled(cfg, s, step)
    ensures Around(s, Apply(cfg, s, step))
  {
    hide ParseOf;
    var t := Apply(cfg, s, step);
    forall k ensures IsUntouched(s, t, k) {
    }
  }

  // ---- the worker's own steps

  lemma TakeKeepsInv(cfg: SDKInject, s: State, i: nat, key: string)
    requires Inv(s) && Enabled(cfg, s, Take(i, key))
    ensures Inv(Apply(cfg, s, Take(i, key)))
  {
    hide Prescribed;
    var t := Apply(cfg, s, Take(i, key));
    forall k | IsFresh(t, k) && k != key ensures Agrees(t, k) {
      assert IsFresh(s, k) && Agrees(s, k);
    }
  }

  lemma GetKeepsInv(cfg: SDKInject, s: State, i: nat, fails: bool)
    requires Inv(s) && Enabled(cfg, s, Get(i, fails))
    ensures Inv(Apply(cfg, s, Get(i, fails)))
  {
    hide ParseOf;
    var t, key := Apply(cfg, s, Get(i, fails)), s.workers[0].key;
    forall k | IsFresh(t, k) && k != key ensures Agrees(t, k) {
      assert IsFresh(s, k) && Agrees(s, k);
    }
  }

  lemma ReadNodeKeepsInv(cfg: SDKInject, s: State, i: nat, fails: bool)
    requires Inv(s) && Enabled(cfg, s, ReadNode(i, fails))
    ensures Inv(Apply(cfg, s, ReadNode(i, fails)))
  {
    hide ParseOf;
    var t, key := Apply(cfg, s, ReadNode(i, fails)), s.workers[0].key;
    forall k | IsFresh(t, k) && k != key ensures Agrees(t, k) {
      assert IsFresh(s, k) && Agrees(s, k);
    }
  }

  lemma DropKeepsInv(cfg: SDKInject, s: State, i: nat)
    requires Inv(s) && Enabled(cfg, s, Drop(i))
    ensures Inv(Apply(cfg, s, Drop(i)))
  {
    hide Prescribed;
    var t, key := Apply(cfg, s, Drop(i)), s.workers[0].key;
    forall k | IsFresh(t, k) ensures Agrees(t, k) {
      assert IsFresh(s, k);
      if k != key { assert Agrees(s, k); }
    }
  }

  lemma SetKeepsInv(cfg: SDKInject, s: State, i: nat)
    requires Inv(s) && Enabled(cfg, s, Set(i))
    ensures Inv(Apply(cfg, s, Set(i)))
  {
    hide Prescribed;
    var t, key := Apply(cfg, s, Set(i)), s.workers[0].key;
    forall k | IsFresh(t, k) ensures Agrees(t, k) {
      assert IsFresh(s, k);
      if k != key { assert Agrees(s, k); }
    }
  }

  lemma GateKeepsInv(cfg: SDKInject, s: State, step: Step)
    requires step.CheckReady? || step.CheckDial? || step.Sweep? || (step.List? && step.fails)
    requires Inv(s) && Enabled(cfg, s, step)
    ensures Inv(Apply(cfg, s, step))
  {
    hide Prescribed, Swept, SweepFails;
    var t := Apply(cfg, s, step);
    forall k | IsFresh(t, k) ensures Agrees(t, k) {
      assert IsFresh(s, k) && Agrees(s, k);
    }
  }

  /** At the moment of the listing every unmarked key is tracked, however stale the registry is. */
  lemma ListKeepsInv(cfg: SDKInject, s: State, i: nat)
    requires Inv(s) && Enabled(cfg, s, List(i, false))
    ensures Inv(Apply(cfg, s, List(i, false)))
  {
    var t := Apply(cfg, s, List(i, false));
    forall k ensures Tracks(t, t.cluster.configMaps, map[], k) {
    }
    forall k | IsFresh(t, k) ensures Agrees(t, k) {
      assert IsFresh(s, k) && Agrees(s, k);
    }
  }

  lemma RefreshTracks(s: State, i: nat, pc: Pc, key: string, fails: bool, k: string)
    requires At(s, i) && pc.Refreshing? && key in pc.todo
    requires RefreshFrom(s, i, pc, key, fails).workers[i].Busy?
    requires pc.todo.Keys !! pc.acc.Keys && Tracks(s, pc.todo, pc.acc, k)
    ensures var next := RefreshFrom(s, i, pc, key, fails).workers[i].pc;
      next.Refreshing? && next.todo.Keys !! next.acc.Keys && Tracks(s, next.todo, next.acc, k)
  {
    hide ParseOf;
  }

  lemma RefreshKeepsInv(cfg: SDKInject, s: State, i: nat, key: string, fails: bool)
    requires Inv(s) && Enabled(cfg, s, Refresh(i, key, fails))
    ensures Inv(Apply(cfg, s, Refresh(i, key, fails)))
  {
    hide Prescribed, ParseOf;
    var t := Apply(cfg, s, Refresh(i, key, fails));
    forall k | IsFresh(t, k) ensures Agrees(t, k) {
      assert IsFresh(s, k) && Agrees(s, k);
    }
    if t.workers[0].Busy? {
      var pc, next := s.workers[0].pc, t.workers[0].pc;
      assert next.todo.Keys !! next.acc.Keys;
      forall k | !IsMarked(t, k) && k !in t.lostSinceList ensures Tracks(t, next.todo, next.acc, k) {
        assert !IsMarked(s, k);
        RefreshTracks(s, i, pc, key, fails, k);
      }
    }
  }

  lemma ReplaceKeepsInv(cfg: SDKInject, s: State, i: nat)
    requires Inv(s) && Enabled(cfg, s, Replace(i))
    ensures Inv(Apply(cfg, s, Replace(i)))
  {
    hide Prescribed;
    var t := Apply(cfg, s, Replace(i));
    forall k | IsFresh(t, k) ensures Agrees(t, k) {
      assert !IsMarked(s, k) && k !in s.lostSinceList;
      assert Tracks(s, s.workers[0].pc.todo, s.workers[0].pc.acc, k);
    }
  }

  lemma StepKeepsInv(cfg: SDKInject, s: State, step: Step)
    requires Inv(s) && Enabled(cfg, s, step)
    ensures Inv(Apply(cfg, s, step))
  {
    hide Inv, Enabled, Apply, Around;
    if IsOutside(step) {
      OutsideIsAround(cfg, s, step);
      AroundKeepsInv(s, Apply(cfg, s, step));
    } else {
      match step
      case Take(i, key) => TakeKeepsInv(cfg, s, i, key);
      case Get(i, fails) => GetKeepsInv(cfg, s, i, fails);
      case ReadNode(i, fails) => ReadNodeKeepsInv(cfg, s, i, fails);
      case Drop(i) => DropKeepsInv(cfg, s, i);
      case Set(i) => SetKeepsInv(cfg, s, i);
      case List(i, fails) => if fails { GateKeepsInv(cfg, s, step); } else { ListKeepsInv(cfg, s, i); }
      case Refresh(i, key, fails) => RefreshKeepsInv(cfg, s, i, key, fails);
      case Replace(i) => ReplaceKeepsInv(cfg, s, i);
      case _ => GateKeepsInv(cfg, s, step);
    }
  }
}
