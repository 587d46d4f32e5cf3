/** What has to happen, over whole runs, before a workload is patched and before a deletion is forgotten. */
module Gating {
  import opened Kube
  import opened Strings
  import opened Rules
  import opened RuleRegistry
  import opened Config
  import opened PodInfos
  import opened PodWebhook
  import opened Payload
  import opened Rollout
  import opened ClusterState
  import opened Reconciler
  import opened Machine
  import opened RegistryInvariant
  import opened LoadedView

  // ---- restarts disabled

  /** No worker is past its registry write, and nothing was ever swept. */
  predicate IsParked(s: State) {
    && |s.log| == 0
    && forall i :: 0 <= i < |s.workers| && s.workers[i].Busy? ==> WillWrite(s.workers[i])
  }

  lemma StepStaysParked(cfg: SDKInject, s: State, step: Step)
    requires cfg.noAutoRestart && IsParked(s) && Enabled(cfg, s, step)
    ensures IsParked(Apply(cfg, s, step))
  {
    hide ParseOf, Swept, SweepFails, Contributing;
  }

  lemma {:induction false} RunStaysParked(cfg: SDKInject, s: State, steps: seq<Step>)
    requires cfg.noAutoRestart && IsParked(s) && CanRun(cfg, s, steps)
    ensures IsParked(Final(cfg, s, steps))
    decreases |steps|
  {
    hide IsParked, Enabled, Apply;
    if steps != [] {
      StepStaysParked(cfg, s, steps[0]);
      RunStaysParked(cfg, Apply(cfg, s, steps[0]), steps[1..]);
    }
  }

  /** With restarts disabled no run ever sweeps, with however many workers. */
  lemma DisabledNeverSweeps(cfg: SDKInject, c: Cluster, workers: nat, steps: seq<Step>)
    requires cfg.noAutoRestart && CanRun(cfg, Init(c, workers), steps)
    ensures Final(cfg, Init(c, workers), steps).log == []
  {
    RunStaysParked(cfg, Init(c, workers), steps);
  }

  // ---- one key, one worker

  predicate KeysDiffer(s: State) {
    forall i, j :: 0 <= i < j < |s.workers| && s.workers[i].Busy? && s.workers[j].Busy? ==> s.workers[i].key != s.workers[j].key
  }

  /** The worker is idle now, or goes on with the key it had. */
  predicate GoesOn(before: Worker, after: Worker) {
    after.Busy? ==> before.Busy? && before.key == after.key
  }

  lemma OthersGoOn(cfg: SDKInject, s: State, step: Step)
    requires Enabled(cfg, s, step) && !step.Take?
    ensures var t := Apply(cfg, s, step);
      |t.workers| == |s.workers| && forall i :: 0 <= i < |s.workers| ==> GoesOn(s.workers[i], t.workers[i])
  {
    hide ParseOf, Swept, SweepFails, Contributing, NodeEligible, AsksForCleanup;
  }

  lemma StepKeepsKeysApart(cfg: SDKInject, s: State, step: Step)
    requires KeysDiffer(s) && Enabled(cfg, s, step)
    ensures KeysDiffer(Apply(cfg, s, step))
  {
    if !step.Take? {
      OthersGoOn(cfg, s, step);
      hide Enabled, Apply;
    }
  }

  lemma {:induction false} RunKeepsKeysApart(cfg: SDKInject, s: State, steps: seq<Step>)
    requires KeysDiffer(s) && CanRun(cfg, s, steps)
    ensures KeysDiffer(Final(cfg, s, steps))
    decreases |steps|
  {
    hide KeysDiffer, Enabled, Apply;
    if steps != [] {
      StepKeepsKeysApart(cfg, s, steps[0]);
      RunKeepsKeysApart(cfg, Apply(cfg, s, steps[0]), steps[1..]);
    }
  }

  /** However many workers there are, no two of them ever work on the same key. */
  lemma NoKeyTwice(cfg: SDKInject, c: Cluster, workers: nat, steps: seq<Step>, i: nat, j: nat)
    requires CanRun(cfg, Init(c, workers), steps)
    ensures var s := Final(cfg, Init(c, workers), steps);
      i < j < |s.workers| && s.workers[i].Busy? && s.workers[j].Busy? ==> s.workers[i].key != s.workers[j].key
  {
    RunKeepsKeysApart(cfg, Init(c, workers), steps);
  }

  // ---- the checks before a sweep

  predicate HasPassed(job: Job) {
    job.ready && job.dialled && (job.cleanup ==> job.loaded.Some?)
  }

  /** The entry's sweep came after both checks and, for a cleanup, a refresh; patches and failure are recorded as they were. */
  ghost predicate IsSound(e: LogEntry) {
    && HasPassed(e.job)
    && Swept(e.view, e.job.targets, e.job.cleanup, e.api, e.attempted)
    && e.failed == SweepFails(e.job.targets, e.job.cleanup, e.api, e.attempted)
  }

  predicate IsOnTrack(w: Worker) {
    w.Busy? ==>
      match w.pc
      case Dial(job) => job.ready
      case Listing(job) => job.ready && job.dialled && job.cleanup
      case Refreshing(job, _, _) => job.ready && job.dialled && job.cleanup && job.loaded.Some?
      case Sweeping(job) => HasPassed(job)
      case _ => true
  }

  ghost predicate IsGated(s: State) {
    && (forall i :: 0 <= i < |s.workers| ==> IsOnTrack(s.workers[i]))
    && (forall j :: 0 <= j < |s.log| ==> IsSound(s.log[j]))
  }

  lemma WorkersStayOnTrack(cfg: SDKInject, s: State, step: Step)
    requires Enabled(cfg, s, step) && forall i :: 0 <= i < |s.workers| ==> IsOnTrack(s.workers[i])
    ensures forall i :: 0 <= i < |Apply(cfg, s, step).workers| ==> IsOnTrack(Apply(cfg, s, step).workers[i])
  {
    hide ParseOf, Swept, SweepFails, Contributing;
  }

  lemma OnlySweepsAreLogged(cfg: SDKInject, s: State, step: Step)
    requires Enabled(cfg, s, step) && !step.Sweep?
    ensures Apply(cfg, s, step).log == s.log
  {
    hide ParseOf, Contributing;
  }

  lemma SweepIsSound(cfg: SDKInject, s: State, step: Step)
    requires step.Sweep? && Enabled(cfg, s, step) && IsOnTrack(s.workers[step.i])
    ensures var t := Apply(cfg, s, step);
      |t.log| == |s.log| + 1 && t.log[..|s.log|] == s.log && IsSound(t.log[|s.log|])
  {
    hide Swept, SweepFails;
  }

  lemma StepStaysGated(cfg: SDKInject, s: State, step: Step)
    requires IsGated(s) && Enabled(cfg, s, step)
    ensures IsGated(Apply(cfg, s, step))
  {
    hide Apply, IsSound, IsOnTrack;
    WorkersStayOnTrack(cfg, s, step);
    if step.Sweep? {
      SweepIsSound(cfg, s, step);
      var t := Apply(cfg, s, step);
      assert forall j | 0 <= j < |s.log| :: t.log[j] == t.log[..|s.log|][j];
    } else {
      OnlySweepsAreLogged(cfg, s, step);
    }
  }

  lemma {:induction false} RunStaysGated(cfg: SDKInject, s: State, steps: seq<Step>)
    requires IsGated(s) && CanRun(cfg, s, steps)
    ensures IsGated(Final(cfg, s, steps))
    decreases |steps|
  {
    hide IsGated, Enabled, Apply;
    if steps != [] {
      StepStaysGated(cfg, s, steps[0]);
      RunStaysGated(cfg, Apply(cfg, s, steps[0]), steps[1..]);
    }
  }

  /** Every sweep of every run came after both checks and, for a cleanup, after a refresh. */
  lemma SweepsAreGated(cfg: SDKInject, c: Cluster, workers: nat, steps: seq<Step>)
    requires CanRun(cfg, Init(c, workers), steps)
    ensures forall j :: 0 <= j < |Final(cfg, Init(c, workers), steps).log| ==> IsSound(Final(cfg, Init(c, workers), steps).log[j])
  {
    RunStaysGated(cfg, Init(c, workers), steps);
  }

  // ---- a cleanup among outstanding changes

  /** Nothing is outstanding for the keys up to `w`, the only ones that decide a match won by `w`. */
  ghost predicate FreshUpTo(s: State, w: string) {
    forall k :: k == w || Less(k, w) ==> IsFresh(s, k)
  }

  /** While the one worker sweeps, a pod's match is the cluster's own if nothing is outstanding up to the key that wins it there. */
  lemma FreshWinnerDecides(s: State, p: PodInfo, w: string)
    requires Inv(s) && !WillWrite(s.workers[0])
    requires IsWinner(SdkRules, Snapshot(s.cluster), p, w) && FreshUpTo(s, w)
    ensures MatchResult(SdkRules, s.registry, p) == MatchResult(SdkRules, Snapshot(s.cluster), p)
  {
    hide MatchResult, Verdict;
    var actual, loaded := Snapshot(s.cluster), s.registry;
    assert Agrees(s, w);
    forall k | k in loaded && AnyHit(SdkRules, loaded[k], p) ensures k == w || Less(w, k) {
      LessIsTotal(k, w);
      if Less(k, w) {
        assert IsFresh(s, k) && Agrees(s, k);
        assert k in actual && AnyHit(SdkRules, actual[k], p);
        LessIsAsymmetric(k, w);
        assert false;
      }
    }
    WinnerDecides(SdkRules, loaded, p, w);
    WinnerDecides(SdkRules, actual, p, w);
  }

  /**
   Every workload a cleanup patches owns an instrumented pod that the cluster leaves unmatched, or
   whose match there hangs on a key with a change outstanding.
   */
  lemma CleanupSparesMatchedPods(cfg: SDKInject, s: State, i: nat, rs: ReplicaSets, api: Api, attempted: seq<WorkloadKey>, key: WorkloadKey)
    requires Inv(s) && Enabled(cfg, s, Sweep(i, rs, api, attempted)) && s.workers[i].pc.job.cleanup
    requires key in attempted
    ensures exists p ::
      && p in api.pods && IsCandidate(p) && IsInstrumented(p.meta)
      && ResolveWorkload(Info(p.meta, rs)) == Some(key)
      && forall w :: IsWinner(SdkRules, Snapshot(s.cluster), Info(p.meta, rs), w) && FreshUpTo(s, w) ==>
           MatchResult(SdkRules, Snapshot(s.cluster), Info(p.meta, rs)).None?
  {
    assert i == 0 && !WillWrite(s.workers[0]);
    hide MatchResult, FreshUpTo, IsWinner, Inv, Info, IsCandidate, ResolveWorkload, Snapshot, IsInstrumented;
    var v := View(s.registry, cfg, rs);
    assert key in Elements(attempted);
    var p :| p in api.pods && IsSelected(v, Cleanup, p) && KeyOf(v, p) == key;
    forall w | IsWinner(SdkRules, Snapshot(s.cluster), Info(p.meta, rs), w) && FreshUpTo(s, w)
      ensures MatchResult(SdkRules, Snapshot(s.cluster), Info(p.meta, rs)).None?
    {
      FreshWinnerDecides(s, Info(p.meta, rs), w);
    }
  }

  // ---- a deleted key

  /**
   A sweep for the key whose lists and patches all succeeded, decided with a complete listing that
   lacks the key and that the cluster gave in one of the states `held`.
   */
  ghost predicate HasCleaned(e: LogEntry, key: string, held: set<Cluster>) {
    && e.key == key && e.job.cleanup && HasPassed(e.job) && !e.failed
    && LoadedBy(e.view.instruments, e.job, held)
    && key !in e.job.loaded.value.listed.configMaps
    && Swept(e.view, e.job.targets, true, e.api, e.attempted)
  }

  predicate IsQueued(s: State, key: string) {
    key in s.configMapEvents || key in s.dirty || key in s.retry
  }

  /** The worker is on its way from taking the key, through finding it gone, to the sweep. */
  predicate IsCleaning(s: State, key: string)
    requires |s.workers| == 1
  {
    s.workers[0].Busy? && s.workers[0].key == key &&
      match s.workers[0].pc
      case Start => true
      case Dropping(after) => after.ThenRollOut?
      case Gate(job) => job.cleanup
      case Dial(job) => job.cleanup && job.ready
      case Listing(job) => job.cleanup && job.ready && job.dialled
      case Refreshing(job, todo, acc) => job.cleanup && job.ready && job.dialled && job.loaded.Some? && key !in job.loaded.value.listed.configMaps
      case Sweeping(job) => job.cleanup && HasPassed(job) && key !in job.loaded.value.listed.configMaps
      case _ => false
  }

  /** The worker is cleaning up after the key, with nothing loaded from before `held`. */
  ghost predicate IsCleaningFrom(s: State, key: string, held: set<Cluster>)
    requires |s.workers| == 1
  {
    IsCleaning(s, key) && LoadsFrom(s, s.workers[0], held)
  }

  ghost predicate WasCleaned(s: State, key: string, from: nat, held: set<Cluster>) {
    exists j :: from <= j < |s.log| && HasCleaned(s.log[j], key, held)
  }

  ghost predicate IsOwed(s: State, key: string, from: nat, held: set<Cluster>) {
    && |s.workers| == 1 && key !in s.cluster.configMaps && from <= |s.log|
    && (IsQueued(s, key) || IsCleaningFrom(s, key, held) || WasCleaned(s, key, from, held))
  }

  lemma LogKeepsEntry(s: State, t: State, key: string, from: nat, held: set<Cluster>)
    requires WasCleaned(s, key, from, held) && s.log <= t.log
    ensures WasCleaned(t, key, from, held)
  {
    var j :| from <= j < |s.log| && HasCleaned(s.log[j], key, held);
    assert t.log[j] == s.log[j];
  }

  lemma StepKeepsLog(cfg: SDKInject, s: State, step: Step)
    requires Enabled(cfg, s, step)
    ensures s.log <= Apply(cfg, s, step).log
  {
    hide ParseOf, Swept, SweepFails, Contributing;
  }

  lemma SweepSettles(cfg: SDKInject, s: State, step: Step, key: string, held: set<Cluster>)
    requires |s.workers| == 1 && step.Sweep? && Enabled(cfg, s, step) && IsCleaningFrom(s, key, held)
    ensures var t := Apply(cfg, s, step);
      key in t.retry || (|t.log| == |s.log| + 1 && HasCleaned(t.log[|s.log|], key, held))
  {
    hide Swept, SweepFails, IsLoaded, IsFrom;
  }

  lemma CleaningIsUndisturbed(cfg: SDKInject, s: State, step: Step, key: string)
    requires |s.workers| == 1 && IsOutside(step) && Enabled(cfg, s, step) && IsCleaning(s, key)
    ensures |Apply(cfg, s, step).workers| == 1 && IsCleaning(Apply(cfg, s, step), key)
  {
  }

  lemma CleaningGoesOn(cfg: SDKInject, s: State, step: Step, key: string)
    requires !cfg.noAutoRestart && |s.workers| == 1 && key !in s.cluster.configMaps
    requires Enabled(cfg, s, step) && !IsOutside(step) && !step.Sweep? && !step.Refresh? && IsCleaning(s, key)
    ensures var t := Apply(cfg, s, step);
      |t.workers| == 1 && (IsQueued(t, key) || IsCleaning(t, key))
  {
  }

  lemma RefreshGoesOn(cfg: SDKInject, s: State, step: Step, key: string)
    requires |s.workers| == 1 && step.Refresh? && Enabled(cfg, s, step) && IsCleaning(s, key)
    ensures var t := Apply(cfg, s, step);
      |t.workers| == 1 && (IsQueued(t, key) || IsCleaning(t, key))
  {
    hide ParseOf;
  }

  lemma QueuedIsTaken(cfg: SDKInject, s: State, step: Step, key: string, held: set<Cluster>)
    requires |s.workers| == 1 && Enabled(cfg, s, step) && IsQueued(s, key)
    ensures var t := Apply(cfg, s, step);
      |t.workers| == 1 && (IsQueued(t, key) || IsCleaningFrom(t, key, held))
  {
    hide ParseOf, Swept, SweepFails, Contributing;
  }

  lemma CleaningStep(cfg: SDKInject, s: State, step: Step, key: string, held: set<Cluster>)
    requires !cfg.noAutoRestart && |s.workers| == 1 && key !in s.cluster.configMaps && s.cluster in held
    requires Enabled(cfg, s, step) && !step.Sweep? && IsCleaningFrom(s, key, held)
    ensures var t := Apply(cfg, s, step);
      |t.workers| == 1 && (IsQueued(t, key) || IsCleaningFrom(t, key, held))
  {
    hide Enabled, Apply, IsQueued, IsCleaning, LoadsFrom;
    StepLoads(cfg, s, step, held);
    if IsOutside(step) {
      CleaningIsUndisturbed(cfg, s, step, key);
    } else if step.Refresh? {
      RefreshGoesOn(cfg, s, step, key);
    } else {
      CleaningGoesOn(cfg, s, step, key);
    }
  }

  lemma StepKeepsOwed(cfg: SDKInject, s: State, step: Step, key: string, from: nat, held: set<Cluster>)
    requires !cfg.noAutoRestart && IsOwed(s, key, from, held) && s.cluster in held && Enabled(cfg, s, step)
    requires !(step.PutConfigMap? && step.key == key)
    ensures IsOwed(Apply(cfg, s, step), key, from, held)
  {
    hide Enabled, Apply, IsQueued, IsCleaningFrom, HasCleaned;
    var t := Apply(cfg, s, step);
    StaysGone(cfg, s, step, key);
    StepKeepsLog(cfg, s, step);
    if WasCleaned(s, key, from, held) {
      LogKeepsEntry(s, t, key, from, held);
    } else if IsQueued(s, key) {
      QueuedIsTaken(cfg, s, step, key, held);
    } else if step.Sweep? {
      SweepSettles(cfg, s, step, key, held);
      RetryIsQueued(t, key);
    } else {
      CleaningStep(cfg, s, step, key, held);
    }
  }

  lemma RetryIsQueued(s: State, key: string)
    ensures key in s.retry ==> IsQueued(s, key)
  {
  }

  lemma StaysGone(cfg: SDKInject, s: State, step: Step, key: string)
    requires |s.workers| == 1 && key !in s.cluster.configMaps && Enabled(cfg, s, step)
    requires !(step.PutConfigMap? && step.key == key)
    ensures |Apply(cfg, s, step).workers| == 1 && key !in Apply(cfg, s, step).cluster.configMaps
  {
    hide ParseOf, Swept, SweepFails, Contributing;
  }

  lemma MoreOwed(s: State, key: string, from: nat, held: set<Cluster>, more: set<Cluster>)
    requires IsOwed(s, key, from, held) && held <= more
    ensures IsOwed(s, key, from, more)
  {
    hide IsQueued, IsCleaning, Swept, HasPassed, IsLoaded, IsComplete, LoadsFrom;
    if IsCleaningFrom(s, key, held) {
      MoreHeld(s, s.workers[0], held, more);
    }
    if WasCleaned(s, key, from, held) {
      var j :| from <= j < |s.log| && HasCleaned(s.log[j], key, held);
      assert HasCleaned(s.log[j], key, more);
    }
  }

  lemma {:induction false} RunKeepsOwed(cfg: SDKInject, s: State, steps: seq<Step>, key: string, from: nat, held: set<Cluster>)
    requires !cfg.noAutoRestart && IsOwed(s, key, from, held) && CanRun(cfg, s, steps)
    requires forall i :: 0 <= i < |steps| ==> !(steps[i].PutConfigMap? && steps[i].key == key)
    ensures IsOwed(Final(cfg, s, steps), key, from, held + Held(cfg, s, steps))
    decreases |steps|
  {
    hide IsOwed, Enabled, Apply;
    var more := held + {s.cluster};
    MoreOwed(s, key, from, held, more);
    if steps == [] {
      MoreOwed(s, key, from, held, held + Held(cfg, s, steps));
    } else {
      StepKeepsOwed(cfg, s, steps[0], key, from, more);
      assert forall i | 0 <= i < |steps| - 1 :: steps[1..][i] == steps[i + 1];
      RunKeepsOwed(cfg, Apply(cfg, s, steps[0]), steps[1..], key, from, more);
      assert more + Held(cfg, Apply(cfg, s, steps[0]), steps[1..]) == held + Held(cfg, s, steps);
    }
  }

  /**
   With restarts enabled, a deleted map that stays deleted leaves the queue and the worker only once
   a sweep for it has listed and patched without an error, and decided with a complete listing given
   since the deletion, and so without it.
   */
  lemma DeletionIsCleanedUp(cfg: SDKInject, s: State, key: string, steps: seq<Step>)
    requires !cfg.noAutoRestart && |s.workers| == 1 && IsAnnotated(s.cluster, key)
    requires CanRun(cfg, Apply(cfg, s, RemoveConfigMap(key)), steps)
    requires forall i :: 0 <= i < |steps| ==> !(steps[i].PutConfigMap? && steps[i].key == key)
    ensures var deleted := Apply(cfg, s, RemoveConfigMap(key));
      var t := Final(cfg, deleted, steps);
      IsQueued(t, key) || IsProcessed(t, key) || WasCleaned(t, key, |s.log|, Held(cfg, deleted, steps))
  {
    hide WasCleaned, LoadsFrom;
    var deleted := Apply(cfg, s, RemoveConfigMap(key));
    RunKeepsOwed(cfg, deleted, steps, key, |s.log|, {});
    assert {} + Held(cfg, deleted, steps) == Held(cfg, deleted, steps);
  }
}
