/** The admission decision and the mutation of an admitted pod. */
module PodWebhook {
  import opened Kube
  import opened RuleRegistry
  import opened Config
  import opened EnvList
  import opened EnvRewrite
  import opened Mutator
  import opened PodInfos

  const INJECT := "beyla.grafana.com/inject"

  datatype Outcome = Success | NoMatchingSelector | NoSDKConfig | AlreadyInstrumented | LDPreloadConflict

  // ---- what is read off a pod

  /** A non-empty preload that is not the injector's own. */
  predicate IsPreloadConflict(c: Container) {
    var e := Lookup(c.env, LD_PRELOAD);
    e.Some? && e.value.value != "" && e.value.value != LD_PRELOAD_VALUE
  }

  predicate PreloadsSomethingElse(pod: Pod) {
    || (exists i :: 0 <= i < |pod.containers| && IsPreloadConflict(pod.containers[i]))
    || (exists i :: 0 <= i < |pod.initContainers| && IsPreloadConflict(pod.initContainers[i]))
  }

  predicate IsInstrumentedWithWantedConfig(meta: ObjectMeta, hash: string) {
    INJECT in meta.annotations && meta.annotations[INJECT] == hash
  }

  /** Carries an injection of any version. */
  predicate IsInstrumented(meta: ObjectMeta) {
    INJECT in meta.annotations && meta.annotations[INJECT] != ""
  }

  // ---- decision and mutation

  function Effective(cfg: SDKInject, c: Candidate): SDKInject {
    cfg.WithConfigMapOverrides(c.config)
  }

  function WantedHash(cfg: SDKInject, c: Candidate): string {
    ConfigHash(Effective(cfg, c), c.rule.config.digest)
  }

  function Decision(cfg: SDKInject, match': Option<Candidate>, pod: Pod): Outcome {
    if match'.None? then NoMatchingSelector
    else if Effective(cfg, match'.value).imageVersion == "" then NoSDKConfig
    else if IsInstrumentedWithWantedConfig(pod.meta, WantedHash(cfg, match'.value)) then AlreadyInstrumented
    else if PreloadsSomethingElse(pod) then LDPreloadConflict
    else Success
  }

  ghost function InstrumentedAll(cfg: SDKInject, meta: ObjectMeta, cs: seq<Container>, ruleEnv: seq<EnvVar>, spanMetrics: bool): (r: seq<Container>)
    ensures |r| == |cs|
  {
    seq(|cs|, i requires 0 <= i < |cs| => Instrumented(cfg, meta, cs[i], ruleEnv, spanMetrics))
  }

  lemma InstrumentedAllAt(cfg: SDKInject, meta: ObjectMeta, cs: seq<Container>, ruleEnv: seq<EnvVar>, spanMetrics: bool, i: nat)
    requires i < |cs|
    ensures InstrumentedAll(cfg, meta, cs, ruleEnv, spanMetrics)[i] == Instrumented(cfg, meta, cs[i], ruleEnv, spanMetrics)
  {
  }

  lemma Advance<T>(done: seq<T>, todo: seq<T>, i: nat)
    requires i < |done| == |todo|
    ensures (done[..i] + todo[i..])[i := done[i]] == done[..i + 1] + todo[i + 1..]
  {
  }

  function WithCopyContainer(cfg: SDKInject, cs: seq<Container>): seq<Container> {
    if UsesInitContainer(cfg) then Upsert(cs, ContainerKey, CopyContainer(cfg)) else cs
  }

  function Annotated(meta: ObjectMeta, hash: string): ObjectMeta {
    meta.(annotations := meta.annotations[INJECT := hash])
  }

  /** Volume, mounts, environment, copy container and annotation, all at once. */
  ghost function Mutated(cfg: SDKInject, ruleEnv: seq<EnvVar>, spanMetrics: bool, hash: string, pod: Pod): Pod {
    pod.(
      volumes := Upsert(pod.volumes, VolumeKey, VolumeFor(cfg)),
      containers := InstrumentedAll(cfg, pod.meta, pod.containers, ruleEnv, spanMetrics),
      initContainers := WithCopyContainer(cfg, pod.initContainers),
      meta := Annotated(pod.meta, hash))
  }

  /**
   The pod as the webhook returns it; one created from a name prefix has no name yet. The registry is
   locked once for the match and once for the span-metrics query: `m` and `later` are what each finds.
   */
  ghost function Admitted(m: Instruments, later: Instruments, cfg: SDKInject, rs: ReplicaSets, pod: Pod): Pod {
    var info := Info(pod.meta, rs);
    var hit := MatchResult(SdkRules, m, info);
    if Decision(cfg, hit, pod) != Success then pod
    else
      Mutated(Effective(cfg, hit.value), hit.value.rule.config.env,
        MatchResult(SpanMetricRules, later, info).Some?, WantedHash(cfg, hit.value), pod)
  }

  /** A pod under admission. */
  class LivePod {
    var meta: ObjectMeta
    const nodeName: string
    const containers: seq<LiveContainer>
    var initContainers: seq<Container>
    var volumes: seq<Volume>

    constructor (meta: ObjectMeta, nodeName: string, containers: seq<LiveContainer>, initContainers: seq<Container>, volumes: seq<Volume>)
      requires forall i, j :: 0 <= i < j < |containers| ==> containers[i] != containers[j]
      ensures Valid() && this.meta == meta && this.containers == containers
    {
      this.meta, this.nodeName, this.containers := meta, nodeName, containers;
      this.initContainers, this.volumes := initContainers, volumes;
    }

    ghost predicate Valid() {
      forall i, j :: 0 <= i < j < |containers| ==> containers[i] != containers[j]
    }

    ghost function ContainerValues(): (r: seq<Container>)
      reads containers
      ensures |r| == |containers|
      ensures forall i :: 0 <= i < |containers| ==> r[i] == containers[i].Value()
    {
      seq(|containers|, i requires 0 <= i < |containers| reads containers => containers[i].Value())
    }

    ghost function Value(): Pod
      reads this, containers
    {
      Pod(meta, nodeName, ContainerValues(), initContainers, volumes)
    }

    /** Both loops over the containers of the pod. */
    method FindPreloadConflict() returns (r: bool)
      ensures r == PreloadsSomethingElse(Value())
    {
      var i := 0;
      while i < |containers|
        invariant 0 <= i <= |containers|
        invariant forall j :: 0 <= j < i ==> !IsPreloadConflict(containers[j].Value())
      {
        if IsPreloadConflict(containers[i].Value()) {
          assert IsPreloadConflict(Value().containers[i]);
          return true;
        }
        i := i + 1;
      }
      i := 0;
      while i < |initContainers|
        invariant 0 <= i <= |initContainers|
        invariant forall j :: 0 <= j < i ==> !IsPreloadConflict(initContainers[j])
      {
        if IsPreloadConflict(initContainers[i]) {
          assert IsPreloadConflict(Value().initContainers[i]);
          return true;
        }
        i := i + 1;
      }
      return false;
    }

    method MountVolume(cfg: SDKInject)
      modifies this`volumes
      ensures volumes == Upsert(old(volumes), VolumeKey, VolumeFor(cfg))
    {
      var v := VolumeFor(cfg);
      var pos := IndexBy(volumes, VolumeKey, VOLUME_NAME);
      if pos == |volumes| {
        volumes := volumes + [v];
      } else {
        volumes := volumes[pos := v];
      }
    }

    method AddCopyInitContainerIfNeeded(cfg: SDKInject)
      modifies this`initContainers
      ensures initContainers == WithCopyContainer(cfg, old(initContainers))
    {
      if !UsesInitContainer(cfg) {
        return;
      }
      var c := CopyContainer(cfg);
      var pos := IndexBy(initContainers, ContainerKey, COPY_CONTAINER_NAME);
      if pos == |initContainers| {
        initContainers := initContainers + [c];
      } else {
        initContainers := initContainers[pos := c];
      }
    }

    method InstrumentAll(mutator: PodMutator, ruleEnv: seq<EnvVar>, spanMetrics: bool)
      requires Valid()
      modifies containers
      ensures ContainerValues() == InstrumentedAll(mutator.cfg, meta, old(ContainerValues()), ruleEnv, spanMetrics)
    {
      hide Instrumented;
      ghost var was, cfg, m := ContainerValues(), mutator.cfg, meta;
      ghost var wanted := InstrumentedAll(cfg, m, was, ruleEnv, spanMetrics);
      var i := 0;
      while i < |containers|
        invariant 0 <= i <= |containers|
        invariant mutator.cfg == cfg && meta == m
        invariant ContainerValues() == wanted[..i] + was[i..]
      {
        InstrumentOne(mutator, i, was, ruleEnv, spanMetrics);
        Advance(wanted, was, i);
        i := i + 1;
      }
    }

    method InstrumentOne(mutator: PodMutator, i: nat, ghost was: seq<Container>, ruleEnv: seq<EnvVar>, spanMetrics: bool)
      requires Valid() && i < |containers| == |was|
      requires ContainerValues()[i] == was[i]
      modifies containers[i]
      ensures ContainerValues() == old(ContainerValues())[i := InstrumentedAll(mutator.cfg, meta, was, ruleEnv, spanMetrics)[i]]
    {
      hide Instrumented;
      ghost var before := ContainerValues();
      InstrumentedAllAt(mutator.cfg, meta, was, ruleEnv, spanMetrics, i);
      ghost var wanted := InstrumentedAll(mutator.cfg, meta, was, ruleEnv, spanMetrics)[i];
      mutator.InstrumentContainer(meta, containers[i], ruleEnv, spanMetrics);
      forall j | 0 <= j < |containers| ensures containers[j].Value() == before[i := wanted][j] {
        if j != i { assert containers[j] != containers[i]; }
      }
    }

    method Mutate(mutator: PodMutator, ruleEnv: seq<EnvVar>, spanMetrics: bool, hash: string)
      requires Valid()
      modifies this, containers
      ensures Value() == Mutated(mutator.cfg, ruleEnv, spanMetrics, hash, old(Value()))
    {
      ghost var was, cfg := Value(), mutator.cfg;
      MountVolume(mutator.cfg);
      InstrumentAll(mutator, ruleEnv, spanMetrics);
      ghost var cs := ContainerValues();
      AddCopyInitContainerIfNeeded(mutator.cfg);
      meta := meta.(annotations := meta.annotations[INJECT := hash]);
      assert ContainerValues() == cs == InstrumentedAll(cfg, was.meta, was.containers, ruleEnv, spanMetrics);
    }
  }

  class PodCustomDefaulter {
    const registry: Registry
    const mutator: PodMutator

    constructor (registry: Registry, mutator: PodMutator)
      ensures this.registry == registry && this.mutator == mutator
    {
      this.registry, this.mutator := registry, mutator;
    }

    /** `unlocked` is the registry as the second query finds it: a reconcile may have written to it in between. */
    method Default(obj: LivePod, rs: ReplicaSets, unlocked: Registry) returns (outcome: Outcome)
      requires obj.Valid()
      modifies obj, obj.containers
      ensures outcome == Decision(mutator.cfg, MatchResult(SdkRules, registry.instruments, Info(old(obj.meta), rs)), old(obj.Value()))
      ensures obj.Value() == Admitted(registry.instruments, unlocked.instruments, mutator.cfg, rs, old(obj.Value()))
    {
      hide MatchResult, Mutated, PreloadsSomethingElse, ConfigHash, Info;
      var info := Resolve(obj.meta, rs);
      var hit := registry.Match(info);
      if hit.None? {
        return NoMatchingSelector;
      }
      var rule := hit.value.rule;
      var scoped := new PodMutator(mutator.cfg.WithConfigMapOverrides(hit.value.config));
      if scoped.cfg.imageVersion == "" {
        return NoSDKConfig;
      }
      var wantHash := PodConfigHash(scoped.cfg, rule.config);
      if IsInstrumentedWithWantedConfig(obj.meta, wantHash) {
        return AlreadyInstrumented;
      }
      var conflict := obj.FindPreloadConflict();
      if conflict {
        return LDPreloadConflict;
      }
      var bpf := unlocked.BPFGeneratesSpanMetrics(info);
      obj.Mutate(scoped, rule.config.env, bpf.Some?, wantHash);
      return Success;
    }
  }

  // ---- what a successful admission leaves behind

  /** No container of the result preloads anything else. */
  lemma MutationLeavesNoConflict(cfg: SDKInject, ruleEnv: seq<EnvVar>, spanMetrics: bool, hash: string, pod: Pod)
    requires forall i :: 0 <= i < |pod.initContainers| ==> !IsPreloadConflict(pod.initContainers[i])
    ensures !PreloadsSomethingElse(Mutated(cfg, ruleEnv, spanMetrics, hash, pod))
  {
    var r := Mutated(cfg, ruleEnv, spanMetrics, hash, pod);
    forall i | 0 <= i < |r.containers| ensures !IsPreloadConflict(r.containers[i]) {
      InstrumentedAllAt(cfg, pod.meta, pod.containers, ruleEnv, spanMetrics, i);
      PreloadIsOurs(pod.containers[i].env, SiteOf(cfg, pod.meta, pod.containers[i]), ruleEnv, spanMetrics);
    }
    UpsertFacts(pod.initContainers, ContainerKey, CopyContainer(cfg));
    forall i | 0 <= i < |r.initContainers| ensures !IsPreloadConflict(r.initContainers[i]) {
      assert r.initContainers[i] == CopyContainer(cfg) || (i < |pod.initContainers| && r.initContainers[i] == pod.initContainers[i]);
    }
  }

  lemma SuccessMeans(cfg: SDKInject, hit: Option<Candidate>, pod: Pod)
    requires Decision(cfg, hit, pod) == Success
    ensures hit.Some? && Effective(cfg, hit.value).imageVersion != "" && !PreloadsSomethingElse(pod)
  {
  }

  lemma NoConflictMeans(pod: Pod)
    requires !PreloadsSomethingElse(pod)
    ensures forall i :: 0 <= i < |pod.initContainers| ==> !IsPreloadConflict(pod.initContainers[i])
  {
  }

  lemma SuccessfulAdmission(m: Instruments, later: Instruments, cfg: SDKInject, rs: ReplicaSets, pod: Pod)
    requires Decision(cfg, MatchResult(SdkRules, m, Info(pod.meta, rs)), pod) == Success
    ensures MatchResult(SdkRules, m, Info(pod.meta, rs)).Some?
    ensures Admitted(m, later, cfg, rs, pod).meta == Annotated(pod.meta, WantedHash(cfg, MatchResult(SdkRules, m, Info(pod.meta, rs)).value))
    ensures !PreloadsSomethingElse(Admitted(m, later, cfg, rs, pod))
  {
    var hit := MatchResult(SdkRules, m, Info(pod.meta, rs));
    SuccessMeans(cfg, hit, pod);
    NoConflictMeans(pod);
    MutationLeavesNoConflict(Effective(cfg, hit.value), hit.value.rule.config.env,
      MatchResult(SpanMetricRules, later, Info(pod.meta, rs)).Some?, WantedHash(cfg, hit.value), pod);
  }
}
