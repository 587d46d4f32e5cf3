/** What admission stores, over the fields of the pod: volume, mounts, environment, copy container, annotation. */
module InjectedPod {
  import opened Kube
  import opened RuleRegistry
  import opened Config
  import opened EnvRewrite
  import opened Mutator
  import opened PodInfos
  import opened PodWebhook
  import opened SweepTerms

  function NameOfVolume(v: Volume): string { v.name }
  function NameOfMount(m: VolumeMount): string { m.name }
  function NameOfContainer(c: Container): string { c.name }

  /** `x` takes the place of the first entry with that name, or comes last; all other entries stay where they are. */
  ghost predicate HasPut<T(!new)>(before: seq<T>, after: seq<T>, nameOf: T -> string, name: string, x: T) {
    && nameOf(x) == name
    && if exists i :: 0 <= i < |before| && nameOf(before[i]) == name then
         exists i :: 0 <= i < |before| && nameOf(before[i]) == name && (forall j :: 0 <= j < i ==> nameOf(before[j]) != name) && after == before[i := x]
       else after == before + [x]
  }

  lemma UpsertPuts<T(!new)>(s: seq<T>, key: T -> string, nameOf: T -> string, x: T)
    requires forall y :: nameOf(y) == key(y)
    ensures HasPut(s, Upsert(s, key, x), nameOf, nameOf(x), x)
  {
    var i := IndexBy(s, key, key(x));
    assert i < |s| ==> nameOf(s[i]) == nameOf(x);
  }

  function Image(cfg: SDKInject): string {
    cfg.imageRoot + ":" + cfg.imageVersion
  }

  /** The instrumentation comes as an image volume, or is copied into an empty one by an init container. */
  ghost predicate HasVolume(cfg: SDKInject, before: Pod, after: Pod) {
    if cfg.mode == ImageMode then
      && HasPut(before.volumes, after.volumes, NameOfVolume, "otel-inject-instrumentation",
           Volume("otel-inject-instrumentation", ImageSource(Image(cfg), "IfNotPresent")))
      && after.initContainers == before.initContainers
    else
      && HasPut(before.volumes, after.volumes, NameOfVolume, "otel-inject-instrumentation",
           Volume("otel-inject-instrumentation", EmptyDir("500Mi")))
      && HasPut(before.initContainers, after.initContainers, NameOfContainer, "otel-sdk-inject",
           Container("otel-sdk-inject", Image(cfg), "", "IfNotPresent", [],
             [VolumeMount("otel-inject-instrumentation", "/__otel_sdk_auto_instrumentation__", false)]))
  }

  /** The container mounts the volume read-only and has the rewritten environment; the rest of it stays. */
  ghost predicate IsInstrumentedFrom(cfg: SDKInject, meta: ObjectMeta, ruleEnv: seq<EnvVar>, spanMetrics: bool, c: Container, r: Container) {
    && r.name == c.name && r.image == c.image && r.imageVersion == c.imageVersion && r.pullPolicy == c.pullPolicy
    && HasPut(c.mounts, r.mounts, NameOfMount, "otel-inject-instrumentation",
         VolumeMount("otel-inject-instrumentation", "/__otel_sdk_auto_instrumentation__", true))
    && r.env == Rewritten(c.env, Site(cfg, meta, c.name, c.imageVersion), ruleEnv, spanMetrics)
  }

  ghost predicate IsInjectedFrom(cfg: SDKInject, ruleEnv: seq<EnvVar>, spanMetrics: bool, annotation: string, pod: Pod, r: Pod) {
    && HasVolume(cfg, pod, r)
    && |r.containers| == |pod.containers|
    && (forall i :: 0 <= i < |pod.containers| ==>
         IsInstrumentedFrom(cfg, pod.meta, ruleEnv, spanMetrics, pod.containers[i], r.containers[i]))
    && r.nodeName == pod.nodeName
    && r.meta == pod.meta.(annotations := pod.meta.annotations["beyla.grafana.com/inject" := annotation])
  }

  lemma VolumeIsPut(cfg: SDKInject, ruleEnv: seq<EnvVar>, spanMetrics: bool, annotation: string, pod: Pod)
    ensures HasVolume(cfg, pod, Mutated(cfg, ruleEnv, spanMetrics, annotation, pod))
  {
    UpsertPuts(pod.volumes, VolumeKey, NameOfVolume, VolumeFor(cfg));
    UpsertPuts(pod.initContainers, ContainerKey, NameOfContainer, CopyContainer(cfg));
  }

  lemma MountIsPut(cfg: SDKInject, meta: ObjectMeta, ruleEnv: seq<EnvVar>, spanMetrics: bool, c: Container)
    ensures IsInstrumentedFrom(cfg, meta, ruleEnv, spanMetrics, c, Instrumented(cfg, meta, c, ruleEnv, spanMetrics))
  {
    hide Rewritten;
    UpsertPuts(c.mounts, MountKey, NameOfMount, MOUNT);
  }

  /** The mutation, field by field. */
  lemma MutatedByField(cfg: SDKInject, ruleEnv: seq<EnvVar>, spanMetrics: bool, annotation: string, pod: Pod)
    ensures IsInjectedFrom(cfg, ruleEnv, spanMetrics, annotation, pod, Mutated(cfg, ruleEnv, spanMetrics, annotation, pod))
  {
    VolumeIsPut(cfg, ruleEnv, spanMetrics, annotation, pod);
    forall i | 0 <= i < |pod.containers|
      ensures IsInstrumentedFrom(cfg, pod.meta, ruleEnv, spanMetrics, pod.containers[i],
        Mutated(cfg, ruleEnv, spanMetrics, annotation, pod).containers[i])
    {
      InstrumentedAllAt(cfg, pod.meta, pod.containers, ruleEnv, spanMetrics, i);
      MountIsPut(cfg, pod.meta, ruleEnv, spanMetrics, pod.containers[i]);
    }
    hide HasVolume, IsInstrumentedFrom, Instrumented;
  }

  /**
   A pod is stored with the injection of its match exactly if there is a match, its version is not
   empty, the pod does not carry that injection yet, and nothing in it preloads another library.
   Otherwise it is stored as it came.
   */
  lemma StoredByField(m: Instruments, later: Instruments, cfg: SDKInject, rs: ReplicaSets, pod: Pod)
    ensures var hit, r := MatchResult(SdkRules, m, Info(pod.meta, rs)), Admitted(m, later, cfg, rs, pod);
      if hit.None? || VersionOf(cfg, hit.value) == "" || Carries(pod.meta, AnnotationOf(cfg, hit.value)) || HasPreloads(pod) then r == pod
      else
        IsInjectedFrom(cfg.(imageVersion := VersionOf(cfg, hit.value)), hit.value.rule.config.env,
          MatchResult(SpanMetricRules, later, Info(pod.meta, rs)).Some?, AnnotationOf(cfg, hit.value), pod, r)
  {
    var hit := MatchResult(SdkRules, m, Info(pod.meta, rs));
    DecisionExactly(cfg, hit, pod);
    hide Decision, Mutated, MatchResult, IsInjectedFrom, HasForeignPreload;
    if hit.Some? {
      WantedIsAnnotation(cfg, hit.value);
      hide AnnotationOf, WantedHash, Effective, VersionOf;
      MutatedByField(Effective(cfg, hit.value), hit.value.rule.config.env,
        MatchResult(SpanMetricRules, later, Info(pod.meta, rs)).Some?, AnnotationOf(cfg, hit.value), pod);
    }
  }
}
