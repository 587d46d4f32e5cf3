/** Applying the whole mutation to a pod that already went through it. */
module Reinstrument {
  import opened Kube
  import opened Strings
  import opened Config
  import opened EnvList
  import opened Attributes
  import opened EnvRewrite
  import opened EnvOutcome
  import opened Mutator
  import opened PodWebhook

  lemma InjectIsNoAttribute(res: string)
    ensures ANNOTATION_PREFIX + res != INJECT
  {
    assert (ANNOTATION_PREFIX + res)[0] == 'r';
  }

  lemma LabelIgnoresInject(meta: ObjectMeta, hash: string, useLabels: bool, res: string, labelKeys: seq<string>)
    ensures LabelOrAnnotation(Annotated(meta, hash), useLabels, res, labelKeys) == LabelOrAnnotation(meta, useLabels, res, labelKeys)
  {
    InjectIsNoAttribute(res);
  }

  lemma AnnotationAttrsIgnoreInject(meta: ObjectMeta, hash: string)
    ensures AnnotationAttrs(Annotated(meta, hash).annotations) == AnnotationAttrs(meta.annotations)
  {
    forall a ensures ANNOTATION_PREFIX + a != INJECT { InjectIsNoAttribute(a); }
  }

  function Relabelled(t: Site, hash: string): Site {
    t.(meta := Annotated(t.meta, hash))
  }

  lemma AttrsIgnoreInject(t: Site, hash: string, spanMetrics: bool)
    ensures SiteBaseAttrs(Relabelled(t, hash)) == SiteBaseAttrs(t)
    ensures AllAttrs(Relabelled(t, hash), spanMetrics) == AllAttrs(t, spanMetrics)
  {
    hide Join;
    LabelIgnoresInject(t.meta, hash, false, INSTANCE_ID, []);
    AnnotationAttrsIgnoreInject(t.meta, hash);
    assert SiteInstanceId(Relabelled(t, hash)) == SiteInstanceId(t);
  }

  lemma ServiceIgnoresInject(t: Site, hash: string)
    ensures SiteNamespace(Relabelled(t, hash)) == SiteNamespace(t)
    ensures SiteServiceName(Relabelled(t, hash)) == SiteServiceName(t)
    ensures SiteVersion(Relabelled(t, hash)) == SiteVersion(t)
  {
    hide SiteBaseAttrs;
    AttrsIgnoreInject(t, hash, false);
    LabelIgnoresInject(t.meta, hash, t.cfg.resources.useLabels, SERVICE_NAME, APP_NAME_LABELS);
    LabelIgnoresInject(t.meta, hash, t.cfg.resources.useLabels, SERVICE_VERSION, APP_VERSION_LABELS);
    LabelIgnoresInject(t.meta, hash, t.cfg.resources.useLabels, SERVICE_NAMESPACE, []);
  }

  /** No edit depends on the inject annotation. */
  lemma EditsIgnoreInject(t: Site, hash: string, ruleEnv: seq<EnvVar>, spanMetrics: bool)
    ensures Edits(Relabelled(t, hash), ruleEnv, spanMetrics) == Edits(t, ruleEnv, spanMetrics)
  {
    hide AllAttrs, SiteNamespace, SiteServiceName, SiteVersion, RuleEdits, FixedEdits, BlankEdits, Render;
    AttrsIgnoreInject(t, hash, spanMetrics);
    ServiceIgnoresInject(t, hash);
  }

  /** The same container but for the value of the combined attributes. */
  predicate SameButAttrs(a: Container, b: Container) {
    && b == a.(env := b.env)
    && Names(b.env) == Names(a.env)
    && forall i :: 0 <= i < |a.env| && a.env[i].name != ATTRS ==> b.env[i] == a.env[i]
  }

  lemma ContainerTwice(cfg: SDKInject, meta: ObjectMeta, hash: string, c: Container, ruleEnv: seq<EnvVar>, spanMetrics: bool)
    requires Unique(c.env)
    ensures var once := Instrumented(cfg, meta, c, ruleEnv, spanMetrics);
      var twice := Instrumented(cfg, Annotated(meta, hash), once, ruleEnv, spanMetrics);
      SameButAttrs(once, twice) && (twice == once <==> LastNamed(ruleEnv, ATTRS).Some?)
  {
    hide Edits;
    UpsertTwice(c.mounts, MountKey, MOUNT);
    EditsIgnoreInject(SiteOf(cfg, meta, c), hash, ruleEnv, spanMetrics);
    RewriteTwice(c.env, SiteOf(cfg, meta, c), ruleEnv, spanMetrics);
  }

  /**
   A second application moves nothing and changes no value but the combined attributes; it changes
   nothing at all exactly when there is no container or the rule defines those attributes.
   */
  lemma MutatedTwice(cfg: SDKInject, ruleEnv: seq<EnvVar>, spanMetrics: bool, hash: string, pod: Pod)
    requires forall i :: 0 <= i < |pod.containers| ==> Unique(pod.containers[i].env)
    ensures var once := Mutated(cfg, ruleEnv, spanMetrics, hash, pod);
      var twice := Mutated(cfg, ruleEnv, spanMetrics, hash, once);
      && twice == once.(containers := twice.containers)
      && |twice.containers| == |once.containers|
      && (forall i :: 0 <= i < |once.containers| ==> SameButAttrs(once.containers[i], twice.containers[i]))
      && (twice == once <==> pod.containers == [] || LastNamed(ruleEnv, ATTRS).Some?)
  {
    hide Instrumented;
    var once := Mutated(cfg, ruleEnv, spanMetrics, hash, pod);
    var twice := Mutated(cfg, ruleEnv, spanMetrics, hash, once);
    UpsertTwice(pod.volumes, VolumeKey, VolumeFor(cfg));
    UpsertTwice(pod.initContainers, ContainerKey, CopyContainer(cfg));
    assert once.meta.annotations[INJECT := hash] == once.meta.annotations;
    forall i | 0 <= i < |pod.containers|
      ensures SameButAttrs(once.containers[i], twice.containers[i])
      ensures twice.containers[i] == once.containers[i] <==> LastNamed(ruleEnv, ATTRS).Some?
    {
      InstrumentedAllAt(cfg, pod.meta, pod.containers, ruleEnv, spanMetrics, i);
      InstrumentedAllAt(cfg, once.meta, once.containers, ruleEnv, spanMetrics, i);
      ContainerTwice(cfg, pod.meta, hash, pod.containers[i], ruleEnv, spanMetrics);
    }
    if pod.containers != [] {
      assert twice.containers[0] == once.containers[0] <==> LastNamed(ruleEnv, ATTRS).Some?;
    }
  }

  /** Pod annotations have the last word on every attribute but the span-metrics marker, which is set after them. */
  lemma AnnotationsDecide(t: Site, spanMetrics: bool, key: string)
    requires ANNOTATION_PREFIX + key in t.meta.annotations
    ensures key in AllAttrs(t, spanMetrics)
    ensures AllAttrs(t, spanMetrics)[key] == t.meta.annotations[ANNOTATION_PREFIX + key]
      <==> key != SKIP_SPAN_METRICS || !spanMetrics || t.meta.annotations[ANNOTATION_PREFIX + key] == "true"
  {
  }
}
