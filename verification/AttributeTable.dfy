/** The combined resource attributes of a container, key by key. */
module AttributeTable {
  import opened Kube
  import opened Config
  import opened Attributes
  import opened ServiceIdentity
  import opened EnvRewrite
  import Expansion
  import RewrittenLookups

  function Find(m: Attrs, k: string): Option<string> {
    if k in m then Some(m[k]) else None
  }

  function NameOf(o: Option<Owner>): Option<string> {
    if o.Some? then Some(o.value.name) else None
  }

  lemma {:induction false} NamesFound(owners: seq<Owner>, k: string)
    requires k != ""
    ensures Find(OwnerNames(owners, map[]), k) == NameOf(LastOwner(owners, k))
    decreases |owners|
  {
    hide ResourceAttribute;
    if owners != [] {
      var n := |owners| - 1;
      assert owners == owners[..n] + [owners[n]];
      NamesSnoc(owners[..n], owners[n], map[]);
      NamesFound(owners[..n], k);
    }
  }

  lemma {:induction false} UIDsFound(refs: seq<OwnerRef>, m: Attrs, k: string)
    requires k != ""
    ensures Find(OwnerUIDs(refs, m), k) == if LastOfKind(refs, k).Some? then Some(LastOfKind(refs, k).value.uid) else Find(m, k)
    decreases |refs|
  {
    hide ResourceAttribute;
    if refs != [] {
      var n := |refs| - 1;
      assert refs == refs[..n] + [refs[n]];
      UIDsSnoc(refs[..n], refs[n], m);
      UIDsFound(refs[..n], m, k);
    }
  }

  /** What the owners say of a key: with UID attributes the last reference of the kind, else the last owner of the kind. */
  function FromOwners(meta: ObjectMeta, addUIDs: bool, k: string): Option<string> {
    if addUIDs && LastOfKind(meta.owners, k).Some? then Some(LastOfKind(meta.owners, k).value.uid)
    else NameOf(LastOwner(OwnersFrom(meta), k))
  }

  lemma OwnersFound(meta: ObjectMeta, addUIDs: bool, k: string)
    requires k != ""
    ensures Find(ParentLabels(meta, addUIDs), k) == FromOwners(meta, addUIDs, k)
  {
    hide ResourceAttribute, OwnersFrom, OwnerNames, OwnerUIDs;
    NamesFound(OwnersFrom(meta), k);
    UIDsFound(meta.owners, OwnerNames(OwnersFrom(meta), map[]), k);
  }

  /** What the pod and the configuration say of a key, annotations apart. */
  function Derived(t: Site, k: string): Option<string> {
    if k == "service.instance.id" && InstanceIdOf(t) != "" then Some(InstanceIdOf(t))
    else if k == "k8s.pod.ip" && t.cfg.resources.addPodIP then Some("$(OTEL_RESOURCE_ATTRIBUTES_POD_IP)")
    else if k == "k8s.node.name" then Some("$(OTEL_RESOURCE_ATTRIBUTES_NODE_NAME)")
    else FromOwners(t.meta, t.cfg.resources.addUIDs, k)
  }

  function InstanceIdOf(t: Site): string {
    InstanceId(t.meta, "$(OTEL_INJECTOR_K8S_NAMESPACE_NAME)", "$(OTEL_INJECTOR_K8S_POD_NAME)", t.containerName)
  }

  /** The span-metrics marker first, then the pod's annotation, then what is derived. */
  function AttributeOf(t: Site, spanMetrics: bool, k: string): Option<string> {
    if spanMetrics && k == "span.metrics.skip" then Some("true")
    else if "resource.opentelemetry.io/" + k in t.meta.annotations then Some(t.meta.annotations["resource.opentelemetry.io/" + k])
    else Derived(t, k)
  }

  lemma PlacementByKey(t: Site, k: string)
    requires k != ""
    ensures Find(SiteBaseAttrs(t), k) ==
      if k == POD_IP && t.cfg.resources.addPodIP then Some("$(OTEL_RESOURCE_ATTRIBUTES_POD_IP)")
      else if k == NODE_NAME then Some("$(OTEL_RESOURCE_ATTRIBUTES_NODE_NAME)")
      else FromOwners(t.meta, t.cfg.resources.addUIDs, k)
  {
    NodeText();
    PodIPText();
    OwnersFound(t.meta, t.cfg.resources.addUIDs, k);
    hide ParentLabels, FromOwners, Expansion.Reference;
  }

  lemma DerivedByKey(t: Site, k: string)
    requires k != ""
    ensures Find(WithInstanceId(SiteBaseAttrs(t), SiteInstanceId(t)), k) == Derived(t, k)
  {
    RewrittenLookups.ReferenceTexts();
    PlacementByKey(t, k);
    hide SiteBaseAttrs, FromOwners, InstanceId, Expansion.Reference;
  }

  /** Every non-empty key is there exactly when something says so, with what that says. */
  lemma AttributesByKey(t: Site, spanMetrics: bool, k: string)
    requires k != ""
    ensures Find(AllAttrs(t, spanMetrics), k) == AttributeOf(t, spanMetrics, k)
  {
    DerivedByKey(t, k);
    hide WithInstanceId, SiteBaseAttrs, Derived, SiteInstanceId;
  }

  lemma NodeText()
    ensures Expansion.Reference(ENV_NODE) == "$(OTEL_RESOURCE_ATTRIBUTES_NODE_NAME)"
  {
  }

  lemma PodIPText()
    ensures Expansion.Reference(ENV_POD_IP) == "$(OTEL_RESOURCE_ATTRIBUTES_POD_IP)"
  {
  }

  lemma KeysDiffer()
    ensures |{INSTANCE_ID, NODE_NAME, POD_IP, SKIP_SPAN_METRICS}| == 4
  {
    assert |INSTANCE_ID| == 19 && |NODE_NAME| == 13 && |POD_IP| == 10 && |SKIP_SPAN_METRICS| == 17;
  }

  /** The empty key is only ever an annotation whose name is the bare prefix. */
  lemma EmptyKey(t: Site, spanMetrics: bool)
    ensures "" in AllAttrs(t, spanMetrics) <==> "resource.opentelemetry.io/" in t.meta.annotations
  {
    KeysDiffer();
    assert ANNOTATION_PREFIX + "" == ANNOTATION_PREFIX;
    hide ResourceAttribute;
    NoEmptyName(OwnersFrom(t.meta), map[]);
    NoEmptyUID(t.meta.owners, OwnerNames(OwnersFrom(t.meta), map[]));
    hide OwnersFrom, OwnerNames, OwnerUIDs, InstanceId;
  }

  lemma {:induction false} NoEmptyName(owners: seq<Owner>, m: Attrs)
    requires "" !in m
    ensures "" !in OwnerNames(owners, m)
  {
    hide ResourceAttribute;
    if owners != [] {
      var a := ResourceAttribute(owners[0].kind);
      NoEmptyName(owners[1..], if a != "" then m[a := owners[0].name] else m);
    }
  }

  lemma {:induction false} NoEmptyUID(refs: seq<OwnerRef>, m: Attrs)
    requires "" !in m
    ensures "" !in OwnerUIDs(refs, m)
  {
    hide ResourceAttribute;
    if refs != [] {
      var a := ResourceAttribute(refs[0].kind);
      NoEmptyUID(refs[1..], if a != "" then m[a := refs[0].uid] else m);
    }
  }
}
