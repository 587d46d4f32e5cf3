/** Where a container's service name, version and namespace come from, in order of precedence. */
module ServiceIdentity {
  import opened Kube
  import opened Strings
  import opened Config
  import opened Attributes
  import opened PodInfos

  function FirstNonEmpty(values: seq<string>): string {
    if values == [] then "" else if values[0] != "" then values[0] else FirstNonEmpty(values[1..])
  }

  lemma {:induction false} FirstNonEmptyConcat(a: seq<string>, b: seq<string>)
    ensures FirstNonEmpty(a + b) == if FirstNonEmpty(a) != "" then FirstNonEmpty(a) else FirstNonEmpty(b)
  {
    if a == [] {
      assert a + b == b;
    } else {
      assert (a + b)[1..] == a[1..] + b;
      FirstNonEmptyConcat(a[1..], b);
    }
  }

  function Values(m: map<string, string>, keys: seq<string>): seq<string> {
    seq(|keys|, i requires 0 <= i < |keys| => Get(m, keys[i]))
  }

  lemma {:induction false} FirstLabelIsFirst(m: map<string, string>, keys: seq<string>)
    ensures FirstLabel(m, keys) == FirstNonEmpty(Values(m, keys))
  {
    if keys != [] {
      assert Values(m, keys)[1..] == Values(m, keys[1..]);
      FirstLabelIsFirst(m, keys[1..]);
    }
  }

  lemma {:induction false} FirstOfIsFirst(m: map<string, string>, keys: seq<string>, fallback: string)
    ensures FirstOf(m, keys, fallback) == FirstNonEmpty(Values(m, keys) + [fallback])
  {
    if keys == [] {
      assert Values(m, keys) + [fallback] == [fallback];
      assert [fallback][1..] == [];
    } else {
      assert (Values(m, keys) + [fallback])[1..] == Values(m, keys[1..]) + [fallback];
      FirstOfIsFirst(m, keys[1..], fallback);
    }
  }

  /** What the pod's author can say: the annotation, then, if enabled, the labels. */
  function Declared(meta: ObjectMeta, useLabels: bool, res: string, labels: seq<string>): seq<string> {
    [Get(meta.annotations, "resource.opentelemetry.io/" + res)] + if useLabels then Values(meta.labels, labels) else []
  }

  lemma DeclaredFirst(meta: ObjectMeta, useLabels: bool, res: string, labels: seq<string>)
    ensures LabelOrAnnotation(meta, useLabels, res, labels) == FirstNonEmpty(Declared(meta, useLabels, res, labels))
  {
    FirstLabelIsFirst(meta.labels, labels);
    var d := Declared(meta, useLabels, res, labels);
    assert d[1..] == if useLabels then Values(meta.labels, labels) else [];
  }

  /** The service name: annotation, instance label, name label, then the owner from Deployment down to Job, then the pod. */
  lemma ServiceNamePrecedence(meta: ObjectMeta, useLabels: bool, podName: string, attrs: Attrs)
    ensures ServiceName(meta, useLabels, podName, attrs) == FirstNonEmpty(
      Declared(meta, useLabels, "service.name", ["app.kubernetes.io/instance", "app.kubernetes.io/name"])
      + Values(attrs, ["k8s.deployment.name", "k8s.replicaset.name", "k8s.statefulset.name", "k8s.daemonset.name",
          "k8s.cronjob.name", "k8s.job.name"]) + [podName])
  {
    var kinds := [DEPLOYMENT, REPLICASET, STATEFULSET, DAEMONSET, CRONJOB, JOB];
    var d := Declared(meta, useLabels, SERVICE_NAME, APP_NAME_LABELS);
    DeclaredFirst(meta, useLabels, SERVICE_NAME, APP_NAME_LABELS);
    FirstOfIsFirst(attrs, kinds, podName);
    FirstNonEmptyConcat(d, Values(attrs, kinds) + [podName]);
    assert d + Values(attrs, kinds) + [podName] == d + (Values(attrs, kinds) + [podName]);
  }

  /** The version: annotation, label, image. */
  lemma ServiceVersionPrecedence(meta: ObjectMeta, useLabels: bool, imageVersion: string)
    ensures ServiceVersion(meta, useLabels, imageVersion)
      == FirstNonEmpty(Declared(meta, useLabels, "service.version", ["app.kubernetes.io/version"]) + [imageVersion])
  {
    DeclaredFirst(meta, useLabels, SERVICE_VERSION, APP_VERSION_LABELS);
    FirstNonEmptyConcat(Declared(meta, useLabels, SERVICE_VERSION, APP_VERSION_LABELS), [imageVersion]);
    assert [imageVersion][1..] == [];
  }

  /** The namespace: annotation, else what it falls back to; labels have no say. */
  lemma ServiceNamespacePrecedence(meta: ObjectMeta, useLabels: bool, namespace: string)
    ensures ServiceNamespace(meta, useLabels, namespace)
      == FirstNonEmpty([Get(meta.annotations, "resource.opentelemetry.io/service.namespace"), namespace])
  {
    DeclaredFirst(meta, useLabels, SERVICE_NAMESPACE, []);
    var a := Get(meta.annotations, "resource.opentelemetry.io/" + SERVICE_NAMESPACE);
    assert Declared(meta, useLabels, SERVICE_NAMESPACE, []) == [a];
    assert [a][1..] == [] && [a, namespace][1..] == [namespace] && [namespace][1..] == [];
    assert "resource.opentelemetry.io/" + "service.namespace" == "resource.opentelemetry.io/service.namespace";
  }

  /** The instance id: annotation, else the three names joined by dots if none is empty; labels have no say. */
  lemma InstanceIdPrecedence(meta: ObjectMeta, namespace: string, pod: string, container: string)
    ensures InstanceId(meta, namespace, pod, container) == FirstNonEmpty([
      Get(meta.annotations, "resource.opentelemetry.io/" + "service.instance.id"),
      if namespace == "" || pod == "" || container == "" then "" else namespace + "." + pod + "." + container])
  {
    DeclaredFirst(meta, false, INSTANCE_ID, []);
    var a := Get(meta.annotations, "resource.opentelemetry.io/" + INSTANCE_ID);
    assert Declared(meta, false, INSTANCE_ID, []) == [a];
    var joined := if namespace == "" || pod == "" || container == "" then "" else namespace + "." + pod + "." + container;
    assert [a][1..] == [] && [a, joined][1..] == [joined] && [joined][1..] == [];
    assert [namespace, pod, container][1..] == [pod, container] && [pod, container][1..] == [container];
    if joined != "" {
      assert Join([pod, container], '.') == pod + "." + container;
      assert Join([namespace, pod, container], '.') == namespace + "." + Join([pod, container], '.');
      assert namespace + "." + (pod + "." + container) == joined;
    }
    FirstOfTwo(a, joined);
  }

  lemma FirstOfTwo(a: string, b: string)
    ensures FirstNonEmpty([a, b]) == if a != "" then a else b
    ensures FirstNonEmpty([a]) == a
  {
    assert [a, b][1..] == [b] && [b][1..] == [] && [a][1..] == [];
    assert FirstNonEmpty([]) == "";
    assert FirstNonEmpty([b]) == b;
  }

  // ---- owners

  /** The attribute of each owner kind, in any letter case, and of no other kind. */
  lemma KindTable(kind: string)
    ensures var k := ToLower(kind);
      ResourceAttribute(kind) ==
        if k == "deployment" then "k8s.deployment.name" else if k == "replicaset" then "k8s.replicaset.name"
        else if k == "statefulset" then "k8s.statefulset.name" else if k == "daemonset" then "k8s.daemonset.name"
        else if k == "cronjob" then "k8s.cronjob.name" else if k == "job" then "k8s.job.name" else ""
  {
    hide ToLower;
    assert |"replicaset"| == 10 && |"deployment"| == 10 && "replicaset"[0] != "deployment"[0];
  }

  /** A parent is guessed for a ReplicaSet of apps/v1 and a Job of batch/v1: its name up to the last dash, if something is left. */
  lemma GuessedParentExactly(r: OwnerRef, parent: Owner)
    ensures GuessedParent(r) == Some(parent) <==>
      exists i ::
        && 0 < i < |r.name| && r.name[i] == '-' && (forall j :: i < j < |r.name| ==> r.name[j] != '-')
        && parent.name == r.name[..i]
        && ((r.apiVersion == "apps/v1" && r.kind == "ReplicaSet" && parent.kind == "Deployment")
            || (r.apiVersion == "batch/v1" && r.kind == "Job" && parent.kind == "CronJob"))
  {
    var last := LastIndexChar(r.name, '-');
    assert |"apps/v1"| == 7 && |"batch/v1"| == 8;
    forall i | 0 < i < |r.name| && r.name[i] == '-' && (forall j :: i < j < |r.name| ==> r.name[j] != '-') ensures last == i {
      LastIs(r.name, '-', i);
    }
  }

  lemma {:induction false} OwnersOneByOne(refs: seq<OwnerRef>, r: OwnerRef, more: seq<OwnerRef>)
    requires forall i :: 0 <= i < |refs| ==> GuessedParent(refs[i]).None?
    ensures OwnersOf(refs + [r] + more) == Plain(refs) + [Owner(r.kind, r.name)]
      + match GuessedParent(r) case Some(parent) => [parent] case None => OwnersOf(more)
  {
    hide GuessedParent;
    var all := refs + [r] + more;
    if refs == [] {
      assert all[0] == r && all[1..] == more;
    } else {
      assert forall i | 0 <= i < |refs| - 1 :: refs[1..][i] == refs[i + 1];
      assert all[1..] == refs[1..] + [r] + more;
      OwnersOneByOne(refs[1..], r, more);
    }
  }

  /** Each reference as an owner. */
  function Plain(refs: seq<OwnerRef>): seq<Owner> {
    if refs == [] then [] else [Owner(refs[0].kind, refs[0].name)] + Plain(refs[1..])
  }

  /** References are listed up to and including the first with a guessed parent, which follows it; the others are ignored. */
  lemma OwnersStopAtParent(meta: ObjectMeta, refs: seq<OwnerRef>, r: OwnerRef, more: seq<OwnerRef>)
    requires meta.owners == refs + [r] + more && forall i :: 0 <= i < |refs| ==> GuessedParent(refs[i]).None?
    ensures GuessedParent(r).Some? ==> OwnersFrom(meta) == Plain(refs) + [Owner(r.kind, r.name)] + [GuessedParent(r).value]
    ensures GuessedParent(r).None? && more == [] ==> OwnersFrom(meta) == Plain(refs) + [Owner(r.kind, r.name)]
  {
    OwnersOneByOne(refs, r, more);
  }

  /** A pod without owners is its own owner. */
  lemma OwnerlessPod(meta: ObjectMeta)
    requires meta.owners == []
    ensures OwnersFrom(meta) == [Owner("Pod", meta.name)]
  {
  }

  /** The last reference whose kind maps to the attribute. */
  function LastOfKind(refs: seq<OwnerRef>, attribute: string): Option<OwnerRef> {
    if refs == [] then None
    else if ResourceAttribute(refs[|refs| - 1].kind) == attribute then Some(refs[|refs| - 1])
    else LastOfKind(refs[..|refs| - 1], attribute)
  }

  lemma {:induction false} UIDsSnoc(refs: seq<OwnerRef>, r: OwnerRef, m: Attrs)
    ensures OwnerUIDs(refs + [r], m)
      == if ResourceAttribute(r.kind) != "" then OwnerUIDs(refs, m)[ResourceAttribute(r.kind) := r.uid] else OwnerUIDs(refs, m)
    decreases |refs|
  {
    if refs == [] {
      assert refs + [r] == [r] && [r][1..] == [];
    } else {
      var a := ResourceAttribute(refs[0].kind);
      assert (refs + [r])[1..] == refs[1..] + [r];
      UIDsSnoc(refs[1..], r, if a != "" then m[a := refs[0].uid] else m);
    }
  }

  /** UIDs take over the keys that hold the owners' names: the last reference of a kind decides. */
  lemma {:induction false} UIDsReplaceNames(refs: seq<OwnerRef>, m: Attrs, attribute: string)
    requires attribute != ""
    ensures Get(OwnerUIDs(refs, m), attribute)
      == match LastOfKind(refs, attribute) case Some(r) => r.uid case None => Get(m, attribute)
    decreases |refs|
  {
    if refs != [] {
      var n := |refs| - 1;
      assert refs == refs[..n] + [refs[n]];
      UIDsSnoc(refs[..n], refs[n], m);
      UIDsReplaceNames(refs[..n], m, attribute);
    }
  }

  /** The last owner whose kind maps to the attribute. */
  function LastOwner(owners: seq<Owner>, attribute: string): Option<Owner> {
    if owners == [] then None
    else if ResourceAttribute(owners[|owners| - 1].kind) == attribute then Some(owners[|owners| - 1])
    else LastOwner(owners[..|owners| - 1], attribute)
  }

  lemma {:induction false} NamesSnoc(owners: seq<Owner>, o: Owner, m: Attrs)
    ensures OwnerNames(owners + [o], m)
      == if ResourceAttribute(o.kind) != "" then OwnerNames(owners, m)[ResourceAttribute(o.kind) := o.name] else OwnerNames(owners, m)
    decreases |owners|
  {
    hide ResourceAttribute;
    if owners == [] {
      assert owners + [o] == [o] && [o][1..] == [];
    } else {
      var a := ResourceAttribute(owners[0].kind);
      assert (owners + [o])[1..] == owners[1..] + [o];
      NamesSnoc(owners[1..], o, if a != "" then m[a := owners[0].name] else m);
    }
  }

  lemma {:induction false} NamesByKind(owners: seq<Owner>, attribute: string)
    requires attribute != ""
    ensures Get(OwnerNames(owners, map[]), attribute)
      == match LastOwner(owners, attribute) case Some(o) => o.name case None => ""
    decreases |owners|
  {
    hide ResourceAttribute;
    if owners != [] {
      var n := |owners| - 1;
      assert owners == owners[..n] + [owners[n]];
      NamesSnoc(owners[..n], owners[n], map[]);
      NamesByKind(owners[..n], attribute);
    }
  }

  const KINDS: seq<string> := [DEPLOYMENT, REPLICASET, STATEFULSET, DAEMONSET, CRONJOB, JOB]

  /** What the owners put under a key: the last owner's name, or, with UID attributes, the last reference's UID. */
  function OwnerValue(meta: ObjectMeta, addUIDs: bool, k: string): string {
    if addUIDs && LastOfKind(meta.owners, k).Some? then LastOfKind(meta.owners, k).value.uid
    else match LastOwner(OwnersFrom(meta), k)
      case Some(o) => o.name
      case None => ""
  }

  lemma KindKeysDiffer()
    ensures forall k :: k in KINDS ==> k !in {NODE_NAME, POD_IP, ""}
  {
    assert |STATEFULSET| == 20 && |DAEMONSET| == 18 && |DEPLOYMENT| == 19 && |REPLICASET| == 19;
    assert |CRONJOB| == 16 && |JOB| == 12 && |NODE_NAME| == 13 && |POD_IP| == 10;
  }

  lemma OwnerAttribute(meta: ObjectMeta, cfg: SDKInject, node: string, ip: string, k: string)
    requires k in KINDS
    ensures Get(BaseAttrs(cfg, meta, node, ip), k) == OwnerValue(meta, cfg.resources.addUIDs, k)
  {
    KindKeysDiffer();
    hide ResourceAttribute, OwnersFrom, OwnerNames, OwnerUIDs;
    NamesByKind(OwnersFrom(meta), k);
    UIDsReplaceNames(meta.owners, OwnerNames(OwnersFrom(meta), map[]), k);
  }

  /** The first key of the list the owners put something under. */
  function ChosenKind(meta: ObjectMeta, addUIDs: bool, keys: seq<string>): Option<string> {
    if keys == [] then None
    else if OwnerValue(meta, addUIDs, keys[0]) != "" then Some(keys[0])
    else ChosenKind(meta, addUIDs, keys[1..])
  }

  lemma {:induction false} FirstOfChosen(meta: ObjectMeta, cfg: SDKInject, node: string, ip: string, keys: seq<string>, fallback: string)
    requires forall k :: k in keys ==> k in KINDS
    ensures FirstOf(BaseAttrs(cfg, meta, node, ip), keys, fallback)
      == match ChosenKind(meta, cfg.resources.addUIDs, keys)
         case Some(k) => OwnerValue(meta, cfg.resources.addUIDs, k)
         case None => fallback
  {
    hide BaseAttrs, OwnerValue;
    if keys != [] {
      OwnerAttribute(meta, cfg, node, ip, keys[0]);
      FirstOfChosen(meta, cfg, node, ip, keys[1..], fallback);
    }
  }

  /** The key the service name is taken from had its name replaced by a UID. */
  predicate TakesUID(meta: ObjectMeta, addUIDs: bool) {
    var k := ChosenKind(meta, addUIDs, KINDS);
    addUIDs && k.Some? && LastOfKind(meta.owners, k.value).Some?
  }

  function UIDs(meta: ObjectMeta): set<string> {
    set r | r in meta.owners :: r.uid
  }

  /** The names a pod can be called after. */
  function NamesAround(meta: ObjectMeta, podName: string): set<string> {
    (set o | o in OwnersFrom(meta) :: o.name) + {podName}
  }

  lemma {:induction false} LastOfKindIsOwner(refs: seq<OwnerRef>, k: string)
    ensures LastOfKind(refs, k).Some? ==> LastOfKind(refs, k).value in refs
  {
    if refs != [] && ResourceAttribute(refs[|refs| - 1].kind) != k {
      LastOfKindIsOwner(refs[..|refs| - 1], k);
    }
  }

  lemma {:induction false} LastOwnerIsOwner(owners: seq<Owner>, k: string)
    ensures LastOwner(owners, k).Some? ==> LastOwner(owners, k).value in owners
  {
    if owners != [] && ResourceAttribute(owners[|owners| - 1].kind) != k {
      LastOwnerIsOwner(owners[..|owners| - 1], k);
    }
  }

  /**
   Without an annotation or label the service name is what the owners put under the first key of the
   list, from Deployment down to Job. It is a UID exactly when UID attributes are on and that key is
   the kind of one of the pod's own owner references.
   */
  lemma OwnerServiceName(meta: ObjectMeta, cfg: SDKInject, node: string, ip: string, podName: string)
    requires LabelOrAnnotation(meta, cfg.resources.useLabels, SERVICE_NAME, APP_NAME_LABELS) == ""
    ensures var name := ServiceName(meta, cfg.resources.useLabels, podName, BaseAttrs(cfg, meta, node, ip));
      && name == (match ChosenKind(meta, cfg.resources.addUIDs, KINDS)
           case Some(k) => OwnerValue(meta, cfg.resources.addUIDs, k)
           case None => podName)
      && (TakesUID(meta, cfg.resources.addUIDs) ==> name in UIDs(meta))
      && (!TakesUID(meta, cfg.resources.addUIDs) ==> name in NamesAround(meta, podName))
      && (UIDs(meta) !! NamesAround(meta, podName) ==> (name in UIDs(meta) <==> TakesUID(meta, cfg.resources.addUIDs)))
  {
    var k := ChosenKind(meta, cfg.resources.addUIDs, KINDS);
    FirstOfChosen(meta, cfg, node, ip, KINDS, podName);
    hide BaseAttrs, OwnersFrom, LastOfKind, LastOwner, FirstOf, LabelOrAnnotation;
    if k.Some? {
      ChosenIsSet(meta, cfg.resources.addUIDs, KINDS);
      LastOfKindIsOwner(meta.owners, k.value);
      LastOwnerIsOwner(OwnersFrom(meta), k.value);
    }
  }

  lemma {:induction false} ChosenIsSet(meta: ObjectMeta, addUIDs: bool, keys: seq<string>)
    ensures var k := ChosenKind(meta, addUIDs, keys); k.Some? ==> OwnerValue(meta, addUIDs, k.value) != ""
  {
    hide OwnerValue;
    if keys != [] {
      ChosenIsSet(meta, addUIDs, keys[1..]);
    }
  }

  /** A sole owner with no guessed parent: the pod is named after it only without UID attributes. */
  lemma SoleOwnerServiceName(meta: ObjectMeta, cfg: SDKInject, node: string, ip: string, podName: string)
    requires |meta.owners| == 1 && ResourceAttribute(meta.owners[0].kind) in KINDS && GuessedParent(meta.owners[0]).None?
    requires meta.owners[0].name != "" && meta.owners[0].uid != ""
    requires LabelOrAnnotation(meta, cfg.resources.useLabels, SERVICE_NAME, APP_NAME_LABELS) == ""
    ensures ServiceName(meta, cfg.resources.useLabels, podName, BaseAttrs(cfg, meta, node, ip))
      == if cfg.resources.addUIDs then meta.owners[0].uid else meta.owners[0].name
  {
    var r := meta.owners[0];
    var a := ResourceAttribute(r.kind);
    assert OwnersFrom(meta) == [Owner(r.kind, r.name)] + OwnersOf([]) by { assert meta.owners[1..] == []; }
    hide ResourceAttribute, OwnersFrom;
    forall k | k in KINDS
      ensures OwnerValue(meta, cfg.resources.addUIDs, k) == if k != a then "" else if cfg.resources.addUIDs then r.uid else r.name
    {
      SoleOfKind(meta.owners, OwnersFrom(meta), k);
    }
    OwnerServiceName(meta, cfg, node, ip, podName);
    OnlyKind(meta, cfg.resources.addUIDs, KINDS, a);
  }

  lemma SoleOfKind(refs: seq<OwnerRef>, owners: seq<Owner>, k: string)
    requires |refs| == 1 && owners == [Owner(refs[0].kind, refs[0].name)]
    ensures LastOfKind(refs, k) == if ResourceAttribute(refs[0].kind) == k then Some(refs[0]) else None
    ensures LastOwner(owners, k) == if ResourceAttribute(refs[0].kind) == k then Some(owners[0]) else None
  {
    hide ResourceAttribute;
    assert refs[..0] == [] && owners[..0] == [];
  }

  lemma {:induction false} OnlyKind(meta: ObjectMeta, addUIDs: bool, keys: seq<string>, a: string)
    requires a in keys && forall k :: k in keys ==> (OwnerValue(meta, addUIDs, k) != "" <==> k == a)
    ensures ChosenKind(meta, addUIDs, keys) == Some(a)
  {
    hide OwnerValue;
    if keys[0] != a {
      assert keys[0] in keys;
      OnlyKind(meta, addUIDs, keys[1..], a);
    }
  }

  /** A Job named `c-t`, with no dash in `t`, is taken to belong to CronJob `c`. */
  lemma JobPodBelongsToCronJob(meta: ObjectMeta, c: string, t: string)
    requires |meta.owners| == 1 && c != "" && !HasChar(t, '-')
    requires meta.owners[0].apiVersion == "batch/v1" && meta.owners[0].kind == "Job" && meta.owners[0].name == c + "-" + t
    ensures OwnersFrom(meta) == [Owner("Job", c + "-" + t), Owner("CronJob", c)]
  {
    LastDash(c, t);
    assert meta.owners[0].name[..|c|] == c;
  }
}
