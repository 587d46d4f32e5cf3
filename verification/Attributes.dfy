/** The resource attributes and service identity the injector derives from a pod's metadata. */
module Attributes {
  import opened Kube
  import opened Strings
  import opened Config

  const ANNOTATION_PREFIX := "resource.opentelemetry.io/"

  const SERVICE_NAME := "service.name"
  const SERVICE_VERSION := "service.version"
  const SERVICE_NAMESPACE := "service.namespace"
  const INSTANCE_ID := "service.instance.id"
  const NODE_NAME := "k8s.node.name"
  const POD_IP := "k8s.pod.ip"
  const DEPLOYMENT := "k8s.deployment.name"
  const REPLICASET := "k8s.replicaset.name"
  const STATEFULSET := "k8s.statefulset.name"
  const DAEMONSET := "k8s.daemonset.name"
  const CRONJOB := "k8s.cronjob.name"
  const JOB := "k8s.job.name"
  const SKIP_SPAN_METRICS := "span.metrics.skip"

  const APP_NAME_LABELS: seq<string> := ["app.kubernetes.io/instance", "app.kubernetes.io/name"]
  const APP_VERSION_LABELS: seq<string> := ["app.kubernetes.io/version"]

  type Attrs = map<string, string>

  // ---- owners

  /** The parent a generated name `parent-suffix` points to, when there is one. */
  function GuessedParent(r: OwnerRef): Option<Owner> {
    var i := LastIndexChar(r.name, '-');
    if i <= 0 then None
    else if r.apiVersion == "apps/v1" && r.kind == "ReplicaSet" then Some(Owner("Deployment", r.name[..i]))
    else if r.apiVersion == "batch/v1" && r.kind == "Job" then Some(Owner("CronJob", r.name[..i]))
    else None
  }

  /** References up to and including the first one with a guessed parent. */
  function OwnersOf(refs: seq<OwnerRef>): seq<Owner> {
    if refs == [] then []
    else
      var self := [Owner(refs[0].kind, refs[0].name)];
      match GuessedParent(refs[0])
      case Some(parent) => self + [parent]
      case None => self + OwnersOf(refs[1..])
  }

  function OwnersFrom(meta: ObjectMeta): seq<Owner> {
    if meta.owners == [] then [Owner("Pod", meta.name)] else OwnersOf(meta.owners)
  }

  function ResourceAttribute(kind: string): string {
    var k := ToLower(kind);
    if k == "replicaset" then REPLICASET
    else if k == "deployment" then DEPLOYMENT
    else if k == "statefulset" then STATEFULSET
    else if k == "daemonset" then DAEMONSET
    else if k == "job" then JOB
    else if k == "cronjob" then CRONJOB
    else ""
  }

  function OwnerNames(owners: seq<Owner>, m: Attrs): Attrs {
    if owners == [] then m
    else
      var a := ResourceAttribute(owners[0].kind);
      OwnerNames(owners[1..], if a != "" then m[a := owners[0].name] else m)
  }

  function OwnerUIDs(refs: seq<OwnerRef>, m: Attrs): Attrs {
    if refs == [] then m
    else
      var a := ResourceAttribute(refs[0].kind);
      OwnerUIDs(refs[1..], if a != "" then m[a := refs[0].uid] else m)
  }

  /** UIDs, when asked for, are stored under the same keys as the names. */
  function ParentLabels(meta: ObjectMeta, includeUID: bool): Attrs {
    var names := OwnerNames(OwnersFrom(meta), map[]);
    if includeUID then OwnerUIDs(meta.owners, names) else names
  }

  // ---- service identity

  function FirstLabel(labels: map<string, string>, keys: seq<string>): string {
    if keys == [] then ""
    else if Get(labels, keys[0]) != "" then labels[keys[0]]
    else FirstLabel(labels, keys[1..])
  }

  function LabelOrAnnotation(meta: ObjectMeta, useLabels: bool, res: string, labelKeys: seq<string>): string {
    var a := Get(meta.annotations, ANNOTATION_PREFIX + res);
    if a != "" then a
    else if useLabels then FirstLabel(meta.labels, labelKeys)
    else ""
  }

  /** The first key of the list with a non-empty value, else `fallback`. */
  function FirstOf(resources: Attrs, keys: seq<string>, fallback: string): string {
    if keys == [] then fallback
    else if Get(resources, keys[0]) != "" then resources[keys[0]]
    else FirstOf(resources, keys[1..], fallback)
  }

  function ServiceName(meta: ObjectMeta, useLabels: bool, podName: string, resources: Attrs): string {
    var name := LabelOrAnnotation(meta, useLabels, SERVICE_NAME, APP_NAME_LABELS);
    if name != "" then name
    else FirstOf(resources, [DEPLOYMENT, REPLICASET, STATEFULSET, DAEMONSET, CRONJOB, JOB], podName)
  }

  function ServiceVersion(meta: ObjectMeta, useLabels: bool, imageVersion: string): string {
    var v := LabelOrAnnotation(meta, useLabels, SERVICE_VERSION, APP_VERSION_LABELS);
    if v != "" then v else imageVersion
  }

  function ServiceNamespace(meta: ObjectMeta, useLabels: bool, namespace: string): string {
    var v := LabelOrAnnotation(meta, useLabels, SERVICE_NAMESPACE, []);
    if v != "" then v else namespace
  }

  /** Labels never decide the instance id: all containers of a pod would share it. */
  function InstanceId(meta: ObjectMeta, namespace: string, podName: string, containerName: string): string {
    var v := LabelOrAnnotation(meta, false, INSTANCE_ID, []);
    if v != "" then v
    else if namespace != "" && podName != "" && containerName != "" then Join([namespace, podName, containerName], '.')
    else ""
  }

  // ---- the attribute map

  /** The attributes that pod annotations carry, keyed without the prefix. */
  function AnnotationAttrs(annotations: map<string, string>): (m: Attrs)
    ensures forall a :: a in m <==> ANNOTATION_PREFIX + a in annotations
    ensures forall a :: a in m ==> m[a] == annotations[ANNOTATION_PREFIX + a]
  {
    var keys := set k | k in annotations && ANNOTATION_PREFIX <= k :: k[|ANNOTATION_PREFIX|..];
    assert forall a :: (ANNOTATION_PREFIX + a)[|ANNOTATION_PREFIX|..] == a;
    assert forall k :: ANNOTATION_PREFIX <= k ==> ANNOTATION_PREFIX + k[|ANNOTATION_PREFIX|..] == k;
    map a | a in keys :: annotations[ANNOTATION_PREFIX + a]
  }

  /** Owner and placement attributes, before instance id and annotations. */
  function BaseAttrs(cfg: SDKInject, meta: ObjectMeta, nodeRef: string, ipRef: string): Attrs {
    var m := ParentLabels(meta, cfg.resources.addUIDs)[NODE_NAME := nodeRef];
    if cfg.resources.addPodIP then m[POD_IP := ipRef] else m
  }

  function WithInstanceId(m: Attrs, id: string): Attrs {
    if id != "" then m[INSTANCE_ID := id] else m
  }

  function WithSkip(m: Attrs, spanMetrics: bool): Attrs {
    if spanMetrics then m[SKIP_SPAN_METRICS := "true"] else m
  }

  // ---- rendering

  function Item(k: string, v: string): string {
    k + "=" + v
  }

  function Items(m: Attrs, keys: seq<string>): (items: seq<string>)
    requires forall k :: k in keys ==> k in m
    ensures |items| == |keys|
    ensures forall i :: 0 <= i < |keys| ==> items[i] == Item(keys[i], m[keys[i]])
  {
    seq(|keys|, i requires 0 <= i < |keys| => assert keys[i] in keys; Item(keys[i], m[keys[i]]))
  }

  ghost function SortedItems(m: Attrs): (items: seq<string>)
    ensures |items| == |Sorted(m.Keys)|
  {
    Items(m, Sorted(m.Keys))
  }

  ghost function Render(m: Attrs): string {
    Join(SortedItems(m), ',')
  }

  lemma JoinKeepsFirst(parts: seq<string>)
    requires parts != []
    ensures |Join(parts, ',')| >= |parts[0]|
  {
  }

  lemma RenderIsNotEmpty(m: Attrs)
    requires m != map[]
    ensures SortedItems(m) != [] && Render(m) != ""
  {
    var k :| k in m;
    assert k in Sorted(m.Keys);
    JoinKeepsFirst(SortedItems(m));
  }

  /** Reads one `key=value` item, cutting at the first `=`. */
  function Cut(item: string): (string, string) {
    var i := IndexChar(item, '=');
    if i < |item| then (item[..i], item[i + 1..]) else (item, "")
  }

  function DecodeItems(items: seq<string>): Attrs {
    if items == [] then map[] else DecodeItems(items[..|items| - 1])[Cut(items[|items| - 1]).0 := Cut(items[|items| - 1]).1]
  }

  function Decode(s: string): Attrs {
    DecodeItems(Split(s, ','))
  }

  lemma CutItem(k: string, v: string)
    requires !HasChar(k, '=')
    ensures Cut(Item(k, v)) == (k, v)
  {
    var s := Item(k, v);
    assert s[|k|] == '=';
    assert forall i | 0 <= i < |k| :: s[i] == k[i];
    assert IndexChar(s, '=') == |k|;
    assert s[..|k|] == k && s[|k| + 1..] == v;
  }

  lemma {:induction false} DecodeSortedItems(m: Attrs, keys: seq<string>)
    requires forall k :: k in keys ==> k in m && !HasChar(k, '=')
    ensures DecodeItems(Items(m, keys)) == map k | k in keys :: m[k]
  {
    if keys != [] {
      var n := |keys| - 1;
      DecodeSortedItems(m, keys[..n]);
      assert Items(m, keys)[..n] == Items(m, keys[..n]);
      assert keys[n] in keys;
      CutItem(keys[n], m[keys[n]]);
      assert keys == keys[..n] + [keys[n]];
    }
  }

  lemma ItemHasNoComma(k: string, v: string)
    requires !HasChar(k, ',') && !HasChar(v, ',')
    ensures !HasChar(Item(k, v), ',')
  {
    assert forall i | 0 <= i < |Item(k, v)| ::
      Item(k, v)[i] == if i < |k| then k[i] else if i == |k| then '=' else v[i - |k| - 1];
  }

  /** The rendered list decodes to exactly the map it was rendered from. */
  lemma RenderRoundTrip(m: Attrs)
    requires m != map[]
    requires forall k :: k in m ==> !HasChar(k, ',') && !HasChar(k, '=') && !HasChar(m[k], ',')
    ensures Decode(Render(m)) == m
  {
    var keys, items := Sorted(m.Keys), SortedItems(m);
    RenderIsNotEmpty(m);
    forall p | p in items ensures !HasChar(p, ',') {
      var i :| 0 <= i < |items| && items[i] == p;
      assert keys[i] in keys;
      ItemHasNoComma(keys[i], m[keys[i]]);
    }
    SplitJoin(items, ',');
    DecodeSortedItems(m, keys);
    assert forall k :: k in m <==> k in keys;
  }
}
