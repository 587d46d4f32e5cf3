/** Resolving the ownership chain of a pod, and the workload it reports as. */
module PodInfos {
  import opened Kube
  import opened Strings
  import opened Rules
  import opened Config
  import opened Attributes

  /** The ReplicaSets a lookup finds, with their owners. A lookup that fails finds nothing. */
  type ReplicaSets = map<(string, string), seq<OwnerRef>>

  /** The reference flagged as controller, else the first one. */
  function ControllerRef(refs: seq<OwnerRef>): Option<OwnerRef> {
    if refs == [] then None
    else
      var flagged := FlaggedRef(refs);
      if flagged.Some? then flagged else Some(refs[0])
  }

  function FlaggedRef(refs: seq<OwnerRef>): Option<OwnerRef> {
    if refs == [] then None
    else if refs[0].controller then Some(refs[0])
    else FlaggedRef(refs[1..])
  }

  /** The Deployment a pod's ReplicaSet belongs to, if it can be looked up. */
  function DeploymentOf(rs: ReplicaSets, namespace: string, name: string): seq<Owner> {
    if (namespace, name) !in rs then []
    else
      var owner := ControllerRef(rs[(namespace, name)]);
      if owner.Some? && owner.value.kind == "Deployment" then [Owner("Deployment", owner.value.name)] else []
  }

  /** The pod itself, then its controller, then the Deployment above a ReplicaSet. */
  function Chain(meta: ObjectMeta, rs: ReplicaSets): seq<Owner> {
    var self := [Owner("Pod", meta.name)];
    match ControllerRef(meta.owners)
    case None => self
    case Some(owner) =>
      self + [Owner(owner.kind, owner.name)]
      + if owner.kind == "ReplicaSet" then DeploymentOf(rs, meta.namespace, owner.name) else []
  }

  function Info(meta: ObjectMeta, rs: ReplicaSets): PodInfo {
    PodInfo(meta.name, meta.namespace, meta.labels, meta.annotations, Chain(meta, rs))
  }

  method Resolve(meta: ObjectMeta, rs: ReplicaSets) returns (info: PodInfo)
    ensures info == Info(meta, rs)
  {
    info := PodInfo(meta.name, meta.namespace, meta.labels, meta.annotations, [Owner("Pod", meta.name)]);
    var owner := ControllerRef(meta.owners);
    if owner.None? {
      return;
    }
    info := info.(chain := info.chain + [Owner(owner.value.kind, owner.value.name)]);
    if owner.value.kind == "ReplicaSet" {
      var key := (meta.namespace, owner.value.name);
      if key !in rs {
        return;
      }
      var rsOwner := ControllerRef(rs[key]);
      if rsOwner.Some? && rsOwner.value.kind == "Deployment" {
        info := info.(chain := info.chain + [Owner("Deployment", rsOwner.value.name)]);
      }
    }
  }

  /** The top-most owner; a bare pod reports as itself. */
  function Workload(info: PodInfo): Owner {
    if info.chain != [] then info.chain[|info.chain| - 1] else Owner("Pod", info.name)
  }

  // ---- link by link

  lemma {:induction false} FlaggedIsFirst(refs: seq<OwnerRef>, i: nat)
    requires i < |refs| && refs[i].controller && forall j :: 0 <= j < i ==> !refs[j].controller
    ensures FlaggedRef(refs) == Some(refs[i])
  {
    if i > 0 {
      assert !refs[0].controller;
      assert forall j | 0 <= j < |refs| - 1 :: refs[1..][j] == refs[j + 1];
      FlaggedIsFirst(refs[1..], i - 1);
    }
  }

  lemma {:induction false} NoneIsFlagged(refs: seq<OwnerRef>)
    requires forall j :: 0 <= j < |refs| ==> !refs[j].controller
    ensures FlaggedRef(refs) == None
  {
    if refs != [] {
      assert forall j | 0 <= j < |refs| - 1 :: refs[1..][j] == refs[j + 1];
      NoneIsFlagged(refs[1..]);
    }
  }

  /** The first flagged reference stands for the controller, and without one the first of all. */
  predicate StandsForController(refs: seq<OwnerRef>, i: nat) {
    && i < |refs|
    && (forall j :: 0 <= j < i ==> !refs[j].controller)
    && (refs[i].controller || (i == 0 && forall j :: 0 <= j < |refs| ==> !refs[j].controller))
  }

  lemma ControllerIs(refs: seq<OwnerRef>, i: nat)
    requires StandsForController(refs, i)
    ensures ControllerRef(refs) == Some(refs[i])
  {
    if refs[i].controller {
      FlaggedIsFirst(refs, i);
    } else {
      NoneIsFlagged(refs);
    }
  }

  /** The chain starts with the pod and, if anything owns it, goes on with its controller. */
  lemma ChainStarts(meta: ObjectMeta, rs: ReplicaSets, i: nat)
    requires meta.owners != [] ==> StandsForController(meta.owners, i)
    ensures var c := Info(meta, rs).chain;
      && c != [] && c[0] == Owner("Pod", meta.name)
      && (meta.owners == [] ==> |c| == 1)
      && (meta.owners != [] ==> 2 <= |c| <= 3 && c[1] == Owner(meta.owners[i].kind, meta.owners[i].name))
  {
    if meta.owners != [] {
      ControllerIs(meta.owners, i);
    }
  }

  /** The chain ends with a Deployment exactly when the controller is a ReplicaSet that is found and a Deployment controls it. */
  lemma ChainEndsWithDeployment(meta: ObjectMeta, rs: ReplicaSets, i: nat, j: nat)
    requires StandsForController(meta.owners, i)
    requires var key := (meta.namespace, meta.owners[i].name);
      key in rs && rs[key] != [] ==> StandsForController(rs[key], j)
    ensures var c, key := Info(meta, rs).chain, (meta.namespace, meta.owners[i].name);
      && (|c| == 3 <==> meta.owners[i].kind == "ReplicaSet" && key in rs && rs[key] != [] && rs[key][j].kind == "Deployment")
      && (|c| == 3 ==> c[2] == Owner("Deployment", rs[key][j].name))
  {
    ControllerIs(meta.owners, i);
    var key := (meta.namespace, meta.owners[i].name);
    if key in rs && rs[key] != [] {
      ControllerIs(rs[key], j);
    }
  }

  /** The rest of what rules see of a pod is copied from it. */
  lemma InfoCopies(meta: ObjectMeta, rs: ReplicaSets)
    ensures var p := Info(meta, rs);
      InputOf(p) == MatchInput(meta.namespace, p.chain, meta.labels, meta.annotations) && p.name == meta.name
  {
  }

  /** The workload a pod reports as is the last link of its chain. */
  lemma WorkloadIsLast(meta: ObjectMeta, rs: ReplicaSets)
    ensures Info(meta, rs).chain != [] && Workload(Info(meta, rs)) == Info(meta, rs).chain[|Info(meta, rs).chain| - 1]
  {
  }

  // ---- the guessed Deployment is the resolved one

  lemma LastIs(s: string, c: char, i: nat)
    requires i < |s| && s[i] == c && forall j :: i < j < |s| ==> s[j] != c
    ensures LastIndexChar(s, c) == i
  {
    var k := LastIndexChar(s, c);
    assert !(k < i);
    assert !(i < k);
  }

  lemma LastBefore(t: string, h: string, c: char)
    requires t != "" && t[|t| - 1] == c && !HasChar(h, c)
    ensures LastIndexChar(t + h, c) == |t| - 1
  {
    var s := t + h;
    assert forall j | |t| <= j < |s| :: s[j] == h[j - |t|] != c;
    LastIs(s, c, |t| - 1);
  }

  lemma LastDash(d: string, h: string)
    requires !HasChar(h, '-')
    ensures LastIndexChar(d + "-" + h, '-') == |d|
  {
    LastBefore(d + "-", h, '-');
  }

  lemma KindAttributes()
    ensures ResourceAttribute("ReplicaSet") == REPLICASET
    ensures ResourceAttribute("Deployment") == DEPLOYMENT
  {
    assert ToLower("ReplicaSet") == "replicaset";
    assert ToLower("Deployment") == "deployment";
    assert |"replicaset"| == 10;
  }

  lemma AttributeNamesDiffer()
    ensures DEPLOYMENT !in {REPLICASET, NODE_NAME, POD_IP}
  {
    assert |NODE_NAME| == 13 && |POD_IP| == 10 && |DEPLOYMENT| == 19;
    assert DEPLOYMENT[4] != REPLICASET[4];
  }

  /** A ReplicaSet reference named `d-h`, with no dash in `h`. */
  predicate IsReplicaSetOf(r: OwnerRef, d: string, h: string) {
    r.apiVersion == "apps/v1" && r.kind == "ReplicaSet" && r.name == d + "-" + h && d != "" && !HasChar(h, '-')
  }

  lemma OwnersOfReplicaSetPod(meta: ObjectMeta, d: string, h: string)
    requires |meta.owners| == 1 && IsReplicaSetOf(meta.owners[0], d, h)
    ensures OwnersFrom(meta) == [Owner("ReplicaSet", d + "-" + h), Owner("Deployment", d)]
  {
    LastDash(d, h);
    assert meta.owners[0].name[..|d|] == d;
  }

  lemma DeploymentAttribute(meta: ObjectMeta, d: string, h: string, cfg: SDKInject, node: string, ip: string)
    requires |meta.owners| == 1 && IsReplicaSetOf(meta.owners[0], d, h)
    ensures Get(BaseAttrs(cfg, meta, node, ip), DEPLOYMENT) == d
  {
    KindAttributes();
    AttributeNamesDiffer();
    OwnersOfReplicaSetPod(meta, d, h);
    var rs, dep := Owner("ReplicaSet", d + "-" + h), Owner("Deployment", d);
    var one := map[REPLICASET := rs.name];
    var names := one[DEPLOYMENT := d];
    assert [rs, dep][1..] == [dep] && [dep][1..] == [];
    assert REPLICASET != "" && DEPLOYMENT != "";
    assert OwnerNames([rs, dep], map[]) == OwnerNames([dep], one) == OwnerNames([], names) == names;
    assert meta.owners[1..] == [];
    assert OwnerUIDs(meta.owners, names) == OwnerUIDs([], names[REPLICASET := meta.owners[0].uid]);
    assert Get(ParentLabels(meta, cfg.resources.addUIDs), DEPLOYMENT) == d;
  }

  lemma SoleOwner(meta: ObjectMeta)
    requires |meta.owners| == 1
    ensures ControllerRef(meta.owners) == Some(meta.owners[0])
  {
    assert meta.owners != [] && FlaggedRef(meta.owners[1..]) == None;
  }

  /** The pod reports as the Deployment that owns its ReplicaSet, or as the ReplicaSet when there is none. */
  lemma WorkloadOfReplicaSetPod(meta: ObjectMeta, rs: ReplicaSets)
    requires |meta.owners| == 1 && meta.owners[0].kind == "ReplicaSet"
    ensures Workload(Info(meta, rs)) ==
      if DeploymentOf(rs, meta.namespace, meta.owners[0].name) != []
      then DeploymentOf(rs, meta.namespace, meta.owners[0].name)[0]
      else Owner("ReplicaSet", meta.owners[0].name)
  {
    SoleOwner(meta);
  }

  /**
   For a pod of ReplicaSet `d-h` the service name falls back to `d`, dashes in `d` and UID
   attributes included, and `d` is the workload the pod reports as when the ReplicaSet's owner is `d`.
   */
  lemma GuessedDeploymentIsTheWorkload(meta: ObjectMeta, d: string, h: string, cfg: SDKInject, rs: ReplicaSets,
      node: string, ip: string, podName: string)
    requires |meta.owners| == 1 && IsReplicaSetOf(meta.owners[0], d, h)
    requires LabelOrAnnotation(meta, cfg.resources.useLabels, SERVICE_NAME, APP_NAME_LABELS) == ""
    ensures ServiceName(meta, cfg.resources.useLabels, podName, BaseAttrs(cfg, meta, node, ip)) == d
    ensures DeploymentOf(rs, meta.namespace, meta.owners[0].name) == [Owner("Deployment", d)] ==>
      Workload(Info(meta, rs)) == Owner("Deployment", d)
  {
    DeploymentAttribute(meta, d, h, cfg, node, ip);
    WorkloadOfReplicaSetPod(meta, rs);
  }
}
