/** The objects the controller watches, and the registry content they prescribe. */
module ClusterState {
  import opened Kube
  import opened Rules
  import opened RuleRegistry
  import opened Payload

  /** ConfigMaps by "namespace/name"; nodes by name, with whether they are terminating. */
  datatype Cluster = Cluster(configMaps: map<string, ConfigMap>, nodes: map<string, bool>)

  /** The node is there and stays; a map that names no node needs none. */
  predicate NodeEligible(nodes: map<string, bool>, name: string) {
    name == "" || (name in nodes && !nodes[name])
  }

  /** What one ConfigMap contributes to the registry. */
  ghost function Contribution(nodes: map<string, bool>, cm: ConfigMap): Option<InjectConfig> {
    if cm.node.None? || !NodeEligible(nodes, cm.node.value) then None
    else match ParseOf(cm)
      case Parsed(inst, _) => if inst.rules == [] then None else Some(inst)
      case _ => None
  }

  ghost function Prescribed(c: Cluster, key: string): Option<InjectConfig> {
    if key in c.configMaps then Contribution(c.nodes, c.configMaps[key]) else None
  }

  /** The whole registry, as the cluster prescribes it. */
  ghost function Snapshot(c: Cluster): Instruments {
    map k | k in c.configMaps && Prescribed(c, k).Some? :: Prescribed(c, k).value
  }

  function Entry(m: Instruments, key: string): Option<InjectConfig> {
    if key in m then Some(m[key]) else None
  }

  /** A registry that agrees on every key is the snapshot. */
  lemma AgreementIsSnapshot(c: Cluster, m: Instruments)
    requires forall k :: Entry(m, k) == Prescribed(c, k)
    ensures m == Snapshot(c)
  {
    forall k ensures k in m <==> k in Snapshot(c) { assert Entry(m, k) == Prescribed(c, k); }
    forall k | k in m ensures m[k] == Snapshot(c)[k] { assert Entry(m, k) == Prescribed(c, k); }
  }
}
