/** What the agent publishes in a selector ConfigMap: ordered rules, and what a rule sees of a pod. */
module Rules {
  import opened Kube
  import Fnv

  /** `Skip` excludes the pods a rule matches; every other mode installs. */
  datatype Mode = Install | Skip

  /** `digest` is the rule configuration's own 64-bit hash, computed by the agent's library. */
  datatype RuleConfig = RuleConfig(mode: Mode, env: seq<EnvVar>, digest: Fnv.State)

  datatype MatchInput = MatchInput(
    namespace: string,
    chain: seq<Owner>,
    labels: map<string, string>,
    annotations: map<string, string>)

  /** A selector is any total predicate over the match input. */
  datatype Rule = Rule(selector: MatchInput -> bool, config: RuleConfig)

  datatype InjectConfig = InjectConfig(
    imageVersion: string,
    rules: seq<Rule>,
    spanMetrics: bool,
    bpfRules: seq<Rule>)

  /** The projection of a pod that rules are matched against. */
  datatype PodInfo = PodInfo(
    name: string,
    namespace: string,
    labels: map<string, string>,
    annotations: map<string, string>,
    chain: seq<Owner>)

  function InputOf(p: PodInfo): MatchInput {
    MatchInput(p.namespace, p.chain, p.labels, p.annotations)
  }
}
