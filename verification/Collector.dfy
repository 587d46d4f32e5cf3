/** The pod-state gauge: how each scrape classifies and counts pods. */
module Collector {
  import opened Kube
  import opened RuleRegistry
  import opened Config
  import opened PodInfos
  import opened PodWebhook

  datatype Status = Instrumented | PendingRestart | Skipped | Unmatched

  const SYSTEM_NAMESPACES: set<string> := {"kube-system", "kube-node-lease", "kube-public"}

  /** The state of a pod, given its match. */
  function StatusOf(cfg: SDKInject, match': Option<Candidate>, pod: Pod): Status {
    if match'.None? then Unmatched
    else if IsInstrumentedWithWantedConfig(pod.meta, WantedHash(cfg, match'.value)) then Instrumented
    else if PreloadsSomethingElse(pod) then Skipped
    else PendingRestart
  }

  datatype LabelTuple = LabelTuple(namespace: string, workload: Owner, nodeName: string, status: Status)

  datatype Sample = Sample(labels: LabelTuple, value: nat)

  ghost function LabelsOf(m: Instruments, cfg: SDKInject, rs: ReplicaSets, pod: Pod): LabelTuple {
    var info := Info(pod.meta, rs);
    LabelTuple(pod.meta.namespace, Workload(info), pod.nodeName, StatusOf(cfg, MatchResult(SdkRules, m, info), pod))
  }

  predicate IsCounted(pod: Pod) {
    !pod.meta.terminating && pod.meta.namespace !in SYSTEM_NAMESPACES
  }

  /** The labels of the counted pods, one per pod. */
  ghost function CountedLabels(m: Instruments, cfg: SDKInject, rs: ReplicaSets, pods: seq<Pod>): seq<LabelTuple> {
    if pods == [] then []
    else
      var n := |pods| - 1;
      CountedLabels(m, cfg, rs, pods[..n]) + if IsCounted(pods[n]) then [LabelsOf(m, cfg, rs, pods[n])] else []
  }

  function Total(samples: seq<Sample>): nat {
    if samples == [] then 0 else Total(samples[..|samples| - 1]) + samples[|samples| - 1].value
  }

  /** Every label tuple has one sample, whose value is the number of pods with these labels. */
  ghost predicate CountsExactly(samples: seq<Sample>, labels: seq<LabelTuple>) {
    && (forall i, j :: 0 <= i < j < |samples| ==> samples[i].labels != samples[j].labels)
    && (forall i :: 0 <= i < |samples| ==> samples[i].value == multiset(labels)[samples[i].labels] > 0)
    && (forall l :: l in labels ==> exists i :: 0 <= i < |samples| && samples[i].labels == l)
  }

  /** The part of a multiset whose elements lie in `keys`. */
  ghost function Within(labels: multiset<LabelTuple>, keys: set<LabelTuple>): multiset<LabelTuple>
    ensures forall l :: Within(labels, keys)[l] == if l in keys then labels[l] else 0
    decreases |labels|
  {
    if labels == multiset{} then multiset{}
    else
      var l :| l in labels;
      var rest := Within(labels[l := 0], keys);
      if l in keys then rest[l := labels[l]] else rest
  }

  lemma AddKey(labels: multiset<LabelTuple>, keys: set<LabelTuple>, k: LabelTuple)
    requires k !in keys
    ensures |Within(labels, keys + {k})| == |Within(labels, keys)| + labels[k]
  {
    var w := Within(labels, keys);
    assert Within(labels, keys + {k}) == w[k := labels[k]];
    assert w[k] == 0;
  }

  /** The counters say how often each label tuple occurs. */
  ghost predicate Tallies(counts: map<LabelTuple, nat>, labels: seq<LabelTuple>) {
    && (forall l :: l in counts <==> l in labels)
    && (forall l :: l in counts ==> counts[l] == multiset(labels)[l])
  }

  /** `counts[l]++` on a map whose missing entries read as zero. */
  function Bump(counts: map<LabelTuple, nat>, l: LabelTuple): map<LabelTuple, nat> {
    counts[l := (if l in counts then counts[l] else 0) + 1]
  }

  lemma TallyOneMore(counts: map<LabelTuple, nat>, labels: seq<LabelTuple>, l: LabelTuple)
    requires Tallies(counts, labels)
    ensures Tallies(Bump(counts, l), labels + [l])
  {
    assert l !in labels ==> multiset(labels)[l] == 0;
    assert multiset(labels + [l]) == multiset(labels) + multiset{l};
  }

  lemma CountedLabelsSnoc(m: Instruments, cfg: SDKInject, rs: ReplicaSets, pods: seq<Pod>, i: nat)
    requires i < |pods|
    ensures CountedLabels(m, cfg, rs, pods[..i + 1])
      == CountedLabels(m, cfg, rs, pods[..i]) + if IsCounted(pods[i]) then [LabelsOf(m, cfg, rs, pods[i])] else []
  {
    assert pods[..i + 1][..i] == pods[..i];
  }

  /** The samples emitted so far, for the label tuples in `keys`. */
  ghost predicate Emitted(samples: seq<Sample>, keys: set<LabelTuple>, labels: seq<LabelTuple>) {
    && (forall i, j :: 0 <= i < j < |samples| ==> samples[i].labels != samples[j].labels)
    && (forall i :: 0 <= i < |samples| ==> samples[i].labels in keys && samples[i].value == multiset(labels)[samples[i].labels])
    && (forall l :: l in keys ==> exists i :: 0 <= i < |samples| && samples[i].labels == l)
    && Total(samples) == |Within(multiset(labels), keys)|
  }

  lemma NothingEmitted(labels: seq<LabelTuple>)
    ensures Emitted([], {}, labels)
  {
    assert Within(multiset(labels), {}) == multiset{};
  }

  lemma EmitOneMore(samples: seq<Sample>, keys: set<LabelTuple>, labels: seq<LabelTuple>, l: LabelTuple)
    requires Emitted(samples, keys, labels) && l !in keys
    ensures Emitted(samples + [Sample(l, multiset(labels)[l])], keys + {l}, labels)
  {
    var r := samples + [Sample(l, multiset(labels)[l])];
    AddKey(multiset(labels), keys, l);
    assert r[..|samples|] == samples;
    assert r[|samples|].labels == l;
    forall k | k in keys + {l} ensures exists i :: 0 <= i < |r| && r[i].labels == k {
      if k in keys {
        var i :| 0 <= i < |samples| && samples[i].labels == k;
        assert r[i].labels == k;
      }
    }
  }

  lemma EmittedAll(samples: seq<Sample>, keys: set<LabelTuple>, labels: seq<LabelTuple>)
    requires Emitted(samples, keys, labels) && forall l :: l in keys <==> l in labels
    ensures CountsExactly(samples, labels) && Total(samples) == |labels|
  {
    assert forall l :: l in labels <==> l in multiset(labels);
    assert Within(multiset(labels), keys) == multiset(labels);
  }

  class PodStateCollector {
    const registry: Registry
    const cfg: SDKInject

    constructor (registry: Registry, cfg: SDKInject)
      ensures this.registry == registry && this.cfg == cfg
    {
      this.registry, this.cfg := registry, cfg;
    }

    method Classify(pod: Pod, rs: ReplicaSets) returns (labels: LabelTuple)
      ensures labels == LabelsOf(registry.instruments, cfg, rs, pod)
    {
      var info := Resolve(pod.meta, rs);
      var top := Workload(info);
      var hit := registry.Match(info);
      var status := Unmatched;
      if hit.Some? {
        var effective := cfg.WithConfigMapOverrides(hit.value.config);
        var want := PodConfigHash(effective, hit.value.rule.config);
        if IsInstrumentedWithWantedConfig(pod.meta, want) {
          status := Instrumented;
        } else if PreloadsSomethingElse(pod) {
          status := Skipped;
        } else {
          status := PendingRestart;
        }
      }
      labels := LabelTuple(pod.meta.namespace, top, pod.nodeName, status);
    }

    method Count(pods: seq<Pod>, rs: ReplicaSets) returns (counts: map<LabelTuple, nat>)
      ensures Tallies(counts, CountedLabels(registry.instruments, cfg, rs, pods))
    {
      counts := map[];
      ghost var m, seen := registry.instruments, CountedLabels(registry.instruments, cfg, rs, []);
      var i := 0;
      while i < |pods|
        invariant 0 <= i <= |pods|
        invariant seen == CountedLabels(m, cfg, rs, pods[..i])
        invariant Tallies(counts, seen)
      {
        CountedLabelsSnoc(m, cfg, rs, pods, i);
        if IsCounted(pods[i]) {
          var labels := Classify(pods[i], rs);
          TallyOneMore(counts, seen, labels);
          counts := Bump(counts, labels);
          seen := seen + [labels];
        }
        i := i + 1;
      }
      assert pods[..i] == pods;
    }

    method Emit(counts: map<LabelTuple, nat>, ghost labels: seq<LabelTuple>) returns (samples: seq<Sample>)
      requires Tallies(counts, labels)
      ensures CountsExactly(samples, labels) && Total(samples) == |labels|
    {
      samples := [];
      var todo := counts.Keys;
      ghost var done: set<LabelTuple> := {};
      NothingEmitted(labels);
      while todo != {}
        invariant todo <= counts.Keys && done == counts.Keys - todo
        invariant Emitted(samples, done, labels)
        decreases |todo|
      {
        var l :| l in todo;
        EmitOneMore(samples, done, labels, l);
        assert counts[l] == multiset(labels)[l];
        samples := samples + [Sample(l, counts[l])];
        todo, done := todo - {l}, done + {l};
      }
      EmittedAll(samples, done, labels);
    }

    /** One scrape. The samples conserve pods: their values add up to the number of counted pods. */
    method Collect(pods: seq<Pod>, listFails: bool, rs: ReplicaSets) returns (samples: seq<Sample>)
      ensures listFails ==> samples == []
      ensures !listFails ==>
        var labels := CountedLabels(registry.instruments, cfg, rs, pods);
        CountsExactly(samples, labels) && Total(samples) == |labels|
    {
      if listFails {
        return [];
      }
      var counts := Count(pods, rs);
      samples := Emit(counts, CountedLabels(registry.instruments, cfg, rs, pods));
    }
  }
}
