# Injection controller

This project models the decision and mutation kernel of a Kubernetes controller that injects
OpenTelemetry SDKs into pods, and proves what its parts owe to each other.

An agent publishes ConfigMaps with injection rules and restart targets. The controller keeps an
in-memory registry of the rules (`internal/registry`), a mutating webhook rewrites matching pods at
admission (`internal/webhook/v1`), a reconciler restarts workloads whose pods are stale
(`internal/controller`), a hash in a pod annotation tells stale from current (`internal/config`), and
a gauge reports the state of every pod (`internal/metrics`).

## How the model is laid out

| files | what they model |
|---|---|
| `Strings`, `Kube` | Go string operations; the API objects as values |
| `Expansion` | the kubelet's declaration-order `$(NAME)` expansion, on raw characters |
| `EnvList`, `EnvRewrite`, `EnvOutcome`, `EnvService`, `Swallowing`, `EnvSeen` | the ordered list edits of one admission, and what the process sees of the result |
| `RewrittenLookups`, `AttributeTable` | the same result by the names of variables and attributes |
| `Attributes`, `ServiceIdentity`, `Mutator`, `Reinstrument` | derived attributes and their precedence; the in-place methods proved against the list edits; re-application |
| `Fnv`, `Config` | the seeded FNV-1a annotation hash |
| `Rules`, `RuleRegistry` | rules and the registry class |
| `PodInfos`, `PodWebhook`, `InjectedPod` | owner chains; the admission decision and mutation; the stored pod field by field |
| `Payload`, `Rollout`, `SweepTerms` | parsing a ConfigMap; which workloads a sweep patches; both over the pods' own fields |
| `Collector`, `Agreement` | the gauge; admission, sweep and gauge against each other |
| `ClusterState`, `Reconciler`, `ReconcileTerms` | one reconcile against a cluster that holds still; what it does over the ConfigMaps and nodes themselves |
| `Machine`, `RegistryInvariant`, `RegistryRuns`, `DroppedEvents` | reconciles as steps interleaved with cluster events |
| `LoadedView`, `Gating` | what sweeps decide with, and what has to come before them |
| `Undisturbed`, `Answered` | the step-by-step and the sequential reconcile against each other |

Code that edits in place is modelled by classes and loops (`PodMutator`, `LivePod`, `Registry`,
`Accumulator`, `Sweeper`, `PodStateCollector`, `ConfigMapReconciler`), each method proved against a
specification function; the properties are proved about those functions.

In `Machine` the cluster is the content of the informer caches. A change of it and the delivery of
its event are separate steps, as are the ConfigMap read, the node read, the registry write, the two
readiness checks, the list, each node read of a refresh, the replacement and the sweep. Anything may
happen between two steps. A panic in the parser is recovered by the controller runtime and retried
like an error.

## Where the code and its documentation part

- The gauge is documented never to disagree with the admission counter. It does for a matched pod
  without an image version (`Agreement.GaugeAgreesWithAdmission` gives the exact condition).
- Annotations are documented to have the highest precedence. The span-metrics marker is written
  after them (`Reinstrument.AnnotationsDecide`).
- The combined attributes are kept in place so that references resolve. A reference in them does
  exactly when the text in front of it closes every reference it opens (`EnvSeen.NodeReferenceSeen`);
  static text or an annotation that ends in an unterminated `$(` swallows the next one
  (`EnvSeen.UnterminatedTextSwallowsNode`).
- Writes are documented to be idempotent. The combined attributes grow on every re-application unless
  the rule defines them (`Reinstrument.MutatedTwice`).
- The deciders agree for one match, and three things can give a sweep another match than admission:
  a rule on the pod's own name, which a pod created from a name prefix does not have yet; a rule on the
  inject annotation; and a ReplicaSet that admission, which reads it from the API server, did not find
  while the sweep finds it in its cache. The workload is then restarted, without end if it goes on
  (`Agreement.RestartLoopExactlyWhen`, `Agreement.ByNameRuleNeverRests`, `Agreement.LateLookupsNeverRest`).
  So is one whose template already carries the annotation and matches no rule, since admission never
  removes it.
- The watch drops the update that removes the selector annotation, so the branch that handles it is
  reached only if another event or a retry brings the key back (`DroppedEvents.StrippedUntilAnnounced`);
  the next refresh repairs it (`RegistryRuns.RefreshRepairs`).
- UID attributes are stored under the name keys, from which the service name is then chosen: a
  StatefulSet's pod gets its owner's UID as service name (`ServiceIdentity.OwnerServiceName`).
- A service variable the author declares ahead of the combined attributes keeps the injector's
  reference unexpanded (`EnvService.ServiceNameFallback`, `EnvService.ServiceNamespaceFallback`).

## Model

| member | source | states |
|---|---|---|
| Expansion.JoinedScan | internal/webhook/v1/mutator.go:316-324 | A comma-joined value is scanned by the kubelet part by part if and only if no part leaves a `$(` open before text that holds a `)`. |
| Expansion.OpenSwallows | internal/webhook/v1/mutator.go:316-324 | The failing direction: an unterminated `$(` in an earlier part swallows text of the later ones. |
| Expansion.EvalEach | internal/webhook/v1/mutator.go:316-324 | Scanned part by part, the value is the comma-joined list of the parts' own expansions. |
| Expansion.ExpandReference | internal/webhook/v1/mutator.go:496-516 | The text `$(NAME)` the injector writes becomes the variable's value when the variable is in scope. |
| Expansion.LaterDeclarationsKeep | internal/webhook/v1/mutator.go:496-516 | A uniquely named field variable keeps its field's value whatever is declared after it. |
| EnvList.PlaceKeepsOrder | internal/webhook/v1/mutator.go:496-516 | Taking a downward variable out and re-inserting it never moves any other entry behind something it followed. |
| EnvList.RunKeepsOrder | internal/webhook/v1/mutator.go:271-295 | **Main result.** Over any sequence of edits, what was declared before an entry that is not itself a downward variable is still declared before it. |
| EnvList.RunMakesReady | internal/webhook/v1/mutator.go:496-516 | Every downward variable ends up declared before the combined attributes, wherever either stood. |
| EnvList.RunKeepsUnique | internal/webhook/v1/mutator.go:239-262 | No edit introduces a second entry of a name. |
| EnvList.RunRefinesOverride | internal/webhook/v1/mutator.go:239-295 | The list edits refine a plain map override: every lookup is the last write to that name, else the original entry. |
| EnvList.RunAttrs | internal/webhook/v1/mutator.go:308-325 | The combined attributes after a run are those of the last whole write, followed by the lists appended since. |
| EnvList.RunTwice | internal/webhook/v1/mutator.go:271-325 | Running the same edits again keeps the order of all names and every value but that of the combined attributes. |
| EnvRewrite.LayeredOverride | internal/webhook/v1/mutator.go:271-369 | **Main result.** Every lookup goes through five layers: disabled-language blanks over identity variables over fixed injector variables over rule variables over the author's list; an empty computed value leaves the lower layer, and a name in no layer is untouched. |
| EnvRewrite.BlankLayerNames | internal/webhook/v1/mutator.go:556-571 | The top layer only ever holds the four agent-path variables. |
| EnvRewrite.DownwardLayerNames | internal/webhook/v1/mutator.go:327-350 | The downward variables are namespace, pod name and node name, with pod IP and pod UID exactly when configured. |
| EnvRewrite.PreloadIsOurs | internal/webhook/v1/mutator.go:271-295 | Whatever the author and the rule declare, `LD_PRELOAD` ends as the injector's own literal path. |
| EnvRewrite.UniquenessSurvives | internal/webhook/v1/mutator.go:271-295 | A list with unique names is rewritten to one with unique names. |
| EnvRewrite.ReferencesSurvive | internal/webhook/v1/mutator.go:496-516 | What an entry could refer to before the rewrite it still can, unless the injector turned that entry into a downward variable. |
| EnvOutcome.AttrsText | internal/webhook/v1/mutator.go:308-325 | The raw combined attributes are the static text, if any, and one item per attribute in key order, comma-joined and never empty. |
| EnvOutcome.DownwardInScope | internal/webhook/v1/mutator.go:496-516 | Each downward variable is in scope, with its field's value, where the combined attributes are read. |
| EnvOutcome.CombinedAttributesExpand | internal/webhook/v1/mutator.go:271-369 | The kubelet scans the combined attributes part by part if and only if the parts are separable; if they are, the process sees static text and items each expanded on its own. |
| EnvOutcome.ClosedPartsAreSeparable | internal/webhook/v1/mutator.go:308-325 | Parts that close every reference they open are separable. |
| EnvOutcome.NodeItemResolves | internal/webhook/v1/mutator.go:337-340 | Expanded on its own in the scope of the combined attributes, the node item holds the node's name. |
| EnvOutcome.PodIPItemResolves | internal/webhook/v1/mutator.go:342-345 | When enabled, the pod IP item, expanded on its own, holds the pod's address. |
| EnvOutcome.InstanceIdItemResolves | internal/webhook/v1/mutator.go:477-493 | The instance id item, expanded on its own, holds namespace, pod name and container name. |
| Swallowing.OpenKeeps | internal/webhook/v1/mutator.go:316-324 | Text that ends inside a reference swallows what follows up to the first `)`; the kubelet leaves all of it as written, since no variable name holds an `=`. |
| Swallowing.ItemSeen | internal/webhook/v1/mutator.go:316-324 | An item `head$(n)more` at any index of a joined value is seen with its reference resolved between its neighbours if and only if the text in front of it is closed; otherwise it is seen as written. |
| EnvSeen.NodeReferenceSeen | internal/webhook/v1/mutator.go:337-340 | **Main result.** The process sees the node's name in the combined attributes if and only if the static text and the attributes that sort before it close every reference they open; otherwise it sees the reference as written. |
| EnvSeen.PodIPReferenceSeen | internal/webhook/v1/mutator.go:342-345 | The same for the pod's address, when enabled. |
| EnvSeen.InstanceIdReferenceSeen | internal/webhook/v1/mutator.go:355-360 | The same for the namespace in the instance id. |
| EnvSeen.PodNameInIdResolves | internal/webhook/v1/mutator.go:355-360 | The process sees the pod's name in the instance id whether or not something in front was left open: what it sees is a given text in front, the name, and the rest expanded. |
| EnvSeen.TameIsSeparable | internal/webhook/v1/mutator.go:308-369 | Static text and annotations that close their references, and owner and container names without `$`, make all parts separable. |
| EnvSeen.TameReferencesAreSeen | internal/webhook/v1/mutator.go:308-369 | On such a pod node name, pod address and instance id are seen resolved in their places. |
| EnvSeen.InjectedReferencesResolve | internal/webhook/v1/mutator.go:271-369 | **Main result.** On such a pod the process sees static text and attributes each expanded on its own, with node name, pod address and instance id exactly as the downward API gives them. |
| EnvSeen.UnterminatedTextSwallowsNode | internal/webhook/v1/mutator.go:320-324 | For every static text `text$(name` without a closing parenthesis, on a pod without owners and annotations and under every configuration, the process sees the node reference unresolved. |
| EnvOutcome.RewriteTwice | internal/webhook/v1/mutator.go:271-325 | A second rewrite keeps order and all values but the combined attributes; it changes nothing if and only if the rule defines those attributes. |
| EnvService.PlacedBeforeWritten | internal/webhook/v1/mutator.go:239-249 | A variable updated in place sees a downward variable if and only if it was not declared, or was declared after that variable or after the combined attributes. |
| EnvService.PodNameBeforeServiceName | internal/webhook/v1/mutator.go:352-355 | The pod-name variable precedes the service-name variable under exactly that condition on the list as merged with the rule. |
| EnvService.ServiceNameFallback | internal/webhook/v1/mutator.go:373-396 | **Main result.** When the service name falls back to the pod's name, the process sees that name under exactly that condition, and the bare reference otherwise. |
| EnvService.NamespaceBeforeServiceNamespace | internal/webhook/v1/mutator.go:352-354 | The namespace variable precedes the service-namespace variable under exactly that condition. |
| EnvService.ServiceNamespaceFallback | internal/webhook/v1/mutator.go:433-439 | Without the annotation the process sees the pod's namespace as service namespace under exactly that condition, and the bare reference otherwise. |
| Mutator.UpsertFacts | internal/webhook/v1/mutator.go:197-215 | Replace-by-name or append: the entry is there, where an older one stood, nothing else moves, and distinct names stay distinct. |
| Mutator.UpsertTwice | internal/webhook/v1/mutator.go:141-190 | Mounting the volume, the mount or the copy container again changes nothing. |
| Mutator.PodMutator.SetEnvVarEvenIfEmpty | internal/webhook/v1/mutator.go:239-249 | In-place set: value written, source cleared, or a new entry appended. |
| Mutator.PodMutator.SetEnvVar | internal/webhook/v1/mutator.go:265-269 | An empty value leaves the list alone. |
| Mutator.PodMutator.ApplyEnvVars | internal/webhook/v1/mutator.go:254-262 | The loop over the rule variables performs one write each, in order. |
| Mutator.PodMutator.SetEnvVarFromFieldPath | internal/webhook/v1/mutator.go:496-516 | Delete, clamp the position to the combined attributes, re-insert; returns the reference text. |
| Mutator.PodMutator.AddParentResourceLabels | internal/webhook/v1/mutator.go:518-533 | Owner names by kind, then, if asked, UIDs under the same keys. |
| Mutator.PodMutator.AddAnnotationAttrs | internal/webhook/v1/mutator.go:362-367 | The annotation loop yields the override by the prefixed annotations, whatever order the map is visited in. |
| Mutator.PodMutator.SetResourceAttributes | internal/webhook/v1/mutator.go:327-369 | Performs the identity edits and returns the attribute map of the site. |
| Mutator.PodMutator.RenderAttrs | internal/webhook/v1/mutator.go:312-318 | The sorted loop renders the map's items in key order. |
| Mutator.PodMutator.InjectEnvVars | internal/webhook/v1/mutator.go:308-325 | Appends the rendered list to the static attributes, or leaves the list alone when there are no attributes. |
| Mutator.PodMutator.DisableUndesiredSDKs | internal/webhook/v1/mutator.go:556-571 | Blanks the agent path of exactly the languages that are not enabled. |
| Mutator.PodMutator.CanInstrument | internal/webhook/v1/mutator.go:573-580 | True if and only if the language is enabled. |
| Mutator.PodMutator.AddEnvVars | internal/webhook/v1/mutator.go:271-295 | **Main result.** The whole in-place rewrite of a container's list is the specified one. |
| Mutator.PodMutator.AddMount | internal/webhook/v1/mutator.go:197-215 | The mount list after the call. |
| Mutator.PodMutator.InstrumentContainer | internal/webhook/v1/mutator.go:192-195 | The container after the call: mount and environment, nothing else. |
| Strings.AscendingIsUnique | internal/webhook/v1/mutator.go:313-318 | A key set has one ascending enumeration, so the rendered list does not depend on map iteration order. |
| Strings.SortKeys | internal/webhook/v1/mutator.go:313-313 | Sorting yields the strictly ascending enumeration of exactly the keys. |
| Attributes.RenderRoundTrip | internal/webhook/v1/mutator.go:308-325 | **Main result.** The rendered list decodes, by splitting on `,` and the first `=`, to exactly the map it came from, when keys hold neither character and values no comma. |
| Reinstrument.AnnotationsDecide | internal/webhook/v1/mutator.go:300-369 | Pod annotations have the last word on every attribute, except that `span.metrics.skip` is set after them: exactly when an annotation's value survives. |
| Reinstrument.EditsIgnoreInject | internal/webhook/v1/mutator.go:271-295 | No edit depends on the inject annotation the webhook stamps. |
| Reinstrument.MutatedTwice | internal/webhook/v1/pod_webhook.go:141-155 | **Main result.** Applying volume, mounts, environment, copy container and annotation twice leaves everything but the combined attributes as once; it changes nothing at all if and only if there is no container or the rule defines those attributes. |
| ServiceIdentity.ServiceNamePrecedence | internal/webhook/v1/mutator.go:373-414 | The service name is the first non-empty of: annotation, the two labels if enabled, the owner attributes from Deployment down to Job, the pod's name. |
| ServiceIdentity.ServiceVersionPrecedence | internal/webhook/v1/mutator.go:402-429 | The version is the first non-empty of annotation, label if enabled, image version. |
| ServiceIdentity.UIDsReplaceNames | internal/webhook/v1/mutator.go:525-531 | With UID attributes, each owner key holds the UID of the last reference of that kind; other keys keep their names. |
| ServiceIdentity.OwnerServiceName | internal/webhook/v1/mutator.go:373-396 | **Main result.** For every list of owners: the service name is what the owners put under the first key of the precedence list. It is a UID if and only if UID attributes are on and that key is the kind of one of the pod's own owner references. |
| ServiceIdentity.SoleOwnerServiceName | internal/webhook/v1/mutator.go:373-396 | A sole owner without a guessed parent (a StatefulSet, a DaemonSet, a Deployment, a ReplicaSet without a dash, a standalone Job): its name without UID attributes, its UID with them. |
| ServiceIdentity.JobPodBelongsToCronJob | internal/webhook/v1/mutator.go:634-641 | A Job named `c-t`, no dash in `t`, is taken to belong to CronJob `c`. |
| Fnv.FoldConcat | internal/config/config.go:148-172 | Folding a concatenation is continuing the fold (FNV-1a, 64 bit; draft-eastlake-fnv, section 2). |
| Fnv.Undo | internal/config/config.go:148-172 | Multiplying by 0xCE965057AFF6957B undoes a multiplication by the prime, modulo 2^64. |
| Fnv.FoldIsInjective | internal/config/config.go:148-172 | Continued over the same bytes, different states stay different. |
| Fnv.OneByteMatters | internal/config/config.go:148-172 | From any seed, inputs that differ in exactly one byte never collide. |
| Fnv.SerializeRoundTrip | internal/config/config.go:163-169 | The seed's wire form (magic prefix, eight big-endian bytes) restores to the seed. |
| Fnv.Base32IsInjective | internal/config/config.go:171-171 | Printing in base 32 loses nothing. |
| Fnv.Accumulator.Write | internal/config/config.go:170-170 | The accumulator's byte loop is the fold. |
| Fnv.Accumulator.UnmarshalBinary | internal/config/config.go:163-169 | Restores a state from twelve bytes with the magic prefix and rejects everything else. |
| Config.PodConfigHash | internal/config/config.go:148-172 | The seeded accumulator computes the specified hash. |
| Config.StaleExactlyWhenRuleChanged | internal/config/config.go:148-172 | **Main result.** For a fixed image path two annotations are equal if and only if the rule hashes are. |
| Config.OneByteOfImagePathMatters | internal/config/config.go:86-88 | For a fixed rule hash, image paths of one length that differ in one byte get different annotations. |
| Config.SeedingIsConcatenation | internal/config/config.go:148-172 | When the rule hash is itself such a sum, the seeded computation is one fold over both inputs. |
| RuleRegistry.WinnerDecides | internal/registry/registry.go:107-128 | The match is the verdict of the least key that has a rule selecting the pod. |
| RuleRegistry.NoWinnerNoMatch | internal/registry/registry.go:107-128 | Without such a key there is no match. |
| RuleRegistry.WinnerExists | internal/registry/registry.go:107-128 | If any key has a hit, a least one exists. |
| RuleRegistry.LaterEntriesDoNotMatter | internal/registry/registry.go:58-128 | Setting or deleting a key that sorts after the winner changes no answer. |
| RuleRegistry.UnrelatedEntriesDoNotMatter | internal/registry/registry.go:58-128 | Nor does setting or deleting an entry none of whose rules selects the pod. |
| RuleRegistry.SpanMetricsIsMatchOnSublist | internal/registry/registry.go:130-149 | **Main result.** The span-metrics query is the SDK match on the entries that report span metrics, with those rules. |
| RuleRegistry.Registry.Set | internal/registry/registry.go:58-70 | The entry is stored; one without rules is deleted. |
| RuleRegistry.Registry.Replace | internal/registry/registry.go:74-83 | The registry becomes the snapshot without its empty entries, whatever it held. |
| RuleRegistry.Registry.Delete | internal/registry/registry.go:86-90 | Exactly that key goes. |
| RuleRegistry.Registry.Match | internal/registry/registry.go:107-128 | **Main result.** The nested loops return the first match over the concatenated rule lists in key order; a skip hit is no match. |
| RuleRegistry.Registry.BPFGeneratesSpanMetrics | internal/registry/registry.go:130-149 | The same over the span-metrics rules. |
| RuleRegistry.QueryEntry | internal/registry/registry.go:111-125 | The inner loop: whether one entry decides, and how. |
| PodInfos.Resolve | internal/podinfo/podinfo.go:41-70 | The appended chain: pod, controller, and the Deployment above a ReplicaSet that can be looked up. |
| PodInfos.WorkloadOfReplicaSetPod | internal/podinfo/podinfo.go:76-82 | A ReplicaSet's pod reports as the Deployment above it, or as the ReplicaSet. |
| PodInfos.GuessedDeploymentIsTheWorkload | internal/webhook/v1/mutator.go:614-644 | **Main result.** For a pod of ReplicaSet `d-h` the service name falls back to `d`, dashes in `d` and UID attributes included, and `d` is the workload `Resolve` and `Workload` report. |
| PodWebhook.LivePod.FindPreloadConflict | internal/webhook/v1/mutator.go:86-98 | Both loops together decide whether any container preloads something else. |
| PodWebhook.LivePod.MountVolume | internal/webhook/v1/mutator.go:141-157 | The volume list after the call. |
| PodWebhook.LivePod.AddCopyInitContainerIfNeeded | internal/webhook/v1/mutator.go:161-190 | The init containers after the call; untouched in image mode. |
| PodWebhook.LivePod.Mutate | internal/webhook/v1/pod_webhook.go:141-155 | The pod after all edits, container by container. |
| PodWebhook.PodCustomDefaulter.Default | internal/webhook/v1/pod_webhook.go:94-160 | **Main result.** The outcome is the specified decision, and the pod is left as the specified admission leaves it: mutated on success, untouched otherwise. The two registry queries may find two contents. |
| PodWebhook.MutationLeavesNoConflict | internal/webhook/v1/mutator.go:86-98 | No container of a mutated pod preloads anything else. |
| PodWebhook.SuccessfulAdmission | internal/webhook/v1/pod_webhook.go:94-160 | A success stamps the wanted hash and leaves no preload conflict. |
| Payload.SortEligible | internal/controller/configmap_controller.go:356-363 | Ordered by namespace and name, and a permutation of the list. |
| Payload.RestartTargets | internal/controller/configmap_controller.go:336-347 | Exactly the usable entries become targets. |
| Payload.ParseConfigMap | internal/controller/configmap_controller.go:318-350 | Valid, invalid or panicking, with the record and the target set; two or more entries with a null one make the sort panic. |
| Rollout.Sweeper.IsUnsettled | internal/controller/configmap_controller.go:431-460 | Whether a pod is to lose its injection or to get the wanted one; a cleanup only removes. |
| Rollout.Sweeper.SweepPod | internal/controller/configmap_controller.go:419-467 | The workload to restart for one pod, if any. |
| Rollout.Sweeper.GroupTargets | internal/controller/configmap_controller.go:386-390 | Grouping by namespace loses and invents no target. |
| Rollout.Sweeper.GroupInstrumented | internal/controller/configmap_controller.go:391-403 | A cleanup groups exactly the instrumented pods. |
| Rollout.Sweeper.SweepAll | internal/controller/configmap_controller.go:405-470 | The namespace loop, in any order, collects exactly the workloads to restart, or reports a failed list. |
| Rollout.Sweeper.PatchAll | internal/controller/configmap_controller.go:480-499 | Each collected workload is patched once, whatever happens to the others; an error is reported if and only if one failed. |
| Rollout.Sweeper.RolloutMatching | internal/controller/configmap_controller.go:383-500 | **Main result.** A failed list patches nothing; otherwise the patched workloads are exactly the declarative set, each once. The set is stated over the set of targets, so their order and duplication do not matter. |
| Collector.PodStateCollector.Classify | internal/metrics/collector.go:165-183 | The labels of a pod, its state included. |
| Collector.PodStateCollector.Count | internal/metrics/collector.go:108-126 | The increments tally every label tuple. |
| Collector.PodStateCollector.Collect | internal/metrics/collector.go:98-141 | **Main result.** Conservation: one sample per tuple, its value the number of counted pods with these labels, and all values adding up to the number of counted pods. |
| Agreement.GaugeAgreesWithAdmission | internal/metrics/collector.go:151-183 | **Main result.** Gauge and admission outcome agree if and only if the pod is unmatched or its effective image version is non-empty. |
| Agreement.GaugeDisagreesWithoutVersion | internal/metrics/collector.go:165-183 | Without a version the gauge reports a pending restart for a pod the webhook would leave alone. |
| Agreement.SweepAgreesWithAdmission | internal/controller/configmap_controller.go:431-460 | **Main result.** A targeted sweep selects a pod if and only if admission would mutate it, or it carries an injection no rule asks for. |
| Agreement.ThreeDecidersAgree | internal/controller/configmap_controller.go:431-460 | For a matched pod with a version, pending in the gauge, success at admission and selection by the sweep are the same. |
| Agreement.MatchIgnoresInject | internal/registry/registry.go:107-128 | If no selector looks at the inject annotation, stamping it changes no match. |
| Agreement.BlindSelectorsAnswerAlike | internal/podinfo/podinfo.go:41-70 | If no selector looks at the annotation or at the pod's own name, and admission and the sweep find the same Deployment above the pod, both get the same match, whatever name the pod is stored under. |
| Agreement.AdmittedIsInstrumented | internal/webhook/v1/pod_webhook.go:94-160 | After a successful admission the stored pod carries an injection and preloads nothing else. The gauge calls it instrumented if and only if its later match wants the annotation it got; a second admission skips it if and only if that match has a version besides. Under the same configuration and match both hold. |
| Agreement.RestartLoopExactlyWhen | internal/controller/configmap_controller.go:431-460 | **Main result.** A stored pod is stale at a sweep if and only if the match under the sweep's own registry, configuration and lookups, of the pod with its name and annotation, asks for something else than admission did under its own. |
| Agreement.SameAnswerLoopsExactlyWhen | internal/controller/configmap_controller.go:431-460 | Under the same configuration and match that happens if and only if the pod is unmatched and its template already carried the inject annotation. |
| Agreement.NoRestartLoop | internal/controller/configmap_controller.go:419-467 | **Main result.** A pod from a template without the annotation, stored under any name, is never selected by a later sweep of any kind with the same configuration that gets the match admission got, whatever either looked up. |
| Agreement.ByNameRuleNeverRests | internal/webhook/v1/pod_webhook.go:94-97 | A rule on the pod's own name misses a DaemonSet's unnamed pod at admission and selects it once stored: sweeps and rollouts of every length exist, though no selector looks at the annotation. |
| Agreement.LateLookupIsSelected | internal/podinfo/podinfo.go:52-62 | With a rule on a Deployment, selectors blind to annotation and name, and a ReplicaSet lookup that fails at admission only, the pod is stored untouched and selected by the next sweep. |
| Agreement.LateLookupsNeverRest | internal/podinfo/podinfo.go:52-62 | If the lookup fails at every admission, sweeps and rollouts of every length exist, over any new ReplicaSets. |
| Agreement.SurvivorsAreFewer | internal/controller/configmap_controller.go:419-467 | Rolling out patched workloads removes their selected pods and adds none. |
| Agreement.RoundSettles | internal/controller/configmap_controller.go:383-500 | A sweep with its rollout leaves strictly fewer unsettled pods when it patched anything, and none when every patch succeeded, if the sweep's view gives for the new pods, each admitted under a view of its own, the match their admission got. |
| Agreement.SettledMeansNothingToDo | internal/controller/configmap_controller.go:419-467 | No pod is unsettled if and only if a sweep has nothing to patch. |
| Agreement.SweepsComeToRest | internal/controller/configmap_controller.go:383-500 | **Main result.** Under that condition no sequence of patching rounds, each with its own view that resolves the remaining pods as the one before, is longer than the number of unsettled pods it starts with. |
| ClusterState.AgreementIsSnapshot | internal/controller/configmap_controller.go:266-292 | A registry that agrees with the cluster on every key is the snapshot. |
| Reconciler.ConfigMapReconciler.StateNodeEligible | internal/controller/configmap_controller.go:297-312 | Error, or eligible exactly when the map names no node or a present one that is not terminating. |
| Reconciler.ConfigMapReconciler.RefreshOne | internal/controller/configmap_controller.go:272-289 | One listed map: skipped, collected, or the end of the refresh. |
| Reconciler.ConfigMapReconciler.RefreshRegistry | internal/controller/configmap_controller.go:266-292 | The registry becomes the snapshot of the cluster, or is left alone if and only if the list, a node read or a payload stops the refresh. |
| Reconciler.ConfigMapReconciler.ReconcileRollouts | internal/controller/configmap_controller.go:228-264 | Disabled, not ready, not dialled, refresh failed, or swept: registry, result and patches in each case. |
| Reconciler.ConfigMapReconciler.Load | internal/controller/configmap_controller.go:207-222 | Registers the record, then stops, sweeps the targets, or cleans up when a document without an installing rule asks for it. |
| Reconciler.ConfigMapReconciler.Reconcile | internal/controller/configmap_controller.go:178-223 | **Main result.** Registry, result and patches for every reading of the key. |
| Reconciler.KeyAgreesAfterwards | internal/controller/configmap_controller.go:178-223 | Unless it fails, a reconcile leaves its key's entry as the cluster prescribes. |
| Reconciler.OthersStayOrRefresh | internal/controller/configmap_controller.go:178-292 | All other entries stay, or the whole registry is the snapshot. |
| Reconciler.CleanupExactly | internal/controller/configmap_controller.go:246-264 | **Main result.** A cleanup that gets as far as the pods has loaded the snapshot and patches exactly the rollable owners of live, owned, instrumented pods outside the protected namespaces that no loaded rule matches, each once, and succeeds if and only if all patches do; one that does not get there patches nothing and is retried. |
| Reconciler.FailedRefreshPatchesNothing | internal/controller/configmap_controller.go:246-253 | If the refresh fails nothing is patched and no other key's entry changes. |
| Reconciler.CleanupIgnoresTargets | internal/controller/configmap_controller.go:383-403 | Restart targets neither widen nor narrow a cleanup. |
| Reconciler.GatedReconcilePatchesNothing | internal/controller/configmap_controller.go:228-245 | Nothing is patched with restarts disabled, before the webhook is ready, or while its service cannot be dialled. |
| Reconciler.ReconcileTwice | internal/controller/configmap_controller.go:178-223 | Reconciling again in the same surroundings changes the registry no further. |
| RegistryInvariant.InitInv | internal/controller/configmap_controller.go:534-554 | The invariant holds at start, with every annotated map and node announced. |
| RegistryInvariant.OutsideIsAround | internal/controller/configmap_controller.go:534-573 | Every change of a ConfigMap or node, and every delivery, marks or accounts for each key whose prescription it may change. |
| RegistryInvariant.ListKeepsInv | internal/controller/configmap_controller.go:266-270 | At the moment of the listing every unmarked key is tracked, however stale the registry is. |
| RegistryInvariant.RefreshKeepsInv | internal/controller/configmap_controller.go:272-289 | Node reads and events between them keep every unmarked key tracked. |
| RegistryInvariant.ReplaceKeepsInv | internal/controller/configmap_controller.go:290-291 | Replacing the registry with what was collected keeps every unmarked key right. |
| RegistryInvariant.StepKeepsInv | internal/controller/configmap_controller.go:178-312 | Every step of the one worker and of its surroundings keeps the invariant. |
| RegistryRuns.RegistryFollowsCluster | internal/controller/configmap_controller.go:178-312 | **Main result.** After any interleaved run, a key that nothing announces, that is not being processed and none of whose changes was dropped is registered exactly as the cluster prescribes. |
| RegistryRuns.QuietRegistryIsSnapshot | internal/controller/configmap_controller.go:534-573 | When a run that drops no change comes to rest, the registry is the snapshot of the cluster, restarts enabled or not. |
| RegistryRuns.RefreshRepairs | internal/controller/configmap_controller.go:266-292 | A refresh repairs every entry that went stale before it listed the maps. |
| RegistryRuns.StrippedEntryStays | internal/controller/configmap_controller.go:529-540 | A run in which removing the annotation is dropped by the watch: the entry stays and the system comes to rest with it. |
| DroppedEvents.StrippedExactly | internal/controller/configmap_controller.go:529-540 | From every settled state: removing the annotation announces nothing, and the registry still agrees if and only if the map had no entry to lose. |
| DroppedEvents.StrippedUntilAnnounced | internal/controller/configmap_controller.go:529-540 | **Main result.** The entry then stays as it was over every run in which the map is not annotated again, no resync brings its key back and no refresh ends, so it is wrong there if and only if it was there. |
| DroppedEvents.DroppedNodeEventExactly | internal/controller/configmap_controller.go:559-573 | When the delivery of a node event cannot list the maps, a settled map of that node is left wrong if and only if it has rules and the change decides whether they apply. |
| RegistryRuns.TwoWorkersForget | internal/controller/configmap_controller.go:552-553 | With two workers the invariant fails: a run in which a refresh overwrites a map registered since it listed. |
| Gating.DisabledNeverSweeps | internal/controller/configmap_controller.go:229-231 | With restarts disabled no run ever sweeps, with any number of workers. |
| Gating.SweepsAreGated | internal/controller/configmap_controller.go:228-264 | Every sweep of every run, with any number of workers, came after both checks and, for a cleanup, after a refresh. |
| LoadedView.CleanupsAreLoaded | internal/controller/configmap_controller.go:246-292 | **Main result.** In every run of the one worker each cleanup decided with a registry that holds exactly what a complete listing the cluster gave contributes, each map with its node as the cluster had it when it was read. |
| Gating.FreshWinnerDecides | internal/registry/registry.go:107-128 | While the one worker sweeps, a pod's match is the cluster's own if nothing is outstanding for the keys up to the one that wins it there. |
| Gating.CleanupSparesMatchedPods | internal/controller/configmap_controller.go:246-264 | **Main result.** Amid outstanding changes: every workload a cleanup patches owns an instrumented pod that the current cluster leaves unmatched, or whose match there hangs on a key with a change outstanding. |
| Gating.DeletionIsCleanedUp | internal/controller/configmap_controller.go:184-191 | **Main result.** With restarts enabled a deleted map that stays deleted leaves queue and worker only after a sweep for it that listed and patched without error and decided with a complete listing given since the deletion. |
| Undisturbed.RefreshIsARun | internal/controller/configmap_controller.go:266-292 | The refresh loop of the method is a sequence of worker steps. |
| Undisturbed.ReconcileIsARun | internal/controller/configmap_controller.go:178-223 | Whatever the method may do to a cluster that holds still, the worker can do step by step. |
| Answered.StepsAreAReconcile | internal/controller/configmap_controller.go:178-223 | And back: a key taken to the end step by step, in surroundings that hold still and answer as fixed, has an effect the method may have. |
| RewrittenLookups.AgentPaths | internal/webhook/v1/mutator.go:556-580 | **Main result.** For each of the four agent-path variables by name: empty if its language is not in the configured list, else what the rule says, else what the author says. |
| RewrittenLookups.FixedVariables | internal/webhook/v1/mutator.go:271-287 | Preload, injector configuration file and semantic conventions have the injector's own values by name; the log level is set exactly when debugging. |
| RewrittenLookups.FieldVariables | internal/webhook/v1/mutator.go:327-350 | The field variables by name and field path; pod IP and pod UID exactly when configured, else what rule or author says. |
| RewrittenLookups.ServiceVariables | internal/webhook/v1/mutator.go:327-360 | Container name, service namespace, name and version by name, each left to rule or author when its value is empty. |
| AttributeTable.AttributesByKey | internal/webhook/v1/mutator.go:300-369 | Each non-empty attribute key is there exactly when something says so: the span-metrics marker first, then the pod's annotation, then the instance id, pod IP and node reference, then the owners. |
| AttributeTable.EmptyKey | internal/webhook/v1/mutator.go:362-367 | The empty key is only ever an annotation whose name is the bare prefix. |
| EnvList.WrittenExactly | internal/webhook/v1/mutator.go:239-262 | A write takes the place of the first entry of that name, or comes last. |
| EnvList.AppendedExactly | internal/webhook/v1/mutator.go:308-325 | An append extends the static attributes after a comma; without any, the list is the whole value. |
| EnvList.PlacedExactly | internal/webhook/v1/mutator.go:496-516 | A downward variable keeps its place, or comes last if new, unless the combined attributes stand in front of that: then it goes right before them. |
| Expansion.ExpandDollar | internal/webhook/v1/mutator.go:496-516 | A doubled `$` stands for one; a lone one, one before another character and an opening that nothing closes are literal text (Kubernetes variable expansion). |
| Expansion.ExpandUndeclared | internal/webhook/v1/mutator.go:496-516 | A reference to a name that is not declared stays as written. |
| Expansion.DeclaredLast | internal/webhook/v1/mutator.go:496-516 | What one more declaration adds: a text value expanded in what came before, an empty one, a field as it is, or nothing. |
| Strings.LessIsLexicographic | internal/webhook/v1/mutator.go:313-313 | The order used for sorting is the bytewise lexicographic one. |
| ServiceIdentity.ServiceNamespacePrecedence | internal/webhook/v1/mutator.go:433-439 | The service namespace is the annotation, else the fallback; labels have no say. |
| ServiceIdentity.InstanceIdPrecedence | internal/webhook/v1/mutator.go:477-493 | The instance id is the annotation, else the three names joined by dots if none is empty. |
| ServiceIdentity.KindTable | internal/webhook/v1/mutator.go:535-552 | The attribute of each of the six owner kinds, in any letter case, and of no other. |
| ServiceIdentity.GuessedParentExactly | internal/webhook/v1/mutator.go:624-641 | A parent is guessed for a ReplicaSet of apps/v1 and a Job of batch/v1, named by what precedes the last dash if that is not empty; for nothing else. |
| ServiceIdentity.OwnersStopAtParent | internal/webhook/v1/mutator.go:614-644 | References are listed up to and including the first with a guessed parent, which follows it; later ones are ignored. |
| ServiceIdentity.OwnerlessPod | internal/webhook/v1/mutator.go:615-618 | A pod without owners is its own owner. |
| Fnv.KnownSums | internal/config/config.go:148-172 | The sums of no bytes and of the one byte `a`, as constants. |
| Fnv.Base32Denotes | internal/config/config.go:171-171 | The printed digits, most significant first and without a leading zero, denote the sum in base 32. |
| Fnv.WireForm | internal/config/config.go:163-169 | The wire form is twelve bytes: the magic prefix, then the state from its most significant to its least significant byte. |
| Config.HashOfFields | internal/config/config.go:86-172 | The annotation is the sum, seeded with the rule's hash, over image root, colon and version. |
| Config.OneByteOfVersionMatters | internal/config/config.go:86-172 | **Main result.** Under one image root, versions of one length that differ in one byte get different annotations. |
| Config.OverrideIsVersion | internal/config/config.go:137-143 | Only a non-empty version of the ConfigMap replaces the configured one, and nothing else changes. |
| RuleRegistry.FirstRuleDecides | internal/registry/registry.go:107-128 | **Main result.** Over rules and selectors themselves: the first rule that selects the pod, in the ConfigMap with the least key that has one, decides. There is no match if and only if it is a skip rule; otherwise the match is that rule with that ConfigMap's configuration. |
| RuleRegistry.FirstSpanRuleDecides | internal/registry/registry.go:130-149 | The same over the span-metrics rules of the ConfigMaps that report span metrics. |
| RuleRegistry.NoRuleNoMatch | internal/registry/registry.go:107-149 | Without a rule that selects the pod neither query finds one. |
| PodInfos.ControllerIs | internal/podinfo/podinfo.go:87-97 | The first reference flagged as controller stands for it, and without one the first of all. |
| PodInfos.ChainStarts | internal/podinfo/podinfo.go:41-56 | The chain starts with the pod and goes on with its controller, if it has one. |
| PodInfos.ChainEndsWithDeployment | internal/podinfo/podinfo.go:52-70 | It ends with a Deployment if and only if the controller is a ReplicaSet that is found and a Deployment controls it. |
| PodInfos.WorkloadIsLast | internal/podinfo/podinfo.go:76-82 | A pod reports as the last link of its chain. |
| InjectedPod.MutatedByField | internal/webhook/v1/mutator.go:114-219 | The mutated pod field by field: the image volume or the empty one with its copy container, with image root, colon and version; the read-only mounts; the rewritten environments; the annotation; all else as it was. |
| InjectedPod.StoredByField | internal/webhook/v1/pod_webhook.go:94-160 | **Main result.** A pod is stored with exactly that injection if it has a match with a version, does not carry the match's annotation and preloads nothing else; otherwise as it came. |
| SweepTerms.ForeignPreloadExactly | internal/webhook/v1/mutator.go:86-98 | A pod has a preload conflict if and only if in some container or init container the first variable of that name is neither empty nor the injector's library. |
| SweepTerms.InjectionIsAnnotation | internal/webhook/v1/mutator.go:593-612 | Instrumented, or instrumented as wanted, is read off the annotation alone. |
| SweepTerms.DecisionExactly | internal/webhook/v1/pod_webhook.go:94-160 | Each admission outcome if and only if a condition on match, version, annotation and preloads. |
| SweepTerms.RestartedExactly | internal/controller/configmap_controller.go:383-500 | **Main result.** A targeted sweep is to restart a workload if and only if a listed pod is live, owned, in no protected namespace, under a target of its namespace, in need of a restart, and has that workload as its top-most rollable owner. |
| SweepTerms.CleanedUpExactly | internal/controller/configmap_controller.go:383-500 | A cleanup is to restart a workload if and only if it owns such a pod that is injected though no rule matches it. |
| SweepTerms.FailsToListExactly | internal/controller/configmap_controller.go:391-414 | The lists a sweep needs: all pods for a cleanup, else one for each unprotected namespace of a target. |
| SweepTerms.StatusExactly | internal/metrics/collector.go:165-183 | Each gauge state if and only if a condition on match, annotation and preloads. |
| SweepTerms.LabelsExactly | internal/metrics/collector.go:165-183 | The labels of a pod: its namespace, the last link of its chain, its node, its state. |
| SweepTerms.CountedExactly | internal/metrics/collector.go:98-126 | Under each label tuple the gauge counts every live pod outside the three system namespaces once. |
| Payload.DeclaredAreAskedFor | internal/controller/configmap_controller.go:336-347 | A target is declared if and only if a usable entry has its namespace, kind, name and language. |
| Payload.ParseByDocuments | internal/controller/configmap_controller.go:318-350 | When a payload is invalid, makes the parser panic, or is loaded, and as what, over the two documents. |
| Rollout.WorkloadIsTopmost | internal/controller/configmap_controller.go:88-101 | A pod's workload is `k` if and only if `k` is the top-most Deployment, StatefulSet or DaemonSet of its chain, in its namespace. |
| Rollout.RestartedOwns | internal/controller/configmap_controller.go:419-467 | A workload is to be restarted if and only if it is that owner of a selected pod. |
| ReconcileTerms.SnapshotExactly | internal/controller/configmap_controller.go:266-292 | The snapshot holds exactly the documents with rules of well-formed ConfigMaps whose node is there and stays, or is not named. |
| ReconcileTerms.RegistersExactly | internal/controller/configmap_controller.go:178-223 | **Main result.** A reconcile that does not fail leaves its key registered with exactly what its ConfigMap publishes; a map that names a departed node is not registered. |
| ReconcileTerms.UnusableMaps | internal/controller/configmap_controller.go:184-206 | Registry, result and patches for a map that cannot be read, has no annotation, names an unreadable or departed node, is malformed, or crashes the parser. |
| ReconcileTerms.NothingToRestart | internal/controller/configmap_controller.go:207-231 | With nothing to restart, or restarts disabled, a reconcile ends once the map is loaded. |
| ReconcileTerms.RestartsWait | internal/controller/configmap_controller.go:228-245 | Before the webhook is ready and its service answers, the map is loaded, nothing is patched and the reconcile asks to be called later. |
| ReconcileTerms.TargetsAreSwept | internal/controller/configmap_controller.go:255-500 | **Main result.** Past the checks a targeted reconcile patches, each once, exactly the workloads some listed pod gives a reason for, or none if a list fails, and is done either way. |
| ReconcileTerms.RefreshFailsExactly | internal/controller/configmap_controller.go:266-292 | A refresh fails if and only if the maps cannot be listed, an annotated map's node cannot be read, or a map of a live node crashes the parser. |
| ReconcileTerms.LeftOversAreSwept | internal/controller/configmap_controller.go:246-264 | A cleanup that reaches the pods patches, each once, exactly the workloads that own a pod which is injected though nothing published matches it, and fails if and only if a patch does. |
| ReconcileTerms.RunsRegisterExactly | internal/controller/configmap_controller.go:178-312 | **Main result.** After any interleaved run, a key with nothing outstanding is registered with exactly what its ConfigMap publishes, and not at all if that names a departed node. |
| Agreement.LookupsAgreeOnChain | internal/podinfo/podinfo.go:41-70 | Two lookups agree on a pod's owners if and only if the pod gets the same chain from both. |
| Gating.NoKeyTwice | internal/controller/configmap_controller.go:552-553 | However many workers there are, no two of them ever work on the same key. |
| DroppedEvents.AnnouncedAtStart | internal/controller/configmap_controller.go:534-554 | At the start exactly the annotated ConfigMaps and all nodes are announced, and nothing is registered. |
| DroppedEvents.MapIsAnnounced | internal/controller/configmap_controller.go:529-540 | The watch passes on a ConfigMap that is annotated now, or was when it was deleted. |
| DroppedEvents.NodeIsAnnounced | internal/controller/configmap_controller.go:541-549 | The watch passes on a node that appears, goes, or starts or stops terminating. |
| DroppedEvents.EventIsQueued | internal/controller/configmap_controller.go:559-573 | A node's event queues exactly the maps that name it, or none if they cannot be listed. |

## Left out

- Kubernetes client, API server and informers: a store plus event delivery, with every error an input; the delay between the API server and the caches is not modelled.
- YAML decoding, selector globs, the rule configuration's own hash and image reference parsing: a ConfigMap carries decoded documents, a rule an arbitrary predicate and a 64-bit hash, a container its parsed version.
- Owner references are read as they stand; a ReplicaSet lookup that fails finds nothing, as in the code.
- Pods, owners and the match input of one sweep are read at one moment; only the registry is followed across the steps of a reconcile.
- Several undelivered events for one key are merged into one; extra deliveries are the `Resync` step, which may enqueue any key at any time.
- Work-queue back-off and the two-second requeue: one set of keys held back, released at any time.
- Which of several failing ConfigMaps stops a refresh, and log output.
- The restart patch's timestamp, and whether a patched workload really rolls out: a round of `Agreement.Round` removes the pods of patched workloads and adds freshly admitted ones.
- Other admission plugins, and what they change about a pod after this webhook; the name given to a pod created from a prefix is modelled.
- Variable names hold no `=`, as the API server demands, where a result says what the process sees of a swallowed reference.
- Nil and empty slices and maps are not told apart. Strings are sequences of one-byte characters, and lower-casing is ASCII only.
- Containers whose environment declares a name twice: the webhook edits the first entry; the expansion, uniqueness and re-application results assume unique names.
- Payload.SortEligible: does not say in which order entries with equal namespace and name end, which the library leaves open.
- Answered.StepsAreAReconcile: assumes that equal calls of one reconcile are answered alike; the interleaved model itself lets every call be answered anew.
- Prometheus registration, flags, certificates, dialling, health checks, defaults, server version parsing, the ConfigMap webhook, DNS names and the log filter: wiring, or small checks without state.
- Helm chart, overlays and sample applications: configuration.
