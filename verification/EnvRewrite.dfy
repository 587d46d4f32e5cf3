/** The edits one admission makes to a container's environment, and what they achieve. */
module EnvRewrite {
  import opened Kube
  import opened Config
  import opened EnvList
  import opened Attributes
  import opened Expansion

  const LD_PRELOAD := "LD_PRELOAD"
  const LD_PRELOAD_VALUE := "/__otel_sdk_auto_instrumentation__/dist/injector/libotelinject.so"
  const CONFIG_FILE := "OTEL_INJECTOR_CONFIG_FILE"
  const CONFIG_FILE_VALUE := "/__otel_sdk_auto_instrumentation__/dist/injector/otelinject.conf"
  const SEMCONV := "OTEL_SEMCONV_STABILITY_OPT_IN"
  const LOG_LEVEL := "OTEL_INJECTOR_LOG_LEVEL"

  const ENV_SERVICE_NAME := "OTEL_INJECTOR_SERVICE_NAME"
  const ENV_SERVICE_VERSION := "OTEL_INJECTOR_SERVICE_VERSION"
  const ENV_SERVICE_NAMESPACE := "OTEL_INJECTOR_SERVICE_NAMESPACE"
  const ENV_NAMESPACE := "OTEL_INJECTOR_K8S_NAMESPACE_NAME"
  const ENV_POD_NAME := "OTEL_INJECTOR_K8S_POD_NAME"
  const ENV_POD_UID := "OTEL_INJECTOR_K8S_POD_UID"
  const ENV_CONTAINER := "OTEL_INJECTOR_K8S_CONTAINER_NAME"
  const ENV_NODE := "OTEL_RESOURCE_ATTRIBUTES_NODE_NAME"
  const ENV_POD_IP := "OTEL_RESOURCE_ATTRIBUTES_POD_IP"

  const DOTNET_PATH := "DOTNET_AUTO_INSTRUMENTATION_AGENT_PATH_PREFIX"
  const JAVA_PATH := "JVM_AUTO_INSTRUMENTATION_AGENT_PATH"
  const NODEJS_PATH := "NODEJS_AUTO_INSTRUMENTATION_AGENT_PATH"
  const PYTHON_PATH := "PYTHON_AUTO_INSTRUMENTATION_AGENT_PATH_PREFIX"

  /** What the edits depend on besides the list itself. */
  datatype Site = Site(cfg: SDKInject, meta: ObjectMeta, containerName: string, imageVersion: string)

  function Literal(name: string, value: string): EnvVar {
    EnvVar(name, value, None)
  }

  function Always(name: string, value: string): seq<Edit> {
    [Write(Literal(name, value))]
  }

  /** An empty value is not written. */
  function IfSet(name: string, value: string): seq<Edit> {
    if value != "" then Always(name, value) else []
  }

  function RuleEdits(vars: seq<EnvVar>): seq<Edit> {
    if vars == [] then [] else [Write(vars[0])] + RuleEdits(vars[1..])
  }

  function FixedEdits(cfg: SDKInject): seq<Edit> {
    Always(LD_PRELOAD, LD_PRELOAD_VALUE) + Always(CONFIG_FILE, CONFIG_FILE_VALUE) + Always(SEMCONV, "http")
    + (if cfg.debug then Always(LOG_LEVEL, "debug") else [])
  }

  function SiteBaseAttrs(t: Site): Attrs {
    BaseAttrs(t.cfg, t.meta, Reference(ENV_NODE), Reference(ENV_POD_IP))
  }

  function PlaceOne(name: string, path: string): seq<Edit> {
    [Downward(name, path)]
  }

  function CoreDownward(): seq<Edit> {
    PlaceOne(ENV_NAMESPACE, "metadata.namespace") + PlaceOne(ENV_POD_NAME, "metadata.name") + PlaceOne(ENV_NODE, "spec.nodeName")
  }

  function DownwardEdits(t: Site): seq<Edit> {
    CoreDownward()
    + (if t.cfg.resources.addPodIP then PlaceOne(ENV_POD_IP, "status.podIP") else [])
    + (if t.cfg.resources.addUIDs then PlaceOne(ENV_POD_UID, "metadata.uid") else [])
  }

  function SiteNamespace(t: Site): string {
    ServiceNamespace(t.meta, t.cfg.resources.useLabels, Reference(ENV_NAMESPACE))
  }

  function SiteServiceName(t: Site): string {
    ServiceName(t.meta, t.cfg.resources.useLabels, Reference(ENV_POD_NAME), SiteBaseAttrs(t))
  }

  function SiteVersion(t: Site): string {
    ServiceVersion(t.meta, t.cfg.resources.useLabels, t.imageVersion)
  }

  function ServiceEdits(t: Site): seq<Edit> {
    IfSet(ENV_SERVICE_NAMESPACE, SiteNamespace(t))
    + IfSet(ENV_SERVICE_NAME, SiteServiceName(t))
    + IfSet(ENV_SERVICE_VERSION, SiteVersion(t))
  }

  function IdentityEdits(t: Site): seq<Edit> {
    IfSet(ENV_CONTAINER, t.containerName) + DownwardEdits(t) + ServiceEdits(t)
  }

  function SiteInstanceId(t: Site): string {
    InstanceId(t.meta, Reference(ENV_NAMESPACE), Reference(ENV_POD_NAME), t.containerName)
  }

  /** The attributes before the span-metrics marker: annotations override everything computed. */
  function SiteAttrs(t: Site): Attrs {
    WithInstanceId(SiteBaseAttrs(t), SiteInstanceId(t)) + AnnotationAttrs(t.meta.annotations)
  }

  function AllAttrs(t: Site, spanMetrics: bool): (m: Attrs)
    ensures NODE_NAME in m
  {
    WithSkip(SiteAttrs(t), spanMetrics)
  }

  function Enabled(cfg: SDKInject, lang: Language): bool {
    lang in cfg.enabledSDKs
  }

  /** An empty path tells the injector that a language is disabled. */
  function BlankIfDisabled(cfg: SDKInject, lang: Language, name: string): seq<Edit> {
    if Enabled(cfg, lang) then [] else Always(name, "")
  }

  function BlankEdits(cfg: SDKInject): seq<Edit> {
    BlankIfDisabled(cfg, Dotnet, DOTNET_PATH) + BlankIfDisabled(cfg, Java, JAVA_PATH)
    + BlankIfDisabled(cfg, Nodejs, NODEJS_PATH) + BlankIfDisabled(cfg, Python, PYTHON_PATH)
  }

  ghost function Edits(t: Site, ruleEnv: seq<EnvVar>, spanMetrics: bool): seq<Edit> {
    RuleEdits(ruleEnv) + FixedEdits(t.cfg) + IdentityEdits(t)
    + [Append(Render(AllAttrs(t, spanMetrics)))] + BlankEdits(t.cfg)
  }

  ghost function Rewritten(env: seq<EnvVar>, t: Site, ruleEnv: seq<EnvVar>, spanMetrics: bool): seq<EnvVar> {
    Run(env, Edits(t, ruleEnv, spanMetrics))
  }

  // ---- shape of the edit list

  function DownwardNames(cfg: SDKInject): set<string> {
    {ENV_NAMESPACE, ENV_POD_NAME, ENV_NODE}
    + (if cfg.resources.addPodIP then {ENV_POD_IP} else {})
    + (if cfg.resources.addUIDs then {ENV_POD_UID} else {})
  }

  function DownwardPath(name: string): string {
    if name == ENV_NAMESPACE then "metadata.namespace"
    else if name == ENV_POD_NAME then "metadata.name"
    else if name == ENV_NODE then "spec.nodeName"
    else if name == ENV_POD_IP then "status.podIP"
    else "metadata.uid"
  }

  /** All and only the downward variables are placed, at their own field path. */
  ghost predicate DownwardAsDeclared(cfg: SDKInject, edits: seq<Edit>) {
    forall i :: 0 <= i < |edits| && edits[i].Downward? ==>
      edits[i].name in DownwardNames(cfg) && edits[i].path == DownwardPath(edits[i].name)
  }

  predicate OnlyWrites(edits: seq<Edit>) {
    forall i :: 0 <= i < |edits| ==> edits[i].Write?
  }

  lemma {:induction false} RuleEditsOnlyWrite(vars: seq<EnvVar>)
    ensures OnlyWrites(RuleEdits(vars))
    ensures |RuleEdits(vars)| == |vars|
    ensures forall i :: 0 <= i < |vars| ==> RuleEdits(vars)[i] == Write(vars[i])
  {
    if vars != [] { RuleEditsOnlyWrite(vars[1..]); }
  }

  lemma NamesAreDistinct(cfg: SDKInject)
    ensures ATTRS !in DownwardNames(cfg)
    ensures forall n :: n in DownwardNames(cfg) ==>
      n !in {LD_PRELOAD, ENV_SERVICE_NAME, ENV_SERVICE_VERSION, ENV_SERVICE_NAMESPACE, DOTNET_PATH, JAVA_PATH, NODEJS_PATH, PYTHON_PATH}
  {
    assert ENV_POD_NAME[14] != ENV_SERVICE_NAME[14];
    assert ENV_POD_IP[5] != ENV_SERVICE_NAMESPACE[5];
  }

  predicate NoDownward(edits: seq<Edit>) {
    forall i :: 0 <= i < |edits| ==> !edits[i].Downward?
  }

  lemma DownwardEditsShape(t: Site)
    ensures DownwardAsDeclared(t.cfg, DownwardEdits(t))
    ensures forall i :: 0 <= i < |DownwardEdits(t)| ==> DownwardEdits(t)[i].Downward?
    ensures forall n :: n in DownwardNames(t.cfg) ==> IsTarget(DownwardEdits(t), n)
  {
    var down := DownwardEdits(t);
    var ip := if t.cfg.resources.addPodIP then 1 else 0;
    assert down[0].name == ENV_NAMESPACE && down[1].name == ENV_POD_NAME && down[2].name == ENV_NODE;
    assert t.cfg.resources.addPodIP ==> down[3].name == ENV_POD_IP;
    assert t.cfg.resources.addUIDs ==> down[3 + ip].name == ENV_POD_UID;
  }

  /** The edits around the downward variables. */
  ghost function EditsBefore(t: Site, ruleEnv: seq<EnvVar>): seq<Edit> {
    RuleEdits(ruleEnv) + FixedEdits(t.cfg) + IfSet(ENV_CONTAINER, t.containerName)
  }

  ghost function EditsAfter(t: Site, spanMetrics: bool): seq<Edit> {
    ServiceEdits(t) + [Append(Render(AllAttrs(t, spanMetrics)))] + BlankEdits(t.cfg)
  }

  lemma NoDownwardConcat(a: seq<Edit>, b: seq<Edit>)
    requires NoDownward(a) && NoDownward(b)
    ensures NoDownward(a + b)
  {
  }

  lemma FixedEditsPlaceNothing(cfg: SDKInject)
    ensures NoDownward(FixedEdits(cfg))
  {
  }

  lemma ServiceEditsPlaceNothing(t: Site)
    ensures NoDownward(ServiceEdits(t))
  {
  }

  lemma BlankEditsPlaceNothing(cfg: SDKInject)
    ensures NoDownward(BlankEdits(cfg))
  {
  }

  lemma Regroup(r: seq<Edit>, f: seq<Edit>, c: seq<Edit>, d: seq<Edit>, s: seq<Edit>, a: seq<Edit>, b: seq<Edit>)
    ensures r + f + (c + d + s) + a + b == (r + f + c) + d + (s + a + b)
  {
  }

  lemma EditsSplit(t: Site, ruleEnv: seq<EnvVar>, spanMetrics: bool)
    ensures Edits(t, ruleEnv, spanMetrics) == EditsBefore(t, ruleEnv) + DownwardEdits(t) + EditsAfter(t, spanMetrics)
    ensures NoDownward(EditsBefore(t, ruleEnv)) && NoDownward(EditsAfter(t, spanMetrics))
    ensures Appends(EditsAfter(t, spanMetrics))
  {
    var r, f, c := RuleEdits(ruleEnv), FixedEdits(t.cfg), IfSet(ENV_CONTAINER, t.containerName);
    var s, a, b := ServiceEdits(t), [Append(Render(AllAttrs(t, spanMetrics)))], BlankEdits(t.cfg);
    Regroup(r, f, c, DownwardEdits(t), s, a, b);
    RuleEditsOnlyWrite(ruleEnv);
    FixedEditsPlaceNothing(t.cfg);
    ServiceEditsPlaceNothing(t);
    BlankEditsPlaceNothing(t.cfg);
    NoDownwardConcat(r, f);
    NoDownwardConcat(r + f, c);
    NoDownwardConcat(s, a);
    NoDownwardConcat(s + a, b);
    assert (s + a + b)[|s|].Append?;
  }

  lemma SurroundedShape(cfg: SDKInject, before: seq<Edit>, down: seq<Edit>, after: seq<Edit>)
    requires NoDownward(before) && NoDownward(after) && DownwardAsDeclared(cfg, down)
    ensures DownwardAsDeclared(cfg, before + down + after)
    ensures forall n :: IsTarget(down, n) <==> IsTarget(before + down + after, n)
    ensures Appends(after) ==> Appends(before + down + after)
  {
    var all := before + down + after;
    assert forall i | 0 <= i < |down| :: all[|before| + i] == down[i];
    assert forall i | 0 <= i < |after| :: all[|before| + |down| + i] == after[i];
    forall n | IsTarget(down, n) ensures IsTarget(all, n) {
      var j :| 0 <= j < |down| && down[j].Downward? && down[j].name == n;
      assert all[|before| + j] == down[j];
    }
    forall n | IsTarget(all, n) ensures IsTarget(down, n) {
      var j :| 0 <= j < |all| && all[j].Downward? && all[j].name == n;
      assert all[j] == down[j - |before|];
    }
    if Appends(after) {
      var j :| 0 <= j < |after| && after[j].Append?;
      assert all[|before| + |down| + j] == after[j];
    }
  }

  lemma EditsShape(t: Site, ruleEnv: seq<EnvVar>, spanMetrics: bool)
    ensures WellFormed(Edits(t, ruleEnv, spanMetrics))
    ensures forall n :: n in DownwardNames(t.cfg) <==> IsTarget(Edits(t, ruleEnv, spanMetrics), n)
    ensures Appends(Edits(t, ruleEnv, spanMetrics))
  {
    var all := Edits(t, ruleEnv, spanMetrics);
    EditsSplit(t, ruleEnv, spanMetrics);
    DownwardEditsShape(t);
    SurroundedShape(t.cfg, EditsBefore(t, ruleEnv), DownwardEdits(t), EditsAfter(t, spanMetrics));
    NamesAreDistinct(t.cfg);
  }

  // ---- the layered override

  /** The last rule variable of that name. */
  function LastNamed(vars: seq<EnvVar>, name: string): Option<EnvVar> {
    if vars == [] then None
    else if vars[|vars| - 1].name == name then Some(vars[|vars| - 1])
    else LastNamed(vars[..|vars| - 1], name)
  }

  function One(name: string, value: string): map<string, EnvVar> {
    map[name := Literal(name, value)]
  }

  function OneIfSet(name: string, value: string): map<string, EnvVar> {
    if value != "" then One(name, value) else map[]
  }

  /** What the injector always sets. */
  function FixedLayer(cfg: SDKInject): map<string, EnvVar> {
    One(LD_PRELOAD, LD_PRELOAD_VALUE) + One(CONFIG_FILE, CONFIG_FILE_VALUE) + One(SEMCONV, "http")
    + (if cfg.debug then One(LOG_LEVEL, "debug") else map[])
  }

  function OneDownward(name: string, path: string): map<string, EnvVar> {
    map[name := DownwardVar(name, path)]
  }

  function DownwardLayer(cfg: SDKInject): map<string, EnvVar> {
    OneDownward(ENV_NAMESPACE, "metadata.namespace")
    + OneDownward(ENV_POD_NAME, "metadata.name")
    + OneDownward(ENV_NODE, "spec.nodeName")
    + (if cfg.resources.addPodIP then OneDownward(ENV_POD_IP, "status.podIP") else map[])
    + (if cfg.resources.addUIDs then OneDownward(ENV_POD_UID, "metadata.uid") else map[])
  }

  function ServiceLayer(t: Site): map<string, EnvVar> {
    OneIfSet(ENV_SERVICE_NAMESPACE, SiteNamespace(t))
    + OneIfSet(ENV_SERVICE_NAME, SiteServiceName(t))
    + OneIfSet(ENV_SERVICE_VERSION, SiteVersion(t))
  }

  /** Who and where the container is. An empty value leaves the lower layers alone. */
  function IdentityLayer(t: Site): map<string, EnvVar> {
    OneIfSet(ENV_CONTAINER, t.containerName) + DownwardLayer(t.cfg) + ServiceLayer(t)
  }

  /** Empty paths for the languages that are not enabled. */
  function BlankLayer(cfg: SDKInject): map<string, EnvVar> {
    (if Enabled(cfg, Dotnet) then map[] else One(DOTNET_PATH, ""))
    + (if Enabled(cfg, Java) then map[] else One(JAVA_PATH, ""))
    + (if Enabled(cfg, Nodejs) then map[] else One(NODEJS_PATH, ""))
    + (if Enabled(cfg, Python) then map[] else One(PYTHON_PATH, ""))
  }

  lemma {:induction false} RuleWrites(vars: seq<EnvVar>, name: string)
    requires name != ATTRS
    ensures Layered(Writes(RuleEdits(vars)), name, None) == LastNamed(vars, name)
  {
    if vars != [] {
      var n := |vars| - 1;
      RuleEditsSnoc(vars);
      WritesConcat(RuleEdits(vars[..n]), [Write(vars[n])]);
      RuleWrites(vars[..n], name);
    }
  }

  lemma {:induction false} RuleEditsSnoc(vars: seq<EnvVar>)
    requires vars != []
    ensures RuleEdits(vars) == RuleEdits(vars[..|vars| - 1]) + [Write(vars[|vars| - 1])]
  {
    RuleEditsOnlyWrite(vars);
    RuleEditsOnlyWrite(vars[..|vars| - 1]);
  }

  lemma SingleWrite(name: string, value: string)
    requires name != ATTRS
    ensures Writes(Always(name, value)) == One(name, value)
    ensures Writes(IfSet(name, value)) == OneIfSet(name, value)
  {
  }

  lemma AttrsIsNoOtherName()
    ensures ATTRS !in {LD_PRELOAD, CONFIG_FILE, SEMCONV, LOG_LEVEL, ENV_CONTAINER, ENV_SERVICE_NAMESPACE, ENV_SERVICE_NAME,
      ENV_SERVICE_VERSION, DOTNET_PATH, JAVA_PATH, NODEJS_PATH, PYTHON_PATH}
  {
  }

  lemma WritesOfFour(a: seq<Edit>, b: seq<Edit>, c: seq<Edit>, d: seq<Edit>)
    ensures Writes(a + b + c + d) == Writes(a) + Writes(b) + Writes(c) + Writes(d)
  {
    WritesConcat(a, b);
    WritesConcat(a + b, c);
    WritesConcat(a + b + c, d);
  }

  lemma FixedWrites(cfg: SDKInject)
    ensures Writes(FixedEdits(cfg)) == FixedLayer(cfg)
  {
    AttrsIsNoOtherName();
    SingleWrite(LD_PRELOAD, LD_PRELOAD_VALUE);
    SingleWrite(CONFIG_FILE, CONFIG_FILE_VALUE);
    SingleWrite(SEMCONV, "http");
    SingleWrite(LOG_LEVEL, "debug");
    WritesOfFour(Always(LD_PRELOAD, LD_PRELOAD_VALUE), Always(CONFIG_FILE, CONFIG_FILE_VALUE), Always(SEMCONV, "http"),
      if cfg.debug then Always(LOG_LEVEL, "debug") else []);
  }

  lemma SinglePlace(name: string, path: string)
    ensures Writes(PlaceOne(name, path)) == OneDownward(name, path)
  {
  }

  lemma DownwardWrites(t: Site)
    ensures Writes(DownwardEdits(t)) == DownwardLayer(t.cfg)
  {
    var ip := if t.cfg.resources.addPodIP then PlaceOne(ENV_POD_IP, "status.podIP") else [];
    var uid := if t.cfg.resources.addUIDs then PlaceOne(ENV_POD_UID, "metadata.uid") else [];
    SinglePlace(ENV_NAMESPACE, "metadata.namespace");
    SinglePlace(ENV_POD_NAME, "metadata.name");
    SinglePlace(ENV_NODE, "spec.nodeName");
    SinglePlace(ENV_POD_IP, "status.podIP");
    SinglePlace(ENV_POD_UID, "metadata.uid");
    WritesOfFour(PlaceOne(ENV_NAMESPACE, "metadata.namespace"), PlaceOne(ENV_POD_NAME, "metadata.name"),
      PlaceOne(ENV_NODE, "spec.nodeName"), ip);
    WritesConcat(CoreDownward() + ip, uid);
  }

  lemma ServiceWrites(t: Site)
    ensures Writes(ServiceEdits(t)) == ServiceLayer(t)
  {
    AttrsIsNoOtherName();
    var n, m, v := SiteNamespace(t), SiteServiceName(t), SiteVersion(t);
    SingleWrite(ENV_SERVICE_NAMESPACE, n);
    SingleWrite(ENV_SERVICE_NAME, m);
    SingleWrite(ENV_SERVICE_VERSION, v);
    WritesConcat(IfSet(ENV_SERVICE_NAMESPACE, n), IfSet(ENV_SERVICE_NAME, m));
    WritesConcat(IfSet(ENV_SERVICE_NAMESPACE, n) + IfSet(ENV_SERVICE_NAME, m), IfSet(ENV_SERVICE_VERSION, v));
  }

  lemma IdentityWrites(t: Site)
    ensures Writes(IdentityEdits(t)) == IdentityLayer(t)
  {
    AttrsIsNoOtherName();
    SingleWrite(ENV_CONTAINER, t.containerName);
    DownwardWrites(t);
    ServiceWrites(t);
    WritesOfThree(IfSet(ENV_CONTAINER, t.containerName), DownwardEdits(t), ServiceEdits(t));
  }

  lemma WritesOfThree(a: seq<Edit>, b: seq<Edit>, c: seq<Edit>)
    ensures Writes(a + b + c) == Writes(a) + Writes(b) + Writes(c)
  {
    WritesConcat(a, b);
    WritesConcat(a + b, c);
  }

  lemma BlankWrites(cfg: SDKInject)
    ensures Writes(BlankEdits(cfg)) == BlankLayer(cfg)
  {
    AttrsIsNoOtherName();
    SingleWrite(DOTNET_PATH, "");
    SingleWrite(JAVA_PATH, "");
    SingleWrite(NODEJS_PATH, "");
    SingleWrite(PYTHON_PATH, "");
    WritesOfFour(BlankIfDisabled(cfg, Dotnet, DOTNET_PATH), BlankIfDisabled(cfg, Java, JAVA_PATH),
      BlankIfDisabled(cfg, Nodejs, NODEJS_PATH), BlankIfDisabled(cfg, Python, PYTHON_PATH));
  }

  lemma PlusEmpty(m: map<string, EnvVar>)
    ensures m + map[] == m
  {
  }

  lemma WritesOfAppend(list: string)
    ensures Writes([Append(list)]) == map[]
  {
    PlusEmpty(map[]);
  }

  lemma AppendWritesNothing(x: seq<Edit>, list: string, b: seq<Edit>)
    ensures Writes(x + [Append(list)] + b) == Writes(x) + Writes(b)
  {
    WritesOfAppend(list);
    PlusEmpty(Writes(x));
    WritesOfThree(x, [Append(list)], b);
  }

  lemma EditsWrites(t: Site, ruleEnv: seq<EnvVar>, spanMetrics: bool)
    ensures Writes(Edits(t, ruleEnv, spanMetrics))
      == Writes(RuleEdits(ruleEnv)) + FixedLayer(t.cfg) + IdentityLayer(t) + BlankLayer(t.cfg)
  {
    FixedWrites(t.cfg);
    IdentityWrites(t);
    BlankWrites(t.cfg);
    WritesOfThree(RuleEdits(ruleEnv), FixedEdits(t.cfg), IdentityEdits(t));
    AppendWritesNothing(RuleEdits(ruleEnv) + FixedEdits(t.cfg) + IdentityEdits(t), Render(AllAttrs(t, spanMetrics)), BlankEdits(t.cfg));
  }

  function Over(upper: Option<EnvVar>, lower: Option<EnvVar>): Option<EnvVar> {
    if upper.Some? then upper else lower
  }

  /** The rewritten list looks every name up through five layers, blanks on top and the author's list at the bottom. */
  lemma LayeredOverride(env: seq<EnvVar>, t: Site, ruleEnv: seq<EnvVar>, spanMetrics: bool, name: string)
    requires name != ATTRS
    ensures Lookup(Rewritten(env, t, ruleEnv, spanMetrics), name) ==
      Layered(BlankLayer(t.cfg), name,
        Layered(IdentityLayer(t), name,
          Layered(FixedLayer(t.cfg), name,
            Over(LastNamed(ruleEnv, name), Lookup(env, name)))))
  {
    EditsShape(t, ruleEnv, spanMetrics);
    RunRefinesOverride(env, Edits(t, ruleEnv, spanMetrics), name);
    EditsWrites(t, ruleEnv, spanMetrics);
    RuleWrites(ruleEnv, name);
    LayersAsOneMap(Writes(RuleEdits(ruleEnv)), FixedLayer(t.cfg), IdentityLayer(t), BlankLayer(t.cfg), name, Lookup(env, name));
  }

  lemma LayersAsOneMap(r: map<string, EnvVar>, f: map<string, EnvVar>, i: map<string, EnvVar>, b: map<string, EnvVar>,
      name: string, under: Option<EnvVar>)
    ensures Layered(r + f + i + b, name, under) ==
      Layered(b, name, Layered(i, name, Layered(f, name, Over(Layered(r, name, None), under))))
  {
  }

  lemma SumKeys(a: map<string, EnvVar>, b: map<string, EnvVar>)
    ensures (a + b).Keys == a.Keys + b.Keys
  {
  }

  lemma OneKeys(name: string, value: string)
    ensures One(name, value).Keys == {name} && OneIfSet(name, value).Keys <= {name}
    ensures OneDownward(name, value).Keys == {name}
  {
  }

  lemma BlankLayerNames(cfg: SDKInject)
    ensures BlankLayer(cfg).Keys <= {DOTNET_PATH, JAVA_PATH, NODEJS_PATH, PYTHON_PATH}
  {
    OneKeys(DOTNET_PATH, "");
    OneKeys(JAVA_PATH, "");
    OneKeys(NODEJS_PATH, "");
    OneKeys(PYTHON_PATH, "");
  }

  lemma DownwardLayerNames(cfg: SDKInject)
    ensures DownwardLayer(cfg).Keys == DownwardNames(cfg)
  {
    var a, b, c := OneDownward(ENV_NAMESPACE, "metadata.namespace"), OneDownward(ENV_POD_NAME, "metadata.name"),
      OneDownward(ENV_NODE, "spec.nodeName");
    OneKeys(ENV_NAMESPACE, "metadata.namespace");
    OneKeys(ENV_POD_NAME, "metadata.name");
    OneKeys(ENV_NODE, "spec.nodeName");
    OneKeys(ENV_POD_IP, "status.podIP");
    OneKeys(ENV_POD_UID, "metadata.uid");
    SumKeys(a, b);
    SumKeys(a + b, c);
    var ip := if cfg.resources.addPodIP then OneDownward(ENV_POD_IP, "status.podIP") else map[];
    var uid := if cfg.resources.addUIDs then OneDownward(ENV_POD_UID, "metadata.uid") else map[];
    SumKeys(a + b + c, ip);
    SumKeys(a + b + c + ip, uid);
  }

  lemma ServiceLayerNames(t: Site)
    ensures ServiceLayer(t).Keys <= {ENV_SERVICE_NAMESPACE, ENV_SERVICE_NAME, ENV_SERVICE_VERSION}
  {
    var a, b, c := OneIfSet(ENV_SERVICE_NAMESPACE, SiteNamespace(t)), OneIfSet(ENV_SERVICE_NAME, SiteServiceName(t)),
      OneIfSet(ENV_SERVICE_VERSION, SiteVersion(t));
    OneKeys(ENV_SERVICE_NAMESPACE, SiteNamespace(t));
    OneKeys(ENV_SERVICE_NAME, SiteServiceName(t));
    OneKeys(ENV_SERVICE_VERSION, SiteVersion(t));
    SumKeys(a, b);
    SumKeys(a + b, c);
  }

  lemma IdentityLayerNames(t: Site)
    ensures IdentityLayer(t).Keys <= {ENV_CONTAINER} + DownwardNames(t.cfg) + ServiceLayer(t).Keys
  {
    DownwardLayerNames(t.cfg);
    OneKeys(ENV_CONTAINER, t.containerName);
    SumKeys(OneIfSet(ENV_CONTAINER, t.containerName), DownwardLayer(t.cfg));
    SumKeys(OneIfSet(ENV_CONTAINER, t.containerName) + DownwardLayer(t.cfg), ServiceLayer(t));
  }

  lemma PreloadIsNoOtherName(cfg: SDKInject)
    ensures LD_PRELOAD !in {ATTRS, CONFIG_FILE, SEMCONV, LOG_LEVEL, ENV_CONTAINER, ENV_SERVICE_NAMESPACE, ENV_SERVICE_NAME,
      ENV_SERVICE_VERSION, DOTNET_PATH, JAVA_PATH, NODEJS_PATH, PYTHON_PATH}
    ensures LD_PRELOAD !in DownwardNames(cfg)
  {
    assert |LD_PRELOAD| == 10;
  }

  lemma FixedLayerHasPreload(cfg: SDKInject)
    ensures LD_PRELOAD in FixedLayer(cfg) && FixedLayer(cfg)[LD_PRELOAD] == Literal(LD_PRELOAD, LD_PRELOAD_VALUE)
  {
    PreloadIsNoOtherName(cfg);
  }

  /** Whatever the pod and the rule say, the preload ends as the injector's own library. */
  lemma PreloadIsOurs(env: seq<EnvVar>, t: Site, ruleEnv: seq<EnvVar>, spanMetrics: bool)
    ensures Lookup(Rewritten(env, t, ruleEnv, spanMetrics), LD_PRELOAD) == Some(Literal(LD_PRELOAD, LD_PRELOAD_VALUE))
  {
    PreloadIsNoOtherName(t.cfg);
    BlankLayerNames(t.cfg);
    ServiceLayerNames(t);
    IdentityLayerNames(t);
    FixedLayerHasPreload(t.cfg);
    LayeredOverride(env, t, ruleEnv, spanMetrics, LD_PRELOAD);
  }

  /** Uniqueness of names survives. */
  lemma UniquenessSurvives(env: seq<EnvVar>, t: Site, ruleEnv: seq<EnvVar>, spanMetrics: bool)
    requires Unique(env)
    ensures Unique(Rewritten(env, t, ruleEnv, spanMetrics))
  {
    RunKeepsUnique(env, Edits(t, ruleEnv, spanMetrics));
  }

  /** What an entry could refer to it still can, unless the injector turned that entry into a downward variable. */
  lemma ReferencesSurvive(env: seq<EnvVar>, t: Site, ruleEnv: seq<EnvVar>, spanMetrics: bool, x: string, y: string)
    requires y !in DownwardNames(t.cfg) && Before(env, x, y)
    ensures Before(Rewritten(env, t, ruleEnv, spanMetrics), x, y)
  {
    EditsShape(t, ruleEnv, spanMetrics);
    RunKeepsOrder(env, Edits(t, ruleEnv, spanMetrics), x, y);
  }
}
