/** What a rewritten environment answers for each variable of the injector, by its name. */
module RewrittenLookups {
  import opened Kube
  import opened Config
  import opened EnvList
  import opened Attributes
  import opened EnvRewrite
  import opened EnvSeen
  import Expansion

  /** What the rule says of a name, else what the author says. */
  function Given(env: seq<EnvVar>, ruleEnv: seq<EnvVar>, name: string): Option<EnvVar> {
    if LastNamed(ruleEnv, name).Some? then LastNamed(ruleEnv, name) else Lookup(env, name)
  }

  /** A variable with a literal value. */
  function Says(name: string, value: string): Option<EnvVar> {
    Some(EnvVar(name, value, None))
  }

  /** A variable the downward API fills. */
  function Reads(name: string, path: string): Option<EnvVar> {
    Some(EnvVar(name, "", Some(FieldRef(path))))
  }

  lemma PathsAreNoOthers()
    ensures PATH_NAMES !! FIXED_NAMES + FIELD_NAMES + SERVICE_NAMES
  {
    assert |DOTNET_PATH| == 45 && |JAVA_PATH| == 35 && |NODEJS_PATH| == 38 && |PYTHON_PATH| == 45;
    assert |ENV_NAMESPACE| == 32 && |ENV_POD_NAME| == 26 && |ENV_NODE| == 34 && |ENV_POD_IP| == 31 && |ENV_POD_UID| == 25;
    assert |ENV_SERVICE_NAME| == 26 && |ENV_SERVICE_NAMESPACE| == 31 && |ENV_SERVICE_VERSION| == 29 && |ATTRS| == 33;
    assert |LD_PRELOAD| == 10 && |CONFIG_FILE| == 25 && |SEMCONV| == 29 && |LOG_LEVEL| == 23 && |ENV_CONTAINER| == 32;
  }

  lemma PathsDiffer()
    ensures DOTNET_PATH != JAVA_PATH && DOTNET_PATH != NODEJS_PATH && DOTNET_PATH != PYTHON_PATH
    ensures JAVA_PATH != NODEJS_PATH && JAVA_PATH != PYTHON_PATH && NODEJS_PATH != PYTHON_PATH
  {
    assert |DOTNET_PATH| == 45 && |JAVA_PATH| == 35 && |NODEJS_PATH| == 38 && |PYTHON_PATH| == 45;
    DotnetStarts();
    PythonStarts();
  }

  lemma DotnetStarts()
    ensures DOTNET_PATH[0] == 'D'
  {
    assert DOTNET_PATH == "DOTNET_AUTO_INSTRUMENTATION_" + "AGENT_PATH_PREFIX";
  }

  lemma PythonStarts()
    ensures PYTHON_PATH[0] == 'P'
  {
    assert PYTHON_PATH == "PYTHON_AUTO_INSTRUMENTATION_" + "AGENT_PATH_PREFIX";
  }

  lemma PathLookup(env: seq<EnvVar>, t: Site, ruleEnv: seq<EnvVar>, skip: bool, name: string)
    requires name in PATH_NAMES
    ensures Lookup(Rewritten(env, t, ruleEnv, skip), name) == Layered(BlankLayer(t.cfg), name, Given(env, ruleEnv, name))
  {
    hide Rewritten, BlankLayer, IdentityLayer, FixedLayer;
    PathsAreNoOthers();
    LayerNames(t);
    LayeredOverride(env, t, ruleEnv, skip, name);
  }

  /**
   The agent path of a language the configuration does not list ends empty; that of a listed language is
   what the rule says, else what the author says.
   */
  lemma AgentPaths(env: seq<EnvVar>, t: Site, ruleEnv: seq<EnvVar>, skip: bool)
    ensures var r := Rewritten(env, t, ruleEnv, skip);
      && Lookup(r, "DOTNET_AUTO_INSTRUMENTATION_AGENT_PATH_PREFIX") == (
           if Dotnet in t.cfg.enabledSDKs then Given(env, ruleEnv, "DOTNET_AUTO_INSTRUMENTATION_AGENT_PATH_PREFIX")
           else Says("DOTNET_AUTO_INSTRUMENTATION_AGENT_PATH_PREFIX", ""))
      && Lookup(r, "JVM_AUTO_INSTRUMENTATION_AGENT_PATH") == (
           if Java in t.cfg.enabledSDKs then Given(env, ruleEnv, "JVM_AUTO_INSTRUMENTATION_AGENT_PATH")
           else Says("JVM_AUTO_INSTRUMENTATION_AGENT_PATH", ""))
      && Lookup(r, "NODEJS_AUTO_INSTRUMENTATION_AGENT_PATH") == (
           if Nodejs in t.cfg.enabledSDKs then Given(env, ruleEnv, "NODEJS_AUTO_INSTRUMENTATION_AGENT_PATH")
           else Says("NODEJS_AUTO_INSTRUMENTATION_AGENT_PATH", ""))
      && Lookup(r, "PYTHON_AUTO_INSTRUMENTATION_AGENT_PATH_PREFIX") == (
           if Python in t.cfg.enabledSDKs then Given(env, ruleEnv, "PYTHON_AUTO_INSTRUMENTATION_AGENT_PATH_PREFIX")
           else Says("PYTHON_AUTO_INSTRUMENTATION_AGENT_PATH_PREFIX", ""))
  {
    BlankTable(t.cfg);
    hide Rewritten, BlankLayer, Given;
    PathLookup(env, t, ruleEnv, skip, DOTNET_PATH);
    PathLookup(env, t, ruleEnv, skip, JAVA_PATH);
    PathLookup(env, t, ruleEnv, skip, NODEJS_PATH);
    PathLookup(env, t, ruleEnv, skip, PYTHON_PATH);
  }

  lemma BlankTable(cfg: SDKInject)
    ensures var b := BlankLayer(cfg);
      && (DOTNET_PATH in b <==> Dotnet !in cfg.enabledSDKs) && (DOTNET_PATH in b ==> b[DOTNET_PATH] == Literal(DOTNET_PATH, ""))
      && (JAVA_PATH in b <==> Java !in cfg.enabledSDKs) && (JAVA_PATH in b ==> b[JAVA_PATH] == Literal(JAVA_PATH, ""))
      && (NODEJS_PATH in b <==> Nodejs !in cfg.enabledSDKs) && (NODEJS_PATH in b ==> b[NODEJS_PATH] == Literal(NODEJS_PATH, ""))
      && (PYTHON_PATH in b <==> Python !in cfg.enabledSDKs) && (PYTHON_PATH in b ==> b[PYTHON_PATH] == Literal(PYTHON_PATH, ""))
  {
    PathsDiffer();
  }

  // ---- the variables the injector always sets

  lemma FixedAreNoOthers()
    ensures FIXED_NAMES !! FIELD_NAMES + SERVICE_NAMES + PATH_NAMES
    ensures ENV_CONTAINER !in {LD_PRELOAD, CONFIG_FILE, SEMCONV, LOG_LEVEL}
  {
    PathsAreNoOthers();
    assert |ENV_NAMESPACE| == 32 && |ENV_POD_NAME| == 26 && |ENV_NODE| == 34 && |ENV_POD_IP| == 31 && |ENV_POD_UID| == 25;
    assert |ENV_SERVICE_NAME| == 26 && |ENV_SERVICE_NAMESPACE| == 31 && |ENV_SERVICE_VERSION| == 29 && |ATTRS| == 33;
    assert |LD_PRELOAD| == 10 && |CONFIG_FILE| == 25 && |SEMCONV| == 29 && |LOG_LEVEL| == 23 && |ENV_CONTAINER| == 32;
    assert ENV_CONTAINER[18] != ENV_NAMESPACE[18];
    assert CONFIG_FILE[14] != ENV_POD_UID[14];
    assert SEMCONV[5] != ENV_SERVICE_VERSION[5];
  }

  lemma FixedTable(cfg: SDKInject)
    ensures var f := FixedLayer(cfg);
      && LD_PRELOAD in f && f[LD_PRELOAD] == Literal(LD_PRELOAD, LD_PRELOAD_VALUE)
      && CONFIG_FILE in f && f[CONFIG_FILE] == Literal(CONFIG_FILE, CONFIG_FILE_VALUE)
      && SEMCONV in f && f[SEMCONV] == Literal(SEMCONV, "http")
      && (LOG_LEVEL in f <==> cfg.debug) && (LOG_LEVEL in f ==> f[LOG_LEVEL] == Literal(LOG_LEVEL, "debug"))
  {
    assert |LD_PRELOAD| == 10 && |CONFIG_FILE| == 25 && |SEMCONV| == 29 && |LOG_LEVEL| == 23;
  }

  lemma FixedLookup(env: seq<EnvVar>, t: Site, ruleEnv: seq<EnvVar>, skip: bool, name: string)
    requires name in {LD_PRELOAD, CONFIG_FILE, SEMCONV, LOG_LEVEL}
    ensures Lookup(Rewritten(env, t, ruleEnv, skip), name) == Layered(FixedLayer(t.cfg), name, Given(env, ruleEnv, name))
  {
    hide Rewritten, BlankLayer, IdentityLayer, FixedLayer;
    FixedIsAlone(t, name);
    LayeredOverride(env, t, ruleEnv, skip, name);
  }

  lemma FixedIsAlone(t: Site, name: string)
    requires name in {LD_PRELOAD, CONFIG_FILE, SEMCONV, LOG_LEVEL}
    ensures name != ATTRS && name !in BlankLayer(t.cfg) && name !in IdentityLayer(t)
  {
    FixedAreNoOthers();
    assert |ATTRS| == 33 && |LD_PRELOAD| == 10 && |CONFIG_FILE| == 25 && |SEMCONV| == 29 && |LOG_LEVEL| == 23;
    hide BlankLayer, IdentityLayer, ServiceLayer;
    BlankLayerNames(t.cfg);
    IdentityLayerNames(t);
    ServiceLayerNames(t);
    DownwardAreFields(t.cfg);
    hide DownwardNames;
  }

  lemma DownwardAreFields(cfg: SDKInject)
    ensures DownwardNames(cfg) <= FIELD_NAMES
  {
  }

  /** Preload, configuration file and semantic conventions are always the injector's; the log level only when debugging. */
  lemma FixedVariables(env: seq<EnvVar>, t: Site, ruleEnv: seq<EnvVar>, skip: bool)
    ensures var r := Rewritten(env, t, ruleEnv, skip);
      && Lookup(r, "LD_PRELOAD") == Says("LD_PRELOAD", "/__otel_sdk_auto_instrumentation__/dist/injector/libotelinject.so")
      && Lookup(r, "OTEL_INJECTOR_CONFIG_FILE")
         == Says("OTEL_INJECTOR_CONFIG_FILE", "/__otel_sdk_auto_instrumentation__/dist/injector/otelinject.conf")
      && Lookup(r, "OTEL_SEMCONV_STABILITY_OPT_IN") == Says("OTEL_SEMCONV_STABILITY_OPT_IN", "http")
      && Lookup(r, "OTEL_INJECTOR_LOG_LEVEL")
         == if t.cfg.debug then Says("OTEL_INJECTOR_LOG_LEVEL", "debug") else Given(env, ruleEnv, "OTEL_INJECTOR_LOG_LEVEL")
  {
    FixedTable(t.cfg);
    hide Rewritten, FixedLayer, Given;
    FixedLookup(env, t, ruleEnv, skip, LD_PRELOAD);
    FixedLookup(env, t, ruleEnv, skip, CONFIG_FILE);
    FixedLookup(env, t, ruleEnv, skip, SEMCONV);
    FixedLookup(env, t, ruleEnv, skip, LOG_LEVEL);
  }

  // ---- who and where the container is

  lemma FieldsDiffer()
    ensures |{ENV_NAMESPACE, ENV_POD_NAME, ENV_NODE, ENV_POD_IP, ENV_POD_UID}| == 5
    ensures FIELD_NAMES !! SERVICE_NAMES + {ENV_CONTAINER}
    ensures ENV_CONTAINER !in SERVICE_NAMES
    ensures ENV_SERVICE_NAME != ENV_SERVICE_NAMESPACE && ENV_SERVICE_NAME != ENV_SERVICE_VERSION && ENV_SERVICE_NAMESPACE != ENV_SERVICE_VERSION
  {
    assert |ENV_NAMESPACE| == 32 && |ENV_POD_NAME| == 26 && |ENV_NODE| == 34 && |ENV_POD_IP| == 31 && |ENV_POD_UID| == 25;
    assert |ENV_SERVICE_NAME| == 26 && |ENV_SERVICE_NAMESPACE| == 31 && |ENV_SERVICE_VERSION| == 29 && |ENV_CONTAINER| == 32;
    assert ENV_CONTAINER[18] != ENV_NAMESPACE[18];
    assert ENV_POD_NAME[14] != ENV_SERVICE_NAME[14] && ENV_POD_IP[5] != ENV_SERVICE_NAMESPACE[5];
  }

  lemma IdentityLookup(env: seq<EnvVar>, t: Site, ruleEnv: seq<EnvVar>, skip: bool, name: string)
    requires name in {ENV_CONTAINER} + FIELD_NAMES + SERVICE_NAMES
    ensures Lookup(Rewritten(env, t, ruleEnv, skip), name) == Layered(IdentityLayer(t), name, Given(env, ruleEnv, name))
  {
    FixedAreNoOthers();
    PathsAreNoOthers();
    assert ATTRS != ENV_CONTAINER by { assert |ATTRS| == 33 && |ENV_CONTAINER| == 32; }
    hide Rewritten, BlankLayer, IdentityLayer, FixedLayer;
    BlankLayerNames(t.cfg);
    FixedLayerNames(t.cfg);
    LayeredOverride(env, t, ruleEnv, skip, name);
  }

  lemma FieldTable(cfg: SDKInject)
    ensures var d := DownwardLayer(cfg);
      && ENV_NAMESPACE in d && d[ENV_NAMESPACE] == DownwardVar(ENV_NAMESPACE, "metadata.namespace")
      && ENV_POD_NAME in d && d[ENV_POD_NAME] == DownwardVar(ENV_POD_NAME, "metadata.name")
      && ENV_NODE in d && d[ENV_NODE] == DownwardVar(ENV_NODE, "spec.nodeName")
      && (ENV_POD_IP in d <==> cfg.resources.addPodIP) && (ENV_POD_IP in d ==> d[ENV_POD_IP] == DownwardVar(ENV_POD_IP, "status.podIP"))
      && (ENV_POD_UID in d <==> cfg.resources.addUIDs) && (ENV_POD_UID in d ==> d[ENV_POD_UID] == DownwardVar(ENV_POD_UID, "metadata.uid"))
  {
    assert |ENV_NAMESPACE| == 32 && |ENV_POD_NAME| == 26 && |ENV_NODE| == 34 && |ENV_POD_IP| == 31 && |ENV_POD_UID| == 25;
  }

  lemma IdentitySplits(t: Site, name: string)
    ensures name in FIELD_NAMES ==> Layered(IdentityLayer(t), name, None) == Layered(DownwardLayer(t.cfg), name, None)
    ensures name in SERVICE_NAMES ==> Layered(IdentityLayer(t), name, None) == Layered(ServiceLayer(t), name, None)
    ensures name == ENV_CONTAINER ==> Layered(IdentityLayer(t), name, None) == Layered(OneIfSet(ENV_CONTAINER, t.containerName), name, None)
  {
    FieldsDiffer();
    DownwardLayerNames(t.cfg);
    ServiceLayerNames(t);
    OneKeys(ENV_CONTAINER, t.containerName);
    hide DownwardLayer, ServiceLayer, OneIfSet;
  }

  /** The field variables, by name and field path; pod IP and pod UID only when configured. */
  lemma FieldVariables(env: seq<EnvVar>, t: Site, ruleEnv: seq<EnvVar>, skip: bool)
    ensures var r := Rewritten(env, t, ruleEnv, skip);
      && Lookup(r, "OTEL_INJECTOR_K8S_NAMESPACE_NAME") == Reads("OTEL_INJECTOR_K8S_NAMESPACE_NAME", "metadata.namespace")
      && Lookup(r, "OTEL_INJECTOR_K8S_POD_NAME") == Reads("OTEL_INJECTOR_K8S_POD_NAME", "metadata.name")
      && Lookup(r, "OTEL_RESOURCE_ATTRIBUTES_NODE_NAME") == Reads("OTEL_RESOURCE_ATTRIBUTES_NODE_NAME", "spec.nodeName")
      && Lookup(r, "OTEL_RESOURCE_ATTRIBUTES_POD_IP") == (
           if t.cfg.resources.addPodIP then Reads("OTEL_RESOURCE_ATTRIBUTES_POD_IP", "status.podIP")
           else Given(env, ruleEnv, "OTEL_RESOURCE_ATTRIBUTES_POD_IP"))
      && Lookup(r, "OTEL_INJECTOR_K8S_POD_UID") == (
           if t.cfg.resources.addUIDs then Reads("OTEL_INJECTOR_K8S_POD_UID", "metadata.uid")
           else Given(env, ruleEnv, "OTEL_INJECTOR_K8S_POD_UID"))
  {
    FieldTable(t.cfg);
    hide Rewritten, DownwardLayer, IdentityLayer, Given;
    forall name | name in FIELD_NAMES
      ensures Lookup(Rewritten(env, t, ruleEnv, skip), name) == Layered(DownwardLayer(t.cfg), name, Given(env, ruleEnv, name))
    {
      IdentityLookup(env, t, ruleEnv, skip, name);
      IdentitySplits(t, name);
    }
    assert ENV_NAMESPACE in FIELD_NAMES && ENV_POD_NAME in FIELD_NAMES && ENV_NODE in FIELD_NAMES;
    assert ENV_POD_IP in FIELD_NAMES && ENV_POD_UID in FIELD_NAMES;
  }

  function SetOr(value: string, name: string, otherwise: Option<EnvVar>): Option<EnvVar> {
    if value != "" then Says(name, value) else otherwise
  }

  lemma ServiceTable(t: Site)
    ensures var s := ServiceLayer(t);
      && Layered(s, ENV_SERVICE_NAMESPACE, None) == SetOr(SiteNamespace(t), ENV_SERVICE_NAMESPACE, None)
      && Layered(s, ENV_SERVICE_NAME, None) == SetOr(SiteServiceName(t), ENV_SERVICE_NAME, None)
      && Layered(s, ENV_SERVICE_VERSION, None) == SetOr(SiteVersion(t), ENV_SERVICE_VERSION, None)
  {
    FieldsDiffer();
    hide SiteNamespace, SiteServiceName, SiteVersion;
  }

  /** The container's name and the three service variables, each left alone when its value is empty. */
  lemma ServiceVariables(env: seq<EnvVar>, t: Site, ruleEnv: seq<EnvVar>, skip: bool)
    ensures var r := Rewritten(env, t, ruleEnv, skip);
      && Lookup(r, "OTEL_INJECTOR_K8S_CONTAINER_NAME")
         == SetOr(t.containerName, "OTEL_INJECTOR_K8S_CONTAINER_NAME", Given(env, ruleEnv, "OTEL_INJECTOR_K8S_CONTAINER_NAME"))
      && Lookup(r, "OTEL_INJECTOR_SERVICE_NAMESPACE") == SetOr(
           ServiceNamespace(t.meta, t.cfg.resources.useLabels, "$(OTEL_INJECTOR_K8S_NAMESPACE_NAME)"),
           "OTEL_INJECTOR_SERVICE_NAMESPACE", Given(env, ruleEnv, "OTEL_INJECTOR_SERVICE_NAMESPACE"))
      && Lookup(r, "OTEL_INJECTOR_SERVICE_NAME") == SetOr(
           ServiceName(t.meta, t.cfg.resources.useLabels, "$(OTEL_INJECTOR_K8S_POD_NAME)", SiteBaseAttrs(t)),
           "OTEL_INJECTOR_SERVICE_NAME", Given(env, ruleEnv, "OTEL_INJECTOR_SERVICE_NAME"))
      && Lookup(r, "OTEL_INJECTOR_SERVICE_VERSION") == SetOr(
           ServiceVersion(t.meta, t.cfg.resources.useLabels, t.imageVersion),
           "OTEL_INJECTOR_SERVICE_VERSION", Given(env, ruleEnv, "OTEL_INJECTOR_SERVICE_VERSION"))
  {
    ReferenceTexts();
    ServiceTable(t);
    hide Rewritten, ServiceLayer, IdentityLayer, Given, ServiceNamespace, ServiceName, ServiceVersion, SiteBaseAttrs;
    forall name | name in SERVICE_NAMES + {ENV_CONTAINER}
      ensures Lookup(Rewritten(env, t, ruleEnv, skip), name) == Layered(IdentityLayer(t), name, Given(env, ruleEnv, name))
    {
      IdentityLookup(env, t, ruleEnv, skip, name);
    }
    forall name | name in SERVICE_NAMES
      ensures Layered(IdentityLayer(t), name, None) == Layered(ServiceLayer(t), name, None)
    {
      IdentitySplits(t, name);
    }
    IdentitySplits(t, ENV_CONTAINER);
    assert ENV_SERVICE_NAMESPACE in SERVICE_NAMES && ENV_SERVICE_NAME in SERVICE_NAMES && ENV_SERVICE_VERSION in SERVICE_NAMES;
  }

  lemma ReferenceTexts()
    ensures Expansion.Reference(ENV_NAMESPACE) == "$(OTEL_INJECTOR_K8S_NAMESPACE_NAME)"
    ensures Expansion.Reference(ENV_POD_NAME) == "$(OTEL_INJECTOR_K8S_POD_NAME)"
  {
  }
}
