/** The in-place edits of a container, method by method, against the specification of the edit list. */
module Mutator {
  import opened Kube
  import opened Strings
  import opened Config
  import opened EnvList
  import opened Attributes
  import opened Expansion
  import opened EnvRewrite

  const VOLUME_NAME := "otel-inject-instrumentation"
  const COPY_CONTAINER_NAME := "otel-sdk-inject"
  const MOUNT_PATH := "/__otel_sdk_auto_instrumentation__"
  const VOLUME_SIZE := "500Mi"
  const IF_NOT_PRESENT := "IfNotPresent"

  // ---- replace by name, or append

  function IndexBy<T>(s: seq<T>, key: T -> string, name: string): (i: nat)
    ensures i <= |s|
    ensures i < |s| ==> key(s[i]) == name
    ensures forall j :: 0 <= j < i ==> key(s[j]) != name
  {
    if s == [] || key(s[0]) == name then 0 else 1 + IndexBy(s[1..], key, name)
  }

  function Upsert<T>(s: seq<T>, key: T -> string, x: T): seq<T> {
    var i := IndexBy(s, key, key(x));
    if i < |s| then s[i := x] else s + [x]
  }

  /** No two entries share a key. */
  ghost predicate DistinctBy<T>(s: seq<T>, key: T -> string) {
    forall i, j :: 0 <= i < j < |s| ==> key(s[i]) != key(s[j])
  }

  /** The entry is there afterwards, where an older one stood; nothing else moves, and distinct keys stay distinct. */
  lemma UpsertFacts<T>(s: seq<T>, key: T -> string, x: T)
    ensures var r, i := Upsert(s, key, x), IndexBy(s, key, key(x));
      && i < |r| && r[i] == x && IndexBy(r, key, key(x)) == i
      && (forall j :: 0 <= j < |s| && j != i ==> r[j] == s[j])
      && |s| <= |r| <= |s| + 1
      && (DistinctBy(s, key) ==> DistinctBy(r, key))
  {
    var r, i := Upsert(s, key, x), IndexBy(s, key, key(x));
    assert forall j | 0 <= j < i :: r[j] == s[j];
    assert key(r[i]) == key(x);
  }

  lemma UpsertTwice<T>(s: seq<T>, key: T -> string, x: T)
    ensures Upsert(Upsert(s, key, x), key, x) == Upsert(s, key, x)
  {
    UpsertFacts(s, key, x);
  }

  function VolumeKey(v: Volume): string { v.name }
  function MountKey(m: VolumeMount): string { m.name }
  function ContainerKey(c: Container): string { c.name }

  function UsesInitContainer(cfg: SDKInject): bool {
    !cfg.mode.ImageMode?
  }

  function VolumeFor(cfg: SDKInject): Volume {
    Volume(VOLUME_NAME,
      if UsesInitContainer(cfg) then EmptyDir(VOLUME_SIZE) else ImageSource(cfg.ImageVolumePath(), IF_NOT_PRESENT))
  }

  const MOUNT := VolumeMount(VOLUME_NAME, MOUNT_PATH, true)

  function CopyContainer(cfg: SDKInject): Container {
    Container(COPY_CONTAINER_NAME, cfg.ImageVolumePath(), "", IF_NOT_PRESENT, [], [VolumeMount(VOLUME_NAME, MOUNT_PATH, false)])
  }

  /** A container the mutator edits in place. */
  class LiveContainer {
    const name: string
    const image: string
    const imageVersion: string
    const pullPolicy: string
    var env: seq<EnvVar>
    var mounts: seq<VolumeMount>

    constructor (c: Container)
      ensures Value() == c
    {
      name, image, imageVersion, pullPolicy := c.name, c.image, c.imageVersion, c.pullPolicy;
      env, mounts := c.env, c.mounts;
    }

    function Value(): Container
      reads this
    {
      Container(name, image, imageVersion, pullPolicy, env, mounts)
    }
  }

  function SiteOf(cfg: SDKInject, meta: ObjectMeta, c: Container): Site {
    Site(cfg, meta, c.name, c.imageVersion)
  }

  /** A container after instrumentation. */
  ghost function Instrumented(cfg: SDKInject, meta: ObjectMeta, c: Container, ruleEnv: seq<EnvVar>, spanMetrics: bool): Container {
    c.(mounts := Upsert(c.mounts, MountKey, MOUNT), env := Rewritten(c.env, SiteOf(cfg, meta, c), ruleEnv, spanMetrics))
  }

  class PodMutator {
    var cfg: SDKInject

    constructor (cfg: SDKInject)
      ensures this.cfg == cfg
    {
      this.cfg := cfg;
    }

    method SetEnvVarEvenIfEmpty(c: LiveContainer, name: string, value: string)
      modifies c`env
      ensures c.env == Run(old(c.env), Always(name, value))
    {
      var pos := IndexOf(c.env, name);
      if pos == |c.env| {
        c.env := c.env + [EnvVar(name, value, None)];
      } else {
        c.env := c.env[pos := c.env[pos].(valueFrom := None, value := value)];
      }
      assert c.env == Put(old(c.env), Literal(name, value));
    }

    method SetEnvVar(c: LiveContainer, name: string, value: string)
      modifies c`env
      ensures c.env == Run(old(c.env), IfSet(name, value))
    {
      if value != "" {
        SetEnvVarEvenIfEmpty(c, name, value);
      }
    }

    method ApplyEnvVars(c: LiveContainer, vars: seq<EnvVar>)
      modifies c`env
      ensures c.env == Run(old(c.env), RuleEdits(vars))
    {
      var i := 0;
      while i < |vars|
        invariant 0 <= i <= |vars|
        invariant Run(c.env, RuleEdits(vars[i..])) == Run(old(c.env), RuleEdits(vars))
      {
        var v := vars[i];
        assert RuleEdits(vars[i..])[1..] == RuleEdits(vars[i + 1..]) by { assert vars[i..][1..] == vars[i + 1..]; }
        var pos := IndexOf(c.env, v.name);
        if pos < |c.env| {
          c.env := c.env[pos := v];
        } else {
          c.env := c.env + [v];
        }
        i := i + 1;
      }
    }

    method SetEnvVarFromFieldPath(c: LiveContainer, name: string, path: string) returns (reference: string)
      modifies c`env
      ensures c.env == Run(old(c.env), PlaceOne(name, path))
      ensures reference == Reference(name)
    {
      var pos := |c.env|;
      var existing := IndexOf(c.env, name);
      if existing < |c.env| {
        pos := existing;
        c.env := c.env[..existing] + c.env[existing + 1..];
      }
      ghost var rest := c.env;
      assert rest == Without(old(c.env), name);
      var attrs := IndexOf(c.env, ATTRS);
      if attrs < |c.env| {
        pos := Min(pos, attrs);
      }
      assert pos == Min(IndexOf(old(c.env), name), IndexOf(rest, ATTRS));
      c.env := c.env[..pos] + [EnvVar(name, "", Some(FieldRef(path)))] + c.env[pos..];
      assert c.env == InsertAt(rest, pos, DownwardVar(name, path));
      reference := "$(" + name + ")";
    }

    method AddParentResourceLabels(meta: ObjectMeta, includeUID: bool) returns (resources: Attrs)
      ensures resources == ParentLabels(meta, includeUID)
    {
      resources := map[];
      var owners := OwnersFrom(meta);
      var i := 0;
      while i < |owners|
        invariant 0 <= i <= |owners|
        invariant OwnerNames(owners[i..], resources) == OwnerNames(owners, map[])
      {
        assert owners[i..][1..] == owners[i + 1..];
        var a := ResourceAttribute(owners[i].kind);
        if a != "" {
          resources := resources[a := owners[i].name];
        }
        i := i + 1;
      }
      if includeUID {
        ghost var names := resources;
        i := 0;
        while i < |meta.owners|
          invariant 0 <= i <= |meta.owners|
          invariant OwnerUIDs(meta.owners[i..], resources) == OwnerUIDs(meta.owners, names)
        {
          assert meta.owners[i..][1..] == meta.owners[i + 1..];
          var a := ResourceAttribute(meta.owners[i].kind);
          if a != "" {
            resources := resources[a := meta.owners[i].uid];
          }
          i := i + 1;
        }
      }
    }

    /** Annotations are visited in an arbitrary order; the result does not depend on it. */
    method AddAnnotationAttrs(annotations: map<string, string>, attrs: Attrs) returns (r: Attrs)
      ensures r == attrs + AnnotationAttrs(annotations)
    {
      r := attrs;
      var todo := annotations.Keys;
      while todo != {}
        invariant todo <= annotations.Keys
        invariant forall a :: a in r <==> a in attrs || (ANNOTATION_PREFIX + a in annotations && ANNOTATION_PREFIX + a !in todo)
        invariant forall a :: a in r ==>
          r[a] == if ANNOTATION_PREFIX + a in annotations && ANNOTATION_PREFIX + a !in todo then annotations[ANNOTATION_PREFIX + a] else attrs[a]
        decreases |todo|
      {
        var k :| k in todo;
        if ANNOTATION_PREFIX <= k {
          var a := k[|ANNOTATION_PREFIX|..];
          assert k == ANNOTATION_PREFIX + a;
          assert forall b :: ANNOTATION_PREFIX + b == k ==> b == (ANNOTATION_PREFIX + b)[|ANNOTATION_PREFIX|..] == a;
          r := r[a := annotations[k]];
        } else {
          assert forall b :: ANNOTATION_PREFIX <= ANNOTATION_PREFIX + b;
        }
        todo := todo - {k};
      }
    }

    method SetResourceAttributes(meta: ObjectMeta, c: LiveContainer) returns (attrs: Attrs)
      modifies c`env
      ensures c.env == Run(old(c.env), IdentityEdits(SiteOf(cfg, meta, c.Value())))
      ensures attrs == SiteAttrs(SiteOf(cfg, meta, c.Value()))
    {
      ghost var t := SiteOf(cfg, meta, c.Value());
      ghost var e0 := c.env;
      SetEnvVar(c, ENV_CONTAINER, c.name);
      attrs := AddParentResourceLabels(meta, cfg.resources.addUIDs);
      var namespace, podName, nodeRef, ipRef := PlaceDownwardVars(meta, c);
      attrs := attrs[NODE_NAME := nodeRef];
      if cfg.resources.addPodIP {
        attrs := attrs[POD_IP := ipRef];
      }
      assert attrs == SiteBaseAttrs(t);
      SetServiceVars(meta, c, namespace, podName, attrs);
      RunThree(e0, IfSet(ENV_CONTAINER, t.containerName), DownwardEdits(t), ServiceEdits(t));
      var id := InstanceId(meta, namespace, podName, c.name);
      if id != "" {
        attrs := attrs[INSTANCE_ID := id];
      }
      attrs := AddAnnotationAttrs(meta.annotations, attrs);
    }

    method PlaceDownwardVars(meta: ObjectMeta, c: LiveContainer)
      returns (namespace: string, podName: string, nodeRef: string, ipRef: string)
      modifies c`env
      ensures c.env == Run(old(c.env), DownwardEdits(SiteOf(cfg, meta, c.Value())))
      ensures namespace == Reference(ENV_NAMESPACE) && podName == Reference(ENV_POD_NAME) && nodeRef == Reference(ENV_NODE)
      ensures cfg.resources.addPodIP ==> ipRef == Reference(ENV_POD_IP)
    {
      ghost var e0 := c.env;
      namespace := SetEnvVarFromFieldPath(c, ENV_NAMESPACE, "metadata.namespace");
      podName := SetEnvVarFromFieldPath(c, ENV_POD_NAME, "metadata.name");
      nodeRef := SetEnvVarFromFieldPath(c, ENV_NODE, "spec.nodeName");
      RunThree(e0, PlaceOne(ENV_NAMESPACE, "metadata.namespace"), PlaceOne(ENV_POD_NAME, "metadata.name"), PlaceOne(ENV_NODE, "spec.nodeName"));
      ipRef := "";
      if cfg.resources.addPodIP {
        ipRef := SetEnvVarFromFieldPath(c, ENV_POD_IP, "status.podIP");
      }
      if cfg.resources.addUIDs {
        var _ := SetEnvVarFromFieldPath(c, ENV_POD_UID, "metadata.uid");
      }
      RunThree(e0, CoreDownward(),
        if cfg.resources.addPodIP then PlaceOne(ENV_POD_IP, "status.podIP") else [],
        if cfg.resources.addUIDs then PlaceOne(ENV_POD_UID, "metadata.uid") else []);
    }

    method SetServiceVars(meta: ObjectMeta, c: LiveContainer, namespace: string, podName: string, attrs: Attrs)
      requires namespace == Reference(ENV_NAMESPACE) && podName == Reference(ENV_POD_NAME)
      requires attrs == SiteBaseAttrs(SiteOf(cfg, meta, c.Value()))
      modifies c`env
      ensures c.env == Run(old(c.env), ServiceEdits(SiteOf(cfg, meta, c.Value())))
    {
      ghost var t := SiteOf(cfg, meta, c.Value());
      ghost var e0 := c.env;
      SetEnvVar(c, ENV_SERVICE_NAMESPACE, ServiceNamespace(meta, cfg.resources.useLabels, namespace));
      SetEnvVar(c, ENV_SERVICE_NAME, ServiceName(meta, cfg.resources.useLabels, podName, attrs));
      SetEnvVar(c, ENV_SERVICE_VERSION, ServiceVersion(meta, cfg.resources.useLabels, c.imageVersion));
      RunThree(e0, IfSet(ENV_SERVICE_NAMESPACE, SiteNamespace(t)), IfSet(ENV_SERVICE_NAME, SiteServiceName(t)), IfSet(ENV_SERVICE_VERSION, SiteVersion(t)));
    }

    method RenderAttrs(attrs: Attrs) returns (r: string)
      ensures r == Render(attrs)
    {
      var keys := SortKeys(attrs.Keys);
      ghost var items := SortedItems(attrs);
      hide *;
      var list: seq<string> := [];
      var i := 0;
      while i < |keys|
        invariant 0 <= i <= |keys| == |items|
        invariant list == items[..i]
      {
        ItemAt(attrs, i);
        list := list + [keys[i] + "=" + attrs[keys[i]]];
        PrefixSnoc(items, i);
        i := i + 1;
      }
      assert items[..i] == items;
      RenderIsJoin(attrs);
      r := Join(list, ',');
    }

    method InjectEnvVars(attrs: Attrs, c: LiveContainer)
      modifies c`env
      ensures attrs == map[] ==> c.env == old(c.env)
      ensures attrs != map[] ==> c.env == Run(old(c.env), [Append(Render(attrs))])
    {
      if |attrs| == 0 {
        assert attrs == map[];
        return;
      }
      var perPod := RenderAttrs(attrs);
      RenderIsNotEmpty(attrs);
      AppendPerPod(c, perPod);
    }

    method AppendPerPod(c: LiveContainer, perPod: string)
      requires perPod != ""
      modifies c`env
      ensures c.env == Run(old(c.env), [Append(perPod)])
    {
      var pos := IndexOf(c.env, ATTRS);
      if pos < |c.env| && c.env[pos].value != "" {
        c.env := c.env[pos := c.env[pos].(value := c.env[pos].value + "," + perPod)];
        assert c.env == Extend(old(c.env), perPod);
      } else {
        SetEnvVar(c, ATTRS, perPod);
        assert c.env == Extend(old(c.env), perPod);
      }
    }

    method ConfigureContainerEnvVars(meta: ObjectMeta, c: LiveContainer, spanMetricsSkip: bool)
      modifies c`env
      ensures var t := SiteOf(cfg, meta, c.Value());
        c.env == Run(old(c.env), IdentityEdits(t) + [Append(Render(AllAttrs(t, spanMetricsSkip)))])
    {
      ghost var t := SiteOf(cfg, meta, c.Value());
      ghost var e0 := c.env;
      var attrs := SetResourceAttributes(meta, c);
      if spanMetricsSkip {
        attrs := attrs[SKIP_SPAN_METRICS := "true"];
      }
      assert attrs == AllAttrs(t, spanMetricsSkip) && NODE_NAME in attrs;
      InjectEnvVars(attrs, c);
      RunConcat(e0, IdentityEdits(t), [Append(Render(attrs))]);
    }

    method CanInstrument(kind: Language) returns (r: bool)
      ensures r <==> kind in cfg.enabledSDKs
    {
      var i := 0;
      while i < |cfg.enabledSDKs|
        invariant 0 <= i <= |cfg.enabledSDKs|
        invariant kind !in cfg.enabledSDKs[..i]
      {
        if cfg.enabledSDKs[i] == kind {
          return true;
        }
        i := i + 1;
      }
      return false;
    }

    method DisableUndesiredSDKs(c: LiveContainer)
      modifies c`env
      ensures c.env == Run(old(c.env), BlankEdits(cfg))
    {
      ghost var e0 := c.env;
      var i := 0;
      while i < |SUPPORTED|
        invariant 0 <= i <= |SUPPORTED|
        invariant c.env == Run(e0, BlankPrefix(cfg, i))
      {
        var can := CanInstrument(SUPPORTED[i]);
        RunConcat(e0, BlankPrefix(cfg, i), BlankIfDisabled(cfg, SUPPORTED[i], AgentPath(SUPPORTED[i])));
        if !can {
          SetEnvVarEvenIfEmpty(c, AgentPath(SUPPORTED[i]), "");
        }
        i := i + 1;
      }
      AllBlanks(cfg);
    }

    method SetFixedVars(c: LiveContainer)
      modifies c`env
      ensures c.env == Run(old(c.env), FixedEdits(cfg))
    {
      ghost var e0 := c.env;
      SetEnvVar(c, LD_PRELOAD, LD_PRELOAD_VALUE);
      SetEnvVar(c, CONFIG_FILE, CONFIG_FILE_VALUE);
      SetEnvVar(c, SEMCONV, "http");
      if cfg.debug {
        SetEnvVar(c, LOG_LEVEL, "debug");
      }
      FixedValuesAreSet();
      RunFour(e0, Always(LD_PRELOAD, LD_PRELOAD_VALUE), Always(CONFIG_FILE, CONFIG_FILE_VALUE), Always(SEMCONV, "http"),
        if cfg.debug then Always(LOG_LEVEL, "debug") else []);
    }

    method AddEnvVars(meta: ObjectMeta, c: LiveContainer, ruleEnv: seq<EnvVar>, spanMetricsSkip: bool)
      modifies c`env
      ensures c.env == Rewritten(old(c.env), SiteOf(cfg, meta, c.Value()), ruleEnv, spanMetricsSkip)
    {
      ghost var t := SiteOf(cfg, meta, c.Value());
      ghost var e0 := c.env;
      ApplyEnvVars(c, ruleEnv);
      SetFixedVars(c);
      ConfigureContainerEnvVars(meta, c, spanMetricsSkip);
      DisableUndesiredSDKs(c);
      RewrittenInSteps(e0, t, ruleEnv, spanMetricsSkip);
    }

    method AddMount(c: LiveContainer)
      modifies c`mounts
      ensures c.mounts == Upsert(old(c.mounts), MountKey, MOUNT)
    {
      var idx := IndexBy(c.mounts, MountKey, VOLUME_NAME);
      if idx == |c.mounts| {
        c.mounts := c.mounts + [VolumeMount(VOLUME_NAME, MOUNT_PATH, true)];
      } else {
        c.mounts := c.mounts[idx := VolumeMount(VOLUME_NAME, MOUNT_PATH, true)];
      }
    }

    method InstrumentContainer(meta: ObjectMeta, c: LiveContainer, ruleEnv: seq<EnvVar>, spanMetricsSkip: bool)
      modifies c
      ensures c.Value() == Instrumented(cfg, meta, old(c.Value()), ruleEnv, spanMetricsSkip)
    {
      AddMount(c);
      AddEnvVars(meta, c, ruleEnv, spanMetricsSkip);
    }
  }

  lemma ItemAt(attrs: Attrs, i: nat)
    requires i < |Sorted(attrs.Keys)|
    ensures Sorted(attrs.Keys)[i] in attrs
    ensures SortedItems(attrs)[i] == Sorted(attrs.Keys)[i] + "=" + attrs[Sorted(attrs.Keys)[i]]
  {
    assert Sorted(attrs.Keys)[i] in Sorted(attrs.Keys);
  }

  lemma RenderIsJoin(attrs: Attrs)
    ensures Render(attrs) == Join(SortedItems(attrs), ',')
  {
  }

  lemma PrefixSnoc<T>(s: seq<T>, i: nat)
    requires i < |s|
    ensures s[..i + 1] == s[..i] + [s[i]]
  {
  }

  const SUPPORTED: seq<Language> := [Dotnet, Java, Nodejs, Python]

  /** The variable that holds a language's agent path. */
  function AgentPath(lang: Language): string {
    match lang
    case Dotnet => DOTNET_PATH
    case Java => JAVA_PATH
    case Nodejs => NODEJS_PATH
    case Python => PYTHON_PATH
    case OtherLanguage => ""
  }

  function BlankPrefix(cfg: SDKInject, n: nat): seq<Edit>
    requires n <= |SUPPORTED|
  {
    if n == 0 then []
    else BlankPrefix(cfg, n - 1) + BlankIfDisabled(cfg, SUPPORTED[n - 1], AgentPath(SUPPORTED[n - 1]))
  }

  lemma AllBlanks(cfg: SDKInject)
    ensures BlankPrefix(cfg, |SUPPORTED|) == BlankEdits(cfg)
  {
    var d := BlankIfDisabled(cfg, Dotnet, DOTNET_PATH);
    assert BlankPrefix(cfg, 1) == [] + d == d;
    assert BlankPrefix(cfg, 2) == d + BlankIfDisabled(cfg, Java, JAVA_PATH);
    assert BlankPrefix(cfg, 3) == BlankPrefix(cfg, 2) + BlankIfDisabled(cfg, Nodejs, NODEJS_PATH);
  }

  lemma FixedValuesAreSet()
    ensures LD_PRELOAD_VALUE != "" && CONFIG_FILE_VALUE != ""
  {
  }

  lemma RewrittenInSteps(env: seq<EnvVar>, t: Site, ruleEnv: seq<EnvVar>, spanMetrics: bool)
    ensures Rewritten(env, t, ruleEnv, spanMetrics) ==
      Run(Run(Run(Run(env, RuleEdits(ruleEnv)), FixedEdits(t.cfg)),
        IdentityEdits(t) + [Append(Render(AllAttrs(t, spanMetrics)))]), BlankEdits(t.cfg))
  {
    var r, f, i, b := RuleEdits(ruleEnv), FixedEdits(t.cfg), IdentityEdits(t), BlankEdits(t.cfg);
    var a := [Append(Render(AllAttrs(t, spanMetrics)))];
    Reassociate(r, f, i, a);
    RunFour(env, r, f, i + a, b);
  }

  lemma Reassociate(r: seq<Edit>, f: seq<Edit>, i: seq<Edit>, a: seq<Edit>)
    ensures r + f + (i + a) == r + f + i + a
  {
  }

  lemma RunThree(env: seq<EnvVar>, a: seq<Edit>, b: seq<Edit>, c: seq<Edit>)
    ensures Run(env, a + b + c) == Run(Run(Run(env, a), b), c)
  {
    RunConcat(env, a, b);
    RunConcat(env, a + b, c);
  }

  lemma RunFour(env: seq<EnvVar>, a: seq<Edit>, b: seq<Edit>, c: seq<Edit>, d: seq<Edit>)
    ensures Run(env, a + b + c + d) == Run(Run(Run(Run(env, a), b), c), d)
  {
    RunThree(env, a, b, c);
    RunConcat(env, a + b + c, d);
  }
}
