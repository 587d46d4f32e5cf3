/** What the process sees of the references the injector puts into the combined attributes. */
module EnvSeen {
  import opened Kube
  import opened Strings
  import opened Config
  import opened EnvList
  import opened Attributes
  import opened Expansion
  import opened Swallowing
  import opened EnvRewrite
  import opened EnvOutcome
  import opened EnvService

  // ---- where an attribute stands in the joined value

  function PositionOf(s: seq<string>, x: string): (i: nat)
    requires x in s
    ensures i < |s| && s[i] == x
  {
    if s[0] == x then 0 else 1 + PositionOf(s[1..], x)
  }

  /** The part that holds an attribute: the static text comes first, then the attributes in key order. */
  ghost function PartOf(env: seq<EnvVar>, t: Site, ruleEnv: seq<EnvVar>, spanMetrics: bool, key: string): nat
    requires key in AllAttrs(t, spanMetrics)
  {
    |Parts(env, t, ruleEnv, spanMetrics)| - |SortedItems(AllAttrs(t, spanMetrics))| + PositionOf(Sorted(AllAttrs(t, spanMetrics).Keys), key)
  }

  lemma PartHoldsItem(env: seq<EnvVar>, t: Site, ruleEnv: seq<EnvVar>, spanMetrics: bool, key: string)
    requires key in AllAttrs(t, spanMetrics)
    ensures var i := PartOf(env, t, ruleEnv, spanMetrics, key);
      && i < |Parts(env, t, ruleEnv, spanMetrics)|
      && Parts(env, t, ruleEnv, spanMetrics)[i] == Item(key, AllAttrs(t, spanMetrics)[key])
  {
    var m := AllAttrs(t, spanMetrics);
    var items, pos := SortedItems(m), PositionOf(Sorted(m.Keys), key);
    assert items[pos] == Item(key, m[key]);
  }

  // ---- the names in scope

  predicate AreProper(vars: seq<EnvVar>) {
    forall i :: 0 <= i < |vars| ==> !HasChar(vars[i].name, '=')
  }

  /** No variable of the author, the rule or the surroundings has an `=` in its name. */
  predicate HasProperNames(env: seq<EnvVar>, ruleEnv: seq<EnvVar>, base: map<string, string>) {
    AreProper(env) && AreProper(ruleEnv) && ProperNames(base.Keys)
  }

  const FIXED_NAMES: set<string> := {LD_PRELOAD, CONFIG_FILE, SEMCONV, LOG_LEVEL, ENV_CONTAINER, ATTRS}
  const FIELD_NAMES: set<string> := {ENV_NAMESPACE, ENV_POD_NAME, ENV_NODE, ENV_POD_IP, ENV_POD_UID}
  const SERVICE_NAMES: set<string> := {ENV_SERVICE_NAMESPACE, ENV_SERVICE_NAME, ENV_SERVICE_VERSION}
  const PATH_NAMES: set<string> := {DOTNET_PATH, JAVA_PATH, NODEJS_PATH, PYTHON_PATH}

  lemma FixedNamesAreProper()
    ensures ProperNames(FIXED_NAMES)
  {
    assert !HasChar(LD_PRELOAD, '=') && !HasChar(CONFIG_FILE, '=') && !HasChar(SEMCONV, '=');
    assert !HasChar(LOG_LEVEL, '=') && !HasChar(ENV_CONTAINER, '=') && !HasChar(ATTRS, '=');
    hide HasChar;
  }

  lemma FieldNamesAreProper()
    ensures ProperNames(FIELD_NAMES)
  {
    assert !HasChar(ENV_NAMESPACE, '=') && !HasChar(ENV_POD_NAME, '=') && !HasChar(ENV_NODE, '=');
    assert !HasChar(ENV_POD_IP, '=') && !HasChar(ENV_POD_UID, '=');
    hide HasChar;
  }

  lemma OtherNamesAreProper()
    ensures ProperNames(SERVICE_NAMES)
  {
    assert !HasChar(ENV_SERVICE_NAMESPACE, '=') && !HasChar(ENV_SERVICE_NAME, '=') && !HasChar(ENV_SERVICE_VERSION, '=');
    hide HasChar;
  }

  lemma NotInEither(a: string, b: string, c: char)
    ensures HasChar(a + b, c) <==> HasChar(a, c) || HasChar(b, c)
  {
    assert forall i | 0 <= i < |a| :: (a + b)[i] == a[i];
    assert forall i | 0 <= i < |b| :: (a + b)[|a| + i] == b[i];
  }

  lemma DotnetPathIsProper()
    ensures !HasChar(DOTNET_PATH, '=')
  {
    NotInEither("DOTNET_AUTO_INSTRUMENTATION_", "AGENT_PATH_PREFIX", '=');
  }

  lemma JavaPathIsProper()
    ensures !HasChar(JAVA_PATH, '=')
  {
    NotInEither("JVM_AUTO_INSTRUMENTATION_", "AGENT_PATH", '=');
  }

  lemma PythonPathIsProper()
    ensures !HasChar(PYTHON_PATH, '=')
  {
    NotInEither("PYTHON_AUTO_INSTRUMENTATION_", "AGENT_PATH_PREFIX", '=');
  }

  lemma PathNamesAreProper()
    ensures ProperNames(PATH_NAMES)
  {
    assert !HasChar(NODEJS_PATH, '=');
    DotnetPathIsProper();
    JavaPathIsProper();
    PythonPathIsProper();
    hide HasChar;
  }

  lemma FixedLayerNames(cfg: SDKInject)
    ensures FixedLayer(cfg).Keys <= {LD_PRELOAD, CONFIG_FILE, SEMCONV, LOG_LEVEL}
  {
    OneKeys(LD_PRELOAD, LD_PRELOAD_VALUE);
    OneKeys(CONFIG_FILE, CONFIG_FILE_VALUE);
    OneKeys(SEMCONV, "http");
    OneKeys(LOG_LEVEL, "debug");
  }

  lemma {:induction false} LastNamedIsThere(vars: seq<EnvVar>, name: string)
    ensures LastNamed(vars, name).Some? ==> exists i :: 0 <= i < |vars| && vars[i].name == name
  {
    if vars != [] && vars[|vars| - 1].name != name {
      LastNamedIsThere(vars[..|vars| - 1], name);
    }
  }

  lemma LayerNames(t: Site)
    ensures BlankLayer(t.cfg).Keys <= PATH_NAMES && FixedLayer(t.cfg).Keys <= FIXED_NAMES
    ensures IdentityLayer(t).Keys <= FIXED_NAMES + FIELD_NAMES + SERVICE_NAMES
  {
    hide BlankLayer, FixedLayer, IdentityLayer, ServiceLayer;
    BlankLayerNames(t.cfg);
    FixedLayerNames(t.cfg);
    IdentityLayerNames(t);
    ServiceLayerNames(t);
  }

  /** A name in the rewritten list comes from the injector, the rule or the author. */
  lemma RewrittenNameComesFrom(env: seq<EnvVar>, t: Site, ruleEnv: seq<EnvVar>, spanMetrics: bool, n: string)
    requires Has(Rewritten(env, t, ruleEnv, spanMetrics), n)
    ensures n in FIXED_NAMES + FIELD_NAMES + SERVICE_NAMES + PATH_NAMES || LastNamed(ruleEnv, n).Some? || Has(env, n)
  {
    hide Rewritten, FixedLayer, BlankLayer, IdentityLayer;
    if n != ATTRS {
      LayeredOverride(env, t, ruleEnv, spanMetrics, n);
      LayerNames(t);
    }
  }

  lemma RewrittenNameIsProper(env: seq<EnvVar>, t: Site, ruleEnv: seq<EnvVar>, spanMetrics: bool, n: string)
    requires AreProper(env) && AreProper(ruleEnv) && Has(Rewritten(env, t, ruleEnv, spanMetrics), n)
    ensures !HasChar(n, '=')
  {
    hide HasChar, Rewritten;
    RewrittenNameComesFrom(env, t, ruleEnv, spanMetrics, n);
    FixedNamesAreProper();
    FieldNamesAreProper();
    OtherNamesAreProper();
    PathNamesAreProper();
    LastNamedIsThere(ruleEnv, n);
    if Has(env, n) {
      assert env[IndexOf(env, n)].name == n;
    }
  }

  lemma ScopeIsProper(env: seq<EnvVar>, t: Site, ruleEnv: seq<EnvVar>, spanMetrics: bool, base: map<string, string>, resolve: Resolver)
    requires HasProperNames(env, ruleEnv, base)
    ensures ProperNames(Scope(env, t, ruleEnv, spanMetrics, base, resolve).Keys)
  {
    hide Rewritten, HasChar;
    var r := Rewritten(env, t, ruleEnv, spanMetrics);
    var before := r[..IndexOf(r, ATTRS)];
    forall n | n in Scope(env, t, ruleEnv, spanMetrics, base, resolve) ensures !HasChar(n, '=') {
      if n !in base {
        if forall i :: 0 <= i < |before| ==> before[i].name != n {
          UndeclaredStaysOut(before, base, resolve, n);
          assert false;
        } else {
          var i :| 0 <= i < |before| && before[i].name == n;
          assert r[i].name == n;
          RewrittenNameIsProper(env, t, ruleEnv, spanMetrics, n);
        }
      }
    }
  }

  // ---- one item

  ghost function SeenAttrs(env: seq<EnvVar>, t: Site, ruleEnv: seq<EnvVar>, spanMetrics: bool,
      base: map<string, string>, resolve: Resolver): string
  {
    Get(Environment(Rewritten(env, t, ruleEnv, spanMetrics), base, resolve), ATTRS)
  }

  /** The text in front of an attribute: the static text and the attributes that sort before it. */
  ghost function TextBefore(env: seq<EnvVar>, t: Site, ruleEnv: seq<EnvVar>, spanMetrics: bool, key: string): string
    requires key in AllAttrs(t, spanMetrics)
  {
    PartHoldsItem(env, t, ruleEnv, spanMetrics, key);
    Lead(Parts(env, t, ruleEnv, spanMetrics), PartOf(env, t, ruleEnv, spanMetrics, key))
  }

  /** The reference of an attribute `key=$(n)more` is seen resolved, in its place. */
  ghost predicate IsSeenResolved(env: seq<EnvVar>, t: Site, ruleEnv: seq<EnvVar>, spanMetrics: bool,
      base: map<string, string>, resolve: Resolver, key: string, n: string, more: string)
    requires key in AllAttrs(t, spanMetrics)
  {
    PartHoldsItem(env, t, ruleEnv, spanMetrics, key);
    SeenAttrs(env, t, ruleEnv, spanMetrics, base, resolve)
      == ResolvedAt(Parts(env, t, ruleEnv, spanMetrics), PartOf(env, t, ruleEnv, spanMetrics, key), key + "=",
           FieldValue(resolve, n), more, Scope(env, t, ruleEnv, spanMetrics, base, resolve))
  }

  /** It is seen as it was written, swallowed by text in front of it. */
  ghost predicate IsSeenAsWritten(env: seq<EnvVar>, t: Site, ruleEnv: seq<EnvVar>, spanMetrics: bool,
      base: map<string, string>, resolve: Resolver, key: string, n: string, more: string)
    requires key in AllAttrs(t, spanMetrics)
  {
    PartHoldsItem(env, t, ruleEnv, spanMetrics, key);
    && Open(TextBefore(env, t, ruleEnv, spanMetrics, key))
    && SeenAttrs(env, t, ruleEnv, spanMetrics, base, resolve)
      == UnresolvedAt(Parts(env, t, ruleEnv, spanMetrics), PartOf(env, t, ruleEnv, spanMetrics, key), key + "=", n, more,
           Scope(env, t, ruleEnv, spanMetrics, base, resolve))
  }

  /** The attribute is `key=$(n)more` with `n` a field variable of the injector. */
  ghost predicate IsReferenceTo(t: Site, spanMetrics: bool, key: string, n: string, more: string) {
    && n in DownwardNames(t.cfg) && !HasChar(n, ')') && !HasChar(key, '$') && !HasChar(key, ')')
    && key in AllAttrs(t, spanMetrics) && AllAttrs(t, spanMetrics)[key] == Reference(n) + more
  }

  lemma ClosedAttributeSeen(env: seq<EnvVar>, t: Site, ruleEnv: seq<EnvVar>, spanMetrics: bool,
      base: map<string, string>, resolve: Resolver, key: string, n: string, more: string)
    requires Unique(env) && FieldsResolve(t.cfg, resolve) && IsReferenceTo(t, spanMetrics, key, n, more)
    requires !Open(TextBefore(env, t, ruleEnv, spanMetrics, key))
    ensures IsSeenResolved(env, t, ruleEnv, spanMetrics, base, resolve, key, n, more)
  {
    var parts, i := Parts(env, t, ruleEnv, spanMetrics), PartOf(env, t, ruleEnv, spanMetrics, key);
    hide Rewritten, Parts, PartOf, AllAttrs, Scope, Expand, Environment, ResolvedAt, Reference, Open, Lead, IsHead, HasChar,
      DownwardNames, FieldValue, FieldsResolve, Unique, Join;
    PartIsItem(env, t, ruleEnv, spanMetrics, key, n, more);
    SeenIsExpansion(env, t, ruleEnv, spanMetrics, base, resolve);
    DownwardInScope(env, t, ruleEnv, spanMetrics, base, resolve, n);
    ClosedItemSeen(parts, i, key + "=", n, more, Scope(env, t, ruleEnv, spanMetrics, base, resolve));
  }

  lemma OpenAttributeSeen(env: seq<EnvVar>, t: Site, ruleEnv: seq<EnvVar>, spanMetrics: bool,
      base: map<string, string>, resolve: Resolver, key: string, n: string, more: string)
    requires Unique(env) && HasProperNames(env, ruleEnv, base) && IsReferenceTo(t, spanMetrics, key, n, more)
    requires Open(TextBefore(env, t, ruleEnv, spanMetrics, key))
    ensures IsSeenAsWritten(env, t, ruleEnv, spanMetrics, base, resolve, key, n, more)
    ensures !HasChar(FieldValue(resolve, n), ')') ==> !IsSeenResolved(env, t, ruleEnv, spanMetrics, base, resolve, key, n, more)
  {
    var parts, i := Parts(env, t, ruleEnv, spanMetrics), PartOf(env, t, ruleEnv, spanMetrics, key);
    var ctx := Scope(env, t, ruleEnv, spanMetrics, base, resolve);
    hide Rewritten, Parts, PartOf, AllAttrs, Scope, Expand, Environment, ResolvedAt, UnresolvedAt, Reference, Open, Lead, IsHead,
      HasChar, DownwardNames, FieldValue, HasProperNames, Unique, Join, Kept;
    PartIsItem(env, t, ruleEnv, spanMetrics, key, n, more);
    SeenIsExpansion(env, t, ruleEnv, spanMetrics, base, resolve);
    ScopeIsProper(env, t, ruleEnv, spanMetrics, base, resolve);
    OpenItemSeen(parts, i, key + "=", n, more, ctx);
    if !HasChar(FieldValue(resolve, n), ')') {
      UnresolvedDiffers(parts, i, key + "=", n, FieldValue(resolve, n), more, ctx);
    }
  }

  lemma AttributeSeen(env: seq<EnvVar>, t: Site, ruleEnv: seq<EnvVar>, spanMetrics: bool,
      base: map<string, string>, resolve: Resolver, key: string, n: string, more: string)
    requires Unique(env) && FieldsResolve(t.cfg, resolve) && HasProperNames(env, ruleEnv, base)
    requires IsReferenceTo(t, spanMetrics, key, n, more) && !HasChar(FieldValue(resolve, n), ')')
    ensures ATTRS in Environment(Rewritten(env, t, ruleEnv, spanMetrics), base, resolve)
    ensures IsSeenResolved(env, t, ruleEnv, spanMetrics, base, resolve, key, n, more)
      <==> !Open(TextBefore(env, t, ruleEnv, spanMetrics, key))
    ensures Open(TextBefore(env, t, ruleEnv, spanMetrics, key))
      ==> IsSeenAsWritten(env, t, ruleEnv, spanMetrics, base, resolve, key, n, more)
  {
    hide IsSeenResolved, IsSeenAsWritten, TextBefore, Open, AllAttrs, HasChar, Environment;
    SeenIsExpansion(env, t, ruleEnv, spanMetrics, base, resolve);
    if Open(TextBefore(env, t, ruleEnv, spanMetrics, key)) {
      OpenAttributeSeen(env, t, ruleEnv, spanMetrics, base, resolve, key, n, more);
    } else {
      ClosedAttributeSeen(env, t, ruleEnv, spanMetrics, base, resolve, key, n, more);
    }
  }

  lemma SeenIsExpansion(env: seq<EnvVar>, t: Site, ruleEnv: seq<EnvVar>, spanMetrics: bool, base: map<string, string>, resolve: Resolver)
    requires Unique(env)
    ensures ATTRS in Environment(Rewritten(env, t, ruleEnv, spanMetrics), base, resolve)
    ensures SeenAttrs(env, t, ruleEnv, spanMetrics, base, resolve)
      == Expand(Join(Parts(env, t, ruleEnv, spanMetrics), ','), Scope(env, t, ruleEnv, spanMetrics, base, resolve))
  {
    hide Rewritten, Parts, Scope, Expand, Environment, Separable, ParseEach, ExpandEach;
    CombinedAttributesExpand(env, t, ruleEnv, spanMetrics, base, resolve);
  }

  lemma PartIsItem(env: seq<EnvVar>, t: Site, ruleEnv: seq<EnvVar>, spanMetrics: bool, key: string, n: string, more: string)
    requires !HasChar(n, ')') && !HasChar(key, '$') && !HasChar(key, ')')
    requires key in AllAttrs(t, spanMetrics) && AllAttrs(t, spanMetrics)[key] == Reference(n) + more
    ensures IsItem(Parts(env, t, ruleEnv, spanMetrics), PartOf(env, t, ruleEnv, spanMetrics, key), key + "=", n, more)
  {
    hide Parts, PartOf, AllAttrs, Reference, IsHead;
    PartHoldsItem(env, t, ruleEnv, spanMetrics, key);
    HeadOfKey(key);
    assert Item(key, Reference(n) + more) == key + "=" + Reference(n) + more;
  }

  lemma HeadOfKey(key: string)
    requires !HasChar(key, '$') && !HasChar(key, ')')
    ensures IsHead(key + "=")
  {
    var h := key + "=";
    assert h[|key|] == '=';
    assert forall i | 0 <= i < |h| :: h[i] == if i < |key| then key[i] else '=';
  }

  lemma PlainKeys()
    ensures !HasChar(NODE_NAME, '$') && !HasChar(NODE_NAME, ')')
    ensures !HasChar(POD_IP, '$') && !HasChar(POD_IP, ')')
    ensures !HasChar(INSTANCE_ID, '$') && !HasChar(INSTANCE_ID, ')')
  {
  }

  /** What follows the namespace in the instance id. */
  function IdTail(t: Site): string {
    "." + (Reference(ENV_POD_NAME) + ("." + t.containerName))
  }

  lemma NodeIsReference(t: Site, spanMetrics: bool)
    requires ANNOTATION_PREFIX + NODE_NAME !in t.meta.annotations
    ensures IsReferenceTo(t, spanMetrics, NODE_NAME, ENV_NODE, "")
  {
    NodeIsPlaced(t.cfg);
    PlainNames(t.cfg);
    PlainKeys();
    NodeItemText(t, spanMetrics);
    assert Reference(ENV_NODE) + "" == Reference(ENV_NODE);
  }

  lemma PodIPIsReference(t: Site, spanMetrics: bool)
    requires t.cfg.resources.addPodIP && ANNOTATION_PREFIX + POD_IP !in t.meta.annotations
    ensures IsReferenceTo(t, spanMetrics, POD_IP, ENV_POD_IP, "")
  {
    NodeIsPlaced(t.cfg);
    PlainNames(t.cfg);
    PlainKeys();
    PodIPItemText(t, spanMetrics);
    assert Reference(ENV_POD_IP) + "" == Reference(ENV_POD_IP);
  }

  lemma IdIsReference(t: Site, spanMetrics: bool)
    requires t.containerName != "" && ANNOTATION_PREFIX + INSTANCE_ID !in t.meta.annotations
    ensures IsReferenceTo(t, spanMetrics, INSTANCE_ID, ENV_NAMESPACE, IdTail(t))
  {
    NodeIsPlaced(t.cfg);
    PlainInstanceNames();
    PlainKeys();
    InstanceIdText(t, spanMetrics);
  }

  /**
   The process sees the node's name in the combined attributes, between its neighbours, exactly when
   the text in front of that attribute closes every reference it opens; otherwise it sees the reference.
   */
  lemma NodeReferenceSeen(env: seq<EnvVar>, t: Site, ruleEnv: seq<EnvVar>, spanMetrics: bool,
      base: map<string, string>, resolve: Resolver)
    requires Unique(env) && FieldsResolve(t.cfg, resolve) && HasProperNames(env, ruleEnv, base)
    requires ANNOTATION_PREFIX + NODE_NAME !in t.meta.annotations && !HasChar(FieldValue(resolve, ENV_NODE), ')')
    ensures IsSeenResolved(env, t, ruleEnv, spanMetrics, base, resolve, NODE_NAME, ENV_NODE, "")
      <==> !Open(TextBefore(env, t, ruleEnv, spanMetrics, NODE_NAME))
    ensures Open(TextBefore(env, t, ruleEnv, spanMetrics, NODE_NAME))
      ==> IsSeenAsWritten(env, t, ruleEnv, spanMetrics, base, resolve, NODE_NAME, ENV_NODE, "")
  {
    NodeIsReference(t, spanMetrics);
    AttributeSeen(env, t, ruleEnv, spanMetrics, base, resolve, NODE_NAME, ENV_NODE, "");
  }

  /** The same for the pod's address, when enabled. */
  lemma PodIPReferenceSeen(env: seq<EnvVar>, t: Site, ruleEnv: seq<EnvVar>, spanMetrics: bool,
      base: map<string, string>, resolve: Resolver)
    requires Unique(env) && FieldsResolve(t.cfg, resolve) && HasProperNames(env, ruleEnv, base) && t.cfg.resources.addPodIP
    requires ANNOTATION_PREFIX + POD_IP !in t.meta.annotations && !HasChar(FieldValue(resolve, ENV_POD_IP), ')')
    ensures POD_IP in AllAttrs(t, spanMetrics)
    ensures IsSeenResolved(env, t, ruleEnv, spanMetrics, base, resolve, POD_IP, ENV_POD_IP, "")
      <==> !Open(TextBefore(env, t, ruleEnv, spanMetrics, POD_IP))
    ensures Open(TextBefore(env, t, ruleEnv, spanMetrics, POD_IP))
      ==> IsSeenAsWritten(env, t, ruleEnv, spanMetrics, base, resolve, POD_IP, ENV_POD_IP, "")
  {
    PodIPIsReference(t, spanMetrics);
    AttributeSeen(env, t, ruleEnv, spanMetrics, base, resolve, POD_IP, ENV_POD_IP, "");
  }

  /** The same for the namespace that begins the instance id. */
  lemma InstanceIdReferenceSeen(env: seq<EnvVar>, t: Site, ruleEnv: seq<EnvVar>, spanMetrics: bool,
      base: map<string, string>, resolve: Resolver)
    requires Unique(env) && FieldsResolve(t.cfg, resolve) && HasProperNames(env, ruleEnv, base) && t.containerName != ""
    requires ANNOTATION_PREFIX + INSTANCE_ID !in t.meta.annotations && !HasChar(FieldValue(resolve, ENV_NAMESPACE), ')')
    ensures INSTANCE_ID in AllAttrs(t, spanMetrics)
    ensures IsSeenResolved(env, t, ruleEnv, spanMetrics, base, resolve, INSTANCE_ID, ENV_NAMESPACE, IdTail(t))
      <==> !Open(TextBefore(env, t, ruleEnv, spanMetrics, INSTANCE_ID))
    ensures Open(TextBefore(env, t, ruleEnv, spanMetrics, INSTANCE_ID))
      ==> IsSeenAsWritten(env, t, ruleEnv, spanMetrics, base, resolve, INSTANCE_ID, ENV_NAMESPACE, IdTail(t))
  {
    IdIsReference(t, spanMetrics);
    AttributeSeen(env, t, ruleEnv, spanMetrics, base, resolve, INSTANCE_ID, ENV_NAMESPACE, IdTail(t));
  }

  /** What is seen in front of the pod's name: the namespace resolved, or everything that was open as written. */
  ghost function SeenBeforePodName(env: seq<EnvVar>, t: Site, ruleEnv: seq<EnvVar>, spanMetrics: bool,
      base: map<string, string>, resolve: Resolver): string
    requires INSTANCE_ID in AllAttrs(t, spanMetrics)
  {
    PartHoldsItem(env, t, ruleEnv, spanMetrics, INSTANCE_ID);
    var parts, i := Parts(env, t, ruleEnv, spanMetrics), PartOf(env, t, ruleEnv, spanMetrics, INSTANCE_ID);
    var ctx := Scope(env, t, ruleEnv, spanMetrics, base, resolve);
    if Open(Lead(parts, i)) then Kept(Lead(parts, i), ctx) + ("," + (INSTANCE_ID + "=") + Reference(ENV_NAMESPACE))
    else LeadSeen(parts, i, ctx) + (INSTANCE_ID + "=") + FieldValue(resolve, ENV_NAMESPACE)
  }

  /** What is seen behind the container's name in the instance id. */
  ghost function SeenAfterId(env: seq<EnvVar>, t: Site, ruleEnv: seq<EnvVar>, spanMetrics: bool,
      base: map<string, string>, resolve: Resolver): string
    requires INSTANCE_ID in AllAttrs(t, spanMetrics)
  {
    PartHoldsItem(env, t, ruleEnv, spanMetrics, INSTANCE_ID);
    Expand("." + t.containerName + Trail(Parts(env, t, ruleEnv, spanMetrics), PartOf(env, t, ruleEnv, spanMetrics, INSTANCE_ID)),
      Scope(env, t, ruleEnv, spanMetrics, base, resolve))
  }

  /** The process sees the pod's name in the instance id either way: whatever was open ends at the namespace at the latest. */
  lemma PodNameInIdResolves(env: seq<EnvVar>, t: Site, ruleEnv: seq<EnvVar>, spanMetrics: bool,
      base: map<string, string>, resolve: Resolver)
    requires Unique(env) && FieldsResolve(t.cfg, resolve) && HasProperNames(env, ruleEnv, base) && t.containerName != ""
    requires ANNOTATION_PREFIX + INSTANCE_ID !in t.meta.annotations
    ensures INSTANCE_ID in AllAttrs(t, spanMetrics)
    ensures SeenAttrs(env, t, ruleEnv, spanMetrics, base, resolve)
      == SeenBeforePodName(env, t, ruleEnv, spanMetrics, base, resolve)
         + ("." + (FieldValue(resolve, ENV_POD_NAME) + SeenAfterId(env, t, ruleEnv, spanMetrics, base, resolve)))
  {
    IdIsReference(t, spanMetrics);
    PartHoldsItem(env, t, ruleEnv, spanMetrics, INSTANCE_ID);
    PodNameInTail(env, t, ruleEnv, spanMetrics, base, resolve,
      Trail(Parts(env, t, ruleEnv, spanMetrics), PartOf(env, t, ruleEnv, spanMetrics, INSTANCE_ID)));
    hide AllAttrs, Parts, PartOf, Scope, Open, Lead, LeadSeen, Kept, Trail, Expand, Reference, IdTail, SeenAttrs, FieldValue;
    if Open(TextBefore(env, t, ruleEnv, spanMetrics, INSTANCE_ID)) {
      OpenAttributeSeen(env, t, ruleEnv, spanMetrics, base, resolve, INSTANCE_ID, ENV_NAMESPACE, IdTail(t));
    } else {
      ClosedAttributeSeen(env, t, ruleEnv, spanMetrics, base, resolve, INSTANCE_ID, ENV_NAMESPACE, IdTail(t));
    }
  }

  lemma PodNameInTail(env: seq<EnvVar>, t: Site, ruleEnv: seq<EnvVar>, spanMetrics: bool,
      base: map<string, string>, resolve: Resolver, trail: string)
    requires Unique(env) && FieldsResolve(t.cfg, resolve)
    ensures var ctx := Scope(env, t, ruleEnv, spanMetrics, base, resolve);
      Expand(IdTail(t) + trail, ctx) == "." + (FieldValue(resolve, ENV_POD_NAME) + Expand("." + t.containerName + trail, ctx))
  {
    var ctx := Scope(env, t, ruleEnv, spanMetrics, base, resolve);
    var rest := "." + t.containerName + trail;
    hide Scope, Expand, Reference, IdTail, Unique;
    NodeIsPlaced(t.cfg);
    PlainInstanceNames();
    DownwardInScope(env, t, ruleEnv, spanMetrics, base, resolve, ENV_POD_NAME);
    IdTailText(t, trail);
    ExpandPlain(".", Reference(ENV_POD_NAME) + rest, ctx);
    ExpandReference(ENV_POD_NAME, rest, ctx);
  }

  lemma IdTailText(t: Site, trail: string)
    ensures IdTail(t) + trail == "." + (Reference(ENV_POD_NAME) + ("." + t.containerName + trail))
  {
  }

  // ---- when nothing is swallowed

  /** Neither the static text nor an annotation ends inside a reference, and no name of an owner or the container holds a `$`. */
  predicate IsTame(env: seq<EnvVar>, t: Site, ruleEnv: seq<EnvVar>) {
    && (StaticAttrs(env, ruleEnv).Some? ==> !Open(StaticAttrs(env, ruleEnv).value.value))
    && (forall a :: a in AnnotationAttrs(t.meta.annotations) ==> !Open(Item(a, AnnotationAttrs(t.meta.annotations)[a])))
    && (forall i :: 0 <= i < |t.meta.owners| ==> !HasChar(t.meta.owners[i].name, '$') && !HasChar(t.meta.owners[i].uid, '$'))
    && !HasChar(t.containerName, '$')
  }

  const OWNER_KEYS: set<string> := {DEPLOYMENT, REPLICASET, STATEFULSET, DAEMONSET, CRONJOB, JOB}

  lemma OwnerKeysArePlain()
    ensures forall k :: k in OWNER_KEYS ==> !HasChar(k, '$')
  {
    assert !HasChar(DEPLOYMENT, '$') && !HasChar(REPLICASET, '$') && !HasChar(STATEFULSET, '$');
    assert !HasChar(DAEMONSET, '$') && !HasChar(CRONJOB, '$') && !HasChar(JOB, '$');
    hide HasChar;
  }

  /** Owner attributes with plain text. */
  predicate ArePlainOwners(m: Attrs) {
    forall k :: k in m ==> k in OWNER_KEYS && !HasChar(m[k], '$')
  }

  lemma KindKey(kind: string)
    ensures ResourceAttribute(kind) == "" || ResourceAttribute(kind) in OWNER_KEYS
  {
    hide ToLower;
  }

  lemma {:induction false} OwnersArePlain(refs: seq<OwnerRef>)
    requires forall i :: 0 <= i < |refs| ==> !HasChar(refs[i].name, '$')
    ensures forall i :: 0 <= i < |OwnersOf(refs)| ==> !HasChar(OwnersOf(refs)[i].name, '$')
  {
    if refs != [] {
      assert forall i | 0 <= i < |refs| - 1 :: refs[1..][i] == refs[i + 1];
      OwnersArePlain(refs[1..]);
      assert !HasChar(refs[0].name, '$');
      if GuessedParent(refs[0]).Some? {
        var parent := GuessedParent(refs[0]).value;
        assert parent.name == refs[0].name[..LastIndexChar(refs[0].name, '-')];
        assert !HasChar(parent.name, '$');
      }
    }
  }

  lemma {:induction false} NamesArePlain(owners: seq<Owner>, m: Attrs)
    requires ArePlainOwners(m) && forall i :: 0 <= i < |owners| && ResourceAttribute(owners[i].kind) != "" ==> !HasChar(owners[i].name, '$')
    ensures ArePlainOwners(OwnerNames(owners, m))
    decreases |owners|
  {
    hide HasChar, ResourceAttribute;
    if owners != [] {
      var a := ResourceAttribute(owners[0].kind);
      KindKey(owners[0].kind);
      assert forall i | 0 <= i < |owners| - 1 :: owners[1..][i] == owners[i + 1];
      NamesArePlain(owners[1..], if a != "" then m[a := owners[0].name] else m);
    }
  }

  lemma {:induction false} UIDsArePlain(refs: seq<OwnerRef>, m: Attrs)
    requires ArePlainOwners(m) && forall i :: 0 <= i < |refs| ==> !HasChar(refs[i].uid, '$')
    ensures ArePlainOwners(OwnerUIDs(refs, m))
    decreases |refs|
  {
    hide HasChar, ResourceAttribute;
    if refs != [] {
      var a := ResourceAttribute(refs[0].kind);
      KindKey(refs[0].kind);
      assert forall i | 0 <= i < |refs| - 1 :: refs[1..][i] == refs[i + 1];
      UIDsArePlain(refs[1..], if a != "" then m[a := refs[0].uid] else m);
    }
  }

  lemma PodIsNoOwnerKind()
    ensures ResourceAttribute("Pod") == ""
  {
    assert ToLower("Pod") == "pod";
    assert |"replicaset"| == 10 && |"deployment"| == 10 && |"job"| == 3;
  }

  lemma ParentsArePlain(meta: ObjectMeta, includeUID: bool)
    requires forall i :: 0 <= i < |meta.owners| ==> !HasChar(meta.owners[i].name, '$') && !HasChar(meta.owners[i].uid, '$')
    ensures ArePlainOwners(ParentLabels(meta, includeUID))
  {
    hide HasChar, ResourceAttribute;
    PodIsNoOwnerKind();
    OwnersArePlain(meta.owners);
    NamesArePlain(OwnersFrom(meta), map[]);
    UIDsArePlain(meta.owners, OwnerNames(OwnersFrom(meta), map[]));
  }

  lemma PlainItemIsClosed(key: string, value: string)
    requires !HasChar(key, '$') && !HasChar(value, '$')
    ensures !Open(Item(key, value))
  {
    var s := Item(key, value);
    assert forall i | 0 <= i < |s| :: s[i] == if i < |key| then key[i] else if i == |key| then '=' else value[i - |key| - 1];
    PlainIsClosed(s);
  }

  lemma ReferenceItemIsClosed(key: string, n: string, more: string)
    requires !HasChar(key, '$') && !HasChar(n, ')') && !Open(more)
    ensures !Open(Item(key, Reference(n) + more))
  {
    var head := key + "=";
    assert forall i | 0 <= i < |head| :: head[i] == if i < |key| then key[i] else '=';
    assert Item(key, Reference(n) + more) == head + (Reference(n) + more);
    PlainThen(head, Reference(n) + more);
    ReferenceThen(n, more);
  }

  lemma IdTailIsClosed(t: Site)
    requires !HasChar(t.containerName, '$')
    ensures !Open(IdTail(t))
  {
    var c := "." + t.containerName;
    assert forall i | 0 <= i < |c| :: c[i] == if i == 0 then '.' else t.containerName[i - 1];
    PlainInstanceNames();
    PlainIsClosed(c);
    ReferenceThen(ENV_POD_NAME, c);
    PlainThen(".", Reference(ENV_POD_NAME) + c);
  }

  lemma AttributeValue(t: Site, spanMetrics: bool, k: string)
    requires k in AllAttrs(t, spanMetrics)
    ensures var v := AllAttrs(t, spanMetrics)[k];
      var given := AnnotationAttrs(t.meta.annotations);
      if k == SKIP_SPAN_METRICS && spanMetrics then v == "true"
      else if k in given then v == given[k]
      else if k == INSTANCE_ID && t.containerName != "" then v == Reference(ENV_NAMESPACE) + IdTail(t)
      else if k == POD_IP && t.cfg.resources.addPodIP then v == Reference(ENV_POD_IP)
      else if k == NODE_NAME then v == Reference(ENV_NODE)
      else k in ParentLabels(t.meta, t.cfg.resources.addUIDs) && v == ParentLabels(t.meta, t.cfg.resources.addUIDs)[k]
  {
    AttributeKeysAreDistinct();
    hide ParentLabels, Reference;
    if k == INSTANCE_ID && t.containerName != "" && k !in AnnotationAttrs(t.meta.annotations) {
      InstanceIdText(t, spanMetrics);
    } else if k !in AnnotationAttrs(t.meta.annotations) && t.containerName == "" {
      assert SiteInstanceId(t) == LabelOrAnnotation(t.meta, false, INSTANCE_ID, []) || SiteInstanceId(t) == "";
    }
  }

  lemma OwnerItemIsClosed(meta: ObjectMeta, includeUID: bool, k: string)
    requires forall i :: 0 <= i < |meta.owners| ==> !HasChar(meta.owners[i].name, '$') && !HasChar(meta.owners[i].uid, '$')
    requires k in ParentLabels(meta, includeUID)
    ensures !Open(Item(k, ParentLabels(meta, includeUID)[k]))
  {
    hide HasChar, Open, ParentLabels;
    ParentsArePlain(meta, includeUID);
    OwnerKeysArePlain();
    PlainItemIsClosed(k, ParentLabels(meta, includeUID)[k]);
  }

  lemma IdItemIsClosed(t: Site)
    requires !HasChar(t.containerName, '$')
    ensures !Open(Item(INSTANCE_ID, Reference(ENV_NAMESPACE) + IdTail(t)))
  {
    PlainInstanceNames();
    IdTailIsClosed(t);
    ReferenceItemIsClosed(INSTANCE_ID, ENV_NAMESPACE, IdTail(t));
  }

  lemma FieldItemsAreClosed(cfg: SDKInject)
    ensures !Open(Item(NODE_NAME, Reference(ENV_NODE))) && !Open(Item(POD_IP, Reference(ENV_POD_IP)))
  {
    PlainNames(cfg);
    ReferenceAloneIsClosed(NODE_NAME, ENV_NODE);
    ReferenceAloneIsClosed(POD_IP, ENV_POD_IP);
  }

  lemma SkipItemIsClosed()
    ensures !Open(Item(SKIP_SPAN_METRICS, "true"))
  {
    PlainItemIsClosed(SKIP_SPAN_METRICS, "true");
  }

  lemma TameItemIsClosed(env: seq<EnvVar>, t: Site, ruleEnv: seq<EnvVar>, spanMetrics: bool, k: string)
    requires IsTame(env, t, ruleEnv) && k in AllAttrs(t, spanMetrics)
    ensures !Open(Item(k, AllAttrs(t, spanMetrics)[k]))
  {
    AttributeValue(t, spanMetrics, k);
    hide AllAttrs, Reference, Open, IdTail, Item, HasChar, ParentLabels, StaticAttrs;
    SkipItemIsClosed();
    IdItemIsClosed(t);
    FieldItemsAreClosed(t.cfg);
    if k in ParentLabels(t.meta, t.cfg.resources.addUIDs) {
      OwnerItemIsClosed(t.meta, t.cfg.resources.addUIDs, k);
    }
  }

  lemma ReferenceAloneIsClosed(key: string, n: string)
    requires !HasChar(key, '$') && !HasChar(n, ')')
    ensures !Open(Item(key, Reference(n)))
  {
    assert Reference(n) + "" == Reference(n);
    ReferenceItemIsClosed(key, n, "");
  }

  lemma TamePartsAreClosed(env: seq<EnvVar>, t: Site, ruleEnv: seq<EnvVar>, spanMetrics: bool)
    requires IsTame(env, t, ruleEnv)
    ensures forall i :: 0 <= i < |Parts(env, t, ruleEnv, spanMetrics)| ==> !Open(Parts(env, t, ruleEnv, spanMetrics)[i])
  {
    hide Open, AllAttrs;
    var m := AllAttrs(t, spanMetrics);
    var keys, items := Sorted(m.Keys), SortedItems(m);
    forall i | 0 <= i < |items| ensures !Open(items[i]) {
      assert keys[i] in keys;
      TameItemIsClosed(env, t, ruleEnv, spanMetrics, keys[i]);
    }
  }

  lemma TameTextIsClosed(env: seq<EnvVar>, t: Site, ruleEnv: seq<EnvVar>, spanMetrics: bool, key: string)
    requires IsTame(env, t, ruleEnv) && key in AllAttrs(t, spanMetrics)
    ensures !Open(TextBefore(env, t, ruleEnv, spanMetrics, key))
  {
    hide Open, Parts, PartOf;
    PartHoldsItem(env, t, ruleEnv, spanMetrics, key);
    TamePartsAreClosed(env, t, ruleEnv, spanMetrics);
    var parts, i := Parts(env, t, ruleEnv, spanMetrics), PartOf(env, t, ruleEnv, spanMetrics, key);
    assert forall j | 0 <= j < i :: parts[..i][j] == parts[j];
    ClosedParts(parts[..i]);
  }

  /** On a tame pod every reference the injector added is seen resolved, in its place. */
  lemma TameReferencesAreSeen(env: seq<EnvVar>, t: Site, ruleEnv: seq<EnvVar>, spanMetrics: bool,
      base: map<string, string>, resolve: Resolver)
    requires Unique(env) && FieldsResolve(t.cfg, resolve) && IsTame(env, t, ruleEnv)
    ensures ANNOTATION_PREFIX + NODE_NAME !in t.meta.annotations ==>
      IsSeenResolved(env, t, ruleEnv, spanMetrics, base, resolve, NODE_NAME, ENV_NODE, "")
    ensures t.cfg.resources.addPodIP && ANNOTATION_PREFIX + POD_IP !in t.meta.annotations ==>
      && POD_IP in AllAttrs(t, spanMetrics)
      && IsSeenResolved(env, t, ruleEnv, spanMetrics, base, resolve, POD_IP, ENV_POD_IP, "")
    ensures t.containerName != "" && ANNOTATION_PREFIX + INSTANCE_ID !in t.meta.annotations ==>
      && INSTANCE_ID in AllAttrs(t, spanMetrics)
      && IsSeenResolved(env, t, ruleEnv, spanMetrics, base, resolve, INSTANCE_ID, ENV_NAMESPACE, IdTail(t))
  {
    hide IsSeenResolved, TextBefore, Open, AllAttrs, IsTame, FieldsResolve;
    if ANNOTATION_PREFIX + NODE_NAME !in t.meta.annotations {
      NodeIsReference(t, spanMetrics);
      TameTextIsClosed(env, t, ruleEnv, spanMetrics, NODE_NAME);
      ClosedAttributeSeen(env, t, ruleEnv, spanMetrics, base, resolve, NODE_NAME, ENV_NODE, "");
    }
    if t.cfg.resources.addPodIP && ANNOTATION_PREFIX + POD_IP !in t.meta.annotations {
      PodIPIsReference(t, spanMetrics);
      TameTextIsClosed(env, t, ruleEnv, spanMetrics, POD_IP);
      ClosedAttributeSeen(env, t, ruleEnv, spanMetrics, base, resolve, POD_IP, ENV_POD_IP, "");
    }
    if t.containerName != "" && ANNOTATION_PREFIX + INSTANCE_ID !in t.meta.annotations {
      IdIsReference(t, spanMetrics);
      TameTextIsClosed(env, t, ruleEnv, spanMetrics, INSTANCE_ID);
      ClosedAttributeSeen(env, t, ruleEnv, spanMetrics, base, resolve, INSTANCE_ID, ENV_NAMESPACE, IdTail(t));
    }
  }

  /** The attribute's part of what the process sees. */
  ghost function SeenPart(env: seq<EnvVar>, t: Site, ruleEnv: seq<EnvVar>, spanMetrics: bool,
      base: map<string, string>, resolve: Resolver, key: string): string
    requires key in AllAttrs(t, spanMetrics)
  {
    PartHoldsItem(env, t, ruleEnv, spanMetrics, key);
    ExpandEach(Parts(env, t, ruleEnv, spanMetrics), Scope(env, t, ruleEnv, spanMetrics, base, resolve))[PartOf(env, t, ruleEnv, spanMetrics, key)]
  }

  /**
   On a tame pod the process sees the static text and every attribute expanded on its own, with the
   node, the pod's address and the instance id as the downward API gives them.
   */
  lemma InjectedReferencesResolve(env: seq<EnvVar>, t: Site, ruleEnv: seq<EnvVar>, spanMetrics: bool,
      base: map<string, string>, resolve: Resolver)
    requires Unique(env) && FieldsResolve(t.cfg, resolve) && IsTame(env, t, ruleEnv)
    ensures SeenAttrs(env, t, ruleEnv, spanMetrics, base, resolve)
      == Join(ExpandEach(Parts(env, t, ruleEnv, spanMetrics), Scope(env, t, ruleEnv, spanMetrics, base, resolve)), ',')
    ensures ANNOTATION_PREFIX + NODE_NAME !in t.meta.annotations ==>
      SeenPart(env, t, ruleEnv, spanMetrics, base, resolve, NODE_NAME) == Item(NODE_NAME, FieldValue(resolve, ENV_NODE))
    ensures t.cfg.resources.addPodIP && ANNOTATION_PREFIX + POD_IP !in t.meta.annotations ==>
      && POD_IP in AllAttrs(t, spanMetrics)
      && SeenPart(env, t, ruleEnv, spanMetrics, base, resolve, POD_IP) == Item(POD_IP, FieldValue(resolve, ENV_POD_IP))
    ensures t.containerName != "" && ANNOTATION_PREFIX + INSTANCE_ID !in t.meta.annotations ==>
      && INSTANCE_ID in AllAttrs(t, spanMetrics)
      && SeenPart(env, t, ruleEnv, spanMetrics, base, resolve, INSTANCE_ID)
         == Item(INSTANCE_ID, FieldValue(resolve, ENV_NAMESPACE) + ("." + (FieldValue(resolve, ENV_POD_NAME) + ("." + t.containerName))))
  {
    hide Rewritten, Parts, PartOf, Scope, Expand, Environment, AllAttrs, Open, FieldsResolve, IdTail;
    TameIsSeparable(env, t, ruleEnv, spanMetrics);
    CombinedAttributesExpand(env, t, ruleEnv, spanMetrics, base, resolve);
    if ANNOTATION_PREFIX + NODE_NAME !in t.meta.annotations {
      PartHoldsItem(env, t, ruleEnv, spanMetrics, NODE_NAME);
      NodeItemResolves(env, t, ruleEnv, spanMetrics, base, resolve);
    }
    if t.cfg.resources.addPodIP && ANNOTATION_PREFIX + POD_IP !in t.meta.annotations {
      PodIPItemResolves(env, t, ruleEnv, spanMetrics, base, resolve);
      PartHoldsItem(env, t, ruleEnv, spanMetrics, POD_IP);
    }
    if t.containerName != "" && ANNOTATION_PREFIX + INSTANCE_ID !in t.meta.annotations {
      InstanceIdItemResolves(env, t, ruleEnv, spanMetrics, base, resolve);
      PartHoldsItem(env, t, ruleEnv, spanMetrics, INSTANCE_ID);
      PlainTextStays(t.containerName, Scope(env, t, ruleEnv, spanMetrics, base, resolve));
    }
  }

  lemma PlainTextStays(s: string, ctx: map<string, string>)
    requires !HasChar(s, '$')
    ensures Expand(s, ctx) == s
  {
    ExpandPlain(s, "", ctx);
    assert s + "" == s && Expand("", ctx) == "";
  }

  lemma TameIsSeparable(env: seq<EnvVar>, t: Site, ruleEnv: seq<EnvVar>, spanMetrics: bool)
    requires IsTame(env, t, ruleEnv)
    ensures Separable(Parts(env, t, ruleEnv, spanMetrics))
  {
    hide Open, Parts, Separable;
    TamePartsAreClosed(env, t, ruleEnv, spanMetrics);
    ClosedPartsAreSeparable(Parts(env, t, ruleEnv, spanMetrics));
  }

  // ---- a pod on which the node reference is swallowed

  lemma {:induction false} LessAfter(p: string, a: string, b: string)
    requires a != "" && b != "" && a[0] < b[0]
    ensures Less(p + a, p + b)
  {
    if p == "" {
      assert p + a == a && p + b == b;
    } else {
      assert (p + a)[1..] == p[1..] + a && (p + b)[1..] == p[1..] + b;
      LessAfter(p[1..], a, b);
    }
  }

  lemma NodeBeforeIP()
    ensures Less(NODE_NAME, POD_IP)
  {
    hide Less;
    LessAfter("k8s.", "node.name", "pod.ip");
    assert NODE_NAME == "k8s." + "node.name" && POD_IP == "k8s." + "pod.ip";
  }

  lemma NodeBeforeService(k: string)
    requires k != "" && k[0] == 's'
    ensures Less(NODE_NAME, k)
  {
    assert NODE_NAME[0] == 'k';
  }

  lemma NodeSortsFirst()
    ensures forall k :: k in {POD_IP, INSTANCE_ID, SKIP_SPAN_METRICS} ==> Less(NODE_NAME, k)
  {
    hide Less;
    NodeBeforeIP();
    NodeBeforeService(INSTANCE_ID);
    NodeBeforeService(SKIP_SPAN_METRICS);
  }

  lemma FirstIsLeast(s: seq<string>, x: string)
    requires Ascending(s) && x in s && forall y :: y in s && y != x ==> Less(x, y)
    ensures PositionOf(s, x) == 0
  {
    hide Less;
    var i :| 0 <= i < |s| && s[i] == x;
    if i > 0 {
      assert s[0] in s;
      LessIsAsymmetric(s[0], s[i]);
      assert false;
    }
  }

  /** A pod without owners and annotations. */
  function Bare(cfg: SDKInject): Site {
    Site(cfg, ObjectMeta("web-0", "shop", map[], map[], [], false), "app", "")
  }

  lemma BareAttributes(cfg: SDKInject, spanMetrics: bool)
    ensures AllAttrs(Bare(cfg), spanMetrics).Keys <= {NODE_NAME, POD_IP, INSTANCE_ID, SKIP_SPAN_METRICS}
  {
    PodIsNoOwnerKind();
    var t := Bare(cfg);
    var self := [Owner("Pod", "web-0")];
    assert self[1..] == [];
    assert OwnerNames(self, map[]) == OwnerNames([], map[]) == map[];
    assert ParentLabels(t.meta, cfg.resources.addUIDs) == map[];
  }

  function Unterminated(text: string, name: string): seq<EnvVar> {
    [Literal(ATTRS, text + "$(" + name)]
  }

  lemma BareNodeIsFirst(cfg: SDKInject, spanMetrics: bool)
    ensures PositionOf(Sorted(AllAttrs(Bare(cfg), spanMetrics).Keys), NODE_NAME) == 0
  {
    BareAttributes(cfg, spanMetrics);
    NodeSortsFirst();
    hide AllAttrs, Less, Bare, Ascending;
    FirstIsLeast(Sorted(AllAttrs(Bare(cfg), spanMetrics).Keys), NODE_NAME);
  }

  lemma UnterminatedIsStatic(text: string, name: string)
    ensures StaticAttrs(Unterminated(text, name), []) == Some(Literal(ATTRS, text + "$(" + name))
    ensures text + "$(" + name != ""
  {
    var env := Unterminated(text, name);
    assert env[0].name == ATTRS;
    assert |text + "$(" + name| >= 2;
  }

  lemma BareNodeIsSecond(cfg: SDKInject, spanMetrics: bool, text: string, name: string)
    ensures TextBefore(Unterminated(text, name), Bare(cfg), [], spanMetrics, NODE_NAME) == text + "$(" + name
  {
    var env, t := Unterminated(text, name), Bare(cfg);
    UnterminatedIsStatic(text, name);
    BareNodeIsFirst(cfg, spanMetrics);
    hide AllAttrs, Bare, Unterminated, StaticAttrs, Sorted, PositionOf;
    var parts := Parts(env, t, [], spanMetrics);
    PartHoldsItem(env, t, [], spanMetrics, NODE_NAME);
    assert PartOf(env, t, [], spanMetrics, NODE_NAME) == 1;
    assert parts[..1] == [text + "$(" + name];
  }

  /**
   Static attributes `text$(name` without a closing parenthesis, on any such pod and under any
   configuration: the process sees the node reference as it was written.
   */
  lemma UnterminatedTextSwallowsNode(cfg: SDKInject, spanMetrics: bool, text: string, name: string,
      base: map<string, string>, resolve: Resolver)
    requires !HasChar(text, '$') && !HasChar(name, ')')
    requires FieldsResolve(cfg, resolve) && ProperNames(base.Keys) && !HasChar(FieldValue(resolve, ENV_NODE), ')')
    ensures var env, t := Unterminated(text, name), Bare(cfg);
      && IsSeenAsWritten(env, t, [], spanMetrics, base, resolve, NODE_NAME, ENV_NODE, "")
      && !IsSeenResolved(env, t, [], spanMetrics, base, resolve, NODE_NAME, ENV_NODE, "")
      && text + "$(" + name + ("," + Item(NODE_NAME, Reference(ENV_NODE))) <= SeenAttrs(env, t, [], spanMetrics, base, resolve)
  {
    var env, t := Unterminated(text, name), Bare(cfg);
    var ctx := Scope(env, t, [], spanMetrics, base, resolve);
    BareNodeIsSecond(cfg, spanMetrics, text, name);
    UnterminatedIsKept(text, name, ctx);
    FixedNamesAreProper();
    hide HasChar, Open, Rewritten, Parts, PartOf, Environment, Expand, TextBefore, IsSeenResolved;
    assert AreProper(env) by { assert env[0].name in FIXED_NAMES; }
    NodeReferenceSeen(env, t, [], spanMetrics, base, resolve);
    SwallowedStart(env, t, spanMetrics, base, resolve, text + "$(" + name);
  }

  lemma StartsWith(a: string, b: string, c: string)
    ensures a + b <= a + b + c
  {
  }

  lemma SwallowedStart(env: seq<EnvVar>, t: Site, spanMetrics: bool, base: map<string, string>, resolve: Resolver, start: string)
    requires IsSeenAsWritten(env, t, [], spanMetrics, base, resolve, NODE_NAME, ENV_NODE, "")
    requires TextBefore(env, t, [], spanMetrics, NODE_NAME) == start
    requires Open(start) && Kept(start, Scope(env, t, [], spanMetrics, base, resolve)) == start
    ensures start + ("," + Item(NODE_NAME, Reference(ENV_NODE))) <= SeenAttrs(env, t, [], spanMetrics, base, resolve)
  {
    hide Open, Kept, Parts, PartOf, Scope, Expand, SeenAttrs, AllAttrs, Reference, Lead, Trail;
    PartHoldsItem(env, t, [], spanMetrics, NODE_NAME);
    assert "," + (NODE_NAME + "=") + Reference(ENV_NODE) == "," + Item(NODE_NAME, Reference(ENV_NODE));
    var parts, i := Parts(env, t, [], spanMetrics), PartOf(env, t, [], spanMetrics, NODE_NAME);
    StartsWith(start, "," + (NODE_NAME + "=") + Reference(ENV_NODE),
      Expand("" + Trail(parts, i), Scope(env, t, [], spanMetrics, base, resolve)));
  }
}
