/** What the kubelet makes of a rewritten environment, and what a second rewrite changes. */
module EnvOutcome {
  import opened Kube
  import opened Strings
  import opened Config
  import opened EnvList
  import opened Attributes
  import opened Expansion
  import opened EnvRewrite

  // ---- the text of the combined attributes

  /** Neither writes nor extends the combined attributes. */
  predicate LeavesAttrs(edits: seq<Edit>) {
    forall i :: 0 <= i < |edits| ==> Target(edits[i]) != ATTRS
  }

  lemma {:induction false} AttrsAfterConcat(a: seq<Edit>, b: seq<Edit>, under: Option<EnvVar>)
    ensures AttrsAfter(a + b, under) == AttrsAfter(b, AttrsAfter(a, under))
    decreases |a|
  {
    if a == [] {
      assert a + b == b;
    } else {
      assert (a + b)[1..] == a[1..] + b;
      AttrsAfterConcat(a[1..], b, AttrsStep(a[0], under));
    }
  }

  lemma {:induction false} UntouchedAttrs(edits: seq<Edit>, under: Option<EnvVar>)
    requires LeavesAttrs(edits)
    ensures AttrsAfter(edits, under) == under
  {
    if edits != [] {
      assert Target(edits[0]) != ATTRS;
      assert forall i | 0 <= i < |edits| - 1 :: edits[1..][i] == edits[i + 1];
      UntouchedAttrs(edits[1..], under);
    }
  }

  lemma {:induction false} RuleAttrs(vars: seq<EnvVar>, under: Option<EnvVar>)
    ensures AttrsAfter(RuleEdits(vars), under) == Over(LastNamed(vars, ATTRS), under)
  {
    if vars != [] {
      var n := |vars| - 1;
      RuleEditsSnoc(vars);
      RuleAttrs(vars[..n], under);
      AttrsAfterConcat(RuleEdits(vars[..n]), [Write(vars[n])], under);
    }
  }

  lemma FixedLeavesAttrs(cfg: SDKInject)
    ensures LeavesAttrs(FixedEdits(cfg))
  {
    AttrsIsNoOtherName();
  }

  lemma IdentityLeavesAttrs(t: Site)
    ensures LeavesAttrs(IdentityEdits(t))
  {
    AttrsIsNoOtherName();
    NamesAreDistinct(t.cfg);
    DownwardEditsShape(t);
    var c, d, s := IfSet(ENV_CONTAINER, t.containerName), DownwardEdits(t), ServiceEdits(t);
    assert LeavesAttrs(c) && LeavesAttrs(d);
    ServiceLeavesAttrs(t);
    LeavesConcat(c, d);
    LeavesConcat(c + d, s);
  }

  lemma ServiceLeavesAttrs(t: Site)
    ensures LeavesAttrs(ServiceEdits(t))
  {
    AttrsIsNoOtherName();
  }

  lemma LeavesConcat(a: seq<Edit>, b: seq<Edit>)
    requires LeavesAttrs(a) && LeavesAttrs(b)
    ensures LeavesAttrs(a + b)
  {
  }

  lemma BlanksLeaveAttrs(cfg: SDKInject)
    ensures LeavesAttrs(BlankEdits(cfg))
  {
    AttrsIsNoOtherName();
  }

  /** Static attributes come from the rule if it defines them, else from the author's list. */
  function StaticAttrs(env: seq<EnvVar>, ruleEnv: seq<EnvVar>): Option<EnvVar> {
    Over(LastNamed(ruleEnv, ATTRS), Lookup(env, ATTRS))
  }

  lemma AttrsWritten(t: Site, ruleEnv: seq<EnvVar>, spanMetrics: bool, under: Option<EnvVar>)
    ensures AttrsAfter(Edits(t, ruleEnv, spanMetrics), under)
      == Some(AppendTo(Over(LastNamed(ruleEnv, ATTRS), under), Render(AllAttrs(t, spanMetrics))))
  {
    var r, f, i, b := RuleEdits(ruleEnv), FixedEdits(t.cfg), IdentityEdits(t), BlankEdits(t.cfg);
    var a := [Append(Render(AllAttrs(t, spanMetrics)))];
    var given := Over(LastNamed(ruleEnv, ATTRS), under);
    RuleAttrs(ruleEnv, under);
    FixedLeavesAttrs(t.cfg);
    IdentityLeavesAttrs(t);
    BlanksLeaveAttrs(t.cfg);
    UntouchedAttrs(f, given);
    UntouchedAttrs(i, given);
    AttrsAfterConcat(r, f, under);
    AttrsAfterConcat(r + f, i, under);
    AttrsAfterConcat(r + f + i, a, under);
    AttrsAfterConcat(r + f + i + a, b, under);
    UntouchedAttrs(b, AttrsAfter(a, given));
  }

  /** The comma-separated parts of the final value: the static text, then one item per attribute in key order. */
  ghost function Parts(env: seq<EnvVar>, t: Site, ruleEnv: seq<EnvVar>, spanMetrics: bool): seq<string> {
    var given := StaticAttrs(env, ruleEnv);
    (if given.Some? && given.value.value != "" then [given.value.value] else [])
    + SortedItems(AllAttrs(t, spanMetrics))
  }

  lemma AttrsText(env: seq<EnvVar>, t: Site, ruleEnv: seq<EnvVar>, spanMetrics: bool)
    ensures Has(Rewritten(env, t, ruleEnv, spanMetrics), ATTRS)
    ensures Lookup(Rewritten(env, t, ruleEnv, spanMetrics), ATTRS).value.value
      == Join(Parts(env, t, ruleEnv, spanMetrics), ',') != ""
  {
    EditsShape(t, ruleEnv, spanMetrics);
    RunAttrs(env, Edits(t, ruleEnv, spanMetrics));
    AttrsWritten(t, ruleEnv, spanMetrics, Lookup(env, ATTRS));
    var items := SortedItems(AllAttrs(t, spanMetrics));
    RenderIsNotEmpty(AllAttrs(t, spanMetrics));
    var parts := Parts(env, t, ruleEnv, spanMetrics);
    assert parts == items || parts[1..] == items;
  }

  // ---- what the kubelet reads

  /** The downward API answers for every field the injector asks for. */
  ghost predicate FieldsResolve(cfg: SDKInject, resolve: Resolver) {
    forall n :: n in DownwardNames(cfg) ==> resolve(FieldRef(DownwardPath(n))).Some?
  }

  /** The value the downward API gives for a variable the injector places. */
  function FieldValue(resolve: Resolver, n: string): string {
    match resolve(FieldRef(DownwardPath(n)))
    case Some(v) => v
    case None => ""
  }

  /** What is declared before the entry called `name`. */
  function ContextOf(env: seq<EnvVar>, name: string, base: map<string, string>, resolve: Resolver): map<string, string> {
    Environment(env[..IndexOf(env, name)], base, resolve)
  }

  lemma {:induction false} LiteralDeclared(env: seq<EnvVar>, i: nat, base: map<string, string>, resolve: Resolver)
    requires i < |env| && env[i].value != ""
    requires forall j :: i < j < |env| ==> env[j].name != env[i].name
    ensures env[i].name in Environment(env, base, resolve)
    ensures Environment(env, base, resolve)[env[i].name] == Expand(env[i].value, Environment(env[..i], base, resolve))
    decreases |env|
  {
    var before := env[..|env| - 1];
    if i < |env| - 1 {
      assert forall j | i < j < |before| :: before[j] == env[j];
      assert before[..i] == env[..i];
      LiteralDeclared(before, i, base, resolve);
    }
  }

  lemma DownwardPaths(cfg: SDKInject, n: string)
    requires n in DownwardNames(cfg)
    ensures n in DownwardLayer(cfg) && DownwardLayer(cfg)[n] == DownwardVar(n, DownwardPath(n))
  {
    assert |ENV_NAMESPACE| == 32 && |ENV_POD_NAME| == 26 && |ENV_NODE| == 34 && |ENV_POD_IP| == 31 && |ENV_POD_UID| == 25;
  }

  lemma DownwardIsWritten(env: seq<EnvVar>, t: Site, ruleEnv: seq<EnvVar>, spanMetrics: bool, n: string)
    requires n in DownwardNames(t.cfg)
    ensures Lookup(Rewritten(env, t, ruleEnv, spanMetrics), n) == Some(DownwardVar(n, DownwardPath(n)))
  {
    NamesAreDistinct(t.cfg);
    BlankLayerNames(t.cfg);
    ServiceLayerNames(t);
    DownwardPaths(t.cfg, n);
    SumKeys(OneIfSet(ENV_CONTAINER, t.containerName), DownwardLayer(t.cfg));
    LayeredOverride(env, t, ruleEnv, spanMetrics, n);
  }

  /** The variables in scope where the rewritten combined attributes are read. */
  ghost function Scope(env: seq<EnvVar>, t: Site, ruleEnv: seq<EnvVar>, spanMetrics: bool,
      base: map<string, string>, resolve: Resolver): map<string, string>
  {
    ContextOf(Rewritten(env, t, ruleEnv, spanMetrics), ATTRS, base, resolve)
  }

  lemma DeclaredEarlier(r: seq<EnvVar>, n: string, path: string, later: string, base: map<string, string>, resolve: Resolver)
    requires Unique(r) && Before(r, n, later) && Lookup(r, n) == Some(DownwardVar(n, path))
    requires resolve(FieldRef(path)).Some?
    ensures n in ContextOf(r, later, base, resolve)
    ensures ContextOf(r, later, base, resolve)[n] == resolve(FieldRef(path)).value
  {
    var before, j := r[..IndexOf(r, later)], IndexOf(r, n);
    assert before[j] == DownwardVar(n, path);
    LaterDeclarationsKeep(before, j, base, resolve);
  }

  /** Each downward variable is in scope, with its field's value, where the combined attributes are read. */
  lemma DownwardInScope(env: seq<EnvVar>, t: Site, ruleEnv: seq<EnvVar>, spanMetrics: bool,
      base: map<string, string>, resolve: Resolver, n: string)
    requires Unique(env) && FieldsResolve(t.cfg, resolve) && n in DownwardNames(t.cfg)
    ensures n in Scope(env, t, ruleEnv, spanMetrics, base, resolve)
    ensures Get(Scope(env, t, ruleEnv, spanMetrics, base, resolve), n) == FieldValue(resolve, n)
  {
    var r := Rewritten(env, t, ruleEnv, spanMetrics);
    NamesAreDistinct(t.cfg);
    EditsShape(t, ruleEnv, spanMetrics);
    AttrsText(env, t, ruleEnv, spanMetrics);
    RunMakesReady(env, Edits(t, ruleEnv, spanMetrics), n);
    DownwardIsWritten(env, t, ruleEnv, spanMetrics, n);
    UniquenessSurvives(env, t, ruleEnv, spanMetrics);
    DeclaredEarlier(r, n, DownwardPath(n), ATTRS, base, resolve);
  }

  /**
   The kubelet scans the value part by part exactly when no part leaves a reference open before a
   part that would close it; then the process sees the static text and every item expanded on its own.
   */
  lemma CombinedAttributesExpand(env: seq<EnvVar>, t: Site, ruleEnv: seq<EnvVar>, spanMetrics: bool,
      base: map<string, string>, resolve: Resolver)
    requires Unique(env)
    ensures var r := Rewritten(env, t, ruleEnv, spanMetrics);
      var parts := Parts(env, t, ruleEnv, spanMetrics);
      var ctx := Scope(env, t, ruleEnv, spanMetrics, base, resolve);
      var seen := Environment(r, base, resolve);
      && ATTRS in seen
      && seen[ATTRS] == Expand(Join(parts, ','), ctx)
      && (Parse(Join(parts, ',')) == ParseEach(parts) <==> Separable(parts))
      && (Separable(parts) ==> seen[ATTRS] == Join(ExpandEach(parts, ctx), ','))
  {
    var r := Rewritten(env, t, ruleEnv, spanMetrics);
    var parts := Parts(env, t, ruleEnv, spanMetrics);
    AttrsText(env, t, ruleEnv, spanMetrics);
    UniquenessSurvives(env, t, ruleEnv, spanMetrics);
    LiteralDeclared(r, IndexOf(r, ATTRS), base, resolve);
    JoinedScan(parts);
    EvalEach(parts, ContextOf(r, ATTRS, base, resolve));
  }

  /** Parts that close every reference they open are separable. */
  lemma {:induction false} ClosedPartsAreSeparable(parts: seq<string>)
    requires forall i :: 0 <= i < |parts| - 1 ==> !Open(parts[i])
    ensures Separable(parts)
  {
    if |parts| > 1 {
      assert forall i | 0 <= i < |parts| - 2 :: parts[1..][i] == parts[i + 1];
      ClosedPartsAreSeparable(parts[1..]);
    }
  }

  // ---- the items that carry the injector's references

  lemma AttributeKeysAreDistinct()
    ensures NODE_NAME !in {POD_IP, INSTANCE_ID, SKIP_SPAN_METRICS}
    ensures POD_IP !in {INSTANCE_ID, SKIP_SPAN_METRICS}
    ensures INSTANCE_ID != SKIP_SPAN_METRICS
  {
    assert |NODE_NAME| == 13 && |POD_IP| == 10 && |INSTANCE_ID| == 19 && |SKIP_SPAN_METRICS| == 17;
  }

  lemma ItemOfReference(key: string, n: string, ctx: map<string, string>)
    requires !HasChar(key, '$') && n in ctx && !HasChar(n, ')')
    ensures Expand(Item(key, Reference(n)), ctx) == Item(key, Get(ctx, n))
  {
    var k := key + "=";
    assert !HasChar(k, '$');
    assert Item(key, Reference(n)) == k + (Reference(n) + "");
    ExpandPlain(k, Reference(n) + "", ctx);
    ExpandReference(n, "", ctx);
    assert Expand("", ctx) == "";
  }

  lemma PlainNames(cfg: SDKInject)
    ensures !HasChar(NODE_NAME, '$') && !HasChar(POD_IP, '$')
    ensures !HasChar(ENV_NODE, ')') && !HasChar(ENV_POD_IP, ')')
  {
  }

  lemma PlainInstanceNames()
    ensures !HasChar(INSTANCE_ID, '$') && !HasChar(ENV_NAMESPACE, ')') && !HasChar(ENV_POD_NAME, ')')
  {
  }

  lemma NodeIsPlaced(cfg: SDKInject)
    ensures {ENV_NAMESPACE, ENV_POD_NAME, ENV_NODE} <= DownwardNames(cfg)
    ensures cfg.resources.addPodIP ==> ENV_POD_IP in DownwardNames(cfg)
  {
  }

  lemma NodeItemText(t: Site, spanMetrics: bool)
    requires ANNOTATION_PREFIX + NODE_NAME !in t.meta.annotations
    ensures Get(AllAttrs(t, spanMetrics), NODE_NAME) == Reference(ENV_NODE)
  {
    AttributeKeysAreDistinct();
    assert Get(SiteBaseAttrs(t), NODE_NAME) == Reference(ENV_NODE);
  }

  lemma PodIPItemText(t: Site, spanMetrics: bool)
    requires t.cfg.resources.addPodIP && ANNOTATION_PREFIX + POD_IP !in t.meta.annotations
    ensures POD_IP in AllAttrs(t, spanMetrics) && Get(AllAttrs(t, spanMetrics), POD_IP) == Reference(ENV_POD_IP)
  {
    AttributeKeysAreDistinct();
    assert Get(SiteBaseAttrs(t), POD_IP) == Reference(ENV_POD_IP);
  }

  /** On its own, the node item expands to the node's name, unless an annotation replaces the attribute. */
  lemma NodeItemResolves(env: seq<EnvVar>, t: Site, ruleEnv: seq<EnvVar>, spanMetrics: bool,
      base: map<string, string>, resolve: Resolver)
    requires Unique(env) && FieldsResolve(t.cfg, resolve)
    requires ANNOTATION_PREFIX + NODE_NAME !in t.meta.annotations
    ensures Expand(Item(NODE_NAME, Get(AllAttrs(t, spanMetrics), NODE_NAME)), Scope(env, t, ruleEnv, spanMetrics, base, resolve))
      == Item(NODE_NAME, FieldValue(resolve, ENV_NODE))
  {
    NodeIsPlaced(t.cfg);
    PlainNames(t.cfg);
    NodeItemText(t, spanMetrics);
    DownwardInScope(env, t, ruleEnv, spanMetrics, base, resolve, ENV_NODE);
    ItemOfReference(NODE_NAME, ENV_NODE, Scope(env, t, ruleEnv, spanMetrics, base, resolve));
  }

  /** When enabled, the pod IP item expands on its own to the pod's address, unless an annotation replaces the attribute. */
  lemma PodIPItemResolves(env: seq<EnvVar>, t: Site, ruleEnv: seq<EnvVar>, spanMetrics: bool,
      base: map<string, string>, resolve: Resolver)
    requires Unique(env) && FieldsResolve(t.cfg, resolve) && t.cfg.resources.addPodIP
    requires ANNOTATION_PREFIX + POD_IP !in t.meta.annotations
    ensures POD_IP in AllAttrs(t, spanMetrics)
    ensures Expand(Item(POD_IP, Get(AllAttrs(t, spanMetrics), POD_IP)), Scope(env, t, ruleEnv, spanMetrics, base, resolve))
      == Item(POD_IP, FieldValue(resolve, ENV_POD_IP))
  {
    NodeIsPlaced(t.cfg);
    PlainNames(t.cfg);
    PodIPItemText(t, spanMetrics);
    DownwardInScope(env, t, ruleEnv, spanMetrics, base, resolve, ENV_POD_IP);
    ItemOfReference(POD_IP, ENV_POD_IP, Scope(env, t, ruleEnv, spanMetrics, base, resolve));
  }

  lemma InstanceIdText(t: Site, spanMetrics: bool)
    requires ANNOTATION_PREFIX + INSTANCE_ID !in t.meta.annotations && t.containerName != ""
    ensures INSTANCE_ID in AllAttrs(t, spanMetrics)
    ensures Get(AllAttrs(t, spanMetrics), INSTANCE_ID) == Reference(ENV_NAMESPACE) + ("." + (Reference(ENV_POD_NAME) + ("." + t.containerName)))
  {
    AttributeKeysAreDistinct();
    var ns, pod, c := Reference(ENV_NAMESPACE), Reference(ENV_POD_NAME), t.containerName;
    assert Get(t.meta.annotations, ANNOTATION_PREFIX + INSTANCE_ID) == "";
    assert Join([ns, pod, c], '.') == ns + "." + Join([pod, c], '.') by {
      assert [ns, pod, c][1..] == [pod, c];
    }
    assert Join([pod, c], '.') == pod + "." + c by {
      assert [pod, c][1..] == [c];
    }
    assert ns + "." + (pod + "." + c) == ns + ("." + (pod + ("." + c)));
  }

  lemma ExpandInstanceId(ns: string, pod: string, container: string, ctx: map<string, string>)
    requires ns in ctx && pod in ctx && !HasChar(ns, ')') && !HasChar(pod, ')')
    ensures Expand(Reference(ns) + ("." + (Reference(pod) + ("." + container))), ctx)
      == Get(ctx, ns) + ("." + (Get(ctx, pod) + ("." + Expand(container, ctx))))
  {
    ExpandReference(ns, "." + (Reference(pod) + ("." + container)), ctx);
    ExpandPlain(".", Reference(pod) + ("." + container), ctx);
    ExpandReference(pod, "." + container, ctx);
    ExpandPlain(".", container, ctx);
  }

  /** On its own, the instance id expands to namespace, pod and container name, unless an annotation replaces it. */
  lemma InstanceIdItemResolves(env: seq<EnvVar>, t: Site, ruleEnv: seq<EnvVar>, spanMetrics: bool,
      base: map<string, string>, resolve: Resolver)
    requires Unique(env) && FieldsResolve(t.cfg, resolve)
    requires ANNOTATION_PREFIX + INSTANCE_ID !in t.meta.annotations && t.containerName != ""
    ensures INSTANCE_ID in AllAttrs(t, spanMetrics)
    ensures var ctx := Scope(env, t, ruleEnv, spanMetrics, base, resolve);
      Expand(Item(INSTANCE_ID, Get(AllAttrs(t, spanMetrics), INSTANCE_ID)), ctx)
      == Item(INSTANCE_ID,
           FieldValue(resolve, ENV_NAMESPACE) + ("." + (FieldValue(resolve, ENV_POD_NAME) + ("." + Expand(t.containerName, ctx)))))
  {
    var ctx := Scope(env, t, ruleEnv, spanMetrics, base, resolve);
    var text := Get(AllAttrs(t, spanMetrics), INSTANCE_ID);
    PlainInstanceNames();
    NodeIsPlaced(t.cfg);
    DownwardInScope(env, t, ruleEnv, spanMetrics, base, resolve, ENV_NAMESPACE);
    DownwardInScope(env, t, ruleEnv, spanMetrics, base, resolve, ENV_POD_NAME);
    InstanceIdText(t, spanMetrics);
    ExpandInstanceId(ENV_NAMESPACE, ENV_POD_NAME, t.containerName, ctx);
    ExpandItem(INSTANCE_ID, text, ctx);
  }

  lemma ExpandItem(key: string, text: string, ctx: map<string, string>)
    requires !HasChar(key, '$')
    ensures Expand(Item(key, text), ctx) == Item(key, Expand(text, ctx))
  {
    assert !HasChar(key + "=", '$');
    ExpandPlain(key + "=", text, ctx);
  }

  // ---- a second rewrite

  lemma AttrsOfRewritten(env: seq<EnvVar>, t: Site, ruleEnv: seq<EnvVar>, spanMetrics: bool)
    ensures Lookup(Rewritten(env, t, ruleEnv, spanMetrics), ATTRS)
      == Some(AppendTo(StaticAttrs(env, ruleEnv), Render(AllAttrs(t, spanMetrics))))
    ensures Render(AllAttrs(t, spanMetrics)) != ""
  {
    EditsShape(t, ruleEnv, spanMetrics);
    RunAttrs(env, Edits(t, ruleEnv, spanMetrics));
    AttrsWritten(t, ruleEnv, spanMetrics, Lookup(env, ATTRS));
    RenderIsNotEmpty(AllAttrs(t, spanMetrics));
  }

  /** Two lists that agree on names and on all values but one are equal exactly when they agree on that one. */
  lemma EqualBut(a: seq<EnvVar>, b: seq<EnvVar>, name: string)
    requires Unique(a) && Names(a) == Names(b) && Has(a, name)
    requires forall i :: 0 <= i < |a| && a[i].name != name ==> b[i] == a[i]
    ensures a == b <==> Lookup(a, name) == Lookup(b, name)
  {
    NamesDecideIndex(a, b, name);
    var i := IndexOf(a, name);
    assert forall j | 0 <= j < |a| && j != i :: a[j].name != a[i].name;
  }

  /** Rewriting a rewritten list keeps its order and all values but the combined attributes; those stay too exactly when the rule defines them. */
  lemma RewriteTwice(env: seq<EnvVar>, t: Site, ruleEnv: seq<EnvVar>, spanMetrics: bool)
    requires Unique(env)
    ensures var once := Rewritten(env, t, ruleEnv, spanMetrics);
      var twice := Rewritten(once, t, ruleEnv, spanMetrics);
      && Names(twice) == Names(once)
      && (forall i :: 0 <= i < |once| && once[i].name != ATTRS ==> twice[i] == once[i])
      && (twice == once <==> LastNamed(ruleEnv, ATTRS).Some?)
  {
    var once := Rewritten(env, t, ruleEnv, spanMetrics);
    var twice := Rewritten(once, t, ruleEnv, spanMetrics);
    EditsShape(t, ruleEnv, spanMetrics);
    RunTwice(env, Edits(t, ruleEnv, spanMetrics));
    AttrsOfRewritten(env, t, ruleEnv, spanMetrics);
    AttrsOfRewritten(once, t, ruleEnv, spanMetrics);
    UniquenessSurvives(env, t, ruleEnv, spanMetrics);
    EqualBut(once, twice, ATTRS);
    if LastNamed(ruleEnv, ATTRS).None? {
      assert |Lookup(twice, ATTRS).value.value| > |Lookup(once, ATTRS).value.value|;
    }
  }
}
