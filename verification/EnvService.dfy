/**
 When the service name and namespace variables can see the downward variable they refer to.
 Unlike the combined attributes, a pre-declared service variable is updated where it stands.
 */
module EnvService {
  import opened Kube
  import opened Strings
  import opened Config
  import opened EnvList
  import opened Attributes
  import opened Expansion
  import opened EnvRewrite
  import opened EnvOutcome

  /** The edits neither touch `x` nor place any of the other two names. */
  predicate Bystanders(edits: seq<Edit>, x: string, y: string) {
    forall i :: 0 <= i < |edits| ==>
      && Target(edits[i]) != x
      && (edits[i].Downward? ==> edits[i].name != y && edits[i].name != ATTRS)
  }

  lemma TailBystanders(edits: seq<Edit>, x: string, y: string)
    requires Bystanders(edits, x, y) && edits != []
    ensures Bystanders(edits[1..], x, y)
    ensures Target(edits[0]) != x && (edits[0].Downward? ==> edits[0].name != y && edits[0].name != ATTRS)
  {
    assert forall i | 0 <= i < |edits| - 1 :: edits[1..][i] == edits[i + 1];
  }

  predicate Touches(edits: seq<Edit>, name: string) {
    exists i :: 0 <= i < |edits| && Target(edits[i]) == name
  }

  /** A run holds the names it started with and the names it touched, no others. */
  lemma {:induction false} RunHasExactly(env: seq<EnvVar>, edits: seq<Edit>, name: string)
    requires WellFormed(edits)
    ensures Has(Run(env, edits), name) <==> Has(env, name) || Touches(edits, name)
    decreases |edits|
  {
    if edits != [] {
      TailWellFormed(edits);
      ApplyHas(env, edits[0], name);
      RunHasExactly(Apply(env, edits[0]), edits[1..], name);
      assert forall i | 0 <= i < |edits| - 1 :: edits[1..][i] == edits[i + 1];
      if Touches(edits, name) && Target(edits[0]) != name {
        var i :| 0 <= i < |edits| && Target(edits[i]) == name;
        assert Target(edits[1..][i - 1]) == name;
      }
    }
  }

  /** `x` is declared, and before `y` if `y` is. */
  predicate Precedes(env: seq<EnvVar>, x: string, y: string) {
    Has(env, x) && (Has(env, y) ==> Before(env, x, y))
  }

  lemma PlaceStaysBehind(env: seq<EnvVar>, x: string, path: string, y: string)
    requires x != y && x != ATTRS && y != ATTRS && Has(env, y) && !Before(env, x, y) && !Before(env, ATTRS, y)
    ensures !Before(Place(env, x, path), x, y)
  {
    var r, rest := Place(env, x, path), Without(env, x);
    var pos := Min(IndexOf(env, x), IndexOf(rest, ATTRS));
    DistinctIndices(env, x, y);
    DistinctIndices(env, ATTRS, y);
    WithoutIndex(env, x, y);
    WithoutIndex(env, x, ATTRS);
    InsertIndex(rest, pos, DownwardVar(x, path), y);
    assert IndexOf(r, y) == IndexOf(env, y) < pos;
    assert forall k | 0 <= k < pos :: r[k] == rest[k] == env[k];
  }

  lemma PlaceDecides(env: seq<EnvVar>, x: string, path: string, y: string)
    requires x != y && x != ATTRS && y != ATTRS
    ensures Precedes(Place(env, x, path), x, y) <==> !Has(env, y) || Before(env, x, y) || Before(env, ATTRS, y)
    ensures Has(Place(env, x, path), x)
  {
    PlaceOwnIndex(env, x, path);
    PlaceOther(env, x, path, y);
    if Has(env, y) {
      if Before(env, x, y) {
        PlaceKeepsOrder(env, x, path, x, y);
      } else if Before(env, ATTRS, y) {
        PlaceKeepsOrder(env, x, path, ATTRS, y);
      } else {
        PlaceStaysBehind(env, x, path, y);
      }
    }
  }

  lemma DistinctIndices(env: seq<EnvVar>, a: string, b: string)
    requires a != b && Has(env, b)
    ensures IndexOf(env, a) != IndexOf(env, b)
  {
  }

  /** Bystander edits change neither whether `x` precedes `y` nor how either relates to the attributes. */
  lemma {:induction false} BystandersKeepPrecedes(env: seq<EnvVar>, edits: seq<Edit>, x: string, y: string)
    requires Bystanders(edits, x, y) && x != y && Has(env, x)
    ensures Precedes(Run(env, edits), x, y) <==> Precedes(env, x, y)
    ensures Has(Run(env, edits), x)
    decreases |edits|
  {
    if edits != [] {
      TailBystanders(edits, x, y);
      var next := Apply(env, edits[0]);
      ApplyHas(env, edits[0], x);
      ApplyHas(env, edits[0], y);
      if Has(env, y) {
        DistinctIndices(env, x, y);
        if Before(env, x, y) { ApplyKeepsOrder(env, edits[0], x, y); } else { ApplyKeepsOrder(env, edits[0], y, x); }
      } else if Has(next, y) {
        AppendedLast(env, edits[0], x, y);
      }
      BystandersKeepPrecedes(next, edits[1..], x, y);
    }
  }

  lemma AppendedLast(env: seq<EnvVar>, edit: Edit, x: string, y: string)
    requires !edit.Downward? && Has(env, x) && !Has(env, y) && Target(edit) == y
    ensures Before(Apply(env, edit), x, y)
  {
    var e := if edit.Write? then edit.e else Appended(env, edit.list);
    if edit.Append? { ExtendIsPut(env, edit.list); }
    PutIndex(env, e, x);
    PutIndex(env, e, y);
  }

  /** Edits that touch neither name leave their order alone. */
  lemma {:induction false} UntouchedOrder(env: seq<EnvVar>, edits: seq<Edit>, a: string, b: string)
    requires WellFormed(edits) && !Touches(edits, a) && !Touches(edits, b) && a != b
    ensures Before(Run(env, edits), a, b) <==> Before(env, a, b)
    decreases |edits|
  {
    RunHasExactly(env, edits, a);
    RunHasExactly(env, edits, b);
    assert !IsTarget(edits, a) && !IsTarget(edits, b) by {
      assert forall i | 0 <= i < |edits| && edits[i].Downward? :: edits[i].name == Target(edits[i]);
    }
    if Has(env, a) && Has(env, b) {
      DistinctIndices(env, a, b);
      if Before(env, a, b) {
        RunKeepsOrder(env, edits, a, b);
      } else {
        RunKeepsOrder(env, edits, b, a);
      }
    }
  }

  /**
   In a run that first merges, then places `x` once, then writes `y`: `y` sees `x` exactly when the
   merged list does not declare `y`, or declares `x` or the combined attributes before it.
   */
  lemma PlacedBeforeWritten(merged: seq<EnvVar>, pre: seq<Edit>, x: string, path: string, post: seq<Edit>, y: string)
    requires x != y && x != ATTRS && y != ATTRS
    requires WellFormed(pre) && !Touches(pre, x) && !Touches(pre, y) && !Touches(pre, ATTRS)
    requires Bystanders(post, x, y) && Touches(post, y) && WellFormed(post)
    ensures Before(Run(merged, pre + [Downward(x, path)] + post), x, y)
      <==> !Has(merged, y) || Before(merged, x, y) || Before(merged, ATTRS, y)
  {
    var ready := Run(merged, pre);
    var placed := Place(ready, x, path);
    RunConcat(merged, pre + [Downward(x, path)], post);
    RunSnoc(merged, pre, Downward(x, path));
    RunHasExactly(merged, pre, y);
    UntouchedOrder(merged, pre, x, y);
    UntouchedOrder(merged, pre, ATTRS, y);
    PlaceDecides(ready, x, path, y);
    BystandersKeepPrecedes(placed, post, x, y);
    RunHasExactly(placed, post, y);
  }

  ghost function Merged(env: seq<EnvVar>, ruleEnv: seq<EnvVar>): seq<EnvVar> {
    Run(env, RuleEdits(ruleEnv))
  }

  // ---- the two service variables

  predicate Misses(edits: seq<Edit>, names: set<string>) {
    forall i :: 0 <= i < |edits| ==> Target(edits[i]) !in names
  }

  lemma MissesConcat(a: seq<Edit>, b: seq<Edit>, names: set<string>)
    requires Misses(a, names) && Misses(b, names)
    ensures Misses(a + b, names)
  {
  }

  /** The edits between the rule variables and the downward variables. */
  ghost function Opening(t: Site): seq<Edit> {
    FixedEdits(t.cfg) + IfSet(ENV_CONTAINER, t.containerName)
  }

  lemma OpeningMisses(t: Site)
    ensures Misses(Opening(t), {ATTRS, ENV_NAMESPACE, ENV_POD_NAME, ENV_SERVICE_NAME, ENV_SERVICE_NAMESPACE})
  {
    var names := {ATTRS, ENV_NAMESPACE, ENV_POD_NAME, ENV_SERVICE_NAME, ENV_SERVICE_NAMESPACE};
    OpeningNames();
    MissesConcat(Always(LD_PRELOAD, LD_PRELOAD_VALUE), Always(CONFIG_FILE, CONFIG_FILE_VALUE), names);
    MissesConcat(Always(LD_PRELOAD, LD_PRELOAD_VALUE) + Always(CONFIG_FILE, CONFIG_FILE_VALUE), Always(SEMCONV, "http"), names);
    MissesConcat(Always(LD_PRELOAD, LD_PRELOAD_VALUE) + Always(CONFIG_FILE, CONFIG_FILE_VALUE) + Always(SEMCONV, "http"),
      if t.cfg.debug then Always(LOG_LEVEL, "debug") else [], names);
    MissesConcat(FixedEdits(t.cfg), IfSet(ENV_CONTAINER, t.containerName), names);
  }

  lemma OpeningNames()
    ensures {LD_PRELOAD, CONFIG_FILE, SEMCONV, LOG_LEVEL, ENV_CONTAINER}
      !! {ATTRS, ENV_NAMESPACE, ENV_POD_NAME, ENV_SERVICE_NAME, ENV_SERVICE_NAMESPACE}
  {
    assert |ATTRS| == 33 && |ENV_NAMESPACE| == 32 && |ENV_POD_NAME| == 26 && |ENV_SERVICE_NAME| == 26 && |ENV_SERVICE_NAMESPACE| == 31;
    assert |LD_PRELOAD| == 10 && |CONFIG_FILE| == 25 && |SEMCONV| == 29 && |LOG_LEVEL| == 23 && |ENV_CONTAINER| == 32;
    assert ENV_CONTAINER[18] != ENV_NAMESPACE[18];
  }

  function LaterPlacements(t: Site): seq<Edit> {
    [Downward(ENV_NODE, "spec.nodeName")]
    + (if t.cfg.resources.addPodIP then [Downward(ENV_POD_IP, "status.podIP")] else [])
    + (if t.cfg.resources.addUIDs then [Downward(ENV_POD_UID, "metadata.uid")] else [])
  }

  lemma EditsAroundPodName(t: Site, ruleEnv: seq<EnvVar>, spanMetrics: bool)
    ensures Edits(t, ruleEnv, spanMetrics) == RuleEdits(ruleEnv)
      + (Opening(t) + [Downward(ENV_NAMESPACE, "metadata.namespace")]
         + [Downward(ENV_POD_NAME, "metadata.name")] + (LaterPlacements(t) + EditsAfter(t, spanMetrics)))
  {
    EditsSplit(t, ruleEnv, spanMetrics);
    Regroup4(RuleEdits(ruleEnv), FixedEdits(t.cfg), IfSet(ENV_CONTAINER, t.containerName),
      [Downward(ENV_NAMESPACE, "metadata.namespace")], [Downward(ENV_POD_NAME, "metadata.name")], LaterPlacements(t), EditsAfter(t, spanMetrics));
    DownwardSplit(t);
  }

  lemma DownwardSplit(t: Site)
    ensures DownwardEdits(t)
      == [Downward(ENV_NAMESPACE, "metadata.namespace")] + [Downward(ENV_POD_NAME, "metadata.name")] + LaterPlacements(t)
  {
  }

  lemma Regroup4(r: seq<Edit>, f: seq<Edit>, c: seq<Edit>, n: seq<Edit>, p: seq<Edit>, l: seq<Edit>, z: seq<Edit>)
    ensures (r + f + c) + (n + p + l) + z == r + ((f + c) + n + p + (l + z))
    ensures (f + c) + n + p + (l + z) == (f + c) + n + (p + (l + z))
  {
  }

  lemma LaterNames()
    ensures {ENV_NODE, ENV_POD_IP, ENV_POD_UID, ENV_SERVICE_NAME, ENV_SERVICE_NAMESPACE, ENV_SERVICE_VERSION,
      ATTRS, DOTNET_PATH, JAVA_PATH, NODEJS_PATH, PYTHON_PATH} !! {ENV_NAMESPACE, ENV_POD_NAME}
    ensures {ENV_NODE, ENV_POD_IP, ENV_POD_UID, ENV_POD_NAME} !! {ENV_SERVICE_NAME, ENV_SERVICE_NAMESPACE, ATTRS, ENV_NAMESPACE}
  {
    assert |ENV_NAMESPACE| == 32 && |ENV_POD_NAME| == 26 && |ENV_NODE| == 34 && |ENV_POD_IP| == 31 && |ENV_POD_UID| == 25;
    assert |ENV_SERVICE_NAME| == 26 && |ENV_SERVICE_NAMESPACE| == 31 && |ENV_SERVICE_VERSION| == 29 && |ATTRS| == 33;
    assert |DOTNET_PATH| == 45 && |JAVA_PATH| == 35 && |NODEJS_PATH| == 38 && |PYTHON_PATH| == 45;
    assert ENV_POD_NAME[14] != ENV_SERVICE_NAME[14] && ENV_POD_IP[5] != ENV_SERVICE_NAMESPACE[5];
  }

  predicate Places(edits: seq<Edit>, names: set<string>) {
    forall i :: 0 <= i < |edits| ==> edits[i].Downward? && edits[i].name in names
  }

  lemma LaterPlacementNames(t: Site)
    ensures Places(LaterPlacements(t), {ENV_NODE, ENV_POD_IP, ENV_POD_UID})
  {
  }

  lemma ServiceNames(t: Site)
    ensures Misses(ServiceEdits(t), {ENV_NAMESPACE, ENV_POD_NAME})
  {
    LaterNames();
    MissesConcat(IfSet(ENV_SERVICE_NAMESPACE, SiteNamespace(t)), IfSet(ENV_SERVICE_NAME, SiteServiceName(t)), {ENV_NAMESPACE, ENV_POD_NAME});
    MissesConcat(IfSet(ENV_SERVICE_NAMESPACE, SiteNamespace(t)) + IfSet(ENV_SERVICE_NAME, SiteServiceName(t)),
      IfSet(ENV_SERVICE_VERSION, SiteVersion(t)), {ENV_NAMESPACE, ENV_POD_NAME});
  }

  lemma BlankNames(cfg: SDKInject)
    ensures Misses(BlankEdits(cfg), {ENV_NAMESPACE, ENV_POD_NAME})
  {
    LaterNames();
    var names := {ENV_NAMESPACE, ENV_POD_NAME};
    var d, j := BlankIfDisabled(cfg, Dotnet, DOTNET_PATH), BlankIfDisabled(cfg, Java, JAVA_PATH);
    var n, p := BlankIfDisabled(cfg, Nodejs, NODEJS_PATH), BlankIfDisabled(cfg, Python, PYTHON_PATH);
    MissesConcat(d, j, names);
    MissesConcat(d + j, n, names);
    MissesConcat(d + j + n, p, names);
  }

  lemma EditsAfterMiss(t: Site, spanMetrics: bool)
    ensures Misses(EditsAfter(t, spanMetrics), {ENV_NAMESPACE, ENV_POD_NAME}) && NoDownward(EditsAfter(t, spanMetrics))
  {
    LaterNames();
    EditsSplit(t, [], spanMetrics);
    ServiceNames(t);
    BlankNames(t.cfg);
    MissesConcat(ServiceEdits(t), [Append(Render(AllAttrs(t, spanMetrics)))], {ENV_NAMESPACE, ENV_POD_NAME});
    MissesConcat(ServiceEdits(t) + [Append(Render(AllAttrs(t, spanMetrics)))], BlankEdits(t.cfg), {ENV_NAMESPACE, ENV_POD_NAME});
  }

  /** Placements of other variables followed by writes to other names are bystanders. */
  lemma PlacementsThenWrites(places: seq<Edit>, writes: seq<Edit>, names: set<string>, x: string, y: string)
    requires Places(places, names) && NoDownward(writes) && Misses(writes, {x})
    requires x !in names && y !in names && ATTRS !in names
    ensures Bystanders(places + writes, x, y) && WellFormed(places + writes)
    ensures Touches(writes, y) ==> Touches(places + writes, y)
  {
    var all := places + writes;
    assert forall i | 0 <= i < |writes| :: all[|places| + i] == writes[i];
    if Touches(writes, y) {
      var i :| 0 <= i < |writes| && Target(writes[i]) == y;
      assert Target(all[|places| + i]) == y;
    }
  }

  lemma TouchesConcat(a: seq<Edit>, b: seq<Edit>, n: string)
    requires Touches(a, n) || Touches(b, n)
    ensures Touches(a + b, n)
  {
    if Touches(a, n) {
      var i :| 0 <= i < |a| && Target(a[i]) == n;
      assert Target((a + b)[i]) == n;
    } else {
      var i :| 0 <= i < |b| && Target(b[i]) == n;
      assert Target((a + b)[|a| + i]) == n;
    }
  }

  lemma ServiceNameIsWritten(t: Site, spanMetrics: bool)
    requires SiteServiceName(t) != ""
    ensures Touches(EditsAfter(t, spanMetrics), ENV_SERVICE_NAME)
  {
    var a, b, c := IfSet(ENV_SERVICE_NAMESPACE, SiteNamespace(t)), IfSet(ENV_SERVICE_NAME, SiteServiceName(t)), IfSet(ENV_SERVICE_VERSION, SiteVersion(t));
    assert Target(b[0]) == ENV_SERVICE_NAME;
    TouchesConcat(a, b, ENV_SERVICE_NAME);
    TouchesConcat(a + b, c, ENV_SERVICE_NAME);
    TouchesConcat(a + b + c, [Append(Render(AllAttrs(t, spanMetrics)))], ENV_SERVICE_NAME);
    TouchesConcat(a + b + c + [Append(Render(AllAttrs(t, spanMetrics)))], BlankEdits(t.cfg), ENV_SERVICE_NAME);
  }

  lemma MissesMeansUntouched(edits: seq<Edit>, names: set<string>)
    requires Misses(edits, names)
    ensures forall n :: n in names ==> !Touches(edits, n)
  {
  }

  /** Where the merged list stands decides whether the service variable can read the downward one. */
  ghost predicate Visible(merged: seq<EnvVar>, source: string, service: string) {
    !Has(merged, service) || Before(merged, source, service) || Before(merged, ATTRS, service)
  }

  lemma PodNameBeforeServiceName(env: seq<EnvVar>, t: Site, ruleEnv: seq<EnvVar>, spanMetrics: bool)
    requires SiteServiceName(t) != ""
    ensures Before(Rewritten(env, t, ruleEnv, spanMetrics), ENV_POD_NAME, ENV_SERVICE_NAME)
      <==> Visible(Merged(env, ruleEnv), ENV_POD_NAME, ENV_SERVICE_NAME)
  {
    var ns := [Downward(ENV_NAMESPACE, "metadata.namespace")];
    var pre, post := Opening(t) + ns, LaterPlacements(t) + EditsAfter(t, spanMetrics);
    OpeningMisses(t);
    LaterNames();
    OpeningOnlyWrites(t);
    MissesConcat(Opening(t), ns, {ATTRS, ENV_POD_NAME, ENV_SERVICE_NAME});
    MissesMeansUntouched(pre, {ATTRS, ENV_POD_NAME, ENV_SERVICE_NAME});
    LaterPlacementNames(t);
    EditsAfterMiss(t, spanMetrics);
    ServiceNameIsWritten(t, spanMetrics);
    PlacementsThenWrites(LaterPlacements(t), EditsAfter(t, spanMetrics), {ENV_NODE, ENV_POD_IP, ENV_POD_UID}, ENV_POD_NAME, ENV_SERVICE_NAME);
    PlacedBeforeWritten(Merged(env, ruleEnv), pre, ENV_POD_NAME, "metadata.name", post, ENV_SERVICE_NAME);
    EditsAroundPodName(t, ruleEnv, spanMetrics);
    RunConcat(env, RuleEdits(ruleEnv), pre + [Downward(ENV_POD_NAME, "metadata.name")] + post);
  }

  lemma OpeningOnlyWrites(t: Site)
    ensures NoDownward(Opening(t))
  {
    FixedEditsPlaceNothing(t.cfg);
  }

  // ---- what the process reads

  lemma {:induction false} UndeclaredStaysOut(env: seq<EnvVar>, base: map<string, string>, resolve: Resolver, n: string)
    requires n !in base && forall i :: 0 <= i < |env| ==> env[i].name != n
    ensures n !in Environment(env, base, resolve)
    decreases |env|
  {
    if env != [] {
      UndeclaredStaysOut(env[..|env| - 1], base, resolve, n);
    }
  }

  lemma ExpandMissing(n: string, ctx: map<string, string>)
    requires n !in ctx && !HasChar(n, ')')
    ensures Expand(Reference(n), ctx) == Reference(n)
  {
    var other := ctx[n := Reference(n)];
    ExpandReference(n, "", other);
    var s := Reference(n);
    assert s + "" == s;
    assert s[0] == '$' && s[1] == '(' && s[2..] == n + ")";
    IndexCharAppend(n, ")", ')');
    assert IndexChar(n, ')') == |n|;
    assert s[2..2 + |n|] == n && s[3 + |n|..] == "";
    assert Parse(s) == [Ref(n)];
    assert Eval([Ref(n)], ctx) == Reference(n) + Eval([], ctx) by { assert [Ref(n)][1..] == []; }
  }

  /** A unique entry that holds one reference reads as the referenced value, or as the bare text. */
  lemma ReferenceEntry(r: seq<EnvVar>, source: string, path: string, service: string, base: map<string, string>, resolve: Resolver)
    requires Unique(r) && service != source && !HasChar(source, ')')
    requires Lookup(r, service) == Some(Literal(service, Reference(source)))
    requires Lookup(r, source) == Some(DownwardVar(source, path)) && resolve(FieldRef(path)).Some?
    ensures service in Environment(r, base, resolve)
    ensures Before(r, source, service) ==> Environment(r, base, resolve)[service] == resolve(FieldRef(path)).value
    ensures !Before(r, source, service) && source !in base ==> Environment(r, base, resolve)[service] == Reference(source)
  {
    var i := IndexOf(r, service);
    var ctx := ContextOf(r, service, base, resolve);
    LiteralDeclared(r, i, base, resolve);
    if Before(r, source, service) {
      DeclaredEarlier(r, source, path, service, base, resolve);
      ExpandReference(source, "", ctx);
      assert Reference(source) + "" == Reference(source);
    } else if source !in base {
      assert IndexOf(r, source) >= i;
      UndeclaredStaysOut(r[..i], base, resolve, source);
      ExpandMissing(source, ctx);
    }
  }

  lemma ServiceLayerHoldsName(t: Site)
    requires SiteServiceName(t) != ""
    ensures ENV_SERVICE_NAME in ServiceLayer(t) && ServiceLayer(t)[ENV_SERVICE_NAME] == Literal(ENV_SERVICE_NAME, SiteServiceName(t))
  {
    ServiceNamesAreDistinct();
    var b, c := OneIfSet(ENV_SERVICE_NAME, SiteServiceName(t)), OneIfSet(ENV_SERVICE_VERSION, SiteVersion(t));
    OneKeys(ENV_SERVICE_VERSION, SiteVersion(t));
    assert ENV_SERVICE_NAME in b && ENV_SERVICE_NAME !in c;
  }

  lemma ServiceIsWritten(env: seq<EnvVar>, t: Site, ruleEnv: seq<EnvVar>, spanMetrics: bool)
    requires SiteServiceName(t) != ""
    ensures Lookup(Rewritten(env, t, ruleEnv, spanMetrics), ENV_SERVICE_NAME) == Some(Literal(ENV_SERVICE_NAME, SiteServiceName(t)))
  {
    BlankLayerNames(t.cfg);
    ServiceNamesAreDistinct();
    ServiceLayerHoldsName(t);
    LayeredOverride(env, t, ruleEnv, spanMetrics, ENV_SERVICE_NAME);
  }

  lemma ServiceNamesAreDistinct()
    ensures ENV_SERVICE_NAME !in {ATTRS, ENV_SERVICE_VERSION, ENV_SERVICE_NAMESPACE, DOTNET_PATH, JAVA_PATH, NODEJS_PATH, PYTHON_PATH}
  {
    assert |ENV_SERVICE_NAME| == 26;
  }

  /**
   When the service name falls back to the pod's name, the process sees that name exactly when the
   author and the rule do not declare the service name ahead of both the pod name and the combined
   attributes; otherwise it sees the reference unexpanded.
   */
  lemma ServiceNameFallback(env: seq<EnvVar>, t: Site, ruleEnv: seq<EnvVar>, spanMetrics: bool,
      base: map<string, string>, resolve: Resolver)
    requires Unique(env) && FieldsResolve(t.cfg, resolve)
    requires SiteServiceName(t) == Reference(ENV_POD_NAME) && ENV_POD_NAME !in base
    ensures var seen := Environment(Rewritten(env, t, ruleEnv, spanMetrics), base, resolve);
      && ENV_SERVICE_NAME in seen
      && Get(seen, ENV_SERVICE_NAME)
         == if Visible(Merged(env, ruleEnv), ENV_POD_NAME, ENV_SERVICE_NAME) then FieldValue(resolve, ENV_POD_NAME)
            else Reference(ENV_POD_NAME)
  {
    PlainInstanceNames();
    NodeIsPlaced(t.cfg);
    LaterNames();
    UniquenessSurvives(env, t, ruleEnv, spanMetrics);
    ServiceIsWritten(env, t, ruleEnv, spanMetrics);
    DownwardIsWritten(env, t, ruleEnv, spanMetrics, ENV_POD_NAME);
    PodNameBeforeServiceName(env, t, ruleEnv, spanMetrics);
    ReferenceEntry(Rewritten(env, t, ruleEnv, spanMetrics), ENV_POD_NAME, DownwardPath(ENV_POD_NAME), ENV_SERVICE_NAME, base, resolve);
  }

  // ---- the service namespace

  lemma EditsAroundNamespace(t: Site, ruleEnv: seq<EnvVar>, spanMetrics: bool)
    ensures Edits(t, ruleEnv, spanMetrics) == RuleEdits(ruleEnv)
      + (Opening(t) + [Downward(ENV_NAMESPACE, "metadata.namespace")]
         + (([Downward(ENV_POD_NAME, "metadata.name")] + LaterPlacements(t)) + EditsAfter(t, spanMetrics)))
  {
    EditsAroundPodName(t, ruleEnv, spanMetrics);
    Regroup5(Opening(t), [Downward(ENV_NAMESPACE, "metadata.namespace")], [Downward(ENV_POD_NAME, "metadata.name")],
      LaterPlacements(t), EditsAfter(t, spanMetrics));
  }

  lemma Regroup5(o: seq<Edit>, n: seq<Edit>, p: seq<Edit>, l: seq<Edit>, z: seq<Edit>)
    ensures o + n + p + (l + z) == o + n + ((p + l) + z)
  {
  }

  lemma NamespaceIsTouched(t: Site, spanMetrics: bool)
    requires SiteNamespace(t) != ""
    ensures Touches(EditsAfter(t, spanMetrics), ENV_SERVICE_NAMESPACE)
  {
    var a, b, c := IfSet(ENV_SERVICE_NAMESPACE, SiteNamespace(t)), IfSet(ENV_SERVICE_NAME, SiteServiceName(t)), IfSet(ENV_SERVICE_VERSION, SiteVersion(t));
    var list := [Append(Render(AllAttrs(t, spanMetrics)))];
    assert Target(a[0]) == ENV_SERVICE_NAMESPACE;
    TouchesConcat(a, b, ENV_SERVICE_NAMESPACE);
    TouchesConcat(a + b, c, ENV_SERVICE_NAMESPACE);
    TouchesConcat(a + b + c, list, ENV_SERVICE_NAMESPACE);
    TouchesConcat(a + b + c + list, BlankEdits(t.cfg), ENV_SERVICE_NAMESPACE);
  }

  /** The namespace variable precedes the service namespace under the same condition on the merged list. */
  lemma NamespaceBeforeServiceNamespace(env: seq<EnvVar>, t: Site, ruleEnv: seq<EnvVar>, spanMetrics: bool)
    requires SiteNamespace(t) != ""
    ensures Before(Rewritten(env, t, ruleEnv, spanMetrics), ENV_NAMESPACE, ENV_SERVICE_NAMESPACE)
      <==> Visible(Merged(env, ruleEnv), ENV_NAMESPACE, ENV_SERVICE_NAMESPACE)
  {
    hide Opening, EditsAfter, LaterPlacements;
    var places := [Downward(ENV_POD_NAME, "metadata.name")] + LaterPlacements(t);
    var pre, post := Opening(t), places + EditsAfter(t, spanMetrics);
    OpeningMisses(t);
    LaterNames();
    OpeningOnlyWrites(t);
    MissesMeansUntouched(pre, {ATTRS, ENV_NAMESPACE, ENV_POD_NAME, ENV_SERVICE_NAME, ENV_SERVICE_NAMESPACE});
    LaterPlacementNames(t);
    assert Places(places, {ENV_POD_NAME, ENV_NODE, ENV_POD_IP, ENV_POD_UID});
    EditsAfterMiss(t, spanMetrics);
    NamespaceIsTouched(t, spanMetrics);
    PlacementsThenWrites(places, EditsAfter(t, spanMetrics), {ENV_POD_NAME, ENV_NODE, ENV_POD_IP, ENV_POD_UID}, ENV_NAMESPACE, ENV_SERVICE_NAMESPACE);
    PlacedBeforeWritten(Merged(env, ruleEnv), pre, ENV_NAMESPACE, "metadata.namespace", post, ENV_SERVICE_NAMESPACE);
    EditsAroundNamespace(t, ruleEnv, spanMetrics);
    RunConcat(env, RuleEdits(ruleEnv), pre + [Downward(ENV_NAMESPACE, "metadata.namespace")] + post);
  }

  lemma NamespaceIsNoOtherName()
    ensures ENV_SERVICE_NAMESPACE !in {ATTRS, ENV_SERVICE_NAME, ENV_SERVICE_VERSION, DOTNET_PATH, JAVA_PATH, NODEJS_PATH, PYTHON_PATH}
  {
    assert |ENV_SERVICE_NAMESPACE| == 31;
  }

  lemma ServiceLayerHoldsNamespace(t: Site)
    requires SiteNamespace(t) != ""
    ensures ENV_SERVICE_NAMESPACE in ServiceLayer(t)
    ensures ServiceLayer(t)[ENV_SERVICE_NAMESPACE] == Literal(ENV_SERVICE_NAMESPACE, SiteNamespace(t))
  {
    NamespaceIsNoOtherName();
    OneKeys(ENV_SERVICE_NAME, SiteServiceName(t));
    OneKeys(ENV_SERVICE_VERSION, SiteVersion(t));
  }

  lemma ServiceNamespaceIsWritten(env: seq<EnvVar>, t: Site, ruleEnv: seq<EnvVar>, spanMetrics: bool)
    requires SiteNamespace(t) != ""
    ensures Lookup(Rewritten(env, t, ruleEnv, spanMetrics), ENV_SERVICE_NAMESPACE) == Some(Literal(ENV_SERVICE_NAMESPACE, SiteNamespace(t)))
  {
    BlankLayerNames(t.cfg);
    NamespaceIsNoOtherName();
    ServiceLayerHoldsNamespace(t);
    hide ServiceLayer, BlankLayer, FixedLayer, DownwardLayer;
    LayeredOverride(env, t, ruleEnv, spanMetrics, ENV_SERVICE_NAMESPACE);
  }

  /**
   Without the annotation the service namespace refers to the pod's; the process sees that namespace
   exactly when the author and the rule do not declare the variable ahead of both the namespace
   variable and the combined attributes, and the bare reference otherwise.
   */
  lemma ServiceNamespaceFallback(env: seq<EnvVar>, t: Site, ruleEnv: seq<EnvVar>, spanMetrics: bool,
      base: map<string, string>, resolve: Resolver)
    requires Unique(env) && FieldsResolve(t.cfg, resolve)
    requires Get(t.meta.annotations, ANNOTATION_PREFIX + SERVICE_NAMESPACE) == "" && ENV_NAMESPACE !in base
    ensures var seen := Environment(Rewritten(env, t, ruleEnv, spanMetrics), base, resolve);
      && ENV_SERVICE_NAMESPACE in seen
      && Get(seen, ENV_SERVICE_NAMESPACE)
         == if Visible(Merged(env, ruleEnv), ENV_NAMESPACE, ENV_SERVICE_NAMESPACE) then FieldValue(resolve, ENV_NAMESPACE)
            else Reference(ENV_NAMESPACE)
  {
    assert SiteNamespace(t) == Reference(ENV_NAMESPACE) != "";
    PlainInstanceNames();
    NodeIsPlaced(t.cfg);
    LaterNames();
    hide Rewritten, Merged, Visible;
    UniquenessSurvives(env, t, ruleEnv, spanMetrics);
    ServiceNamespaceIsWritten(env, t, ruleEnv, spanMetrics);
    DownwardIsWritten(env, t, ruleEnv, spanMetrics, ENV_NAMESPACE);
    NamespaceBeforeServiceNamespace(env, t, ruleEnv, spanMetrics);
    ReferenceEntry(Rewritten(env, t, ruleEnv, spanMetrics), ENV_NAMESPACE, DownwardPath(ENV_NAMESPACE), ENV_SERVICE_NAMESPACE, base, resolve);
  }
}
