/** The payload of a selector ConfigMap: the injection rules and the restart targets. */
module Payload {
  import opened Kube
  import opened Strings
  import opened Rules

  /** A YAML document, as its decoder leaves it. */
  datatype Yaml<+T> = Malformed | Doc(value: T)

  datatype Eligible = Eligible(namespace: string, kind: string, name: string, language: string)

  datatype RestartCriterion = RestartCriterion(namespace: string, kind: string, name: string, language: string)

  /** `node` is the selector annotation, if present; the two documents are the data keys, if present. */
  datatype ConfigMap = ConfigMap(
    node: Option<string>,
    instrumentation: Option<Yaml<InjectConfig>>,
    eligible: Option<Yaml<seq<Option<Eligible>>>>)

  const NO_CONFIG := InjectConfig("", [], false, [])

  const RESTART_KINDS: set<string> := {"Deployment", "ReplicaSet", "StatefulSet", "DaemonSet"}

  function CriterionOf(e: Eligible): RestartCriterion {
    RestartCriterion(e.namespace, e.kind, e.name, e.language)
  }

  predicate IsUsable(e: Eligible) {
    e.namespace != "" && e.kind != "" && e.kind in RESTART_KINDS
  }

  /** The criteria an eligibility list declares. */
  ghost function Declared(list: seq<Option<Eligible>>): set<RestartCriterion> {
    set e | e in list && e.Some? && IsUsable(e.value) :: CriterionOf(e.value)
  }

  /** Comparing two entries dereferences both, so sorting panics on a null entry. */
  predicate SortPanics(list: seq<Option<Eligible>>) {
    |list| >= 2 && None in list
  }

  datatype Parse = Invalid | Panicked | Parsed(inst: InjectConfig, targets: set<RestartCriterion>)

  ghost function ParseOf(cm: ConfigMap): Parse {
    if cm.instrumentation == Some(Malformed) then Invalid
    else
      var inst := if cm.instrumentation.Some? then cm.instrumentation.value.value else NO_CONFIG;
      match cm.eligible
      case None => Parsed(inst, {})
      case Some(Malformed) => Invalid
      case Some(Doc(list)) => if SortPanics(list) then Panicked else Parsed(inst, Declared(list))
  }

  /** An instrumentation document with no installing rule asks for cleanup only. */
  ghost predicate AsksForCleanup(cm: ConfigMap) {
    cm.instrumentation.Some? && cm.instrumentation.value.Doc?
    && forall i :: 0 <= i < |cm.instrumentation.value.value.rules| ==> cm.instrumentation.value.value.rules[i].config.mode == Skip
  }

  /** A usable entry of the list has the target's namespace, kind, name and language. */
  ghost predicate IsAskedForBy(t: RestartCriterion, list: seq<Option<Eligible>>) {
    exists i :: 0 <= i < |list| && list[i].Some? && var e := list[i].value;
      && e.namespace == t.namespace && e.kind == t.kind && e.name == t.name && e.language == t.language
      && e.namespace != "" && e.kind in {"Deployment", "ReplicaSet", "StatefulSet", "DaemonSet"}
  }

  lemma DeclaredAreAskedFor(list: seq<Option<Eligible>>, t: RestartCriterion)
    ensures t in Declared(list) <==> IsAskedForBy(t, list)
  {
    if t in Declared(list) {
      var e :| e in list && e.Some? && IsUsable(e.value) && CriterionOf(e.value) == t;
      var i :| 0 <= i < |list| && list[i] == e;
    }
    if IsAskedForBy(t, list) {
      var i :| 0 <= i < |list| && list[i].Some? && list[i].value.namespace == t.namespace && list[i].value.kind == t.kind
        && list[i].value.name == t.name && list[i].value.language == t.language
        && list[i].value.namespace != "" && list[i].value.kind in {"Deployment", "ReplicaSet", "StatefulSet", "DaemonSet"};
      assert list[i] in list && IsUsable(list[i].value) && CriterionOf(list[i].value) == t;
    }
  }

  /** When a payload is invalid, makes the parser panic, or is loaded, and as what. */
  lemma ParseByDocuments(cm: ConfigMap)
    ensures ParseOf(cm) == Invalid <==> cm.instrumentation == Some(Malformed) || cm.eligible == Some(Malformed)
    ensures ParseOf(cm) == Panicked <==>
      && cm.instrumentation != Some(Malformed) && cm.eligible.Some? && cm.eligible.value.Doc?
      && |cm.eligible.value.value| >= 2 && exists i :: 0 <= i < |cm.eligible.value.value| && cm.eligible.value.value[i] == None
    ensures ParseOf(cm).Parsed? ==>
      && ParseOf(cm).inst == (if cm.instrumentation.Some? then cm.instrumentation.value.value else InjectConfig("", [], false, []))
      && forall t :: t in ParseOf(cm).targets <==> cm.eligible.Some? && IsAskedForBy(t, cm.eligible.value.value)
  {
    if ParseOf(cm).Parsed? && cm.eligible.Some? {
      forall t ensures t in ParseOf(cm).targets <==> IsAskedForBy(t, cm.eligible.value.value) {
        DeclaredAreAskedFor(cm.eligible.value.value, t);
      }
    }
  }

  predicate EligibleLess(a: Eligible, b: Eligible) {
    if a.namespace != b.namespace then Less(a.namespace, b.namespace) else Less(a.name, b.name)
  }

  predicate InOrder(list: seq<Eligible>) {
    forall i, j :: 0 <= i < j < |list| ==> !EligibleLess(list[j], list[i])
  }

  lemma NotLessIsTransitive(a: Eligible, b: Eligible, c: Eligible)
    requires !EligibleLess(b, a) && !EligibleLess(c, b)
    ensures !EligibleLess(c, a)
  {
    LessIsTotal(a.namespace, b.namespace);
    LessIsTotal(b.namespace, c.namespace);
    LessIsTotal(a.name, b.name);
    LessIsTotal(b.name, c.name);
    if EligibleLess(c, a) {
      if c.namespace != a.namespace {
        if a.namespace == b.namespace || b.namespace == c.namespace {
        } else {
          LessIsTransitive(a.namespace, b.namespace, c.namespace);
          LessIsAsymmetric(a.namespace, c.namespace);
        }
        if a.namespace == b.namespace { LessIsAsymmetric(c.namespace, a.namespace); }
        if b.namespace == c.namespace { LessIsAsymmetric(c.namespace, a.namespace); }
      } else if a.namespace == b.namespace {
        LessIsAsymmetric(c.name, a.name);
        if a.name != b.name && b.name != c.name { LessIsTransitive(a.name, b.name, c.name); LessIsAsymmetric(a.name, c.name); }
      } else {
        LessIsAsymmetric(a.namespace, b.namespace);
      }
    }
  }

  function InsertEligible(e: Eligible, list: seq<Eligible>): (r: seq<Eligible>)
    requires InOrder(list)
    ensures InOrder(r) && multiset(r) == multiset(list) + multiset{e}
  {
    if list == [] then [e]
    else if EligibleLess(e, list[0]) then
      assert forall i | 0 <= i < |list| :: !EligibleLess(list[i], e) by {
        LessExcludesMore(e, list[0]);
        forall i | 0 < i < |list| ensures !EligibleLess(list[i], e) { NotLessIsTransitive(e, list[0], list[i]); }
      }
      [e] + list
    else
      assert list == [list[0]] + list[1..];
      var r := InsertEligible(e, list[1..]);
      assert forall x | x in r :: !EligibleLess(x, list[0]) by {
        forall x | x in r ensures !EligibleLess(x, list[0]) {
          assert x in multiset(r);
          assert x == e || x in multiset(list[1..]);
        }
      }
      [list[0]] + r
  }

  lemma LessExcludesMore(a: Eligible, b: Eligible)
    requires EligibleLess(a, b)
    ensures !EligibleLess(b, a)
  {
    if a.namespace != b.namespace { LessIsAsymmetric(a.namespace, b.namespace); } else { LessIsAsymmetric(a.name, b.name); }
  }

  /** Orders the list by namespace, then name; entries that tie keep no promised order. */
  method SortEligible(list: seq<Eligible>) returns (r: seq<Eligible>)
    ensures InOrder(r) && multiset(r) == multiset(list)
    ensures forall i, j :: 0 <= i < j < |r| ==>
      !Less(r[j].namespace, r[i].namespace) && (r[i].namespace == r[j].namespace ==> !Less(r[j].name, r[i].name))
  {
    r := [];
    var i := 0;
    while i < |list|
      invariant 0 <= i <= |list|
      invariant InOrder(r) && multiset(r) == multiset(list[..i])
    {
      assert list[..i + 1] == list[..i] + [list[i]];
      r := InsertEligible(list[i], r);
      i := i + 1;
    }
    assert list[..i] == list;
    forall i, j | 0 <= i < j < |r|
      ensures !Less(r[j].namespace, r[i].namespace) && (r[i].namespace == r[j].namespace ==> !Less(r[j].name, r[i].name))
    {
      assert !EligibleLess(r[j], r[i]);
      if Less(r[j].namespace, r[i].namespace) {
        LessIsAsymmetric(r[j].namespace, r[i].namespace);
      }
    }
  }

  method NonNull(list: seq<Option<Eligible>>) returns (r: seq<Eligible>)
    ensures forall e :: e in r <==> Some(e) in list
  {
    r := [];
    var i := 0;
    while i < |list|
      invariant 0 <= i <= |list|
      invariant forall e :: e in r <==> Some(e) in list[..i]
    {
      if list[i].Some? {
        r := r + [list[i].value];
      }
      i := i + 1;
    }
    assert list[..i] == list;
  }

  /** Sorts, then drops entries without namespace or kind and entries of unknown kinds. */
  method RestartTargets(list: seq<Option<Eligible>>) returns (targets: seq<RestartCriterion>)
    requires !SortPanics(list)
    ensures Elements(targets) == Declared(list)
    ensures forall t :: t in targets <==> IsAskedForBy(t, list)
  {
    var present := NonNull(list);
    var sorted := SortEligible(present);
    assert forall e :: e in sorted <==> e in multiset(sorted);
    assert forall e :: e in present <==> e in multiset(present);
    targets := [];
    var i := 0;
    while i < |sorted|
      invariant 0 <= i <= |sorted|
      invariant forall t :: t in targets <==> exists e :: e in sorted[..i] && IsUsable(e) && CriterionOf(e) == t
    {
      if IsUsable(sorted[i]) {
        targets := targets + [CriterionOf(sorted[i])];
      }
      assert sorted[..i + 1] == sorted[..i] + [sorted[i]];
      i := i + 1;
    }
    assert sorted[..i] == sorted;
    forall t | t in Declared(list) ensures t in targets {
      var e :| e in list && e.Some? && IsUsable(e.value) && CriterionOf(e.value) == t;
      assert e.value in sorted;
    }
    forall t | t in targets ensures t in Declared(list) {
      var e :| e in sorted && IsUsable(e) && CriterionOf(e) == t;
      assert Some(e) in list;
    }
    TargetsAreAskedFor(list, targets);
  }

  lemma TargetsAreAskedFor(list: seq<Option<Eligible>>, targets: seq<RestartCriterion>)
    requires Elements(targets) == Declared(list)
    ensures forall t :: t in targets <==> IsAskedForBy(t, list)
  {
    forall t ensures t in targets <==> IsAskedForBy(t, list) {
      DeclaredAreAskedFor(list, t);
      assert t in targets <==> t in Elements(targets);
    }
  }

  datatype ParseStatus = ParseOk | ParseInvalid | ParsePanicked

  method ParseConfigMap(cm: ConfigMap) returns (status: ParseStatus, inst: InjectConfig, targets: seq<RestartCriterion>)
    ensures status.ParseInvalid? <==> ParseOf(cm).Invalid?
    ensures status.ParsePanicked? <==> ParseOf(cm).Panicked?
    ensures status.ParseOk? ==> ParseOf(cm) == Parsed(inst, Elements(targets))
  {
    inst, targets := NO_CONFIG, [];
    if cm.instrumentation.Some? {
      match cm.instrumentation.value {
        case Malformed => return ParseInvalid, inst, targets;
        case Doc(cfg) => inst := cfg;
      }
    }
    if cm.eligible.Some? {
      match cm.eligible.value {
        case Malformed => return ParseInvalid, inst, targets;
        case Doc(list) =>
          if SortPanics(list) {
            return ParsePanicked, inst, targets;
          }
          targets := RestartTargets(list);
      }
    }
    assert cm.eligible.None? ==> Elements(targets) == {};
    return ParseOk, inst, targets;
  }
}
