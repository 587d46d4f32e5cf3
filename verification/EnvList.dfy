/** A container's ordered environment list and the edits the injector makes to it. */
module EnvList {
  import opened Kube

  const ATTRS := "OTEL_INJECTOR_RESOURCE_ATTRIBUTES"

  /** Position of the first entry called `name`, or the length of the list. */
  function IndexOf(env: seq<EnvVar>, name: string): (i: nat)
    ensures i <= |env|
    ensures i < |env| ==> env[i].name == name
    ensures forall j :: 0 <= j < i ==> env[j].name != name
  {
    if env == [] || env[0].name == name then 0 else 1 + IndexOf(env[1..], name)
  }

  predicate Has(env: seq<EnvVar>, name: string) {
    IndexOf(env, name) < |env|
  }

  function Lookup(env: seq<EnvVar>, name: string): Option<EnvVar> {
    if Has(env, name) then Some(env[IndexOf(env, name)]) else None
  }

  predicate Unique(env: seq<EnvVar>) {
    forall i, j :: 0 <= i < j < |env| ==> env[i].name != env[j].name
  }

  /** `x` is declared, and so visible to references, before `y`. */
  predicate Before(env: seq<EnvVar>, x: string, y: string) {
    IndexOf(env, x) < IndexOf(env, y) < |env|
  }

  function Names(env: seq<EnvVar>): (names: seq<string>)
    ensures |names| == |env|
    ensures forall i :: 0 <= i < |env| ==> names[i] == env[i].name
  {
    seq(|env|, i requires 0 <= i < |env| => env[i].name)
  }

  /** Replaces the first entry of that name, or appends. */
  function Put(env: seq<EnvVar>, e: EnvVar): seq<EnvVar> {
    if Has(env, e.name) then env[IndexOf(env, e.name) := e] else env + [e]
  }

  function Without(env: seq<EnvVar>, name: string): seq<EnvVar> {
    var i := IndexOf(env, name);
    if i < |env| then env[..i] + env[i + 1..] else env
  }

  function Min(a: nat, b: nat): nat {
    if a < b then a else b
  }

  function InsertAt(env: seq<EnvVar>, pos: nat, e: EnvVar): seq<EnvVar>
    requires pos <= |env|
  {
    env[..pos] + [e] + env[pos..]
  }

  function DownwardVar(name: string, path: string): EnvVar {
    EnvVar(name, "", Some(FieldRef(path)))
  }

  /** Takes the variable out and puts its downward-API form back no later than the combined attributes. */
  function Place(env: seq<EnvVar>, name: string, path: string): seq<EnvVar> {
    var rest := Without(env, name);
    InsertAt(rest, Min(IndexOf(env, name), IndexOf(rest, ATTRS)), DownwardVar(name, path))
  }

  /** The static attributes a list already carries, "" when there are none. */
  function StaticPart(env: seq<EnvVar>): string {
    if Has(env, ATTRS) then env[IndexOf(env, ATTRS)].value else ""
  }

  function Combined(fixed: string, list: string): string {
    if fixed == "" then list else fixed + "," + list
  }

  /** Appends `list` to the static attributes; without any, `list` becomes the value. */
  function Extend(env: seq<EnvVar>, list: string): seq<EnvVar> {
    var source := if StaticPart(env) == "" then None else env[IndexOf(env, ATTRS)].valueFrom;
    Put(env, EnvVar(ATTRS, Combined(StaticPart(env), list), source))
  }

  datatype Edit =
    | Write(e: EnvVar)
    | Downward(name: string, path: string)
    | Append(list: string)

  function Apply(env: seq<EnvVar>, edit: Edit): seq<EnvVar> {
    match edit
    case Write(e) => Put(env, e)
    case Downward(n, p) => Place(env, n, p)
    case Append(l) => Extend(env, l)
  }

  function Run(env: seq<EnvVar>, edits: seq<Edit>): seq<EnvVar>
    decreases |edits|
  {
    if edits == [] then env else Run(Apply(env, edits[0]), edits[1..])
  }

  lemma {:induction false} RunConcat(env: seq<EnvVar>, a: seq<Edit>, b: seq<Edit>)
    ensures Run(env, a + b) == Run(Run(env, a), b)
    decreases |a|
  {
    if a == [] {
      assert a + b == b;
    } else {
      assert (a + b)[1..] == a[1..] + b;
      RunConcat(Apply(env, a[0]), a[1..], b);
    }
  }

  lemma RunSnoc(env: seq<EnvVar>, a: seq<Edit>, e: Edit)
    ensures Run(env, a + [e]) == Apply(Run(env, a), e)
  {
    RunConcat(env, a, [e]);
    assert Run(Run(env, a), [e]) == Apply(Run(env, a), e);
  }

  // ---- positions after one edit

  /** `i` is the first position of `name`. */
  predicate First(env: seq<EnvVar>, name: string, i: int) {
    0 <= i < |env| && env[i].name == name && forall j :: 0 <= j < i ==> env[j].name != name
  }

  lemma FirstIsIndex(env: seq<EnvVar>, name: string, i: int)
    requires First(env, name, i)
    ensures IndexOf(env, name) == i
  {
    assert IndexOf(env, name) <= i;
  }

  lemma PutIndex(env: seq<EnvVar>, e: EnvVar, name: string)
    ensures Has(env, name) ==> IndexOf(Put(env, e), name) == IndexOf(env, name)
    ensures !Has(env, name) && name == e.name ==> IndexOf(Put(env, e), name) == |env|
    ensures Has(Put(env, e), name) <==> Has(env, name) || name == e.name
    ensures Lookup(Put(env, e), name) == if name == e.name then Some(e) else Lookup(env, name)
  {
    var r := Put(env, e);
    if Has(env, name) {
      assert forall j | 0 <= j < |env| :: r[j].name == env[j].name;
      FirstIsIndex(r, name, IndexOf(env, name));
    } else if name == e.name {
      FirstIsIndex(r, name, |env|);
    } else {
      assert forall j | 0 <= j < |r| :: r[j].name != name;
    }
  }

  lemma WithoutIndex(env: seq<EnvVar>, name: string, other: string)
    requires other != name
    ensures Has(Without(env, name), other) <==> Has(env, other)
    ensures Has(env, other) ==>
      IndexOf(Without(env, name), other)
      == if IndexOf(env, other) < IndexOf(env, name) then IndexOf(env, other) else IndexOf(env, other) - 1
    ensures Lookup(Without(env, name), other) == Lookup(env, other)
  {
    var i, j, r := IndexOf(env, name), IndexOf(env, other), Without(env, name);
    if i < |env| {
      assert forall k | 0 <= k < |r| :: r[k] == env[if k < i then k else k + 1];
      if j < |env| {
        FirstIsIndex(r, other, if j < i then j else j - 1);
      } else {
        assert forall k | 0 <= k < |r| :: r[k].name != other;
      }
    }
  }

  lemma InsertIndex(env: seq<EnvVar>, pos: nat, e: EnvVar, other: string)
    requires pos <= |env| && other != e.name
    ensures Has(InsertAt(env, pos, e), other) <==> Has(env, other)
    ensures Has(env, other) ==>
      IndexOf(InsertAt(env, pos, e), other)
      == if IndexOf(env, other) < pos then IndexOf(env, other) else IndexOf(env, other) + 1
    ensures Lookup(InsertAt(env, pos, e), other) == Lookup(env, other)
  {
    var j, r := IndexOf(env, other), InsertAt(env, pos, e);
    assert forall k | 0 <= k < |r| && k != pos :: r[k] == env[if k < pos then k else k - 1];
    if j < |env| {
      FirstIsIndex(r, other, if j < pos then j else j + 1);
    } else {
      assert forall k | 0 <= k < |r| :: r[k].name != other;
    }
  }

  /** The slot the downward variable ends in: no later than before, and no later than the attributes. */
  lemma PlaceOwnIndex(env: seq<EnvVar>, name: string, path: string)
    requires name != ATTRS
    ensures Lookup(Place(env, name, path), name) == Some(DownwardVar(name, path))
    ensures IndexOf(Place(env, name, path), name) <= IndexOf(env, name)
    ensures Has(env, ATTRS) ==> Before(Place(env, name, path), name, ATTRS)
  {
    var rest := Without(env, name);
    var pos := Min(IndexOf(env, name), IndexOf(rest, ATTRS));
    var r := Place(env, name, path);
    assert r[pos] == DownwardVar(name, path);
    assert forall k | 0 <= k < pos :: r[k] == rest[k] == env[k];
    FirstIsIndex(r, name, pos);
    WithoutIndex(env, name, ATTRS);
    InsertIndex(rest, pos, DownwardVar(name, path), ATTRS);
  }

  lemma PlaceOther(env: seq<EnvVar>, name: string, path: string, other: string)
    requires other != name
    ensures Lookup(Place(env, name, path), other) == Lookup(env, other)
    ensures Has(Place(env, name, path), other) <==> Has(env, other)
  {
    var rest := Without(env, name);
    WithoutIndex(env, name, other);
    InsertIndex(rest, Min(IndexOf(env, name), IndexOf(rest, ATTRS)), DownwardVar(name, path), other);
  }

  /** Every other entry keeps what was declared before it. */
  lemma PlaceKeepsOrder(env: seq<EnvVar>, name: string, path: string, x: string, y: string)
    requires name != ATTRS && y != name && Before(env, x, y)
    ensures Before(Place(env, name, path), x, y)
  {
    var rest := Without(env, name);
    var pos := Min(IndexOf(env, name), IndexOf(rest, ATTRS));
    WithoutIndex(env, name, y);
    InsertIndex(rest, pos, DownwardVar(name, path), y);
    if x == name {
      PlaceOwnIndex(env, name, path);
    } else {
      WithoutIndex(env, name, x);
      InsertIndex(rest, pos, DownwardVar(name, path), x);
    }
  }

  // ---- each edit, by position

  /** `i` is the first position of `name`, or the length of a list that lacks it. */
  predicate IsFirstOrEnd(env: seq<EnvVar>, name: string, i: nat) {
    i <= |env| && (i < |env| ==> env[i].name == name) && forall j :: 0 <= j < i ==> env[j].name != name
  }

  lemma FirstOrEndIsIndex(env: seq<EnvVar>, name: string, i: nat)
    requires IsFirstOrEnd(env, name, i)
    ensures IndexOf(env, name) == i
  {
    if i < |env| { FirstIsIndex(env, name, i); }
  }

  /** A write takes the place of the first entry of that name, or comes last. */
  lemma WrittenExactly(env: seq<EnvVar>, e: EnvVar, i: nat)
    requires IsFirstOrEnd(env, e.name, i)
    ensures Apply(env, Write(e)) == if i < |env| then env[i := e] else env + [e]
  {
    FirstOrEndIsIndex(env, e.name, i);
  }

  /** An append extends the static attributes after a comma; without any, the list is the whole value. */
  lemma AppendedExactly(env: seq<EnvVar>, list: string, i: nat)
    requires IsFirstOrEnd(env, "OTEL_INJECTOR_RESOURCE_ATTRIBUTES", i)
    ensures Apply(env, Append(list)) ==
      if i == |env| then env + [EnvVar("OTEL_INJECTOR_RESOURCE_ATTRIBUTES", list, None)]
      else if env[i].value == "" then env[i := EnvVar("OTEL_INJECTOR_RESOURCE_ATTRIBUTES", list, None)]
      else env[i := env[i].(value := env[i].value + "," + list)]
  {
    FirstOrEndIsIndex(env, "OTEL_INJECTOR_RESOURCE_ATTRIBUTES", i);
  }

  /**
   A downward variable keeps its place, or comes last if it is new, unless the combined attributes
   stand in front of that: then it goes right before them, and everything between moves back by one.
   */
  lemma PlacedExactly(env: seq<EnvVar>, name: string, path: string, i: nat, a: nat)
    requires name != "OTEL_INJECTOR_RESOURCE_ATTRIBUTES"
    requires IsFirstOrEnd(env, name, i) && IsFirstOrEnd(env, "OTEL_INJECTOR_RESOURCE_ATTRIBUTES", a)
    ensures var placed := EnvVar(name, "", Some(FieldRef(path)));
      Apply(env, Downward(name, path)) ==
        if i < a then env[i := placed]
        else if i == |env| then env[..a] + [placed] + env[a..]
        else env[..a] + [placed] + env[a..i] + env[i + 1..]
  {
    FirstOrEndIsIndex(env, name, i);
    FirstOrEndIsIndex(env, ATTRS, a);
    AttrsWithout(env, name, i, a);
    if i < a {
      SpliceSame(env, i, DownwardVar(name, path));
    } else if i < |env| {
      SpliceBefore(env, i, a, DownwardVar(name, path));
    }
  }

  lemma AttrsWithout(env: seq<EnvVar>, name: string, i: nat, a: nat)
    requires name != ATTRS && IndexOf(env, name) == i && IndexOf(env, ATTRS) == a
    ensures Min(i, IndexOf(Without(env, name), ATTRS)) == Min(i, a)
  {
    WithoutIndex(env, name, ATTRS);
  }

  lemma SpliceSame(env: seq<EnvVar>, i: nat, e: EnvVar)
    requires i < |env|
    ensures InsertAt(env[..i] + env[i + 1..], i, e) == env[i := e]
  {
    var rest := env[..i] + env[i + 1..];
    assert rest[..i] == env[..i] && rest[i..] == env[i + 1..];
  }

  lemma SpliceBefore(env: seq<EnvVar>, i: nat, a: nat, e: EnvVar)
    requires a <= i < |env|
    ensures InsertAt(env[..i] + env[i + 1..], a, e) == env[..a] + [e] + env[a..i] + env[i + 1..]
  {
    var rest := env[..i] + env[i + 1..];
    assert rest[..a] == env[..a] && rest[a..] == env[a..i] + env[i + 1..];
  }

  // ---- whole runs of edits

  predicate WellFormed(edits: seq<Edit>) {
    forall i :: 0 <= i < |edits| && edits[i].Downward? ==> edits[i].name != ATTRS
  }

  predicate IsTarget(edits: seq<Edit>, name: string) {
    exists i :: 0 <= i < |edits| && edits[i].Downward? && edits[i].name == name
  }

  function Target(edit: Edit): string {
    match edit
    case Write(e) => e.name
    case Downward(n, _) => n
    case Append(_) => ATTRS
  }

  lemma TailWellFormed(edits: seq<Edit>)
    requires WellFormed(edits) && edits != []
    ensures WellFormed(edits[1..])
    ensures forall n :: IsTarget(edits[1..], n) ==> IsTarget(edits, n)
    ensures forall n :: IsTarget(edits, n) ==> IsTarget(edits[1..], n) || (edits[0].Downward? && edits[0].name == n)
  {
    assert forall i | 0 <= i < |edits| - 1 :: edits[1..][i] == edits[i + 1];
    forall n | IsTarget(edits, n) && !(edits[0].Downward? && edits[0].name == n) ensures IsTarget(edits[1..], n) {
      var i :| 0 <= i < |edits| && edits[i].Downward? && edits[i].name == n;
      assert edits[1..][i - 1] == edits[i];
    }
  }

  lemma ApplyKeepsOrder(env: seq<EnvVar>, edit: Edit, x: string, y: string)
    requires edit.Downward? ==> edit.name != ATTRS && edit.name != y
    requires Before(env, x, y)
    ensures Before(Apply(env, edit), x, y)
  {
    match edit {
      case Write(e) => PutIndex(env, e, x); PutIndex(env, e, y);
      case Downward(n, p) => PlaceKeepsOrder(env, n, p, x, y);
      case Append(l) =>
        ExtendIsPut(env, l);
        PutIndex(env, Appended(env, l), x);
        PutIndex(env, Appended(env, l), y);
    }
  }

  function Appended(env: seq<EnvVar>, list: string): EnvVar {
    EnvVar(ATTRS, Combined(StaticPart(env), list), if StaticPart(env) == "" then None else env[IndexOf(env, ATTRS)].valueFrom)
  }

  lemma ExtendIsPut(env: seq<EnvVar>, list: string)
    ensures Extend(env, list) == Put(env, Appended(env, list))
    ensures Has(Extend(env, list), ATTRS)
  {
    PutIndex(env, Appended(env, list), ATTRS);
  }

  /**
   No edit run breaks a reference: whatever was declared before an entry that is not itself a
   downward variable is still declared before it.
   */
  lemma {:induction false} RunKeepsOrder(env: seq<EnvVar>, edits: seq<Edit>, x: string, y: string)
    requires WellFormed(edits) && !IsTarget(edits, y) && Before(env, x, y)
    ensures Before(Run(env, edits), x, y)
    decreases |edits|
  {
    if edits != [] {
      TailWellFormed(edits);
      assert edits[0].Downward? ==> IsTarget(edits, edits[0].name);
      ApplyKeepsOrder(env, edits[0], x, y);
      RunKeepsOrder(Apply(env, edits[0]), edits[1..], x, y);
    }
  }

  lemma ApplyHas(env: seq<EnvVar>, edit: Edit, name: string)
    requires edit.Downward? ==> edit.name != ATTRS
    ensures Has(Apply(env, edit), name) <==> Has(env, name) || name == Target(edit)
  {
    match edit {
      case Write(e) => PutIndex(env, e, name);
      case Downward(n, p) => if name == n { PlaceOwnIndex(env, n, p); } else { PlaceOther(env, n, p, name); }
      case Append(l) => ExtendIsPut(env, l); PutIndex(env, Appended(env, l), name);
    }
  }

  lemma {:induction false} RunKeepsNames(env: seq<EnvVar>, edits: seq<Edit>, name: string)
    requires WellFormed(edits) && Has(env, name)
    ensures Has(Run(env, edits), name)
    decreases |edits|
  {
    if edits != [] {
      TailWellFormed(edits);
      ApplyHas(env, edits[0], name);
      RunKeepsNames(Apply(env, edits[0]), edits[1..], name);
    }
  }

  lemma WithoutKeepsUnique(env: seq<EnvVar>, name: string)
    requires Unique(env)
    ensures Unique(Without(env, name)) && !Has(Without(env, name), name)
  {
    var i, rest := IndexOf(env, name), Without(env, name);
    assert forall k | 0 <= k < |rest| :: rest[k] == env[if k < i then k else k + 1];
    if i < |env| {
      assert forall k | 0 <= k < |env| && k != i :: env[k].name != env[i].name;
    }
  }

  lemma InsertKeepsUnique(env: seq<EnvVar>, pos: nat, e: EnvVar)
    requires Unique(env) && !Has(env, e.name) && pos <= |env|
    ensures Unique(InsertAt(env, pos, e))
  {
    var r := InsertAt(env, pos, e);
    assert r[pos] == e;
    assert forall k | 0 <= k < |r| && k != pos :: r[k] == env[if k < pos then k else k - 1];
  }

  lemma ApplyKeepsUnique(env: seq<EnvVar>, edit: Edit)
    requires Unique(env)
    ensures Unique(Apply(env, edit))
  {
    if edit.Downward? {
      var n, rest := edit.name, Without(env, edit.name);
      WithoutKeepsUnique(env, n);
      InsertKeepsUnique(rest, Min(IndexOf(env, n), IndexOf(rest, ATTRS)), DownwardVar(n, edit.path));
    }
  }

  lemma {:induction false} RunKeepsUnique(env: seq<EnvVar>, edits: seq<Edit>)
    requires Unique(env)
    ensures Unique(Run(env, edits))
    decreases |edits|
  {
    if edits != [] {
      ApplyKeepsUnique(env, edits[0]);
      RunKeepsUnique(Apply(env, edits[0]), edits[1..]);
    }
  }

  /** The variable is present, and precedes the combined attributes if they are. */
  predicate Ready(env: seq<EnvVar>, name: string) {
    Has(env, name) && (Has(env, ATTRS) ==> Before(env, name, ATTRS))
  }

  lemma ApplyKeepsReady(env: seq<EnvVar>, edit: Edit, name: string)
    requires edit.Downward? ==> edit.name != ATTRS
    requires name != ATTRS
    requires Ready(env, name) || (edit.Downward? && edit.name == name)
    ensures Ready(Apply(env, edit), name)
  {
    ApplyHas(env, edit, name);
    ApplyHas(env, edit, ATTRS);
    if edit.Downward? && edit.name == name {
      PlaceOwnIndex(env, name, edit.path);
      PlaceOther(env, name, edit.path, ATTRS);
    } else if Has(env, ATTRS) {
      ApplyKeepsOrder(env, edit, name, ATTRS);
    } else if Has(Apply(env, edit), ATTRS) {
      var e := if edit.Write? then edit.e else Appended(env, edit.list);
      if edit.Append? { ExtendIsPut(env, edit.list); }
      PutIndex(env, e, name);
      PutIndex(env, e, ATTRS);
    }
  }

  /** Every downward variable a run inserts ends up declared before the combined attributes. */
  lemma {:induction false} RunMakesReady(env: seq<EnvVar>, edits: seq<Edit>, name: string)
    requires WellFormed(edits) && name != ATTRS
    requires Ready(env, name) || IsTarget(edits, name)
    ensures Ready(Run(env, edits), name)
    decreases |edits|
  {
    if edits != [] {
      TailWellFormed(edits);
      if Ready(env, name) || (edits[0].Downward? && edits[0].name == name) {
        ApplyKeepsReady(env, edits[0], name);
      }
      RunMakesReady(Apply(env, edits[0]), edits[1..], name);
    }
  }

  // ---- the run as an override of one map by another

  function WriteOf(edit: Edit): map<string, EnvVar> {
    match edit
    case Write(e) => if e.name == ATTRS then map[] else map[e.name := e]
    case Downward(n, p) => map[n := DownwardVar(n, p)]
    case Append(_) => map[]
  }

  /** The last value a run writes to each name, the combined attributes apart. */
  function Writes(edits: seq<Edit>): map<string, EnvVar> {
    if edits == [] then map[] else WriteOf(edits[0]) + Writes(edits[1..])
  }

  lemma {:induction false} WritesConcat(a: seq<Edit>, b: seq<Edit>)
    ensures Writes(a + b) == Writes(a) + Writes(b)
  {
    if a == [] {
      assert a + b == b;
    } else {
      assert (a + b)[1..] == a[1..] + b;
      WritesConcat(a[1..], b);
      OverrideIsAssociative(WriteOf(a[0]), Writes(a[1..]), Writes(b));
    }
  }

  lemma OverrideIsAssociative(a: map<string, EnvVar>, b: map<string, EnvVar>, c: map<string, EnvVar>)
    ensures a + b + c == a + (b + c)
  {
  }

  function Layered(over: map<string, EnvVar>, name: string, under: Option<EnvVar>): Option<EnvVar> {
    if name in over then Some(over[name]) else under
  }

  /** The edited list answers every lookup as a plain map override would. */
  lemma {:induction false} RunRefinesOverride(env: seq<EnvVar>, edits: seq<Edit>, name: string)
    requires WellFormed(edits) && name != ATTRS
    ensures Lookup(Run(env, edits), name) == Layered(Writes(edits), name, Lookup(env, name))
    decreases |edits|
  {
    if edits != [] {
      TailWellFormed(edits);
      var next := Apply(env, edits[0]);
      RunRefinesOverride(next, edits[1..], name);
      match edits[0] {
        case Write(e) => PutIndex(env, e, name);
        case Downward(n, p) => if name == n { PlaceOwnIndex(env, n, p); } else { PlaceOther(env, n, p, name); }
        case Append(l) => ExtendIsPut(env, l); PutIndex(env, Appended(env, l), name);
      }
    }
  }

  function AttrsStep(edit: Edit, under: Option<EnvVar>): Option<EnvVar> {
    match edit
    case Write(e) => if e.name == ATTRS then Some(e) else under
    case Downward(_, _) => under
    case Append(l) => Some(AppendTo(under, l))
  }

  /** What a run makes of the combined attributes. */
  function AttrsAfter(edits: seq<Edit>, under: Option<EnvVar>): Option<EnvVar> {
    if edits == [] then under else AttrsAfter(edits[1..], AttrsStep(edits[0], under))
  }

  function AppendTo(under: Option<EnvVar>, list: string): EnvVar {
    if under.Some? && under.value.value != "" then EnvVar(ATTRS, under.value.value + "," + list, under.value.valueFrom)
    else EnvVar(ATTRS, list, None)
  }

  lemma {:induction false} RunAttrs(env: seq<EnvVar>, edits: seq<Edit>)
    requires WellFormed(edits)
    ensures Lookup(Run(env, edits), ATTRS) == AttrsAfter(edits, Lookup(env, ATTRS))
    decreases |edits|
  {
    if edits != [] {
      TailWellFormed(edits);
      RunAttrs(Apply(env, edits[0]), edits[1..]);
      match edits[0] {
        case Write(e) => PutIndex(env, e, ATTRS);
        case Downward(n, p) => PlaceOther(env, n, p, ATTRS);
        case Append(l) => ExtendIsPut(env, l); PutIndex(env, Appended(env, l), ATTRS);
      }
    }
  }

  // ---- running the same edits twice

  /** Every name the run touches is there, and every downward variable already precedes the attributes. */
  predicate Settled(env: seq<EnvVar>, edits: seq<Edit>) {
    forall i :: 0 <= i < |edits| ==>
      Has(env, Target(edits[i])) && (edits[i].Downward? ==> Before(env, edits[i].name, ATTRS))
  }

  lemma PlaceInPlace(env: seq<EnvVar>, name: string, path: string)
    requires name != ATTRS && Before(env, name, ATTRS)
    ensures Place(env, name, path) == env[IndexOf(env, name) := DownwardVar(name, path)]
  {
    var i, rest := IndexOf(env, name), Without(env, name);
    WithoutIndex(env, name, ATTRS);
    assert Min(i, IndexOf(rest, ATTRS)) == i;
    TakeOutPutBack(env, i, DownwardVar(name, path));
  }

  lemma TakeOutPutBack(env: seq<EnvVar>, i: nat, e: EnvVar)
    requires i < |env|
    ensures InsertAt(env[..i] + env[i + 1..], i, e) == env[i := e]
  {
    var rest := env[..i] + env[i + 1..];
    assert rest[..i] == env[..i] && rest[i..] == env[i + 1..];
  }

  lemma SettledApply(env: seq<EnvVar>, edit: Edit)
    requires edit.Downward? ==> edit.name != ATTRS && Before(env, edit.name, ATTRS)
    requires Has(env, Target(edit))
    ensures Names(Apply(env, edit)) == Names(env)
  {
    if edit.Downward? {
      PlaceInPlace(env, edit.name, edit.path);
    }
  }

  lemma NamesDecideIndex(a: seq<EnvVar>, b: seq<EnvVar>, name: string)
    requires Names(a) == Names(b)
    ensures IndexOf(a, name) == IndexOf(b, name)
  {
    assert forall i | 0 <= i < |a| :: a[i].name == Names(a)[i] == Names(b)[i] == b[i].name;
  }

  /** On such a list the run changes values only: the order of declarations stays. */
  lemma {:induction false} SettledRun(env: seq<EnvVar>, edits: seq<Edit>)
    requires WellFormed(edits) && Settled(env, edits)
    ensures Names(Run(env, edits)) == Names(env)
    decreases |edits|
  {
    if edits != [] {
      TailWellFormed(edits);
      var next := Apply(env, edits[0]);
      SettledApply(env, edits[0]);
      forall i | 0 <= i < |edits| - 1
        ensures Has(next, Target(edits[1..][i]))
        ensures edits[1..][i].Downward? ==> Before(next, edits[1..][i].name, ATTRS)
      {
        assert edits[1..][i] == edits[i + 1];
        NamesDecideIndex(next, env, Target(edits[i + 1]));
        NamesDecideIndex(next, env, ATTRS);
      }
      SettledRun(next, edits[1..]);
    }
  }

  lemma TailIsWellFormed(edits: seq<Edit>)
    requires WellFormed(edits) && edits != []
    ensures WellFormed(edits[1..]) && (edits[0].Downward? ==> edits[0].name != ATTRS)
  {
  }

  lemma {:induction false} RunHasTargets(env: seq<EnvVar>, edits: seq<Edit>, i: nat)
    requires WellFormed(edits) && i < |edits|
    ensures Has(Run(env, edits), Target(edits[i]))
    decreases |edits|
  {
    TailIsWellFormed(edits);
    hide Apply, WellFormed;
    if i == 0 {
      ApplyHas(env, edits[0], Target(edits[0]));
      RunKeepsNames(Apply(env, edits[0]), edits[1..], Target(edits[0]));
    } else {
      assert edits[1..][i - 1] == edits[i];
      RunHasTargets(Apply(env, edits[0]), edits[1..], i - 1);
    }
  }

  predicate Appends(edits: seq<Edit>) {
    exists i :: 0 <= i < |edits| && edits[i].Append?
  }

  lemma RunSettles(env: seq<EnvVar>, edits: seq<Edit>)
    requires WellFormed(edits) && Appends(edits)
    ensures Settled(Run(env, edits), edits)
    ensures Has(Run(env, edits), ATTRS)
  {
    var k :| 0 <= k < |edits| && edits[k].Append?;
    RunHasTargets(env, edits, k);
    forall i | 0 <= i < |edits|
      ensures Has(Run(env, edits), Target(edits[i]))
      ensures edits[i].Downward? ==> Before(Run(env, edits), edits[i].name, ATTRS)
    {
      RunHasTargets(env, edits, i);
      if edits[i].Downward? {
        assert IsTarget(edits, edits[i].name);
        RunMakesReady(env, edits, edits[i].name);
      }
    }
  }

  lemma LookupAt(env: seq<EnvVar>, i: nat)
    requires Unique(env) && i < |env|
    ensures Lookup(env, env[i].name) == Some(env[i])
  {
    FirstIsIndex(env, env[i].name, i);
  }

  /** Running the same edits again keeps the order, and every value but that of the combined attributes. */
  lemma RunTwice(env: seq<EnvVar>, edits: seq<Edit>)
    requires WellFormed(edits) && Unique(env) && Appends(edits)
    ensures Names(Run(Run(env, edits), edits)) == Names(Run(env, edits))
    ensures forall i :: 0 <= i < |Run(env, edits)| && Run(env, edits)[i].name != ATTRS ==>
      Run(Run(env, edits), edits)[i] == Run(env, edits)[i]
  {
    var once := Run(env, edits);
    var twice := Run(once, edits);
    RunSettles(env, edits);
    SettledRun(once, edits);
    RunKeepsUnique(env, edits);
    RunKeepsUnique(once, edits);
    forall i | 0 <= i < |once| && once[i].name != ATTRS ensures twice[i] == once[i] {
      var n := once[i].name;
      assert Names(twice)[i] == Names(once)[i] == n;
      LookupAt(once, i);
      LookupAt(twice, i);
      RunRefinesOverride(env, edits, n);
      RunRefinesOverride(once, edits, n);
    }
  }
}
