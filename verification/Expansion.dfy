/**
 How the kubelet reads a container's environment: `$(NAME)` references are
 expanded against the variables declared before them.
 */
module Expansion {
  import opened Kube
  import opened Strings

  /** A value, once scanned, is a sequence of literal characters and references. */
  datatype Token = Lit(c: char) | Ref(name: string)

  /** The kubelet's scan. `$$` escapes, an unterminated `$(` is literal text. */
  function Parse(s: string): (tokens: seq<Token>)
    decreases |s|
  {
    if s == "" then []
    else if s[0] != '$' || |s| == 1 then [Lit(s[0])] + Parse(s[1..])
    else if s[1] == '$' then [Lit('$')] + Parse(s[2..])
    else if s[1] == '(' then
      var i := IndexChar(s[2..], ')');
      if i < |s| - 2 then [Ref(s[2..2 + i])] + Parse(s[3 + i..])
      else [Lit('$'), Lit('(')] + Parse(s[2..])
    else [Lit('$'), Lit(s[1])] + Parse(s[2..])
  }

  /** A reference to an undeclared name stays as it was written. */
  function Eval(tokens: seq<Token>, ctx: map<string, string>): string {
    if tokens == [] then ""
    else
      (match tokens[0]
       case Lit(c) => [c]
       case Ref(n) => if n in ctx then ctx[n] else "$(" + n + ")")
      + Eval(tokens[1..], ctx)
  }

  function Expand(s: string, ctx: map<string, string>): string {
    Eval(Parse(s), ctx)
  }

  type Resolver = ValueSource -> Option<string>

  /** What one declaration adds to the environment built so far. */
  function Declare(ctx: map<string, string>, e: EnvVar, resolve: Resolver): map<string, string> {
    if e.value != "" then ctx[e.name := Expand(e.value, ctx)]
    else match e.valueFrom
      case None => ctx[e.name := ""]
      case Some(source) =>
        match resolve(source)
        case None => ctx
        case Some(v) => ctx[e.name := v]
  }

  /** The environment after the declarations of `env`; `base` is what exists before the list (service variables, envFrom). */
  function Environment(env: seq<EnvVar>, base: map<string, string>, resolve: Resolver): map<string, string> {
    if env == [] then base
    else Declare(Environment(env[..|env| - 1], base, resolve), env[|env| - 1], resolve)
  }

  /** Whether a scan of `s` ends inside a `$(` that a later `)` would close. */
  predicate Open(s: string)
    decreases |s|
  {
    if |s| <= 1 then false
    else if s[0] != '$' then Open(s[1..])
    else if s[1] == '(' then
      var i := IndexChar(s[2..], ')');
      i == |s| - 2 || Open(s[3 + i..])
    else Open(s[2..])
  }

  lemma IndexCharAppend(a: string, b: string, c: char)
    ensures IndexChar(a, c) < |a| ==> IndexChar(a + b, c) == IndexChar(a, c)
    ensures IndexChar(a, c) == |a| ==> IndexChar(a + b, c) == |a| + IndexChar(b, c)
  {
    var i := IndexChar(a + b, c);
    if IndexChar(a, c) < |a| {
      assert (a + b)[IndexChar(a, c)] == c;
      assert i <= IndexChar(a, c);
    } else {
      assert forall j | 0 <= j < |a| :: (a + b)[j] == a[j] != c;
      if IndexChar(b, c) < |b| { assert (a + b)[|a| + IndexChar(b, c)] == c; }
    }
  }

  /** Text joined with a comma is scanned part by part, unless an unterminated reference of the first part is closed by the second. */
  lemma {:induction false} ParseComma(a: string, b: string)
    requires Open(a) ==> !HasChar(b, ')')
    ensures Parse(a + "," + b) == Parse(a) + [Lit(',')] + Parse(b)
    decreases |a|
  {
    var s := a + "," + b;
    if a == "" {
      assert s[1..] == b;
      assert s[0] == ',';
    } else if a[0] != '$' {
      assert s[1..] == a[1..] + "," + b;
      ParseComma(a[1..], b);
      Regroup([Lit(a[0])], Parse(a[1..]), Parse(b));
    } else if |a| == 1 {
      assert s[1] == ',';
      assert s[2..] == b;
      assert Parse(a) == [Lit('$')] + Parse(a[1..]);
    } else {
      assert s[2..] == a[2..] + "," + b;
      if a[1] == '(' {
        ParseCommaAfterOpener(a, b);
      } else {
        ParseComma(a[2..], b);
        Regroup(if a[1] == '$' then [Lit('$')] else [Lit('$'), Lit(a[1])], Parse(a[2..]), Parse(b));
      }
    }
  }

  /** The scan of a terminated reference. */
  lemma ParseReference(s: string, i: nat)
    requires |s| > 1 && s[0] == '$' && s[1] == '(' && i == IndexChar(s[2..], ')') < |s| - 2
    ensures Parse(s) == [Ref(s[2..2 + i])] + Parse(s[3 + i..])
  {
  }

  lemma JoinedClosing(a: string, b: string)
    requires |a| > 1
    ensures (a + "," + b)[2..] == a[2..] + ("," + b)
    ensures IndexChar(a[2..], ')') < |a| - 2 ==> IndexChar((a + "," + b)[2..], ')') == IndexChar(a[2..], ')')
    ensures IndexChar(a[2..], ')') == |a| - 2 && !HasChar(b, ')') ==> IndexChar((a + "," + b)[2..], ')') == |a + "," + b| - 2
    ensures IndexChar(a[2..], ')') == |a| - 2 && HasChar(b, ')') ==> IndexChar((a + "," + b)[2..], ')') < |a + "," + b| - 2
  {
    var s := a + "," + b;
    assert s[2..] == a[2..] + ("," + b);
    IndexCharAppend(a[2..], "," + b, ')');
    if HasChar(b, ')') {
      var k :| 0 <= k < |b| && b[k] == ')';
      assert ("," + b)[k + 1] == ')';
    } else {
      assert forall k | 0 <= k < |b| :: ("," + b)[k + 1] == b[k];
    }
  }

  lemma ParseUnterminated(s: string)
    requires |s| > 1 && s[0] == '$' && s[1] == '(' && IndexChar(s[2..], ')') == |s| - 2
    ensures Parse(s) == [Lit('$'), Lit('(')] + Parse(s[2..])
  {
  }

  lemma {:induction false} ParseCommaAfterOpener(a: string, b: string)
    requires |a| > 1 && a[0] == '$' && a[1] == '('
    requires Open(a) ==> !HasChar(b, ')')
    ensures Parse(a + "," + b) == Parse(a) + [Lit(',')] + Parse(b)
    decreases |a|, 0
  {
    var s := a + "," + b;
    var i := IndexChar(a[2..], ')');
    hide Parse;
    JoinedClosing(a, b);
    if i < |a| - 2 {
      assert s[2..2 + i] == a[2..2 + i];
      assert s[3 + i..] == a[3 + i..] + "," + b;
      ParseReference(s, i);
      ParseReference(a, i);
      ParseComma(a[3 + i..], b);
      Regroup([Ref(a[2..2 + i])], Parse(a[3 + i..]), Parse(b));
    } else {
      assert s[2..] == a[2..] + "," + b;
      ParseUnterminated(s);
      ParseUnterminated(a);
      ParseComma(a[2..], b);
      Regroup([Lit('$'), Lit('(')], Parse(a[2..]), Parse(b));
    }
  }

  lemma Regroup(head: seq<Token>, x: seq<Token>, y: seq<Token>)
    ensures head + (x + [Lit(',')] + y) == head + x + [Lit(',')] + y
  {
  }

  /** Otherwise the scan of the first part is not even a prefix of the joint scan. */
  lemma {:induction false} OpenSwallows(a: string, b: string)
    requires Open(a) && HasChar(b, ')')
    ensures !(Parse(a) <= Parse(a + "," + b))
    decreases |a|
  {
    var s := a + "," + b;
    if a[0] != '$' {
      assert s[1..] == a[1..] + "," + b;
      OpenSwallows(a[1..], b);
      PrefixTail([Lit(a[0])], Parse(a[1..]), Parse(s[1..]));
    } else if a[1] != '(' {
      assert s[2..] == a[2..] + "," + b;
      OpenSwallows(a[2..], b);
      PrefixTail(Parse(s)[..|Parse(s)| - |Parse(s[2..])|], Parse(a[2..]), Parse(s[2..]));
    } else {
      OpenSwallowsAfterOpener(a, b);
    }
  }

  lemma {:induction false} OpenSwallowsAfterOpener(a: string, b: string)
    requires Open(a) && a[0] == '$' && a[1] == '(' && HasChar(b, ')')
    ensures !(Parse(a) <= Parse(a + "," + b))
    decreases |a|, 0
  {
    var s := a + "," + b;
    var i := IndexChar(a[2..], ')');
    JoinedClosing(a, b);
    ParseReference(s, IndexChar(s[2..], ')'));
    if i < |a| - 2 {
      assert s[2..2 + i] == a[2..2 + i];
      assert s[3 + i..] == a[3 + i..] + "," + b;
      ParseReference(a, i);
      OpenSwallows(a[3 + i..], b);
      hide Parse;
      PrefixTail([Ref(a[2..2 + i])], Parse(a[3 + i..]), Parse(s[3 + i..]));
    } else {
      assert Parse(a)[0] == Lit('$');
      hide Parse;
      assert Parse(s)[0].Ref?;
    }
  }

  lemma PrefixTail<T>(head: seq<T>, a: seq<T>, b: seq<T>)
    ensures head + a <= head + b <==> a <= b
  {
    if head + a <= head + b {
      assert forall i | 0 <= i < |a| :: a[i] == (head + a)[|head| + i] == (head + b)[|head| + i] == b[i];
    }
  }

  lemma {:induction false} EvalConcat(a: seq<Token>, b: seq<Token>, ctx: map<string, string>)
    ensures Eval(a + b, ctx) == Eval(a, ctx) + Eval(b, ctx)
  {
    if a == [] {
      assert a + b == b;
    } else {
      assert (a + b)[1..] == a[1..] + b;
      EvalConcat(a[1..], b, ctx);
    }
  }

  /** The scans of the parts, with a literal comma between neighbours. */
  function ParseEach(parts: seq<string>): seq<Token> {
    if |parts| == 0 then []
    else if |parts| == 1 then Parse(parts[0])
    else Parse(parts[0]) + [Lit(',')] + ParseEach(parts[1..])
  }

  /** No part is left open before text that holds a `)`. */
  predicate Separable(parts: seq<string>) {
    |parts| <= 1
    || ((Open(parts[0]) ==> !HasChar(Join(parts[1..], ','), ')')) && Separable(parts[1..]))
  }

  /** A comma-joined value is read part by part exactly when its parts are separable. */
  lemma {:induction false} JoinedScan(parts: seq<string>)
    ensures Parse(Join(parts, ',')) == ParseEach(parts) <==> Separable(parts)
  {
    if |parts| > 1 {
      var a, b := parts[0], Join(parts[1..], ',');
      assert Join(parts, ',') == a + "," + b;
      JoinedScan(parts[1..]);
      if Open(a) && HasChar(b, ')') {
        OpenSwallows(a, b);
        assert Parse(a) <= ParseEach(parts);
      } else {
        ParseComma(a, b);
        assert ParseEach(parts)[|Parse(a)| + 1..] == ParseEach(parts[1..]);
        assert Parse(Join(parts, ','))[|Parse(a)| + 1..] == Parse(b);
      }
    }
  }

  /** Expands every part on its own. */
  function ExpandEach(parts: seq<string>, ctx: map<string, string>): (r: seq<string>)
    ensures |r| == |parts|
    ensures forall i :: 0 <= i < |parts| ==> r[i] == Expand(parts[i], ctx)
  {
    if parts == [] then [] else [Expand(parts[0], ctx)] + ExpandEach(parts[1..], ctx)
  }

  lemma {:induction false} EvalEach(parts: seq<string>, ctx: map<string, string>)
    ensures Eval(ParseEach(parts), ctx) == Join(ExpandEach(parts, ctx), ',')
  {
    if |parts| == 1 {
      assert ExpandEach(parts, ctx) == [Expand(parts[0], ctx)];
    } else if |parts| > 1 {
      var a := Parse(parts[0]);
      EvalEach(parts[1..], ctx);
      EvalConcat(a + [Lit(',')], ParseEach(parts[1..]), ctx);
      EvalConcat(a, [Lit(',')], ctx);
      assert Eval([Lit(',')], ctx) == ",";
      assert ExpandEach(parts, ctx)[1..] == ExpandEach(parts[1..], ctx);
    }
  }

  lemma ExpandOne(c: char, rest: string, ctx: map<string, string>)
    requires c != '$'
    ensures Expand([c] + rest, ctx) == [c] + Expand(rest, ctx)
  {
    var s := [c] + rest;
    assert s[1..] == rest;
    assert ([Lit(c)] + Parse(rest))[1..] == Parse(rest);
  }

  /** Text with no `$` is its own expansion, whatever follows it. */
  lemma {:induction false} ExpandPlain(a: string, b: string, ctx: map<string, string>)
    requires !HasChar(a, '$')
    ensures Expand(a + b, ctx) == a + Expand(b, ctx)
  {
    hide Expand;
    if a == "" {
      assert a + b == b && a + Expand(b, ctx) == Expand(b, ctx);
    } else {
      assert a[0] != '$';
      assert forall i | 0 <= i < |a| - 1 :: a[1..][i] == a[i + 1];
      ExpandPlain(a[1..], b, ctx);
      ExpandOne(a[0], a[1..] + b, ctx);
      assert a == [a[0]] + a[1..];
      Reassociated([a[0]], a[1..], b);
      Reassociated([a[0]], a[1..], Expand(b, ctx));
    }
  }

  lemma Reassociated(a: string, b: string, c: string)
    ensures a + b + c == a + (b + c)
  {
  }

  /** The reference text the injector writes for a variable. */
  function Reference(name: string): string {
    "$(" + name + ")"
  }

  /** A reference to a declared variable becomes that variable's value. */
  lemma ExpandReference(name: string, b: string, ctx: map<string, string>)
    requires name in ctx && !HasChar(name, ')')
    ensures Expand(Reference(name) + b, ctx) == ctx[name] + Expand(b, ctx)
  {
    var s := Reference(name) + b;
    assert s[0] == '$' && s[1] == '(';
    assert s[2..] == name + (")" + b);
    IndexCharAppend(name, ")" + b, ')');
    assert IndexChar(name, ')') == |name|;
    assert IndexChar(")" + b, ')') == 0;
    assert s[2..2 + |name|] == name;
    assert s[3 + |name|..] == b;
    assert Parse(s) == [Ref(name)] + Parse(b);
    assert ([Ref(name)] + Parse(b))[1..] == Parse(b);
  }

  /** The value a unique name ends with is the one declared at its position. */
  lemma {:induction false} LaterDeclarationsKeep(env: seq<EnvVar>, i: nat, base: map<string, string>, resolve: Resolver)
    requires i < |env|
    requires forall j :: i < j < |env| ==> env[j].name != env[i].name
    requires env[i].value == "" && env[i].valueFrom.Some? && resolve(env[i].valueFrom.value).Some?
    ensures env[i].name in Environment(env, base, resolve)
    ensures Environment(env, base, resolve)[env[i].name] == resolve(env[i].valueFrom.value).value
    decreases |env|
  {
    var before := env[..|env| - 1];
    if i < |env| - 1 {
      assert forall j | i < j < |before| :: before[j] == env[j];
      LaterDeclarationsKeep(before, i, base, resolve);
    }
  }

  // ---- the scan and the declarations, case by case

  lemma ParseCases(b: string, c: char)
    requires c != '$' && c != '('
    ensures Parse("$") == [Lit('$')] && Parse("") == []
    ensures Parse(['$', '$'] + b) == [Lit('$')] + Parse(b)
    ensures Parse(['$', c] + b) == [Lit('$'), Lit(c)] + Parse(b)
    ensures !HasChar(b, ')') ==> Parse(['$', '('] + b) == [Lit('$'), Lit('(')] + Parse(b)
  {
    assert "$"[1..] == "" && (['$', '$'] + b)[2..] == b && (['$', c] + b)[2..] == b && (['$', '('] + b)[2..] == b;
    assert Parse("$") == [Lit('$')] + Parse("");
  }

  lemma EvalCases(x: char, y: char, rest: seq<Token>, ctx: map<string, string>)
    ensures Eval([Lit(x)] + rest, ctx) == [x] + Eval(rest, ctx)
    ensures Eval([Lit(x), Lit(y)] + rest, ctx) == [x, y] + Eval(rest, ctx)
  {
    assert ([Lit(x)] + rest)[1..] == rest;
    assert ([Lit(x), Lit(y)] + rest)[1..] == [Lit(y)] + rest && ([Lit(y)] + rest)[1..] == rest;
    assert [x] + ([y] + Eval(rest, ctx)) == [x, y] + Eval(rest, ctx);
  }

  /**
   A doubled dollar sign stands for one; a lone one, one before any other character, and an opening
   that nothing closes are literal text.
   */
  lemma ExpandDollar(b: string, c: char, ctx: map<string, string>)
    requires c != '$' && c != '('
    ensures Expand("$", ctx) == "$" && Expand("", ctx) == ""
    ensures Expand(['$', '$'] + b, ctx) == "$" + Expand(b, ctx)
    ensures Expand(['$', c] + b, ctx) == ['$', c] + Expand(b, ctx)
    ensures !HasChar(b, ')') ==> Expand(['$', '('] + b, ctx) == ['$', '('] + Expand(b, ctx)
  {
    ParseCases(b, c);
    EvalCases('$', c, Parse(b), ctx);
    EvalCases('$', '(', Parse(b), ctx);
    EvalCases('$', '$', [], ctx);
    assert [Lit('$')] + [] == [Lit('$')];
    hide Parse;
  }

  /** A reference to a name that is not declared stays as it is written. */
  lemma ExpandUndeclared(name: string, b: string, ctx: map<string, string>)
    requires name !in ctx && !HasChar(name, ')')
    ensures Expand("$(" + name + ")" + b, ctx) == "$(" + name + ")" + Expand(b, ctx)
  {
    var s := "$(" + name + ")" + b;
    assert s[2..] == name + (")" + b);
    IndexCharAppend(name, ")" + b, ')');
    assert IndexChar(name, ')') == |name| && IndexChar(")" + b, ')') == 0;
    assert s[2..2 + |name|] == name && s[3 + |name|..] == b;
    ParseReference(s, |name|);
    hide Parse;
    assert ([Ref(name)] + Parse(b))[1..] == Parse(b);
  }

  /** A text value is expanded in what came before; a source is read as it is, and one that yields nothing declares nothing. */
  lemma DeclaredLast(env: seq<EnvVar>, e: EnvVar, base: map<string, string>, resolve: Resolver)
    ensures Environment([], base, resolve) == base
    ensures var was, now := Environment(env, base, resolve), Environment(env + [e], base, resolve);
      && (e.value != "" ==> now == was[e.name := Expand(e.value, was)])
      && (e.value == "" && e.valueFrom == None ==> now == was[e.name := ""])
      && (forall source :: e.value == "" && e.valueFrom == Some(source) && resolve(source) == None ==> now == was)
      && (forall source, v :: e.value == "" && e.valueFrom == Some(source) && resolve(source) == Some(v) ==> now == was[e.name := v])
  {
    assert (env + [e])[..|env|] == env;
    hide Expand;
  }
}
