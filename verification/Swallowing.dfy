/**
 What a reference inside a longer value becomes: it is read as a reference exactly when the text in
 front of it closes every reference it opens; otherwise it ends up inside the name of another one.
 */
module Swallowing {
  import opened Strings
  import opened Expansion

  /** No declared variable has an `=` in its name. The API server refuses such names. */
  predicate ProperNames(names: set<string>) {
    forall n :: n in names ==> !HasChar(n, '=')
  }

  /** What is left of text that ends inside an open reference, when that reference is never resolved. */
  function Kept(s: string, ctx: map<string, string>): string
    requires Open(s)
    decreases |s|
  {
    if s[0] != '$' then [s[0]] + Kept(s[1..], ctx)
    else if s[1] == '(' then
      var i := IndexChar(s[2..], ')');
      if i == |s| - 2 then s else Eval([Ref(s[2..2 + i])], ctx) + Kept(s[3 + i..], ctx)
    else (if s[1] == '$' then "$" else s[..2]) + Kept(s[2..], ctx)
  }

  // ---- one scanning step at a time

  lemma EvalFirst(t: Token, rest: seq<Token>, ctx: map<string, string>)
    ensures Eval([t] + rest, ctx) == Eval([t], ctx) + Eval(rest, ctx)
  {
    EvalConcat([t], rest, ctx);
  }

  lemma ExpandEscape(c: char, rest: string, ctx: map<string, string>)
    requires c != '('
    ensures Expand(['$', c] + rest, ctx) == (if c == '$' then "$" else ['$', c]) + Expand(rest, ctx)
  {
    var s := ['$', c] + rest;
    assert s[2..] == rest;
    EvalFirst(Lit('$'), Parse(rest), ctx);
    EvalFirst(Lit(c), Parse(rest), ctx);
    assert Eval([Lit('$')], ctx) == "$" && Eval([Lit(c)], ctx) == [c];
    if c != '$' {
      EvalFirst(Lit('$'), [Lit(c)] + Parse(rest), ctx);
      assert [Lit('$'), Lit(c)] + Parse(rest) == [Lit('$')] + ([Lit(c)] + Parse(rest));
    }
  }

  lemma ExpandClosed(n: string, rest: string, ctx: map<string, string>)
    requires !HasChar(n, ')')
    ensures Expand("$(" + n + ")" + rest, ctx) == Eval([Ref(n)], ctx) + Expand(rest, ctx)
  {
    var s := "$(" + n + ")" + rest;
    assert s[2..] == n + (")" + rest);
    IndexCharAppend(n, ")" + rest, ')');
    assert IndexChar(n, ')') == |n| && IndexChar(")" + rest, ')') == 0;
    assert s[2..2 + |n|] == n && s[3 + |n|..] == rest;
    EvalFirst(Ref(n), Parse(rest), ctx);
  }

  lemma SplitAtClosing(s: string)
    requires |s| > 1 && s[0] == '$' && s[1] == '(' && IndexChar(s[2..], ')') < |s| - 2
    ensures var i := IndexChar(s[2..], ')');
      s == "$(" + s[2..2 + i] + ")" + s[3 + i..] && !HasChar(s[2..2 + i], ')')
  {
    var i := IndexChar(s[2..], ')');
    assert s[2 + i] == ')';
    assert s[2..2 + i] == s[2..][..i];
  }

  /** Text `z` up to the first `)`, with an `=` in it. */
  predicate IsSwallowed(z: string) {
    !HasChar(z, ')') && HasChar(z, '=')
  }

  lemma UndeclaredTail(b: string, z: string, ctx: map<string, string>)
    requires IsSwallowed(z) && ProperNames(ctx.Keys)
    ensures Eval([Ref(b + z)], ctx) == "$(" + (b + z) + ")"
  {
    var e :| 0 <= e < |z| && z[e] == '=';
    assert (b + z)[|b| + e] == '=';
    assert b + z !in ctx;
    assert [Ref(b + z)][1..] == [];
  }

  lemma Prepend(a: string, k: string, z: string, e: string)
    ensures a + (k + z + ")" + e) == (a + k) + z + ")" + e
  {
  }

  /** Open text swallows what follows up to the first `)`: all of it reads as written. */
  lemma {:induction false} OpenKeeps(s: string, z: string, w: string, ctx: map<string, string>)
    requires Open(s) && IsSwallowed(z) && ProperNames(ctx.Keys)
    ensures Expand(s + (z + ")" + w), ctx) == Kept(s, ctx) + z + ")" + Expand(w, ctx)
    decreases |s|
  {
    hide Expand, IsSwallowed;
    if s[0] == '$' && s[1] == '(' && IndexChar(s[2..], ')') == |s| - 2 {
      OpenEnd(s, z, w, ctx);
    } else {
      var first, rest := OpenStep(s, z + ")" + w, ctx);
      OpenKeeps(rest, z, w, ctx);
      Prepend(first, Kept(rest, ctx), z, Expand(w, ctx));
    }
  }

  /** One scanning step over text that stays open. */
  lemma OpenStep(s: string, y: string, ctx: map<string, string>) returns (first: string, rest: string)
    requires Open(s) && !(s[0] == '$' && s[1] == '(' && IndexChar(s[2..], ')') == |s| - 2)
    ensures |rest| < |s| && Open(rest)
    ensures Kept(s, ctx) == first + Kept(rest, ctx)
    ensures Expand(s + y, ctx) == first + Expand(rest + y, ctx)
  {
    hide Expand;
    if s[0] != '$' {
      first, rest := [s[0]], s[1..];
      assert s + y == [s[0]] + (rest + y);
      ExpandOne(s[0], rest + y, ctx);
    } else if s[1] != '(' {
      first, rest := if s[1] == '$' then "$" else ['$', s[1]], s[2..];
      assert s[..2] == ['$', s[1]];
      assert s + y == ['$', s[1]] + (rest + y);
      ExpandEscape(s[1], rest + y, ctx);
    } else {
      var i := IndexChar(s[2..], ')');
      first, rest := Eval([Ref(s[2..2 + i])], ctx), s[3 + i..];
      SplitAtClosing(s);
      SplitTail(s[2..2 + i], rest, y);
      ExpandClosed(s[2..2 + i], rest + y, ctx);
    }
  }

  lemma SplitTail(n: string, rest: string, y: string)
    ensures "$(" + n + ")" + rest + y == "$(" + n + ")" + (rest + y)
  {
  }

  lemma OpenEnd(s: string, z: string, w: string, ctx: map<string, string>)
    requires |s| > 1 && s[0] == '$' && s[1] == '(' && IndexChar(s[2..], ')') == |s| - 2
    requires IsSwallowed(z) && ProperNames(ctx.Keys)
    ensures Expand(s + (z + ")" + w), ctx) == s + z + ")" + Expand(w, ctx)
  {
    hide Expand;
    var b := s[2..];
    assert s == "$(" + b;
    assert !HasChar(b + z, ')') by {
      assert forall i | 0 <= i < |b + z| :: (b + z)[i] == if i < |b| then b[i] else z[i - |b|];
    }
    assert s + (z + ")" + w) == "$(" + (b + z) + ")" + w;
    ExpandClosed(b + z, w, ctx);
    UndeclaredTail(b, z, ctx);
    assert "$(" + (b + z) + ")" == s + z + ")";
  }

  lemma ExpandComma(a: string, b: string, ctx: map<string, string>)
    requires !Open(a)
    ensures Expand(a + "," + b, ctx) == Expand(a, ctx) + "," + Expand(b, ctx)
  {
    ParseComma(a, b);
    EvalConcat(Parse(a) + [Lit(',')], Parse(b), ctx);
    EvalConcat(Parse(a), [Lit(',')], ctx);
    assert Eval([Lit(',')], ctx) == "," by { assert [Lit(',')][1..] == []; }
  }

  /** A head of text that is itself no reference, such as `key=`. */
  predicate IsHead(head: string) {
    !HasChar(head, '$') && !HasChar(head, ')') && HasChar(head, '=')
  }

  lemma FirstItemSeen(head: string, n: string, rest: string, ctx: map<string, string>)
    requires IsHead(head) && !HasChar(n, ')') && n in ctx
    ensures Expand(head + Reference(n) + rest, ctx) == head + ctx[n] + Expand(rest, ctx)
  {
    ExpandPlain(head, Reference(n) + rest, ctx);
    ExpandReference(n, rest, ctx);
    hide Expand, Reference;
    assert head + Reference(n) + rest == head + (Reference(n) + rest);
  }

  /** After closed text the reference resolves. */
  lemma ClosedResolves(pre: string, head: string, n: string, more: string, ctx: map<string, string>)
    requires IsHead(head) && !HasChar(n, ')') && n in ctx && !Open(pre)
    ensures Expand(pre + "," + (head + Reference(n) + more), ctx) == Expand(pre, ctx) + "," + head + ctx[n] + Expand(more, ctx)
  {
    hide Expand, Reference, IsHead;
    ExpandComma(pre, head + Reference(n) + more, ctx);
    FirstItemSeen(head, n, more, ctx);
    Flatten(Expand(pre, ctx) + ",", head, ctx[n], Expand(more, ctx));
  }

  lemma Flatten(a: string, b: string, c: string, d: string)
    ensures a + (b + c + d) == a + b + c + d
  {
  }

  lemma HeadIsSwallowed(head: string, n: string)
    requires IsHead(head) && !HasChar(n, ')')
    ensures IsSwallowed("," + head + "$(" + n)
  {
    var z := "," + head + "$(" + n;
    assert forall i | 0 <= i < |z| ::
      z[i] == if i == 0 then ',' else if i < |head| + 1 then head[i - 1] else if i < |head| + 3 then "$("[i - 1 - |head|] else n[i - 3 - |head|];
    var e :| 0 <= e < |head| && head[e] == '=';
    assert z[e + 1] == '=';
  }

  /** After open text it stays as written, and so does the rest of the text that was left open. */
  lemma OpenLeaves(pre: string, head: string, n: string, more: string, ctx: map<string, string>)
    requires IsHead(head) && !HasChar(n, ')') && ProperNames(ctx.Keys) && Open(pre)
    ensures Expand(pre + "," + (head + Reference(n) + more), ctx) == Kept(pre, ctx) + ("," + head + Reference(n)) + Expand(more, ctx)
  {
    hide Expand, IsHead;
    var z := "," + head + "$(" + n;
    HeadIsSwallowed(head, n);
    OpenKeeps(pre, z, more, ctx);
    assert z + ")" == "," + head + Reference(n);
    assert pre + "," + (head + Reference(n) + more) == pre + (z + ")" + more);
    assert Kept(pre, ctx) + z + ")" == Kept(pre, ctx) + (z + ")");
  }

  lemma SuffixCancels(a: string, b: string, rest: string)
    ensures a + rest == b + rest <==> a == b
  {
    if a + rest == b + rest {
      assert (a + rest)[..|a|] == a && (b + rest)[..|b|] == b;
    }
  }

  lemma DifferentEnds(b: string, head: string, v: string, rest: string, x: string)
    requires head != "" && !HasChar(head, ')') && !HasChar(v, ')')
    ensures b + head + v + rest != x + ")" + rest
  {
    var l := b + head + v;
    assert l[|l| - 1] == if v != "" then v[|v| - 1] else head[|head| - 1];
    assert (x + ")")[|x|] == ')';
    SuffixCancels(l, x + ")", rest);
  }

  // ---- the parts of a joined value

  /** The text behind a part. */
  function Trail(parts: seq<string>, i: nat): string
    requires i < |parts|
  {
    if i + 1 == |parts| then "" else "," + Join(parts[i + 1..], ',')
  }

  /** The text in front of a part. */
  function Lead(parts: seq<string>, i: nat): string
    requires i < |parts|
  {
    Join(parts[..i], ',')
  }

  /** The expansion of the text in front of a part, on its own. */
  function LeadSeen(parts: seq<string>, i: nat, ctx: map<string, string>): string
    requires i < |parts|
  {
    if i == 0 then "" else Expand(Lead(parts, i), ctx) + ","
  }

  lemma LeadStep(parts: seq<string>, i: nat)
    requires 0 < i < |parts|
    ensures Lead(parts, i) == if i == 1 then parts[0] else parts[0] + "," + Lead(parts[1..], i - 1)
  {
    assert parts[..i][1..] == parts[1..][..i - 1];
    if i == 1 { assert parts[..1] == [parts[0]]; }
  }

  lemma TrailStep(parts: seq<string>, i: nat)
    requires 0 < i < |parts|
    ensures Trail(parts[1..], i - 1) == Trail(parts, i)
  {
    assert parts[1..][i - 1 + 1..] == parts[i + 1..];
  }

  lemma {:induction false} JoinAround(parts: seq<string>, i: nat)
    requires i < |parts|
    ensures Join(parts, ',') == (if i == 0 then "" else Lead(parts, i) + ",") + (parts[i] + Trail(parts, i))
    decreases i
  {
    if i == 0 {
      assert "" + (parts[0] + Trail(parts, 0)) == parts[0] + Trail(parts, 0);
    } else {
      var tail := parts[1..];
      JoinAround(tail, i - 1);
      LeadStep(parts, i);
      TrailStep(parts, i);
      JoinFirst(parts);
      hide Lead, Trail, Join;
      var item := parts[i] + Trail(parts, i);
      if i == 1 {
        assert "" + item == item;
      } else {
        FourApart(parts[0], ",", Lead(tail, i - 1), item);
      }
    }
  }

  lemma JoinFirst(parts: seq<string>)
    requires |parts| > 1
    ensures Join(parts, ',') == parts[0] + "," + Join(parts[1..], ',')
  {
  }

  lemma FourApart(a: string, b: string, c: string, d: string)
    ensures a + b + (c + b + d) == a + b + c + b + d
  {
  }

  /** The joined value with the item's reference resolved between its neighbours. */
  function ResolvedAt(parts: seq<string>, i: nat, head: string, value: string, more: string, ctx: map<string, string>): string
    requires i < |parts|
  {
    LeadSeen(parts, i, ctx) + head + value + Expand(more + Trail(parts, i), ctx)
  }

  /** The joined value with the item's reference as it was written. */
  function UnresolvedAt(parts: seq<string>, i: nat, head: string, n: string, more: string, ctx: map<string, string>): string
    requires i < |parts| && Open(Lead(parts, i))
  {
    Kept(Lead(parts, i), ctx) + ("," + head + Reference(n)) + Expand(more + Trail(parts, i), ctx)
  }

  predicate IsItem(parts: seq<string>, i: nat, head: string, n: string, more: string) {
    i < |parts| && parts[i] == head + Reference(n) + more && IsHead(head) && !HasChar(n, ')')
  }

  lemma ItemText(parts: seq<string>, i: nat, head: string, n: string, more: string)
    requires IsItem(parts, i, head, n, more)
    ensures Join(parts, ',') == (if i == 0 then "" else Lead(parts, i) + ",") + (head + Reference(n) + (more + Trail(parts, i)))
  {
    hide Reference, Trail, Lead, Join;
    JoinAround(parts, i);
    Regrouped(head, Reference(n), more, Trail(parts, i));
  }

  lemma Regrouped(a: string, b: string, c: string, d: string)
    ensures a + b + c + d == a + b + (c + d)
  {
  }

  lemma ClosedItemSeen(parts: seq<string>, i: nat, head: string, n: string, more: string, ctx: map<string, string>)
    requires IsItem(parts, i, head, n, more) && n in ctx && !Open(Lead(parts, i))
    ensures Expand(Join(parts, ','), ctx) == ResolvedAt(parts, i, head, ctx[n], more, ctx)
  {
    hide Expand, Reference, IsHead;
    ItemText(parts, i, head, n, more);
    if i == 0 {
      FirstItemSeen(head, n, more + Trail(parts, i), ctx);
      assert "" + (head + Reference(n) + (more + Trail(parts, i))) == head + Reference(n) + (more + Trail(parts, i));
    } else {
      ClosedResolves(Lead(parts, i), head, n, more + Trail(parts, i), ctx);
    }
  }

  lemma OpenItemSeen(parts: seq<string>, i: nat, head: string, n: string, more: string, ctx: map<string, string>)
    requires IsItem(parts, i, head, n, more) && ProperNames(ctx.Keys) && Open(Lead(parts, i))
    ensures Expand(Join(parts, ','), ctx) == UnresolvedAt(parts, i, head, n, more, ctx)
  {
    assert parts[..0] == [] && !Open("");
    assert i > 0;
    hide Expand, Reference, IsHead;
    ItemText(parts, i, head, n, more);
    OpenLeaves(Lead(parts, i), head, n, more + Trail(parts, i), ctx);
  }

  lemma UnresolvedDiffers(parts: seq<string>, i: nat, head: string, n: string, value: string, more: string, ctx: map<string, string>)
    requires i < |parts| && Open(Lead(parts, i)) && IsHead(head) && !HasChar(value, ')')
    ensures UnresolvedAt(parts, i, head, n, more, ctx) != ResolvedAt(parts, i, head, value, more, ctx)
  {
    var rest := Expand(more + Trail(parts, i), ctx);
    var x := Kept(Lead(parts, i), ctx) + ("," + head + ("$(" + n));
    DifferentEnds(LeadSeen(parts, i, ctx), head, value, rest, x);
    assert "," + head + Reference(n) == "," + head + ("$(" + n) + ")";
    assert Kept(Lead(parts, i), ctx) + ("," + head + Reference(n)) == x + ")";
  }

  /**
   An item `head$(n)more` of a joined value is seen with the reference resolved, between its
   neighbours, exactly when the text in front of it is closed; otherwise it is seen as written.
   */
  lemma ItemSeen(parts: seq<string>, i: nat, head: string, n: string, more: string, ctx: map<string, string>)
    requires IsItem(parts, i, head, n, more) && n in ctx
    requires ProperNames(ctx.Keys) && !HasChar(ctx[n], ')')
    ensures Expand(Join(parts, ','), ctx) == ResolvedAt(parts, i, head, ctx[n], more, ctx) <==> !Open(Lead(parts, i))
    ensures Open(Lead(parts, i)) ==> Expand(Join(parts, ','), ctx) == UnresolvedAt(parts, i, head, n, more, ctx)
  {
    hide Expand, ResolvedAt, UnresolvedAt, Lead;
    if Open(Lead(parts, i)) {
      OpenItemSeen(parts, i, head, n, more, ctx);
      UnresolvedDiffers(parts, i, head, n, ctx[n], more, ctx);
    } else {
      ClosedItemSeen(parts, i, head, n, more, ctx);
    }
  }

  // ---- closed and open text

  lemma {:induction false} ClosedParts(parts: seq<string>)
    requires forall i :: 0 <= i < |parts| ==> !Open(parts[i])
    ensures !Open(Join(parts, ','))
  {
    if |parts| > 1 {
      assert forall i | 0 <= i < |parts| - 1 :: parts[1..][i] == parts[i + 1];
      ClosedParts(parts[1..]);
      ClosedComma(parts[0], Join(parts[1..], ','));
      assert Join(parts, ',') == parts[0] + "," + Join(parts[1..], ',');
    }
  }

  lemma {:induction false} ClosedComma(a: string, b: string)
    requires !Open(a)
    ensures Open(a + "," + b) <==> Open(b)
    decreases |a|
  {
    var s := a + "," + b;
    if a == "" {
      assert s[1..] == b;
    } else if a[0] != '$' {
      assert s[1..] == a[1..] + "," + b;
      ClosedComma(a[1..], b);
    } else if |a| == 1 {
      assert s[1] == ',' && s[2..] == b;
    } else if a[1] == '(' {
      var i := IndexChar(a[2..], ')');
      assert s[2..] == a[2..] + ("," + b);
      IndexCharAppend(a[2..], "," + b, ')');
      assert s[3 + i..] == a[3 + i..] + "," + b;
      ClosedComma(a[3 + i..], b);
    } else {
      assert s[2..] == a[2..] + "," + b;
      ClosedComma(a[2..], b);
    }
  }

  lemma {:induction false} PlainIsClosed(s: string)
    requires !HasChar(s, '$')
    ensures !Open(s)
  {
    if |s| > 1 {
      assert s[0] != '$';
      assert forall i | 0 <= i < |s| - 1 :: s[1..][i] == s[i + 1];
      PlainIsClosed(s[1..]);
    }
  }

  lemma {:induction false} PlainThen(a: string, b: string)
    requires !HasChar(a, '$')
    ensures Open(a + b) <==> Open(b)
  {
    if a == "" {
      assert a + b == b;
    } else {
      assert a[0] != '$';
      assert forall i | 0 <= i < |a| - 1 :: a[1..][i] == a[i + 1];
      assert (a + b)[1..] == a[1..] + b;
      PlainThen(a[1..], b);
      if b == "" { assert a + b == a; PlainIsClosed(a); }
    }
  }

  lemma ReferenceThen(n: string, b: string)
    requires !HasChar(n, ')')
    ensures Open(Reference(n) + b) <==> Open(b)
  {
    var s := Reference(n) + b;
    assert s[0] == '$' && s[1] == '(' && s[2..] == n + (")" + b);
    IndexCharAppend(n, ")" + b, ')');
    assert IndexChar(n, ')') == |n| && IndexChar(")" + b, ')') == 0;
    assert s[3 + |n|..] == b;
  }

  /** Text of the form `plain$(rest` without a `)` is open and is kept as written. */
  lemma {:induction false} UnterminatedIsKept(a: string, b: string, ctx: map<string, string>)
    requires !HasChar(a, '$') && !HasChar(b, ')')
    ensures Open(a + "$(" + b) && Kept(a + "$(" + b, ctx) == a + "$(" + b
  {
    var s := a + "$(" + b;
    if a == "" {
      assert s[0] == '$' && s[1] == '(' && s[2..] == b;
    } else {
      assert a[0] != '$';
      assert forall i | 0 <= i < |a| - 1 :: a[1..][i] == a[i + 1];
      assert s[1..] == a[1..] + "$(" + b;
      UnterminatedIsKept(a[1..], b, ctx);
    }
  }
}
