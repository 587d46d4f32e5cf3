/**
 Go string operations the controller relies on: bytewise order and sorting of
 map keys, `strings.Join`, splitting, prefix removal, and ASCII lower-casing.
 Each `char` stands for one byte of a Go string.
 */
module Strings {

  /** Go's `<` on strings. */
  predicate Less(a: string, b: string) {
    b != [] && (a == [] || a[0] < b[0] || (a[0] == b[0] && Less(a[1..], b[1..])))
  }

  /** `a` is a proper prefix of `b`, or has the smaller character where they first differ. */
  predicate IsBefore(a: string, b: string) {
    || (|a| < |b| && a == b[..|a|])
    || exists i :: 0 <= i < |a| && i < |b| && a[..i] == b[..i] && a[i] < b[i]
  }

  lemma {:induction false} LessIsLexicographic(a: string, b: string)
    ensures Less(a, b) <==> IsBefore(a, b)
  {
    if a != [] && b != [] && a[0] == b[0] {
      LessIsLexicographic(a[1..], b[1..]);
      BeforeTail(a, b);
    }
  }

  lemma BeforeTail(a: string, b: string)
    requires a != [] && b != [] && a[0] == b[0]
    ensures IsBefore(a, b) <==> IsBefore(a[1..], b[1..])
  {
    var x, y := a[1..], b[1..];
    forall i | 0 < i <= |a| && i <= |b| ensures a[..i] == b[..i] <==> x[..i - 1] == y[..i - 1] {
      SamePrefix(a, b, i);
    }
    if |a| <= |b| {
      assert a[..|a|] == a && x[..|x|] == x;
    }
    if i :| 0 <= i < |x| && i < |y| && x[..i] == y[..i] && x[i] < y[i] {
      assert a[..i + 1] == b[..i + 1] && a[i + 1] < b[i + 1];
    }
    if i :| 0 <= i < |a| && i < |b| && a[..i] == b[..i] && a[i] < b[i] {
      assert i > 0 && x[..i - 1] == y[..i - 1] && x[i - 1] < y[i - 1];
    }
  }

  lemma SamePrefix(a: string, b: string, i: nat)
    requires 0 < i <= |a| && i <= |b| && a[0] == b[0]
    ensures a[..i] == b[..i] <==> a[1..][..i - 1] == b[1..][..i - 1]
  {
    assert a[..i] == [a[0]] + a[1..][..i - 1] && b[..i] == [b[0]] + b[1..][..i - 1];
    assert a[..i][1..] == a[1..][..i - 1] && b[..i][1..] == b[1..][..i - 1];
  }

  lemma {:induction false} LessIsTransitive(a: string, b: string, c: string)
    requires Less(a, b) && Less(b, c)
    ensures Less(a, c)
  {
    if a != [] && a[0] == b[0] && b[0] == c[0] {
      LessIsTransitive(a[1..], b[1..], c[1..]);
    }
  }

  lemma {:induction false} LessIsTotal(a: string, b: string)
    ensures Less(a, b) || a == b || Less(b, a)
  {
    if a != [] && b != [] && a[0] == b[0] {
      LessIsTotal(a[1..], b[1..]);
      assert a == [a[0]] + a[1..] && b == [b[0]] + b[1..];
    }
  }

  lemma {:induction false} LessIsAsymmetric(a: string, b: string)
    requires Less(a, b)
    ensures !Less(b, a) && a != b
  {
    if a != [] && a[0] == b[0] {
      LessIsAsymmetric(a[1..], b[1..]);
    }
  }

  predicate Ascending(s: seq<string>) {
    forall i, j :: 0 <= i < j < |s| ==> Less(s[i], s[j])
  }

  ghost function Elements<T>(s: seq<T>): set<T> {
    set x | x in s
  }

  /** A set of strings has only one ascending enumeration, whatever order a map was iterated in. */
  lemma {:induction false} AscendingIsUnique(a: seq<string>, b: seq<string>)
    requires Ascending(a) && Ascending(b) && Elements(a) == Elements(b)
    ensures a == b
  {
    assert a != [] ==> a[0] in Elements(a);
    assert b != [] ==> b[0] in Elements(b);
    if a != [] {
      var j :| 0 <= j < |b| && b[j] == a[0];
      var i :| 0 <= i < |a| && a[i] == b[0];
      if a[0] != b[0] {
        LessIsAsymmetric(b[0], a[0]);
        assert false;
      }
      TailElements(a);
      TailElements(b);
      AscendingIsUnique(a[1..], b[1..]);
      assert a == [a[0]] + a[1..] && b == [b[0]] + b[1..];
    }
  }

  lemma TailElements(a: seq<string>)
    requires Ascending(a) && a != []
    ensures Elements(a[1..]) == Elements(a) - {a[0]}
  {
    forall x | x in Elements(a) - {a[0]} ensures x in Elements(a[1..]) {
      var i :| 0 <= i < |a| && a[i] == x;
      assert a[1..][i - 1] == x;
    }
    forall x | x in Elements(a[1..]) ensures x in Elements(a) - {a[0]} {
      var i :| 0 <= i < |a| - 1 && a[1..][i] == x;
      LessIsAsymmetric(a[0], a[i + 1]);
    }
  }

  /** Inserts `x` into an ascending sequence that lacks it. */
  function Insert(x: string, s: seq<string>): (r: seq<string>)
    requires Ascending(s) && x !in s
    ensures Ascending(r) && Elements(r) == Elements(s) + {x}
  {
    if s == [] then [x]
    else if Less(x, s[0]) then
      assert forall i | 0 <= i < |s| :: Less(x, s[i]) by {
        forall i | 0 < i < |s| ensures Less(x, s[i]) { LessIsTransitive(x, s[0], s[i]); }
      }
      [x] + s
    else
      var r := Insert(x, s[1..]);
      assert s == [s[0]] + s[1..];
      assert Less(s[0], x) by { LessIsTotal(s[0], x); }
      assert forall y | y in r :: Less(s[0], y) by {
        forall y | y in r ensures Less(s[0], y) {
          assert y in Elements(r);
          if y != x {
            var i :| 0 <= i < |s| - 1 && s[1..][i] == y;
            assert s[i + 1] == y;
          }
        }
      }
      [s[0]] + r
  }

  /** The keys in ascending order. */
  ghost function Sorted(keys: set<string>): (r: seq<string>)
    ensures Ascending(r) && Elements(r) == keys
    ensures forall k :: k in r <==> k in keys
  {
    if keys == {} then []
    else
      var k :| k in keys;
      var rest := Sorted(keys - {k});
      Insert(k, rest)
  }

  /** `slices.Sorted(maps.Keys(m))` and `sort.Strings`: the iteration order of the map is arbitrary. */
  method SortKeys(keys: set<string>) returns (r: seq<string>)
    ensures r == Sorted(keys)
  {
    r := [];
    var todo := keys;
    while todo != {}
      invariant todo <= keys
      invariant Ascending(r) && Elements(r) == keys - todo
      decreases |todo|
    {
      var k :| k in todo;
      assert k !in r by { assert k !in Elements(r); }
      r := Insert(k, r);
      todo := todo - {k};
    }
    AscendingIsUnique(r, Sorted(keys));
  }

  predicate HasChar(s: string, c: char) {
    exists i :: 0 <= i < |s| && s[i] == c
  }

  /** `strings.Join(parts, string(sep))`. */
  function Join(parts: seq<string>, sep: char): string {
    if |parts| == 0 then ""
    else if |parts| == 1 then parts[0]
    else parts[0] + [sep] + Join(parts[1..], sep)
  }

  /** `strings.Split(s, string(sep))`. */
  function Split(s: string, sep: char): (parts: seq<string>)
    ensures |parts| > 0
  {
    if s == "" then [""]
    else
      var rest := Split(s[1..], sep);
      if s[0] == sep then [""] + rest else [[s[0]] + rest[0]] + rest[1..]
  }

  lemma {:induction false} SplitFirst(a: string, rest: string, sep: char)
    requires !HasChar(a, sep)
    ensures Split(a, sep) == [a]
    ensures Split(a + [sep] + rest, sep) == [a] + Split(rest, sep)
  {
    if a == "" {
      assert a + [sep] + rest == [sep] + rest;
    } else {
      assert forall i | 0 <= i < |a| - 1 :: a[1..][i] == a[i + 1];
      SplitFirst(a[1..], rest, sep);
      assert a[0] != sep;
      assert (a + [sep] + rest)[1..] == a[1..] + [sep] + rest;
      assert [a[0]] + a[1..] == a;
    }
  }

  /** Splitting undoes joining when no part contains the separator. */
  lemma {:induction false} SplitJoin(parts: seq<string>, sep: char)
    requires parts != [] && forall p :: p in parts ==> !HasChar(p, sep)
    ensures Split(Join(parts, sep), sep) == parts
  {
    if |parts| == 1 {
      SplitFirst(parts[0], "", sep);
    } else {
      SplitJoin(parts[1..], sep);
      SplitFirst(parts[0], Join(parts[1..], sep), sep);
      assert parts == [parts[0]] + parts[1..];
    }
  }

  /** Index of the first `c`, or `|s|`. */
  function IndexChar(s: string, c: char): (i: nat)
    ensures i <= |s|
    ensures i < |s| ==> s[i] == c
    ensures forall j :: 0 <= j < i ==> s[j] != c
  {
    if s == "" || s[0] == c then 0 else 1 + IndexChar(s[1..], c)
  }

  /** `strings.LastIndexByte`: the index of the last `c`, or -1. */
  function LastIndexChar(s: string, c: char): (i: int)
    ensures -1 <= i < |s|
    ensures i >= 0 ==> s[i] == c
    ensures forall j :: i < j < |s| ==> s[j] != c
  {
    if s == "" then -1
    else if s[|s| - 1] == c then |s| - 1
    else LastIndexChar(s[..|s| - 1], c)
  }

  /** `strings.ToLower` on ASCII letters. */
  function ToLower(s: string): (r: string)
    ensures |r| == |s|
    ensures forall i :: 0 <= i < |s| ==>
      r[i] == if 'A' <= s[i] <= 'Z' then s[i] - 'A' + 'a' else s[i]
  {
    seq(|s|, i requires 0 <= i < |s| => if 'A' <= s[i] <= 'Z' then s[i] - 'A' + 'a' else s[i])
  }
}
