/** The few Go `strings` and `sort` functions the operator relies on, over sequences of characters. */
module Strings {

  datatype Option<+T> = None | Some(value: T)

  predicate HasPrefix(s: string, p: string) {
    p <= s
  }

  predicate HasSuffix(s: string, p: string) {
    |p| <= |s| && s[|s| - |p|..] == p
  }

  function TrimPrefix(s: string, p: string): string {
    if HasPrefix(s, p) then s[|p|..] else s
  }

  function TrimSuffix(s: string, p: string): string {
    if HasSuffix(s, p) then s[..|s| - |p|] else s
  }

  /** strings.Contains with a substring. */
  predicate Contains(s: string, sub: string) {
    HasPrefix(s, sub) || (s != [] && Contains(s[1..], sub))
  }

  /** strings.ReplaceAll of a one-character pattern. */
  function ReplaceAll(s: string, c: char, replacement: string): string {
    if s == [] then [] else (if s[0] == c then replacement else [s[0]]) + ReplaceAll(s[1..], c, replacement)
  }

  /** Position of the first `c`, or the length of `s` when there is none. */
  function IndexOf(s: string, c: char): (i: nat)
    ensures i <= |s|
    ensures i < |s| ==> s[i] == c
    ensures forall k | 0 <= k < i :: s[k] != c
    ensures i == |s| <==> c !in s
  {
    if s == [] then 0
    else if s[0] == c then 0
    else assert s == [s[0]] + s[1..]; 1 + IndexOf(s[1..], c)
  }

  /** strings.Split on a one-character separator: never empty. */
  function Split(s: string, c: char): (parts: seq<string>)
    ensures |parts| >= 1
    decreases |s|
  {
    var i := IndexOf(s, c);
    if i == |s| then [s] else [s[..i]] + Split(s[i + 1..], c)
  }

  lemma Assoc<T>(a: seq<T>, b: seq<T>, c: seq<T>)
    ensures a + (b + c) == a + b + c
  {
  }

  lemma Cut<T>(s: seq<T>, i: nat)
    requires i < |s|
    ensures s == s[..i] + ([s[i]] + s[i + 1..])
  {
  }

  lemma Tail<T>(x: T, s: seq<T>)
    ensures ([x] + s)[0] == x && ([x] + s)[1..] == s
  {
  }

  lemma {:induction false} ReplaceAllConcat(s: string, t: string, c: char, r: string)
    ensures ReplaceAll(s + t, c, r) == ReplaceAll(s, c, r) + ReplaceAll(t, c, r)
  {
    if s == [] {
      assert s + t == t;
      assert [] + ReplaceAll(t, c, r) == ReplaceAll(t, c, r);
    } else {
      ReplaceAllConcat(s[1..], t, c, r);
      assert (s + t)[1..] == s[1..] + t;
      Assoc(if s[0] == c then r else [s[0]], ReplaceAll(s[1..], c, r), ReplaceAll(t, c, r));
    }
  }

  lemma FirstOccurrence(a: string, c: char, b: string)
    requires c !in a
    ensures IndexOf(a + ([c] + b), c) == |a|
  {
    var s := a + ([c] + b);
    assert s[|a|] == c;
    assert forall k | 0 <= k < |a| :: s[k] == a[k];
  }

  lemma CutAt(a: string, c: char, b: string)
    ensures (a + ([c] + b))[..|a|] == a && (a + ([c] + b))[|a| + 1..] == b
  {
  }

  lemma SplitCons(a: string, c: char, b: string)
    requires c !in a
    ensures Split(a + ([c] + b), c) == [a] + Split(b, c)
  {
    FirstOccurrence(a, c, b);
    CutAt(a, c, b);
  }

  /** unicode.IsSpace. */
  predicate IsSpace(c: char) {
    || '\t' <= c <= '\r' || c == ' ' || c == '\U{85}' || c == '\U{A0}' || c == '\U{1680}'
    || '\U{2000}' <= c <= '\U{200A}' || c == '\U{2028}' || c == '\U{2029}' || c == '\U{202F}'
    || c == '\U{205F}' || c == '\U{3000}'
  }

  function TrimLeft(s: string): string {
    if s != [] && IsSpace(s[0]) then TrimLeft(s[1..]) else s
  }

  function TrimRight(s: string): string {
    if s != [] && IsSpace(s[|s| - 1]) then TrimRight(s[..|s| - 1]) else s
  }

  /** strings.TrimSpace. */
  function TrimSpace(s: string): string {
    TrimRight(TrimLeft(s))
  }

  /** The byte order of Go strings, which on UTF-8 is the order of code points. */
  predicate Leq(a: string, b: string) {
    a == [] || (b != [] && (a[0] < b[0] || (a[0] == b[0] && Leq(a[1..], b[1..]))))
  }

  lemma {:induction false} LeqAntisymmetric(a: string, b: string)
    requires Leq(a, b) && Leq(b, a)
    ensures a == b
  {
    if a != [] {
      LeqAntisymmetric(a[1..], b[1..]);
      assert a == [a[0]] + a[1..] && b == [b[0]] + b[1..];
    }
  }

  lemma {:induction false} LeqTotal(a: string, b: string)
    ensures Leq(a, b) || Leq(b, a)
  {
    if a != [] && b != [] && a[0] == b[0] {
      LeqTotal(a[1..], b[1..]);
    }
  }

  lemma {:induction false} LeqTransitive(a: string, b: string, c: string)
    requires Leq(a, b) && Leq(b, c)
    ensures Leq(a, c)
  {
    if a != [] && a[0] == b[0] == c[0] {
      LeqTransitive(a[1..], b[1..], c[1..]);
    }
  }

  predicate IsLeast(m: string, keys: set<string>) {
    m in keys && forall x | x in keys :: Leq(m, x)
  }

  lemma {:induction false} LeastExists(keys: set<string>)
    requires keys != {}
    ensures exists m :: IsLeast(m, keys)
  {
    var x :| x in keys;
    var rest := keys - {x};
    LeqTotal(x, x);
    if rest != {} {
      LeastExists(rest);
      var m :| IsLeast(m, rest);
      LeqTotal(m, x);
      if Leq(m, x) {
        assert IsLeast(m, keys);
      } else {
        forall y | y in keys ensures Leq(x, y) {
          if y != x { LeqTransitive(x, m, y); }
        }
        assert IsLeast(x, keys);
      }
    } else {
      assert keys == {x};
      assert IsLeast(x, keys);
    }
  }

  function Least(keys: set<string>): (m: string)
    requires keys != {}
    ensures IsLeast(m, keys)
  {
    LeastExists(keys);
    assert forall x, y | IsLeast(x, keys) && IsLeast(y, keys) :: x == y by {
      forall x, y | IsLeast(x, keys) && IsLeast(y, keys) ensures x == y {
        LeqAntisymmetric(x, y);
      }
    }
    var m :| IsLeast(m, keys); m
  }

  predicate NoDuplicates<T(==)>(s: seq<T>) {
    forall i, j | 0 <= i < j < |s| :: s[i] != s[j]
  }

  /** sort.Strings on the elements of a set. */
  function Sorted(keys: set<string>): (s: seq<string>)
    ensures forall k :: k in keys <==> k in s
    ensures NoDuplicates(s)
    ensures forall i, j | 0 <= i < j < |s| :: Leq(s[i], s[j])
  {
    if keys == {} then []
    else
      var m := Least(keys);
      [m] + Sorted(keys - {m})
  }

  // ---------------------------------------------------------------- sequences up to their order

  function Without<T>(s: seq<T>, i: nat): seq<T>
    requires i < |s|
  {
    s[..i] + s[i + 1..]
  }

  lemma MultisetOfWithout<T>(s: seq<T>, i: nat)
    requires i < |s|
    ensures multiset(Without(s, i)) == multiset(s) - multiset{s[i]}
  {
    assert s == s[..i] + [s[i]] + s[i + 1..];
  }

  /** Where the first element of one order stands in another. */
  lemma PositionOfFirst<T>(s: seq<T>, t: seq<T>) returns (i: nat)
    requires t != [] && multiset(s) == multiset(t)
    ensures i < |s| && s[i] == t[0]
    ensures multiset(Without(s, i)) == multiset(t[1..])
  {
    assert t[0] in multiset(s);
    i :| 0 <= i < |s| && s[i] == t[0];
    MultisetOfWithout(s, i);
    MultisetOfWithout(t, 0);
    assert Without(t, 0) == t[1..];
  }
}
