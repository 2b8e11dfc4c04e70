/** JSON trees, addressed by reference tokens, and equality up to null against absent. */
module Json {
  import opened Strings
  import opened Pointer

  /** Decoded JSON. Numbers are values that have already left their textual form. */
  datatype Value =
    | Null
    | Bool(b: bool)
    | Num(n: real)
    | Str(s: string)
    | List(items: seq<Value>)
    | Map(fields: map<string, Value>)

  function Rank(v: Value): nat {
    if v.Null? then 0 else 1
  }

  /** Element of a list, null past its end: Go's zero `any`. */
  function At(xs: seq<Value>, i: nat): Value {
    if i < |xs| then xs[i] else Null
  }

  /** Entry of a map, null when the key is missing: Go's zero `any`. */
  function Get(m: map<string, Value>, k: string): Value {
    if k in m then m[k] else Null
  }

  /** The child a token names: a map entry, or the list element at that index. */
  function Child(v: Value, t: string): (c: Option<Value>)
    ensures c.Some? ==> c.value < v
  {
    match v
    case Map(m) => if t in m then Some(m[t]) else None
    case List(xs) => (match ParseIndex(t) case None => None case Some(i) => if i < |xs| then Some(xs[i]) else None)
    case _ => None
  }

  predicate Has(v: Value, t: string) {
    Child(v, t).Some?
  }

  /** The child a token names, null when there is none. */
  function Kid(v: Value, t: string): (k: Value)
    ensures k.Null? || k < v
  {
    var c := Child(v, t); if c.Some? then c.value else Null
  }

  /** Overwrites an existing child. */
  function Put(v: Value, t: string, x: Value): Value
    requires Has(v, t)
  {
    match v
    case Map(m) => Map(m[t := x])
    case List(xs) => List(xs[ParseIndex(t).value := x])
  }

  lemma KidOfPut(v: Value, t: string, x: Value, u: string)
    requires Has(v, t)
    ensures Kid(Put(v, t, x), u) == if u == t then x else Kid(v, u)
    ensures Has(Put(v, t, x), u) <==> Has(v, u)
  {
    if v.List? && Has(v, u) {
      ParseIndexIffDecimal(t, ParseIndex(t).value);
      ParseIndexIffDecimal(u, ParseIndex(u).value);
    }
  }

  /** The value at a location, null when there is none. */
  function Lookup(v: Value, loc: Location): Value
    decreases |loc|
  {
    if loc == [] then v else Lookup(Kid(v, loc[0]), loc[1..])
  }

  lemma LookupOne(v: Value, t: string)
    ensures Lookup(v, [t]) == Kid(v, t)
  {
    assert [t][1..] == [];
  }

  lemma LookupTwo(v: Value, t: string, u: string)
    ensures Lookup(v, [t, u]) == Kid(Kid(v, t), u)
  {
    assert [t, u][1..] == [u];
    LookupOne(Kid(v, t), u);
  }

  /** Whether a location exists. */
  predicate Exists(v: Value, loc: Location)
    decreases |loc|
  {
    loc == [] || (Has(v, loc[0]) && Exists(Kid(v, loc[0]), loc[1..]))
  }

  /** Two trees diff can descend into together. */
  predicate Paired(a: Value, b: Value) {
    (a.Map? && b.Map?) || (a.List? && b.List?)
  }

  function Max(a: nat, b: nat): nat {
    if a < b then b else a
  }

  /** The index tokens `0`, `1`, ... below `n`. */
  function Indices(n: nat): (ts: seq<string>)
    ensures |ts| == n && forall i | 0 <= i < n :: ts[i] == Decimal(i)
  {
    if n == 0 then [] else Indices(n - 1) + [Decimal(n - 1)]
  }

  /** The tokens diff visits, in order: sorted keys of either map, indices of the longer list. */
  function Tokens(a: Value, b: Value): seq<string>
    requires Paired(a, b)
  {
    if a.Map? then Sorted(a.fields.Keys + b.fields.Keys) else Indices(Max(|a.items|, |b.items|))
  }

  lemma IndexTokens(n: nat)
    ensures forall t :: t in Indices(n) <==> ParseIndex(t).Some? && ParseIndex(t).value < n
    ensures NoDuplicates(Indices(n))
  {
    forall t ensures t in Indices(n) <==> ParseIndex(t).Some? && ParseIndex(t).value < n {
      if t in Indices(n) {
        var i :| 0 <= i < n && Indices(n)[i] == t;
        ParseOfDecimal(i);
      }
      if ParseIndex(t).Some? && ParseIndex(t).value < n {
        ParseIndexIffDecimal(t, ParseIndex(t).value);
        assert Indices(n)[ParseIndex(t).value] == t;
      }
    }
    forall i, j | 0 <= i < j < n ensures Indices(n)[i] != Indices(n)[j] {
      ParseOfDecimal(i);
      ParseOfDecimal(j);
    }
  }

  lemma TokensAreChildren(a: Value, b: Value)
    requires Paired(a, b)
    ensures forall t :: t in Tokens(a, b) <==> Has(a, t) || Has(b, t)
    ensures NoDuplicates(Tokens(a, b))
  {
    if a.List? {
      IndexTokens(Max(|a.items|, |b.items|));
    }
  }

  // ---------------------------------------------------------------- equality up to null / absent

  /** Equality that does not tell a missing key, or a missing list tail, from an explicit null. */
  predicate Eqv(a: Value, b: Value)
    decreases Rank(a), a
  {
    if Paired(a, b) then forall t | t in Tokens(a, b) :: Eqv(Kid(a, t), Kid(b, t)) else a == b
  }

  /** Drops trailing nulls. */
  function Strip(xs: seq<Value>): seq<Value> {
    if xs != [] && xs[|xs| - 1].Null? then Strip(xs[..|xs| - 1]) else xs
  }

  /** Reference form: null map entries and trailing null list elements removed everywhere. */
  function Canon(v: Value): (c: Value)
    ensures c.Null? <==> v.Null?
  {
    match v
    case Map(m) => Map(map k | k in m && !m[k].Null? :: Canon(m[k]))
    case List(xs) => List(Strip(seq(|xs|, i requires 0 <= i < |xs| => Canon(xs[i]))))
    case _ => v
  }

  lemma {:induction false} StripAt(xs: seq<Value>)
    ensures forall i: nat :: At(Strip(xs), i) == At(xs, i)
    ensures Strip(xs) != [] ==> !Strip(xs)[|Strip(xs)| - 1].Null?
  {
    if xs != [] && xs[|xs| - 1].Null? {
      StripAt(xs[..|xs| - 1]);
    }
  }

  lemma StripSame(xs: seq<Value>, ys: seq<Value>)
    ensures Strip(xs) == Strip(ys) <==> forall i: nat :: At(xs, i) == At(ys, i)
  {
    StripAt(xs);
    StripAt(ys);
    var p, q := Strip(xs), Strip(ys);
    if forall i: nat :: At(xs, i) == At(ys, i) {
      assert forall i: nat :: At(p, i) == At(q, i) by {
        forall i: nat ensures At(p, i) == At(q, i) {
          assert At(p, i) == At(xs, i) && At(q, i) == At(ys, i);
        }
      }
      var n := Max(|p|, |q|);
      assert n > 0 ==> At(p, n - 1) == At(q, n - 1);
      forall i | 0 <= i < |p| ensures p[i] == q[i] {
        assert At(p, i) == At(q, i);
      }
    } else {
      var i: nat :| At(xs, i) != At(ys, i);
      assert At(p, i) != At(q, i);
    }
  }

  function CanonSeq(xs: seq<Value>): seq<Value> {
    seq(|xs|, i requires 0 <= i < |xs| => Canon(xs[i]))
  }

  lemma KidOfKey(m: map<string, Value>, k: string)
    ensures Kid(Map(m), k) == Get(m, k)
  {
  }

  lemma KidOfIndex(xs: seq<Value>, i: nat)
    ensures Kid(List(xs), Decimal(i)) == At(xs, i)
  {
    ParseIndexIffDecimal(Decimal(i), i);
  }

  /** The two descriptions of equality agree, so it is an equivalence. */
  lemma {:induction false} EqvIffSameCanon(a: Value, b: Value)
    ensures Eqv(a, b) <==> Canon(a) == Canon(b)
    decreases Rank(a), a
  {
    if Paired(a, b) {
      forall t: string ensures Eqv(Kid(a, t), Kid(b, t)) <==> Canon(Kid(a, t)) == Canon(Kid(b, t)) {
        EqvIffSameCanon(Kid(a, t), Kid(b, t));
      }
      EqvIffSameKids(a, b);
      if a.Map? { MapsSameCanon(a.fields, b.fields); } else { ListsSameCanon(a.items, b.items); }
    }
  }

  lemma EqvIffSameKids(a: Value, b: Value)
    requires Paired(a, b)
    requires forall t :: Eqv(Kid(a, t), Kid(b, t)) <==> Canon(Kid(a, t)) == Canon(Kid(b, t))
    ensures Eqv(a, b) <==> forall t :: Canon(Kid(a, t)) == Canon(Kid(b, t))
  {
    TokensAreChildren(a, b);
  }

  lemma MapsSameCanon(m: map<string, Value>, n: map<string, Value>)
    ensures Canon(Map(m)) == Canon(Map(n)) <==> forall t :: Canon(Kid(Map(m), t)) == Canon(Kid(Map(n), t))
  {
    var p, q := Canon(Map(m)).fields, Canon(Map(n)).fields;
    forall t ensures Get(p, t) == Canon(Kid(Map(m), t)) && Get(q, t) == Canon(Kid(Map(n), t)) {}
    if forall t :: Canon(Kid(Map(m), t)) == Canon(Kid(Map(n), t)) {
      forall t ensures Get(p, t) == Get(q, t) {
        assert Canon(Kid(Map(m), t)) == Canon(Kid(Map(n), t));
      }
      forall t ensures t in p <==> t in q {
        assert Get(p, t) == Get(q, t);
      }
      forall t | t in p ensures p[t] == q[t] {
        assert Get(p, t) == Get(q, t);
      }
      assert p == q;
    }
  }

  lemma ListsSameCanon(xs: seq<Value>, ys: seq<Value>)
    ensures Canon(List(xs)) == Canon(List(ys)) <==> forall t :: Canon(Kid(List(xs), t)) == Canon(Kid(List(ys), t))
  {
    var p, q := CanonSeq(xs), CanonSeq(ys);
    assert Canon(List(xs)) == List(Strip(p)) && Canon(List(ys)) == List(Strip(q));
    StripSame(p, q);
    if forall t :: Canon(Kid(List(xs), t)) == Canon(Kid(List(ys), t)) {
      forall i: nat ensures At(p, i) == At(q, i) {
        KidOfIndex(xs, i);
        KidOfIndex(ys, i);
        assert Canon(Kid(List(xs), Decimal(i))) == Canon(Kid(List(ys), Decimal(i)));
      }
    } else {
      var t :| Canon(Kid(List(xs), t)) != Canon(Kid(List(ys), t));
      assert ParseIndex(t).Some?;
      var i := ParseIndex(t).value;
      assert At(p, i) == Canon(Kid(List(xs), t)) && At(q, i) == Canon(Kid(List(ys), t));
    }
  }

  lemma EqvReflexive(v: Value)
    ensures Eqv(v, v)
  {
    EqvIffSameCanon(v, v);
  }

  lemma EqvKid(a: Value, b: Value, t: string)
    requires Eqv(a, b)
    ensures Eqv(Kid(a, t), Kid(b, t))
  {
    if Paired(a, b) {
      TokensAreChildren(a, b);
      if t !in Tokens(a, b) { EqvReflexive(Null); }
    } else {
      EqvReflexive(Kid(a, t));
    }
  }

  // ---------------------------------------------------------------- plain fields

  /** A map that holds this under the key. */
  predicate Holds(v: Value, key: string, x: Value) {
    v.Map? && key in v.fields && v.fields[key] == x
  }

  /** A map that holds, under the outer key, a map that holds this under the inner key. */
  predicate HoldsIn(v: Value, outer: string, inner: string, x: Value) {
    v.Map? && outer in v.fields && Holds(v.fields[outer], inner, x)
  }

  /** There is nothing under the two keys. */
  predicate LacksIn(v: Value, outer: string, inner: string) {
    v.Map? && outer in v.fields && v.fields[outer].Map? ==> inner !in v.fields[outer].fields
  }

  /** The string under a key, empty when there is none. */
  function TextAt(v: Value, key: string): string {
    if v.Map? && key in v.fields && v.fields[key].Str? then v.fields[key].s else ""
  }

  /** The string under two keys, empty when there is none. */
  function TextIn(v: Value, outer: string, inner: string): string {
    if v.Map? && outer in v.fields then TextAt(v.fields[outer], inner) else ""
  }

  /** A key no list has an element for. */
  lemma NoIndex(key: string)
    requires key != "" && !IsDigit(key[0])
    ensures ParseIndex(key).None?
  {
  }

  lemma LookupField(v: Value, key: string)
    requires v.Map?
    ensures Lookup(v, [key]) == Get(v.fields, key)
  {
    LookupOne(v, key);
    KidOfKey(v.fields, key);
  }

  lemma LookupFieldIn(v: Value, outer: string, inner: string)
    requires v.Map? && inner != "" && !IsDigit(inner[0])
    ensures forall x :: HoldsIn(v, outer, inner, x) ==> Lookup(v, [outer, inner]) == x
    ensures LacksIn(v, outer, inner) ==> Lookup(v, [outer, inner]) == Null
    ensures !LacksIn(v, outer, inner) ==> HoldsIn(v, outer, inner, Lookup(v, [outer, inner]))
  {
    NoIndex(inner);
    LookupTwo(v, outer, inner);
    KidOfKey(v.fields, outer);
  }
}
