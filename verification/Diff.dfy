/** The gate's structural diff, and the JSON Patch (RFC 6902) operations it stands for. */
module Diff {
  import opened Strings
  import opened Pointer
  import opened Json

  /** One semantic difference, at an unescaped location. */
  datatype Edit = Edit(loc: Location, before: Value, after: Value)

  /** The same difference as gate.go reports it, at a JSON Pointer. */
  datatype Change = Change(path: string, before: Value, after: Value)

  function Under(t: string, es: seq<Edit>): (r: seq<Edit>)
    ensures |r| == |es|
    ensures forall i | 0 <= i < |r| :: r[i] == Edit([t] + es[i].loc, es[i].before, es[i].after)
  {
    seq(|es|, i requires 0 <= i < |es| => Edit([t] + es[i].loc, es[i].before, es[i].after))
  }

  /** The differences between two trees. */
  function Edits(a: Value, b: Value): seq<Edit>
    decreases Rank(a), a, 1, 0
  {
    if Paired(a, b) then EditsOver(Tokens(a, b), a, b)
    else if a == b then [] else [Edit([], a, b)]
  }

  function EditsOver(ts: seq<string>, a: Value, b: Value): seq<Edit>
    requires Paired(a, b)
    decreases Rank(a), a, 0, |ts|
  {
    if ts == [] then []
    else Under(ts[0], Edits(Kid(a, ts[0]), Kid(b, ts[0]))) + EditsOver(ts[1..], a, b)
  }

  function Changes(path: string, es: seq<Edit>): (r: seq<Change>)
    ensures |r| == |es|
  {
    if es == [] then []
    else [Change(path + Render(es[0].loc), es[0].before, es[0].after)] + Changes(path, es[1..])
  }

  lemma {:induction false} ChangesAt(es: seq<Edit>, i: nat)
    requires i < |es|
    ensures Changes("", es)[i] == Change(Render(es[i].loc), es[i].before, es[i].after)
  {
    assert "" + Render(es[0].loc) == Render(es[0].loc);
    if i > 0 { ChangesAt(es[1..], i - 1); }
  }

  lemma {:induction false} ChangesUnder(path: string, t: string, es: seq<Edit>, rest: seq<Edit>)
    ensures Changes(path, Under(t, es) + rest) == Changes(path + (['/'] + Escape(t)), es) + Changes(path, rest)
  {
    if es == [] {
      assert Under(t, es) + rest == rest;
      assert [] + Changes(path, rest) == Changes(path, rest);
    } else {
      var e := es[0];
      ChangesUnder(path, t, es[1..], rest);
      assert (Under(t, es) + rest)[1..] == Under(t, es[1..]) + rest;
      Tail(t, e.loc);
      Assoc(['/'], Escape(t), Render(e.loc));
      Assoc(path, ['/'] + Escape(t), Render(e.loc));
      var first := [Change(path + Render([t] + e.loc), e.before, e.after)];
      Assoc(first, Changes(path + (['/'] + Escape(t)), es[1..]), Changes(path, rest));
    }
  }

  /** The changes still to be appended once the first `n` tokens are done. */
  ghost function Pending(path: string, ts: seq<string>, n: nat, a: Value, b: Value): seq<Change>
    requires Paired(a, b) && n <= |ts|
  {
    Changes(path, EditsOver(ts[n..], a, b))
  }

  lemma PendingStep(path: string, ts: seq<string>, n: nat, a: Value, b: Value, done: seq<Change>)
    requires Paired(a, b) && n < |ts|
    ensures done + Pending(path, ts, n, a, b) ==
            done + Changes(path + (['/'] + Escape(ts[n])), Edits(Kid(a, ts[n]), Kid(b, ts[n]))) + Pending(path, ts, n + 1, a, b)
  {
    assert ts[n..][1..] == ts[n + 1..];
    ChangesUnder(path, ts[n], Edits(Kid(a, ts[n]), Kid(b, ts[n])), EditsOver(ts[n + 1..], a, b));
  }

  /** gate.go's diff: descend per sorted key, descend per list index, or compare the leaves. */
  method Diff(path: string, oldValue: Value, newValue: Value) returns (changes: seq<Change>)
    ensures changes == Changes(path, Edits(oldValue, newValue))
    decreases Rank(oldValue), oldValue, 1
  {
    if oldValue.Map? && newValue.Map? {
      changes := DiffMaps(path, oldValue, newValue);
    } else if oldValue.List? && newValue.List? {
      changes := DiffLists(path, oldValue, newValue);
    } else if oldValue == newValue {
      changes := [];
    } else {
      changes := [Change(path, oldValue, newValue)];
      assert path + Render([]) == path;
    }
  }

  method DiffMaps(path: string, oldMap: Value, newMap: Value) returns (changes: seq<Change>)
    requires oldMap.Map? && newMap.Map?
    ensures changes == Changes(path, Edits(oldMap, newMap))
    decreases Rank(oldMap), oldMap, 0
  {
    changes := [];
    var ordered := Sorted(oldMap.fields.Keys + newMap.fields.Keys);
    assert ordered[0..] == ordered;
    for n := 0 to |ordered|
      invariant changes + Pending(path, ordered, n, oldMap, newMap) == Pending(path, ordered, 0, oldMap, newMap)
    {
      var key := ordered[n];
      var before, after := Get(oldMap.fields, key), Get(newMap.fields, key);
      KidOfKey(oldMap.fields, key);
      KidOfKey(newMap.fields, key);
      var inner := Diff(path + (['/'] + Escape(key)), before, after);
      PendingStep(path, ordered, n, oldMap, newMap, changes);
      changes := changes + inner;
    }
  }

  method DiffLists(path: string, oldList: Value, newList: Value) returns (changes: seq<Change>)
    requires oldList.List? && newList.List?
    ensures changes == Changes(path, Edits(oldList, newList))
    decreases Rank(oldList), oldList, 0
  {
    changes := [];
    var max := |oldList.items|;
    if |newList.items| > max { max := |newList.items|; }
    ghost var ts := Indices(max);
    assert ts[0..] == ts;
    for i := 0 to max
      invariant changes + Pending(path, ts, i, oldList, newList) == Pending(path, ts, 0, oldList, newList)
    {
      var before, after := At(oldList.items, i), At(newList.items, i);
      KidOfIndex(oldList.items, i);
      KidOfIndex(newList.items, i);
      var inner := Diff(path + (['/'] + Decimal(i)), before, after);
      EscapeOfDecimal(i);
      PendingStep(path, ts, i, oldList, newList, changes);
      changes := changes + inner;
    }
  }

  // ---------------------------------------------------------------- emptiness

  lemma {:induction false} NoEditsIffEqv(a: Value, b: Value)
    ensures Edits(a, b) == [] <==> Eqv(a, b)
    decreases Rank(a), a, 1, 0
  {
    if Paired(a, b) {
      NoEditsOverIffEqv(Tokens(a, b), a, b);
    }
  }

  lemma {:induction false} NoEditsOverIffEqv(ts: seq<string>, a: Value, b: Value)
    requires Paired(a, b)
    ensures EditsOver(ts, a, b) == [] <==> forall t | t in ts :: Eqv(Kid(a, t), Kid(b, t))
    decreases Rank(a), a, 0, |ts|
  {
    if ts != [] {
      NoEditsIffEqv(Kid(a, ts[0]), Kid(b, ts[0]));
      NoEditsOverIffEqv(ts[1..], a, b);
      assert |EditsOver(ts, a, b)| == |Edits(Kid(a, ts[0]), Kid(b, ts[0]))| + |EditsOver(ts[1..], a, b)|;
      assert forall t :: t in ts <==> t == ts[0] || t in ts[1..];
    }
  }

  /** The diff is empty exactly when the canonical forms, free of nulls, coincide. */
  lemma {:induction false} DiffEmptyIffSameCanon(a: Value, b: Value)
    ensures Edits(a, b) == [] <==> Canon(a) == Canon(b)
  {
    NoEditsIffEqv(a, b);
    EqvIffSameCanon(a, b);
  }

  // ---------------------------------------------------------------- replace operations

  /** RFC 6902 section 4.3: the target location must exist. */
  function Replace(v: Value, loc: Location, x: Value): Option<Value>
    decreases |loc|
  {
    if loc == [] then Some(x)
    else if !Has(v, loc[0]) then None
    else
      match Replace(Kid(v, loc[0]), loc[1..], x)
      case None => None
      case Some(c) => Some(Put(v, loc[0], c))
  }

  function ReplaceIn(v: Option<Value>, loc: Location, x: Value): Option<Value> {
    if v.None? then None else Replace(v.value, loc, x)
  }

  function ApplyEdits(v: Value, es: seq<Edit>): Option<Value>
    decreases |es|
  {
    if es == [] then Some(v)
    else
      match Replace(v, es[0].loc, es[0].after)
      case None => None
      case Some(w) => ApplyEdits(w, es[1..])
  }

  lemma {:induction false} ApplyConcat(v: Value, es: seq<Edit>, fs: seq<Edit>)
    ensures ApplyEdits(v, es + fs) ==
            match ApplyEdits(v, es) case None => None case Some(w) => ApplyEdits(w, fs)
    decreases |es|
  {
    if es == [] {
      assert es + fs == fs;
    } else {
      assert (es + fs)[1..] == es[1..] + fs;
      var r := Replace(v, es[0].loc, es[0].after);
      if r.Some? { ApplyConcat(r.value, es[1..], fs); }
    }
  }

  lemma PutTwice(v: Value, t: string, x: Value, y: Value)
    requires Has(v, t)
    ensures Has(Put(v, t, x), t) && Put(Put(v, t, x), t, y) == Put(v, t, y)
    ensures Put(v, t, Kid(v, t)) == v
  {
  }

  lemma {:induction false} ApplyUnder(v: Value, t: string, es: seq<Edit>)
    requires Has(v, t)
    ensures ApplyEdits(v, Under(t, es)) ==
            match ApplyEdits(Kid(v, t), es) case None => None case Some(c) => Some(Put(v, t, c))
    decreases |es|
  {
    if es == [] {
      PutTwice(v, t, Null, Null);
    } else {
      assert Under(t, es)[1..] == Under(t, es[1..]);
      assert ([t] + es[0].loc)[1..] == es[0].loc;
      var r := Replace(Kid(v, t), es[0].loc, es[0].after);
      if r.Some? {
        var w := Put(v, t, r.value);
        KidOfPut(v, t, r.value, t);
        ApplyUnder(w, t, es[1..]);
        var c := ApplyEdits(r.value, es[1..]);
        if c.Some? { PutTwice(v, t, r.value, c.value); }
      }
    }
  }

  // ---------------------------------------------------------------- soundness of diff as a patch

  ghost predicate SameShape(v: Value, a: Value) {
    Paired(v, a) && forall t :: Has(v, t) <==> Has(a, t)
  }

  predicate NoAdditions(es: seq<Edit>) {
    forall i | 0 <= i < |es| :: !es[i].before.Null?
  }

  /**
   * When no difference is an addition, replacing every differing location turns the old tree into
   * one that equals the new tree up to null against absent.
   */
  lemma {:induction false} DiffPatches(a: Value, b: Value)
    requires NoAdditions(Edits(a, b))
    ensures ApplyEdits(a, Edits(a, b)).Some?
    ensures Eqv(ApplyEdits(a, Edits(a, b)).value, b)
    decreases Rank(a), a, 1, 0
  {
    if Paired(a, b) {
      TokensAreChildren(a, b);
      DiffPatchesOver(Tokens(a, b), a, b, a);
      var c := ApplyEdits(a, Edits(a, b)).value;
      TokensAreChildren(c, b);
      assert forall t :: t in Tokens(c, b) ==> t in Tokens(a, b);
    } else {
      EqvReflexive(b);
      if a != b {
        assert Edits(a, b)[1..] == [];
      }
    }
  }

  lemma {:induction false} DiffPatchesOver(ts: seq<string>, a: Value, b: Value, v: Value)
    requires Paired(a, b) && SameShape(v, a)
    requires NoDuplicates(ts) && forall t | t in ts :: Kid(v, t) == Kid(a, t)
    requires NoAdditions(EditsOver(ts, a, b))
    ensures ApplyEdits(v, EditsOver(ts, a, b)).Some?
    ensures var c := ApplyEdits(v, EditsOver(ts, a, b)).value;
            && SameShape(c, a)
            && (forall t | t in ts :: Eqv(Kid(c, t), Kid(b, t)))
            && (forall t | t !in ts :: Kid(c, t) == Kid(v, t))
    decreases Rank(a), a, 0, |ts|
  {
    if ts != [] {
      var t := ts[0];
      var es, rest := Edits(Kid(a, t), Kid(b, t)), EditsOver(ts[1..], a, b);
      NoAdditionsSplit(es, t, rest);
      DiffPatches(Kid(a, t), Kid(b, t));
      PatchChild(t, a, b, v);
      var w := ApplyEdits(v, Under(t, es)).value;
      ApplyConcat(v, Under(t, es), rest);
      assert ts == [t] + ts[1..];
      DiffPatchesOver(ts[1..], a, b, w);
    }
  }

  lemma NoAdditionsSplit(es: seq<Edit>, t: string, rest: seq<Edit>)
    requires NoAdditions(Under(t, es) + rest)
    ensures NoAdditions(es) && NoAdditions(rest)
  {
    var all := Under(t, es) + rest;
    forall i | 0 <= i < |es| ensures !es[i].before.Null? {
      assert all[i] == Under(t, es)[i];
    }
    forall i | 0 <= i < |rest| ensures !rest[i].before.Null? {
      assert all[|es| + i] == rest[i];
    }
  }

  /** One child patched: that child now equals its counterpart, its siblings are as they were. */
  lemma PatchChild(t: string, a: Value, b: Value, v: Value)
    requires Paired(a, b) && SameShape(v, a) && Kid(v, t) == Kid(a, t)
    requires var es := Edits(Kid(a, t), Kid(b, t));
             var c := ApplyEdits(Kid(a, t), es);
             NoAdditions(es) && c.Some? && Eqv(c.value, Kid(b, t))
    ensures ApplyEdits(v, Under(t, Edits(Kid(a, t), Kid(b, t)))).Some?
    ensures var w := ApplyEdits(v, Under(t, Edits(Kid(a, t), Kid(b, t)))).value;
            SameShape(w, a) && Eqv(Kid(w, t), Kid(b, t)) && forall u | u != t :: Kid(w, u) == Kid(v, u)
  {
    var es := Edits(Kid(a, t), Kid(b, t));
    if es == [] {
      assert Under(t, es) == [];
    } else {
      assert !es[0].before.Null?;
      assert !Has(a, t) ==> es == [Edit([], Null, Kid(b, t))];
      ApplyUnder(v, t, es);
      forall u { KidOfPut(v, t, ApplyEdits(Kid(a, t), es).value, u); }
    }
  }

  // ---------------------------------------------------------------- independence of the operations

  /** Neither location is the other or an ancestor of the other. */
  predicate Apart(l: Location, m: Location) {
    !(l <= m) && !(m <= l)
  }

  predicate AllApart(es: seq<Edit>) {
    forall i, j | 0 <= i < j < |es| :: Apart(es[i].loc, es[j].loc)
  }

  lemma {:induction false} DiffApart(a: Value, b: Value)
    ensures AllApart(Edits(a, b))
    decreases Rank(a), a, 1, 0
  {
    if Paired(a, b) {
      TokensAreChildren(a, b);
      DiffApartOver(Tokens(a, b), a, b);
    }
  }

  lemma {:induction false} DiffApartOver(ts: seq<string>, a: Value, b: Value)
    requires Paired(a, b) && NoDuplicates(ts)
    ensures AllApart(EditsOver(ts, a, b))
    ensures forall e | e in EditsOver(ts, a, b) :: e.loc != [] && e.loc[0] in ts
    decreases Rank(a), a, 0, |ts|
  {
    if ts != [] {
      DiffApart(Kid(a, ts[0]), Kid(b, ts[0]));
      DiffApartOver(ts[1..], a, b);
      ApartBelow(ts[0], Edits(Kid(a, ts[0]), Kid(b, ts[0])), EditsOver(ts[1..], a, b));
    }
  }

  lemma ApartBelow(t: string, es: seq<Edit>, rest: seq<Edit>)
    requires AllApart(es) && AllApart(rest)
    requires forall e | e in rest :: e.loc != [] && e.loc[0] != t
    ensures AllApart(Under(t, es) + rest)
  {
    var all := Under(t, es) + rest;
    forall i, j | 0 <= i < j < |all| ensures Apart(all[i].loc, all[j].loc) {
      if j < |es| {
        ApartUnder(t, es[i].loc, es[j].loc);
      } else if i < |es| {
        assert all[i].loc[0] == t && all[j] in rest;
      }
    }
  }

  lemma PrefixUnder(t: string, l: Location, m: Location)
    ensures [t] + l <= [t] + m <==> l <= m
  {
    var p, q := [t] + l, [t] + m;
    assert p[1..] == l && q[1..] == m;
    if p <= q {
      assert q[..|p|] == p;
      assert m[..|l|] == q[..|p|][1..];
    }
  }

  lemma ApartUnder(t: string, l: Location, m: Location)
    requires Apart(l, m)
    ensures Apart([t] + l, [t] + m)
  {
    PrefixUnder(t, l, m);
    PrefixUnder(t, m, l);
  }

  lemma ApartTail(l: Location, m: Location)
    requires Apart(l, m) && l[0] == m[0]
    ensures Apart(l[1..], m[1..])
  {
    assert l == [l[0]] + l[1..] && m == [m[0]] + m[1..];
  }

  /** Replacements at locations that are apart commute, failures included. */
  lemma {:induction false} ReplaceCommutes(v: Value, l: Location, x: Value, m: Location, y: Value)
    requires Apart(l, m)
    ensures ReplaceIn(Replace(v, l, x), m, y) == ReplaceIn(Replace(v, m, y), l, x)
    decreases |l|
  {
    if l[0] != m[0] {
      ReplaceCommutesBeside(v, l, x, m, y);
    } else if Has(v, l[0]) {
      ApartTail(l, m);
      ReplaceCommutes(Kid(v, l[0]), l[1..], x, m[1..], y);
      ReplaceTwiceBelow(v, l, x, m, y);
      ReplaceTwiceBelow(v, m, y, l, x);
    }
  }

  lemma ReplaceCommutesBeside(v: Value, l: Location, x: Value, m: Location, y: Value)
    requires l != [] && m != [] && l[0] != m[0]
    ensures ReplaceIn(Replace(v, l, x), m, y) == ReplaceIn(Replace(v, m, y), l, x)
  {
    ReplaceBeside(v, l, x, m, y);
    ReplaceBeside(v, m, y, l, x);
    if Has(v, l[0]) && Has(v, m[0]) {
      var c, d := Replace(Kid(v, l[0]), l[1..], x), Replace(Kid(v, m[0]), m[1..], y);
      if c.Some? && d.Some? {
        PutsCommute(v, l[0], c.value, m[0], d.value);
      }
    }
  }

  /** Two replacements below the same child happen inside that child. */
  lemma ReplaceTwiceBelow(v: Value, l: Location, x: Value, m: Location, y: Value)
    requires l != [] && m != [] && l[0] == m[0] && Has(v, l[0])
    ensures ReplaceIn(Replace(v, l, x), m, y) ==
            match ReplaceIn(Replace(Kid(v, l[0]), l[1..], x), m[1..], y)
            case None => None
            case Some(e) => Some(Put(v, l[0], e))
  {
    var c := Replace(Kid(v, l[0]), l[1..], x);
    if c.Some? {
      KidOfPut(v, l[0], c.value, m[0]);
      var e := Replace(c.value, m[1..], y);
      if e.Some? { PutTwice(v, l[0], c.value, e.value); }
    }
  }

  /** A replacement below one child does not affect one below another child. */
  lemma ReplaceBeside(v: Value, l: Location, x: Value, m: Location, y: Value)
    requires l != [] && m != [] && l[0] != m[0]
    ensures var r := Replace(v, l, x);
            ReplaceIn(r, m, y) ==
            if r.None? || !Has(v, m[0]) || !Has(r.value, m[0]) then None
            else match Replace(Kid(v, m[0]), m[1..], y)
                 case None => None
                 case Some(d) => Some(Put(r.value, m[0], d))
    ensures Replace(v, l, x).Some? ==> (Has(Replace(v, l, x).value, m[0]) <==> Has(v, m[0]))
  {
    if Has(v, l[0]) {
      var c := Replace(Kid(v, l[0]), l[1..], x);
      if c.Some? { KidOfPut(v, l[0], c.value, m[0]); }
    }
  }

  lemma PutsCommute(v: Value, t: string, x: Value, u: string, y: Value)
    requires Has(v, t) && Has(v, u) && t != u
    ensures Has(Put(v, t, x), u) && Has(Put(v, u, y), t)
    ensures Put(Put(v, t, x), u, y) == Put(Put(v, u, y), t, x)
  {
    if v.List? {
      ParseIndexIffDecimal(t, ParseIndex(t).value);
      ParseIndexIffDecimal(u, ParseIndex(u).value);
    }
  }

  lemma ApplyCons(v: Value, e: Edit, es: seq<Edit>)
    ensures ApplyEdits(v, [e] + es) ==
            match Replace(v, e.loc, e.after) case None => None case Some(w) => ApplyEdits(w, es)
  {
    assert ([e] + es)[1..] == es;
  }

  lemma SwapFirst(v: Value, e: Edit, f: Edit, es: seq<Edit>)
    requires Apart(e.loc, f.loc)
    ensures ApplyEdits(v, [e] + ([f] + es)) == ApplyEdits(v, [f] + ([e] + es))
  {
    ApplyCons(v, e, [f] + es);
    ApplyCons(v, f, [e] + es);
    ReplaceCommutes(v, e.loc, e.after, f.loc, f.after);
    var p, q := Replace(v, e.loc, e.after), Replace(v, f.loc, f.after);
    if p.Some? { ApplyCons(p.value, f, es); }
    if q.Some? { ApplyCons(q.value, e, es); }
  }

  lemma {:induction false} MoveToFront(v: Value, es: seq<Edit>, i: nat)
    requires i < |es| && AllApart(es)
    ensures ApplyEdits(v, es) == ApplyEdits(v, [es[i]] + Without(es, i))
    decreases i
  {
    var first, rest := es[0], es[1..];
    assert es == [first] + rest;
    if i == 0 {
      assert Without(es, 0) == rest;
    } else {
      var moved := es[i];
      assert moved == rest[i - 1];
      ApartTailOf(es);
      var others := Without(rest, i - 1);
      assert Without(es, i) == [first] + others;
      ApplyCons(v, first, rest);
      ApplyCons(v, first, [moved] + others);
      var r := Replace(v, first.loc, first.after);
      if r.Some? { MoveToFront(r.value, rest, i - 1); }
      SwapFirst(v, first, moved, others);
    }
  }

  lemma ApartTailOf(es: seq<Edit>)
    requires es != [] && AllApart(es)
    ensures AllApart(es[1..])
  {
    assert es[1..] == Without(es, 0);
    ApartWithout(es, 0);
  }

  lemma ApartWithout(es: seq<Edit>, i: nat)
    requires i < |es| && AllApart(es)
    ensures AllApart(Without(es, i))
  {
    var rest := Without(es, i);
    forall p, q | 0 <= p < q < |rest| ensures Apart(rest[p].loc, rest[q].loc) {
      assert rest[p] == es[if p < i then p else p + 1];
      assert rest[q] == es[if q < i then q else q + 1];
    }
  }

  /** The operations of one decision give the same tree in every order. */
  lemma {:induction false} OrderDoesNotMatter(v: Value, es: seq<Edit>, fs: seq<Edit>)
    requires AllApart(es) && multiset(es) == multiset(fs)
    ensures ApplyEdits(v, es) == ApplyEdits(v, fs)
    decreases |fs|
  {
    if fs == [] {
      assert |multiset(es)| == 0;
    } else {
      var i := PositionOfFirst(es, fs);
      MoveToFront(v, es, i);
      ApartWithout(es, i);
      ApplyCons(v, es[i], Without(es, i));
      var r := Replace(v, fs[0].loc, fs[0].after);
      if r.Some? { OrderDoesNotMatter(r.value, Without(es, i), fs[1..]); }
    }
  }

  // ---------------------------------------------------------------- frame

  lemma {:induction false} ReplaceFrame(v: Value, loc: Location, x: Value, other: Location)
    requires Replace(v, loc, x).Some? && Apart(loc, other)
    ensures Lookup(Replace(v, loc, x).value, other) == Lookup(v, other)
    ensures Exists(Replace(v, loc, x).value, other) == Exists(v, other)
    decreases |loc|
  {
    var c := Replace(Kid(v, loc[0]), loc[1..], x).value;
    KidOfPut(v, loc[0], c, other[0]);
    if loc[0] == other[0] {
      ApartTail(loc, other);
      ReplaceFrame(Kid(v, loc[0]), loc[1..], x, other[1..]);
    }
  }

  lemma {:induction false} ReplaceHits(v: Value, loc: Location, x: Value)
    ensures Replace(v, loc, x).Some? <==> Exists(v, loc)
    ensures Exists(v, loc) ==> Lookup(Replace(v, loc, x).value, loc) == x
    decreases |loc|
  {
    if loc != [] && Has(v, loc[0]) {
      ReplaceHits(Kid(v, loc[0]), loc[1..], x);
      var c := Replace(Kid(v, loc[0]), loc[1..], x);
      if c.Some? { KidOfPut(v, loc[0], c.value, loc[0]); }
    }
  }

  /** Locations apart from every edit keep their value. */
  lemma {:induction false} ApplyFrame(v: Value, es: seq<Edit>, other: Location)
    requires ApplyEdits(v, es).Some? && forall e | e in es :: Apart(e.loc, other)
    ensures Lookup(ApplyEdits(v, es).value, other) == Lookup(v, other)
    ensures Exists(ApplyEdits(v, es).value, other) == Exists(v, other)
    decreases |es|
  {
    if es != [] {
      ReplaceFrame(v, es[0].loc, es[0].after, other);
      ApplyFrame(Replace(v, es[0].loc, es[0].after).value, es[1..], other);
    }
  }

  // ---------------------------------------------------------------- what an edit records

  /** Each edit carries the two values found at its location, and they differ. */
  lemma {:induction false} EditsRecord(a: Value, b: Value)
    ensures forall e | e in Edits(a, b) ::
              e.before == Lookup(a, e.loc) && e.after == Lookup(b, e.loc) && !Eqv(e.before, e.after)
    decreases Rank(a), a, 1, 0
  {
    if Paired(a, b) {
      EditsRecordOver(Tokens(a, b), a, b);
    }
  }

  lemma {:induction false} EditsRecordOver(ts: seq<string>, a: Value, b: Value)
    requires Paired(a, b)
    ensures forall e | e in EditsOver(ts, a, b) ::
              e.before == Lookup(a, e.loc) && e.after == Lookup(b, e.loc) && !Eqv(e.before, e.after)
    decreases Rank(a), a, 0, |ts|
  {
    if ts != [] {
      var es, rest := Edits(Kid(a, ts[0]), Kid(b, ts[0])), EditsOver(ts[1..], a, b);
      EditsRecord(Kid(a, ts[0]), Kid(b, ts[0]));
      EditsRecordOver(ts[1..], a, b);
      assert EditsOver(ts, a, b) == Under(ts[0], es) + rest;
      forall e | e in Under(ts[0], es)
        ensures e.before == Lookup(a, e.loc) && e.after == Lookup(b, e.loc) && !Eqv(e.before, e.after)
      {
        var i :| 0 <= i < |es| && Under(ts[0], es)[i] == e;
        assert es[i] in es;
        assert e.loc[1..] == es[i].loc;
      }
    }
  }

  /** An edit of two paired trees is an edit of one of their children. */
  lemma EditDescends(a: Value, b: Value, e: Edit)
    requires Paired(a, b) && e in Edits(a, b)
    ensures e.loc != [] && (Has(a, e.loc[0]) || Has(b, e.loc[0]))
    ensures Edit(e.loc[1..], e.before, e.after) in Edits(Kid(a, e.loc[0]), Kid(b, e.loc[0]))
  {
    TokensAreChildren(a, b);
    EditOverDescends(Tokens(a, b), a, b, e);
  }

  lemma {:induction false} EditOverDescends(ts: seq<string>, a: Value, b: Value, e: Edit)
    requires Paired(a, b) && e in EditsOver(ts, a, b)
    ensures e.loc != [] && e.loc[0] in ts
    ensures Edit(e.loc[1..], e.before, e.after) in Edits(Kid(a, e.loc[0]), Kid(b, e.loc[0]))
    decreases |ts|
  {
    var es := Edits(Kid(a, ts[0]), Kid(b, ts[0]));
    if e in Under(ts[0], es) {
      var i :| 0 <= i < |es| && Under(ts[0], es)[i] == e;
      Tail(ts[0], es[i].loc);
      assert es[i] == Edit(e.loc[1..], e.before, e.after);
    } else {
      EditOverDescends(ts[1..], a, b, e);
    }
  }

  lemma UnderContains(t: string, es: seq<Edit>, e: Edit)
    requires e in es
    ensures Edit([t] + e.loc, e.before, e.after) in Under(t, es)
  {
    var i :| 0 <= i < |es| && es[i] == e;
    assert Under(t, es)[i] == Edit([t] + e.loc, e.before, e.after);
  }

  lemma {:induction false} EditAscends(ts: seq<string>, a: Value, b: Value, t: string, e: Edit)
    requires Paired(a, b) && t in ts && e in Edits(Kid(a, t), Kid(b, t))
    ensures Edit([t] + e.loc, e.before, e.after) in EditsOver(ts, a, b)
    decreases |ts|
  {
    if ts[0] == t {
      UnderContains(t, Edits(Kid(a, t), Kid(b, t)), e);
    } else {
      EditAscends(ts[1..], a, b, t, e);
    }
  }

  /** No edit touches this location, from above or from below. */
  predicate Untouched(es: seq<Edit>, loc: Location) {
    forall e | e in es :: Apart(e.loc, loc)
  }

  lemma ApartInside(t: string, x: Location, loc: Location)
    requires loc != [] && loc[0] == t && Apart([t] + x, loc)
    ensures Apart(x, loc[1..])
  {
    assert loc == [t] + loc[1..];
  }

  lemma {:induction false} UntouchedBelow(a: Value, b: Value, loc: Location)
    requires Paired(a, b) && loc != [] && loc[0] in Tokens(a, b) && Untouched(Edits(a, b), loc)
    ensures Untouched(Edits(Kid(a, loc[0]), Kid(b, loc[0])), loc[1..])
  {
    var t := loc[0];
    forall e | e in Edits(Kid(a, t), Kid(b, t)) ensures Apart(e.loc, loc[1..]) {
      EditAscends(Tokens(a, b), a, b, t, e);
      ApartInside(t, e.loc, loc);
    }
  }

  lemma NothingBelowMissing(a: Value, b: Value, loc: Location)
    requires Paired(a, b) && loc != [] && loc[0] !in Tokens(a, b)
    ensures Lookup(a, loc) == Lookup(b, loc)
  {
    TokensAreChildren(a, b);
  }

  /** The diff misses nothing: where no edit is above or below, the trees are equal up to null against absent. */
  lemma {:induction false} EditsCover(a: Value, b: Value, loc: Location)
    requires Untouched(Edits(a, b), loc)
    ensures Eqv(Lookup(a, loc), Lookup(b, loc))
    decreases |loc|
  {
    if Edits(a, b) == [] {
      NoEditsIffEqv(a, b);
      EqvEverywhere(a, b, loc);
    } else {
      var e := Edits(a, b)[0];
      assert e in Edits(a, b);
      assert loc != [] && e.loc != [];
      if loc[0] in Tokens(a, b) {
        UntouchedBelow(a, b, loc);
        EditsCover(Kid(a, loc[0]), Kid(b, loc[0]), loc[1..]);
      } else {
        NothingBelowMissing(a, b, loc);
        EqvReflexive(Lookup(a, loc));
      }
    }
  }

  lemma {:induction false} EqvEverywhere(a: Value, b: Value, loc: Location)
    requires Eqv(a, b)
    ensures Eqv(Lookup(a, loc), Lookup(b, loc))
    decreases |loc|
  {
    if loc != [] {
      EqvKid(a, b, loc[0]);
      EqvEverywhere(Kid(a, loc[0]), Kid(b, loc[0]), loc[1..]);
    }
  }

  lemma NoEditsOfSame(v: Value)
    ensures Edits(v, v) == []
  {
    NoEditsIffEqv(v, v);
    EqvReflexive(v);
  }

  /** When at most one child differs, all edits are below that child. */
  lemma {:induction false} EditsOfOneChild(ts: seq<string>, a: Value, b: Value, t: string)
    requires Paired(a, b) && NoDuplicates(ts)
    requires forall u | u in ts && u != t :: Kid(a, u) == Kid(b, u)
    ensures EditsOver(ts, a, b) == if t in ts then Under(t, Edits(Kid(a, t), Kid(b, t))) else []
    decreases |ts|
  {
    if ts != [] {
      EditsOfOneChild(ts[1..], a, b, t);
      assert ts == [ts[0]] + ts[1..];
      if ts[0] == t {
        assert Under(t, Edits(Kid(a, t), Kid(b, t))) + [] == Under(t, Edits(Kid(a, t), Kid(b, t)));
      } else {
        NoEditsOfSame(Kid(a, ts[0]));
        assert Under(ts[0], []) + EditsOver(ts[1..], a, b) == EditsOver(ts[1..], a, b);
      }
    }
  }

  lemma EditsOfOneKid(a: Value, b: Value, t: string)
    requires Paired(a, b) && (Has(a, t) || Has(b, t))
    requires forall u | u != t :: Kid(a, u) == Kid(b, u)
    ensures Edits(a, b) == Under(t, Edits(Kid(a, t), Kid(b, t)))
  {
    TokensAreChildren(a, b);
    EditsOfOneChild(Tokens(a, b), a, b, t);
  }

  function Below(loc: Location, es: seq<Edit>): seq<Edit> {
    if loc == [] then es else Under(loc[0], Below(loc[1..], es))
  }

  /** Replacing one location makes exactly the edits of that location. */
  lemma {:induction false} EditsOfReplace(v: Value, loc: Location, x: Value)
    requires Replace(v, loc, x).Some?
    ensures Edits(v, Replace(v, loc, x).value) == Below(loc, Edits(Lookup(v, loc), x))
    decreases |loc|
  {
    if loc != [] {
      var t := loc[0];
      var c := Replace(Kid(v, t), loc[1..], x).value;
      var w := Put(v, t, c);
      EditsOfReplace(Kid(v, t), loc[1..], x);
      forall u { KidOfPut(v, t, c, u); }
      EditsOfOneKid(v, w, t);
    }
  }

  // ---------------------------------------------------------------- JSON Patch documents

  datatype PatchOperation = Test(path: string, value: Value) | ReplaceAt(path: string, value: Value)

  function ApplyOperation(v: Value, op: PatchOperation): Option<Value> {
    match Parse(op.path)
    case None => None
    case Some(loc) =>
      if op.Test? then (if Exists(v, loc) && Lookup(v, loc) == op.value then Some(v) else None)
      else Replace(v, loc, op.value)
  }

  /** RFC 6902 section 5: the first failing operation fails the whole patch. */
  function ApplyPatch(v: Value, ops: seq<PatchOperation>): Option<Value>
    decreases |ops|
  {
    if ops == [] then Some(v)
    else
      match ApplyOperation(v, ops[0])
      case None => None
      case Some(w) => ApplyPatch(w, ops[1..])
  }

  function Replacements(changes: seq<Change>): seq<PatchOperation> {
    if changes == [] then [] else [ReplaceAt(changes[0].path, changes[0].after)] + Replacements(changes[1..])
  }

  /** The pointer strings lead the patch engine to the locations diff meant. */
  lemma {:induction false} PatchIsEdits(v: Value, es: seq<Edit>)
    ensures ApplyPatch(v, Replacements(Changes("", es))) == ApplyEdits(v, es)
    decreases |es|
  {
    if es != [] {
      var path := Render(es[0].loc);
      ParseOfRender(es[0].loc);
      assert "" + path == path;
      Tail(Change(path, es[0].before, es[0].after), Changes("", es[1..]));
      Tail(ReplaceAt(path, es[0].after), Replacements(Changes("", es[1..])));
      var r := Replace(v, es[0].loc, es[0].after);
      if r.Some? { PatchIsEdits(r.value, es[1..]); }
    }
  }
}
