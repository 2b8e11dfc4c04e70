/** Which resources auto-remediation may touch: the selector lists of to_eligible_resource.go. */
module Selectors {
  import opened Strings
  import opened Gvk

  /** AutoRemediationResourceEnabled on one trimmed selector. */
  predicate Selects(selector: string, g: GVK) {
    || selector == g.kind
    || selector == g.group + "/" + g.kind
    || selector == GroupVersionOf(g).Print() + "/" + g.kind
  }

  predicate Enabled(selectors: seq<string>, g: GVK) {
    exists i | 0 <= i < |selectors| :: Selects(TrimSpace(selectors[i]), g)
  }

  /** The loop of AutoRemediationResourceEnabled. */
  method AutoRemediationResourceEnabled(selectors: seq<string>, g: GVK) returns (enabled: bool)
    ensures enabled == Enabled(selectors, g)
  {
    for n := 0 to |selectors|
      invariant forall i | 0 <= i < n :: !Selects(TrimSpace(selectors[i]), g)
    {
      var selector := TrimSpace(selectors[n]);
      if selector == g.kind {
        return true;
      }
      if selector == g.group + "/" + g.kind || selector == GroupVersionOf(g).Print() + "/" + g.kind {
        return true;
      }
    }
    return false;
  }

  function WithGroupVersion(text: string, kind: string): Option<GVK> {
    match ParseGroupVersion(text)
    case None => None
    case Some(gv) => Some(gv.WithKind(kind))
  }

  /** fullyQualifiedSelector: `group/version/Kind`, or `v.../Kind` for the core group. */
  function FullyQualified(selector: string): Option<GVK> {
    var parts := Split(selector, '/');
    if |parts| == 3 then
      if parts[2] == "" then None else WithGroupVersion(parts[0] + (['/'] + parts[1]), parts[2])
    else if |parts| == 2 then
      if !HasPrefix(parts[0], "v") || parts[0] == "v" || parts[1] == "" then None else WithGroupVersion(parts[0], parts[1])
    else None
  }

  /** Whether a listed selector is fully qualified and of this kind. */
  predicate Qualifies(selector: string, kind: string) {
    FullyQualified(TrimSpace(selector)).Some? && FullyQualified(TrimSpace(selector)).value.kind == kind
  }

  /** What one listed selector offers for a kind. */
  function Offer(selector: string, kind: string): seq<GVK> {
    if Qualifies(selector, kind) then [FullyQualified(TrimSpace(selector)).value] else []
  }

  /** The GVKs the list offers for a kind, in order. */
  function Offered(selectors: seq<string>, kind: string): seq<GVK> {
    if selectors == [] then [] else Offer(selectors[0], kind) + Offered(selectors[1..], kind)
  }

  function LegacyGVK(selectors: seq<string>, kind: string): Option<GVK> {
    var matches := Offered(selectors, kind);
    if |matches| == 1 then Some(matches[0]) else None
  }

  lemma {:induction false} OfferedAppend(selectors: seq<string>, s: string, kind: string)
    ensures Offered(selectors + [s], kind) == Offered(selectors, kind) + Offer(s, kind)
  {
    if selectors == [] {
      assert [] + [s] == [s];
      assert [s][1..] == [];
    } else {
      assert (selectors + [s])[1..] == selectors[1..] + [s];
      OfferedAppend(selectors[1..], s, kind);
      Assoc(Offer(selectors[0], kind), Offered(selectors[1..], kind), Offer(s, kind));
    }
  }

  /** configuredLegacyGVK. */
  method ConfiguredLegacyGVK(selectors: seq<string>, kind: string) returns (g: Option<GVK>)
    ensures g == LegacyGVK(selectors, kind)
  {
    var matches := [];
    for n := 0 to |selectors|
      invariant matches == Offered(selectors[..n], kind)
    {
      assert selectors[..n + 1] == selectors[..n] + [selectors[n]];
      OfferedAppend(selectors[..n], selectors[n], kind);
      var candidate := FullyQualified(TrimSpace(selectors[n]));
      if candidate.Some? && candidate.value.kind == kind {
        matches := matches + [candidate.value];
      }
    }
    assert selectors[..|selectors|] == selectors;
    if |matches| != 1 {
      return None;
    }
    g := Some(matches[0]);
  }

  // ---------------------------------------------------------------- exactly one, in any order

  /** The GVKs the list offers, whatever their order. */
  function Entries(selectors: seq<string>, kind: string): multiset<GVK> {
    multiset(Offered(selectors, kind))
  }

  lemma {:induction false} EntriesOfFirst(selectors: seq<string>, kind: string)
    requires selectors != []
    ensures Entries(selectors, kind) == multiset(Offer(selectors[0], kind)) + Entries(selectors[1..], kind)
  {
  }

  lemma WithoutLater(a: seq<string>, i: nat)
    requires 0 < i < |a|
    ensures Without(a, i)[0] == a[0] && Without(a, i)[1..] == Without(a[1..], i - 1)
  {
  }

  lemma SwapSummands(a: multiset<GVK>, b: multiset<GVK>, c: multiset<GVK>)
    ensures a + (b + c) == b + (a + c)
  {
  }

  lemma {:induction false} EntriesOfOne(selectors: seq<string>, kind: string, i: nat)
    requires i < |selectors|
    ensures Entries(selectors, kind) == multiset(Offer(selectors[i], kind)) + Entries(Without(selectors, i), kind)
  {
    EntriesOfFirst(selectors, kind);
    if i == 0 {
      assert Without(selectors, 0) == selectors[1..];
    } else {
      var rest := Without(selectors, i);
      WithoutLater(selectors, i);
      assert rest[0] == selectors[0] && rest[1..] == Without(selectors[1..], i - 1);
      EntriesOfOne(selectors[1..], kind, i - 1);
      EntriesOfFirst(rest, kind);
      SwapSummands(multiset(Offer(selectors[0], kind)), multiset(Offer(selectors[i], kind)), Entries(rest[1..], kind));
    }
  }

  lemma {:induction false} SameEntries(a: seq<string>, b: seq<string>, kind: string)
    requires multiset(a) == multiset(b)
    ensures Entries(a, kind) == Entries(b, kind)
    decreases |a|
  {
    if a == [] {
      assert |multiset(b)| == 0;
    } else {
      var i := PositionOfFirst(b, a);
      SameEntries(a[1..], Without(b, i), kind);
      EntriesOfFirst(a, kind);
      EntriesOfOne(b, kind, i);
    }
  }

  lemma OneEntry(a: seq<GVK>, b: seq<GVK>)
    requires multiset(a) == multiset(b)
    ensures |a| == |b| && (|a| == 1 ==> a[0] == b[0])
  {
    assert |multiset(a)| == |a| && |multiset(b)| == |b|;
    if |a| == 1 { assert a[0] in multiset(b); }
  }

  /** Neither question depends on the order of the selectors. */
  lemma OrderDoesNotMatter(a: seq<string>, b: seq<string>, kind: string, g: GVK)
    requires multiset(a) == multiset(b)
    ensures LegacyGVK(a, kind) == LegacyGVK(b, kind)
    ensures Enabled(a, g) == Enabled(b, g)
  {
    SameEntries(a, b, kind);
    OneEntry(Offered(a, kind), Offered(b, kind));
    EnabledInOther(a, b, g);
    EnabledInOther(b, a, g);
  }

  lemma EnabledInOther(a: seq<string>, b: seq<string>, g: GVK)
    requires multiset(a) == multiset(b)
    ensures Enabled(a, g) ==> Enabled(b, g)
  {
    if Enabled(a, g) {
      var i :| 0 <= i < |a| && Selects(TrimSpace(a[i]), g);
      assert a[i] in multiset(b);
    }
  }

  /** The positions that qualify. */
  function Positions(selectors: seq<string>, kind: string): set<nat> {
    set i | 0 <= i < |selectors| && Qualifies(selectors[i], kind)
  }

  lemma PositionsAppend(selectors: seq<string>, s: string, kind: string)
    ensures Positions(selectors + [s], kind) ==
            Positions(selectors, kind) + if Qualifies(s, kind) then {|selectors|} else {}
  {
    var all := selectors + [s];
    assert forall i | 0 <= i < |selectors| :: all[i] == selectors[i];
    assert all[|selectors|] == s;
  }

  lemma {:induction false} OfferedCounts(selectors: seq<string>, kind: string)
    ensures |Offered(selectors, kind)| == |Positions(selectors, kind)|
    decreases |selectors|
  {
    if selectors == [] {
      assert Positions(selectors, kind) == {};
    } else {
      var n := |selectors| - 1;
      assert selectors == selectors[..n] + [selectors[n]];
      OfferedAppend(selectors[..n], selectors[n], kind);
      PositionsAppend(selectors[..n], selectors[n], kind);
      OfferedCounts(selectors[..n], kind);
    }
  }

  /** Some listed selector of this kind parses to this GVK. */
  predicate Listed(selectors: seq<string>, kind: string, g: GVK) {
    exists i | 0 <= i < |selectors| :: Qualifies(selectors[i], kind) && FullyQualified(TrimSpace(selectors[i])) == Some(g)
  }

  lemma {:induction false} OfferedIsListed(selectors: seq<string>, kind: string, g: GVK)
    requires g in Offered(selectors, kind)
    ensures Listed(selectors, kind, g)
  {
    if !(Qualifies(selectors[0], kind) && FullyQualified(TrimSpace(selectors[0])).value == g) {
      OfferedIsListed(selectors[1..], kind, g);
      var i :| 0 <= i < |selectors[1..]| && Qualifies(selectors[1..][i], kind)
               && FullyQualified(TrimSpace(selectors[1..][i])) == Some(g);
      assert selectors[i + 1] == selectors[1..][i];
    }
  }

  /** A kind resolves through configuration exactly when one entry of the list qualifies for it. */
  lemma LegacyIffExactlyOne(selectors: seq<string>, kind: string)
    ensures LegacyGVK(selectors, kind).Some? <==> |Positions(selectors, kind)| == 1
    ensures LegacyGVK(selectors, kind).Some? ==> Listed(selectors, kind, LegacyGVK(selectors, kind).value)
  {
    OfferedCounts(selectors, kind);
    var matches := Offered(selectors, kind);
    if |matches| == 1 { OfferedIsListed(selectors, kind, matches[0]); }
  }

  // ---------------------------------------------------------------- resolved is enabled

  /** How a GVK prints as a selector. */
  function PrintSelector(g: GVK): string {
    GroupVersionOf(g).Print() + "/" + g.kind
  }

  lemma TwoParts(s: string)
    requires |Split(s, '/')| == 2
    ensures s == Split(s, '/')[0] + (['/'] + Split(s, '/')[1]) && '/' !in Split(s, '/')[0] && '/' !in Split(s, '/')[1]
  {
    var i := IndexOf(s, '/');
    Cut(s, i);
    Tail(s[..i], Split(s[i + 1..], '/'));
    OnePart(s[i + 1..]);
  }

  lemma OnePart(s: string)
    requires |Split(s, '/')| == 1
    ensures Split(s, '/') == [s] && '/' !in s
  {
  }

  lemma ThreeParts(s: string)
    requires |Split(s, '/')| == 3
    ensures var p := Split(s, '/');
            && s == p[0] + (['/'] + (p[1] + (['/'] + p[2]))) && '/' !in p[0] && '/' !in p[1] && '/' !in p[2]
  {
    var i := IndexOf(s, '/');
    var rest := Split(s[i + 1..], '/');
    Cut(s, i);
    Tail(s[..i], rest);
    TwoParts(s[i + 1..]);
    assert Split(s, '/') == [s[..i]] + rest;
  }

  /** What the parser makes of `group/version`. */
  lemma ParsePair(group: string, version: string)
    requires '/' !in group && '/' !in version
    ensures ParseGroupVersion(group + (['/'] + version)) == Some(GroupVersion(group, version))
  {
    var s := group + (['/'] + version);
    SplitCons(group, '/', version);
    assert |s| == |group| + 1 + |version| && s[|group|] == '/';
    assert Split(version, '/') == [version];
  }

  lemma ParseSingle(version: string)
    requires '/' !in version
    ensures ParseGroupVersion(version) == Some(GroupVersion("", version))
  {
    assert Split(version, '/') == [version];
  }

  /** The two shapes of a fully qualified selector. */
  predicate CoreShape(selector: string, g: GVK) {
    && g.group == "" && selector == g.version + (['/'] + g.kind) && '/' !in g.version && HasPrefix(g.version, "v")
  }

  predicate GroupShape(selector: string, g: GVK) {
    && selector == g.group + (['/'] + (g.version + (['/'] + g.kind))) && '/' !in g.group && '/' !in g.version
  }

  lemma GroupShapeOf(selector: string)
    requires FullyQualified(selector).Some? && |Split(selector, '/')| == 3
    ensures GroupShape(selector, FullyQualified(selector).value) && '/' !in FullyQualified(selector).value.kind
  {
    var parts := Split(selector, '/');
    ThreeParts(selector);
    ParsePair(parts[0], parts[1]);
  }

  lemma CoreShapeOf(selector: string)
    requires FullyQualified(selector).Some? && |Split(selector, '/')| == 2
    ensures CoreShape(selector, FullyQualified(selector).value) && '/' !in FullyQualified(selector).value.kind
  {
    TwoParts(selector);
    ParseSingle(Split(selector, '/')[0]);
  }

  lemma {:induction false} Shapes(selector: string)
    requires FullyQualified(selector).Some?
    ensures var g := FullyQualified(selector).value; (CoreShape(selector, g) || GroupShape(selector, g)) && '/' !in g.kind
  {
    if |Split(selector, '/')| == 3 { GroupShapeOf(selector); } else { CoreShapeOf(selector); }
  }

  lemma GroupStart(selector: string, g: GVK)
    requires GroupShape(selector, g)
    ensures g.group == "" || !HasPrefix(selector, "/")
  {
    if g.group != "" { assert selector[0] == g.group[0]; }
  }

  lemma CorePrintsBack(selector: string, g: GVK)
    requires CoreShape(selector, g)
    ensures PrintSelector(g) == selector && !HasPrefix(selector, "/")
  {
    assert PrintSelector(g) == g.version + "/" + g.kind;
    assert selector[0] == g.version[0];
  }

  lemma GroupPrintsBackIff(selector: string, g: GVK)
    requires GroupShape(selector, g)
    ensures PrintSelector(g) == selector <==> !HasPrefix(selector, "/")
  {
    if g.group == "" {
      assert selector[0] == '/';
      assert |PrintSelector(g)| == |g.version| + 1 + |g.kind| && |selector| == |g.version| + 2 + |g.kind|;
    } else {
      assert selector[0] == g.group[0];
      assert PrintSelector(g) == selector;
    }
  }

  /** A fully qualified selector prints back to itself exactly when it does not start with a slash. */
  lemma PrintsBackIff(selector: string)
    requires FullyQualified(selector).Some?
    ensures PrintSelector(FullyQualified(selector).value) == selector <==> !HasPrefix(selector, "/")
  {
    var g := FullyQualified(selector).value;
    Shapes(selector);
    if CoreShape(selector, g) { CorePrintsBack(selector, g); } else { GroupPrintsBackIff(selector, g); }
  }

  /** A selector with a leading slash does not select the GVK it parses to. */
  lemma SlashSelectsNothing(s: string, g: GVK)
    requires FullyQualified(s) == Some(g) && HasPrefix(s, "/")
    ensures !Selects(s, g)
  {
    PrintsBackIff(s);
    Shapes(s);
    if CoreShape(s, g) {
      CorePrintsBack(s, g);
    } else {
      GroupStart(s, g);
      assert s[0] == '/';
      assert |s| == |g.version| + 2 + |g.kind|;
    }
  }

  /** A fully qualified selector selects what it parses to exactly when it has no leading slash. */
  lemma SelectsItselfIff(s: string, g: GVK)
    requires FullyQualified(s) == Some(g)
    ensures Selects(s, g) <==> !HasPrefix(s, "/")
  {
    PrintsBackIff(s);
    if HasPrefix(s, "/") { SlashSelectsNothing(s, g); }
  }

  /** Some other entry of the list selects this GVK, by kind, by group and kind, or by API version and kind. */
  predicate SelectedElsewhere(selectors: seq<string>, i: nat, g: GVK) {
    exists j | 0 <= j < |selectors| :: j != i && Selects(TrimSpace(selectors[j]), g)
  }

  /**
   * Resolved and enabled, exactly. The GVK a list resolves for a kind comes from the one entry that
   * qualifies, and the list enables it exactly when that entry has no leading slash or another entry
   * selects it.
   */
  lemma ResolvedIsEnabledIff(selectors: seq<string>, kind: string, i: nat)
    requires LegacyGVK(selectors, kind).Some? && i < |selectors| && Qualifies(selectors[i], kind)
    ensures FullyQualified(TrimSpace(selectors[i])) == LegacyGVK(selectors, kind)
    ensures var g := LegacyGVK(selectors, kind).value;
            Enabled(selectors, g) <==>
            !HasPrefix(TrimSpace(selectors[i]), "/") || SelectedElsewhere(selectors, i, g)
  {
    LegacyIffExactlyOne(selectors, kind);
    var g := LegacyGVK(selectors, kind).value;
    var k :| 0 <= k < |selectors| && Qualifies(selectors[k], kind) && FullyQualified(TrimSpace(selectors[k])) == Some(g);
    assert k == i by { OnlyElement(Positions(selectors, kind), k, i); }
    SelectsItselfIff(TrimSpace(selectors[i]), g);
  }

  lemma OnlyElement(s: set<nat>, a: nat, b: nat)
    requires |s| == 1 && a in s && b in s
    ensures a == b
  {
    assert |s - {a}| == 0;
  }

  lemma SplitOne(s: string)
    requires '/' !in s
    ensures Split(s, '/') == [s]
  {
  }

  lemma SplitTwo(a: string, b: string)
    requires '/' !in a && '/' !in b
    ensures Split(a + (['/'] + b), '/') == [a, b]
  {
    SplitCons(a, '/', b);
    SplitOne(b);
  }

  lemma SplitThree(a: string, b: string, c: string)
    requires '/' !in a && '/' !in b && '/' !in c
    ensures Split(a + (['/'] + (b + (['/'] + c))), '/') == [a] + [b, c]
  {
    SplitTwo(b, c);
    SplitCons(a, '/', b + (['/'] + c));
  }

  /** How a group, a version and a kind are read back from a selector, the empty group included. */
  lemma GroupSelectorParses(group: string, version: string, kind: string)
    requires '/' !in group && '/' !in version && '/' !in kind && kind != ""
    ensures FullyQualified(group + (['/'] + (version + (['/'] + kind)))) == Some(GVK(group, version, kind))
  {
    SplitThree(group, version, kind);
    ParsePair(group, version);
  }

  lemma OfferedBySole(selector: string, kind: string)
    ensures Offered([selector], kind) == Offer(selector, kind)
  {
    assert [selector][1..] == [];
    assert Offer(selector, kind) + [] == Offer(selector, kind);
  }

  /** Alone in the list, a selector `/version/Kind` resolves its kind and does not enable it. */
  lemma SlashResolvesButDoesNotEnable(selector: string, version: string, kind: string)
    requires '/' !in version && '/' !in kind && kind != ""
    requires TrimSpace(selector) == ['/'] + (version + (['/'] + kind))
    ensures var g := GVK("", version, kind); LegacyGVK([selector], kind) == Some(g) && !Enabled([selector], g)
  {
    var rest := ['/'] + (version + (['/'] + kind));
    GroupSelectorParses([], version, kind);
    assert [] + rest == rest;
    OfferedBySole(selector, kind);
    ResolvedIsEnabledIff([selector], kind, 0);
  }

  // ---------------------------------------------------------------- what a selector selects, part by part

  /** A kind as the API server has it: no part holds a slash. */
  predicate SlashFree(g: GVK) {
    '/' !in g.group && '/' !in g.version && '/' !in g.kind
  }

  lemma {:induction false} Spelled(g: GVK)
    ensures g.group + "/" + g.kind == g.group + (['/'] + g.kind)
    ensures GroupVersionOf(g).Print() + "/" + g.kind ==
            if g.group == "" then g.version + (['/'] + g.kind) else g.group + (['/'] + (g.version + (['/'] + g.kind)))
  {
    InThree(g.group, g.version, g.kind);
    InTwo(g.group, g.kind);
    InTwo(g.version, g.kind);
  }

  lemma {:induction false} InTwo(a: string, b: string)
    ensures a + "/" + b == a + (['/'] + b)
  {
  }

  lemma {:induction false} InThree(a: string, b: string, c: string)
    ensures (a + (['/'] + b)) + "/" + c == a + (['/'] + (b + (['/'] + c)))
  {
    InTwo(a + (['/'] + b), c);
    Assoc(a, ['/'] + b, ['/'] + c);
    Assoc(['/'], b, ['/'] + c);
  }

  /** Texts of two or three parts are equal exactly when their parts are. */
  lemma {:induction false} SamePair(a: string, b: string, c: string, d: string)
    requires '/' !in a && '/' !in b && '/' !in c && '/' !in d
    ensures a + (['/'] + b) == c + (['/'] + d) <==> a == c && b == d
  {
    SplitTwo(a, b);
    SplitTwo(c, d);
    if a + (['/'] + b) == c + (['/'] + d) {
      assert [a, b] == [c, d];
      assert [a, b][0] == a && [a, b][1] == b && [c, d][0] == c && [c, d][1] == d;
    }
  }

  lemma {:induction false} PairIsNoTriple(a: string, b: string, c: string, d: string, e: string)
    requires '/' !in a && '/' !in b && '/' !in c && '/' !in d && '/' !in e
    ensures a + (['/'] + b) != c + (['/'] + (d + (['/'] + e)))
  {
    SplitTwo(a, b);
    SplitThree(c, d, e);
    assert |[a, b]| == 2 && |[c] + [d, e]| == 3;
  }

  lemma {:induction false} SameTriple(a: string, b: string, c: string, d: string, e: string, f: string)
    requires '/' !in a && '/' !in b && '/' !in c && '/' !in d && '/' !in e && '/' !in f
    ensures a + (['/'] + (b + (['/'] + c))) == d + (['/'] + (e + (['/'] + f))) <==> a == d && b == e && c == f
  {
    SplitThree(a, b, c);
    SplitThree(d, e, f);
    if a + (['/'] + (b + (['/'] + c))) == d + (['/'] + (e + (['/'] + f))) {
      Tail(a, [b, c]);
      Tail(d, [e, f]);
      assert [b, c] == [e, f];
      assert [b, c][0] == b && [b, c][1] == c && [e, f][0] == e && [e, f][1] == f;
    }
  }

  /** A selector without a slash selects the kind of that name, in whatever group. */
  lemma {:induction false} SelectsByKind(s: string, g: GVK)
    requires SlashFree(g) && '/' !in s
    ensures Selects(s, g) <==> s == g.kind
  {
    Spelled(g);
    assert '/' in g.group + (['/'] + g.kind) && '/' in g.version + (['/'] + g.kind);
    assert '/' in g.group + (['/'] + (g.version + (['/'] + g.kind)));
  }

  /** A selector of two parts gives group and kind, or the version and the kind of the core group. */
  lemma {:induction false} SelectsByPair(a: string, b: string, g: GVK)
    requires SlashFree(g) && '/' !in a && '/' !in b
    ensures Selects(a + (['/'] + b), g) <==> b == g.kind && (a == g.group || (g.group == "" && a == g.version))
  {
    Spelled(g);
    SamePair(a, b, g.group, g.kind);
    SamePair(a, b, g.version, g.kind);
    PairIsNoTriple(a, b, g.group, g.version, g.kind);
    assert '/' in a + (['/'] + b);
  }

  /** A selector of three parts gives group, version and kind. */
  lemma {:induction false} SelectsByTriple(a: string, b: string, c: string, g: GVK)
    requires SlashFree(g) && '/' !in a && '/' !in b && '/' !in c
    ensures Selects(a + (['/'] + (b + (['/'] + c))), g) <==> g.group != "" && a == g.group && b == g.version && c == g.kind
  {
    Spelled(g);
    PairIsNoTriple(g.group, g.kind, a, b, c);
    PairIsNoTriple(g.version, g.kind, a, b, c);
    SameTriple(a, b, c, g.group, g.version, g.kind);
    assert '/' in a + (['/'] + (b + (['/'] + c)));
  }

  lemma {:induction false} LeftTrimmed(s: string)
    ensures |TrimLeft(s)| <= |s| && TrimLeft(s) == s[|s| - |TrimLeft(s)|..]
    ensures forall i | 0 <= i < |s| - |TrimLeft(s)| :: IsSpace(s[i])
    ensures TrimLeft(s) != "" ==> !IsSpace(TrimLeft(s)[0])
  {
    if s != "" && IsSpace(s[0]) {
      LeftTrimmed(s[1..]);
      assert forall i | 0 < i < |s| - |TrimLeft(s)| :: s[i] == s[1..][i - 1];
    }
  }

  lemma {:induction false} RightTrimmed(s: string)
    ensures |TrimRight(s)| <= |s| && TrimRight(s) == s[..|TrimRight(s)|]
    ensures forall i | |TrimRight(s)| <= i < |s| :: IsSpace(s[i])
    ensures TrimRight(s) != "" ==> !IsSpace(TrimRight(s)[|TrimRight(s)| - 1])
    decreases |s|
  {
    if s != "" && IsSpace(s[|s| - 1]) {
      var front := s[..|s| - 1];
      RightTrimmed(front);
      assert forall i | 0 <= i < |front| :: front[i] == s[i];
    }
  }

  /** Trimming keeps what stands between the white space at both ends. */
  lemma {:induction false} TrimmedIs(s: string)
    ensures exists i, j | 0 <= i <= j <= |s| ::
              && TrimSpace(s) == s[i..j]
              && (forall n | 0 <= n < |s| && !(i <= n < j) :: IsSpace(s[n]))
              && (i < j ==> !IsSpace(s[i]) && !IsSpace(s[j - 1]))
  {
    var left := TrimLeft(s);
    LeftTrimmed(s);
    RightTrimmed(left);
    var i := |s| - |left|;
    var j := i + |TrimSpace(s)|;
    assert TrimSpace(s) == s[i..j];
    assert forall n | 0 <= n < |left| :: left[n] == s[i + n];
    forall n | 0 <= n < |s| && !(i <= n < j) ensures IsSpace(s[n]) {
      if n >= j { assert left[n - i] == s[n]; }
    }
  }

  // ---------------------------------------------------------------- what is parsed, part by part

  /** One part is a version of the core group, two are group and version, more are an error. */
  lemma {:induction false} ApiVersionParses(a: string, b: string, rest: string)
    requires '/' !in a && '/' !in b
    ensures ParseGroupVersion(a) == Some(GroupVersion("", a))
    ensures ParseGroupVersion(a + (['/'] + b)) == Some(GroupVersion(a, b))
    ensures ParseGroupVersion(a + (['/'] + (b + (['/'] + rest)))) == None
  {
    SplitOne(a);
    ParsePair(a, b);
    TooMany(a, b, rest);
  }

  lemma {:induction false} TooMany(a: string, b: string, rest: string)
    requires '/' !in a && '/' !in b
    ensures |Split(a + (['/'] + (b + (['/'] + rest))), '/')| >= 3
    ensures |a + (['/'] + (b + (['/'] + rest)))| >= 2
  {
    SplitCons(a, '/', b + (['/'] + rest));
    SplitCons(b, '/', rest);
  }

  /** A fully qualified selector: group, version and kind, the kind not empty. */
  lemma {:induction false} TripleIsQualified(a: string, b: string, c: string)
    requires '/' !in a && '/' !in b && '/' !in c
    ensures FullyQualified(a + (['/'] + (b + (['/'] + c)))) == if c == "" then None else Some(GVK(a, b, c))
  {
    SplitThree(a, b, c);
    ParsePair(a, b);
  }

  /** Or a version, which starts with a v and goes on, and the kind, of the core group. */
  lemma {:induction false} PairIsQualified(a: string, b: string)
    requires '/' !in a && '/' !in b
    ensures FullyQualified(a + (['/'] + b)) == if |a| > 1 && a[0] == 'v' && b != "" then Some(GVK("", a, b)) else None
  {
    SplitTwo(a, b);
    SplitOne(a);
  }

  /** And nothing else: neither one part nor more than three. */
  lemma {:induction false} NothingElseIsQualified(a: string, b: string, c: string, rest: string)
    requires '/' !in a && '/' !in b && '/' !in c
    ensures FullyQualified(a) == None
    ensures FullyQualified(a + (['/'] + (b + (['/'] + (c + (['/'] + rest)))))) == None
  {
    SplitOne(a);
    TooMany(b, c, rest);
    SplitCons(a, '/', b + (['/'] + (c + (['/'] + rest))));
  }
}
