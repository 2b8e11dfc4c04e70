/** What an admitted decision guarantees, whatever produced the proposal. */
module GateProofs {
  import opened Strings
  import opened Pointer
  import opened Json
  import opened Diff
  import opened Gvk
  import opened Gate

  // ---------------------------------------------------------------- the patch against the whole object

  lemma DropReplace(x: Value, keys: seq<string>, loc: Location, y: Value)
    requires loc != [] && loc[0] !in keys
    ensures Replace(Drop(x, keys), loc, y) ==
            match Replace(x, loc, y) case None => None case Some(w) => Some(Drop(w, keys))
  {
    if x.Map? && loc[0] in x.fields {
      var c := Replace(x.fields[loc[0]], loc[1..], y);
      if c.Some? {
        assert Drop(x, keys).fields[loc[0] := c.value] == Drop(Map(x.fields[loc[0] := c.value]), keys).fields;
      }
    }
  }

  /** Locations normalisation keeps, other than the root. */
  predicate Clean(loc: Location) {
    loc != [] && loc[0] !in STATUS && (|loc| >= 2 && loc[0] == META ==> loc[1] !in BOOKKEEPING)
  }

  /** An edit that replaces the metadata as a whole must put normalised metadata there. */
  predicate CleanEdit(e: Edit) {
    Clean(e.loc) && (e.loc == [META] ==> Drop(e.after, BOOKKEEPING) == e.after)
  }

  lemma MetaReplace(top: Object, loc: Location, y: Value)
    requires Clean(loc) && (loc == [META] ==> Drop(y, BOOKKEEPING) == y)
    requires META in top.fields
    ensures Replace(Map(top.fields[META := Drop(top.fields[META], BOOKKEEPING)]), loc, y) ==
            match Replace(top, loc, y)
            case None => None
            case Some(w) => Some(Map(w.fields[META := Drop(w.fields[META], BOOKKEEPING)]))
  {
    var norm := Map(top.fields[META := Drop(top.fields[META], BOOKKEEPING)]);
    if loc[0] == META {
      if |loc| > 1 {
        DropReplace(top.fields[META], BOOKKEEPING, loc[1..], y);
        var c := Replace(top.fields[META], loc[1..], y);
        if c.Some? {
          var w := Map(top.fields[META := c.value]);
          assert norm.fields[META := Drop(c.value, BOOKKEEPING)] == w.fields[META := Drop(c.value, BOOKKEEPING)];
        }
      } else {
        assert loc[1..] == [];
        assert norm.fields[META := y] == top.fields[META := y][META := Drop(y, BOOKKEEPING)];
      }
    } else if loc[0] in top.fields {
      var c := Replace(top.fields[loc[0]], loc[1..], y);
      if c.Some? {
        assert norm.fields[loc[0] := c.value] ==
               top.fields[loc[0] := c.value][META := Drop(top.fields[META], BOOKKEEPING)];
      }
    }
  }

  /** Replacing a clean location and normalising commute. */
  lemma NormalizedReplace(o: Object, loc: Location, y: Value)
    requires Clean(loc) && (loc == [META] ==> Drop(y, BOOKKEEPING) == y)
    ensures var r := Replace(o, loc, y);
            Replace(Normalized(o), loc, y) == if r.Some? then Some(Normalized(r.value)) else None
    ensures Replace(o, loc, y).Some? ==> Replace(o, loc, y).value.Map?
  {
    DropReplace(o, STATUS, loc, y);
    var top := Drop(o, STATUS);
    if META in top.fields {
      MetaReplace(top, loc, y);
    } else if loc[0] == META {
      assert !Has(top, META);
    }
  }

  lemma {:induction false} NormalizedApply(o: Object, es: seq<Edit>)
    requires forall e | e in es :: CleanEdit(e)
    ensures var r := ApplyEdits(o, es);
            && (r.Some? ==> r.value.Map?)
            && ApplyEdits(Normalized(o), es) == if r.Some? then Some(Normalized(r.value)) else None
    decreases |es|
  {
    if es != [] {
      assert CleanEdit(es[0]);
      NormalizedReplace(o, es[0].loc, es[0].after);
      var r := Replace(o, es[0].loc, es[0].after);
      if r.Some? { NormalizedApply(r.value, es[1..]); }
    }
  }

  lemma BookkeepingIsNoIndex(t: string)
    requires t in BOOKKEEPING
    ensures ParseIndex(t).None?
  {
    assert !IsDigit(t[0]);
  }

  lemma MetadataEditsClean(live: Object, proposed: Object, f: Edit)
    requires f in Edits(Kid(Normalized(live), META), Kid(Normalized(proposed), META))
    ensures f.loc != [] ==> f.loc[0] !in BOOKKEEPING
    ensures f.loc == [] ==> f.after == Kid(Normalized(proposed), META)
    ensures Lookup(live, [META]).Map? && Lookup(proposed, [META]).Map? ==> f.loc != []
  {
    var p, q := Kid(Normalized(live), META), Kid(Normalized(proposed), META);
    LookupOne(live, META);
    LookupOne(proposed, META);
    if Paired(p, q) {
      EditDescends(p, q, f);
      if f.loc[0] in BOOKKEEPING { BookkeepingIsNoIndex(f.loc[0]); }
    }
  }

  lemma ProposedEditsClean(live: Object, proposed: Object, e: Edit)
    requires e in ProposedEdits(live, proposed)
    ensures CleanEdit(e)
    ensures Lookup(live, [META]).Map? && Lookup(proposed, [META]).Map? ==> e.loc != [META]
  {
    EditDescends(Normalized(live), Normalized(proposed), e);
    if e.loc[0] == META {
      MetadataEditsClean(live, proposed, Edit(e.loc[1..], e.before, e.after));
      DropTwice(proposed, BOOKKEEPING);
    }
  }

  lemma DropTwice(o: Object, keys: seq<string>)
    ensures var q := Kid(Normalized(o), META); Drop(q, BOOKKEEPING) == q
  {
    var q := Kid(Normalized(o), META);
    if q.Map? {
      assert Drop(q, BOOKKEEPING).fields == q.fields;
    }
  }

  // ---------------------------------------------------------------- what admission means

  /** A replacement, neither high-risk nor outside the allowlist. */
  predicate Permitted(policy: Policy, e: Edit) {
    && !HighRisk(Render(e.loc)) && AllowedPath(policy, Render(e.loc)) && !e.before.Null? && !e.after.Null?
  }

  lemma {:induction false} RefusalIff(policy: Policy, c: Change, e: Edit)
    requires c == Change(Render(e.loc), e.before, e.after)
    ensures Refusal(policy, c).None? <==> Permitted(policy, e)
  {
  }

  lemma {:induction false} NoRefusalIff(policy: Policy, es: seq<Edit>)
    ensures FirstRefusal(policy, Changes("", es)).None? <==> forall e | e in es :: Permitted(policy, e)
  {
    if es != [] {
      var changes := Changes("", es);
      ChangesAt(es, 0);
      RefusalIff(policy, changes[0], es[0]);
      assert changes[1..] == Changes("", es[1..]);
      NoRefusalIff(policy, es[1..]);
      SplitFirst(policy, es);
    }
  }

  lemma SplitFirst(policy: Policy, es: seq<Edit>)
    requires es != []
    ensures (forall e | e in es :: Permitted(policy, e)) <==>
            Permitted(policy, es[0]) && forall e | e in es[1..] :: Permitted(policy, e)
  {
    assert forall e :: e in es <==> e == es[0] || e in es[1..];
  }

  /**
   * Admission, exactly: the live object is the version of the snapshot and the target of the proposal,
   * a policy exists for it, it is no owned Pod, and there is at least one edit, no more than the limit
   * allows, all of them permitted.
   */
  lemma {:induction false} AdmittedIff(original: Object, live: Object, proposed: Object, limit: int)
    ensures var es := ProposedEdits(live, proposed);
            Decide(original, live, proposed, limit).allowed <==>
            && LiveMismatch(original, live).None? && ProposedMismatch(proposed, live).None?
            && PolicyFor(live) != ExactPaths({}) && !(GVKOf(live) == GVK("", "v1", "Pod") && Owned(live))
            && 0 < |es| <= EffectiveLimit(limit) && forall e | e in es :: Permitted(PolicyFor(live), e)
  {
    NoRefusalIff(PolicyFor(live), ProposedEdits(live, proposed));
  }

  /** Admission, unfolded: an identified, fresh target and only permitted replacements. */
  lemma Admitted(original: Object, live: Object, proposed: Object, limit: int)
    requires Decide(original, live, proposed, limit).allowed
    ensures var d, es := Decide(original, live, proposed, limit), ProposedEdits(live, proposed);
            && LiveMismatch(original, live).None? && ProposedMismatch(proposed, live).None?
            && d.changes == Changes("", es) && d.patch == Replacements(d.changes)
            && 0 < |es| <= EffectiveLimit(limit) && forall e | e in es :: Permitted(PolicyFor(live), e)
  {
    AdmittedIff(original, live, proposed, limit);
  }

  /** The object as it is after an admitted patch. */
  function Patched(live: Object, proposed: Object): Option<Value> {
    ApplyEdits(live, ProposedEdits(live, proposed))
  }

  /**
   * Patch correctness. The admitted operations apply to the stored object, and outside status and
   * bookkeeping the outcome is the proposal, up to null against absent. Each operation hits an
   * existing non-null location, and the order of the operations does not matter.
   */
  lemma AdmittedPatchIsTheProposal(original: Object, live: Object, proposed: Object, limit: int)
    requires Decide(original, live, proposed, limit).allowed
    ensures var d := Decide(original, live, proposed, limit);
            && ApplyPatch(live, d.patch) == Patched(live, proposed)
            && Patched(live, proposed).Some? && Patched(live, proposed).value.Map?
            && ApplyPatch(Normalized(live), d.patch) == Some(Normalized(Patched(live, proposed).value))
            && Canon(Normalized(Patched(live, proposed).value)) == Canon(Normalized(proposed))
    ensures forall e | e in ProposedEdits(live, proposed) :: !Lookup(Normalized(live), e.loc).Null?
    ensures AllApart(ProposedEdits(live, proposed))
  {
    Admitted(original, live, proposed, limit);
    var es, a, b := ProposedEdits(live, proposed), Normalized(live), Normalized(proposed);
    forall e | e in es { ProposedEditsClean(live, proposed, e); }
    PatchIsEdits(live, es);
    PatchIsEdits(a, es);
    NormalizedApply(live, es);
    assert NoAdditions(es) by {
      forall i | 0 <= i < |es| ensures !es[i].before.Null? { assert es[i] in es; }
    }
    DiffPatches(a, b);
    EqvIffSameCanon(ApplyEdits(a, es).value, b);
    EditsRecord(a, b);
    DiffApart(a, b);
  }

  /** An admitted patch always changes the object, visibly beyond null against absent. */
  lemma AdmittedPatchIsEffective(original: Object, live: Object, proposed: Object, limit: int)
    requires Decide(original, live, proposed, limit).allowed
    ensures Patched(live, proposed).Some? && Patched(live, proposed).value.Map?
    ensures Canon(Normalized(Patched(live, proposed).value)) != Canon(Normalized(live))
    ensures Patched(live, proposed).value != live
  {
    AdmittedPatchIsTheProposal(original, live, proposed, limit);
    Admitted(original, live, proposed, limit);
    DiffEmptyIffSameCanon(Normalized(live), Normalized(proposed));
  }

  // ---------------------------------------------------------------- what no admitted patch touches

  lemma ContainsNeedsItsCharacters(s: string, sub: string, c: char)
    requires Contains(s, sub) && c in sub
    ensures c in s
  {
    if HasPrefix(s, sub) {
      assert forall i | 0 <= i < |sub| :: s[i] == sub[i];
    } else {
      ContainsNeedsItsCharacters(s[1..], sub, c);
    }
  }

  /** The protected metadata fields, each listed as high-risk. */
  predicate Protected(loc: Location) {
    loc in [OWNERS, FINALIZERS, ANNOTATIONS, LABELS]
  }

  lemma RenderPlainPair(a: string, b: string)
    requires '~' !in a && '/' !in a && '~' !in b && '/' !in b
    ensures Render([a, b]) == ['/'] + (a + (['/'] + b))
  {
    EscapeOfPlain(a);
    EscapeOfPlain(b);
    assert [a, b][1..] == [b] && [b][1..] == [];
    assert Render([b]) == ['/'] + b;
  }

  lemma NoImageExemption(prefix: string, c: char)
    requires c !in prefix && c in "/containers" && c in "/initContainers"
    ensures !Contains(prefix, "/containers") && !Contains(prefix, "/initContainers")
  {
    if Contains(prefix, "/containers") { ContainsNeedsItsCharacters(prefix, "/containers", c); }
    if Contains(prefix, "/initContainers") { ContainsNeedsItsCharacters(prefix, "/initContainers", c); }
  }

  predicate Exempting(prefix: string) {
    Contains(prefix, "/containers") || Contains(prefix, "/initContainers")
  }

  lemma PairLacks(a: string, b: string, c: char)
    requires '~' !in a && '/' !in a && '~' !in b && '/' !in b
    requires c !in a && c !in b && c != '/'
    ensures c !in Render([a, b])
  {
    RenderPlainPair(a, b);
  }

  lemma MetadataIsNotExempt(field: string, c: char)
    requires '~' !in field && '/' !in field
    requires c !in field && c !in META && c != '/' && c in "/containers" && c in "/initContainers"
    ensures !Exempting(Render([META, field]))
  {
    PairLacks(META, field, c);
    NoImageExemption(Render([META, field]), c);
  }

  lemma ListedIsRisky(listed: seq<Location>, i: nat, field: string, c: char, loc: Location)
    requires '~' !in field && '/' !in field && [META, field] <= loc
    requires i < |listed| && listed[i] == [META, field]
    requires c !in field && c !in META && c != '/' && c in "/containers" && c in "/initContainers"
    ensures RiskyAmong(Render(loc), listed)
  {
    MetadataIsNotExempt(field, c);
    TextualPrefixIsAncestor(loc, listed[i]);
    assert RiskyBelow(Render(loc), Render(listed[i]));
  }

  lemma OwnersHighRisk(loc: Location)
    requires OWNERS <= loc
    ensures HighRisk(Render(loc))
  {
    ListedIsRisky(HIGH_RISK, 0, "ownerReferences", 'i', loc);
  }

  lemma FinalizersHighRisk(loc: Location)
    requires FINALIZERS <= loc
    ensures HighRisk(Render(loc))
  {
    ListedIsRisky(HIGH_RISK, 1, "finalizers", 'o', loc);
  }

  lemma AnnotationsHighRisk(loc: Location)
    requires ANNOTATIONS <= loc
    ensures HighRisk(Render(loc))
  {
    ListedIsRisky(HIGH_RISK, 3, "annotations", 'r', loc);
  }

  lemma LabelsHighRisk(loc: Location)
    requires LABELS <= loc
    ensures HighRisk(Render(loc))
  {
    ListedIsRisky(HIGH_RISK, 4, "labels", 'i', loc);
  }

  lemma BelowProtectedIsHighRisk(loc: Location, ancestor: Location)
    requires Protected(ancestor) && ancestor <= loc
    ensures HighRisk(Render(loc))
  {
    if ancestor == OWNERS {
      OwnersHighRisk(loc);
    } else if ancestor == FINALIZERS {
      FinalizersHighRisk(loc);
    } else if ancestor == ANNOTATIONS {
      AnnotationsHighRisk(loc);
    } else {
      LabelsHighRisk(loc);
    }
  }

  /** The fields that identify an object survive normalisation. */
  predicate Identifying(loc: Location) {
    loc in [API_VERSION, KIND, NAMESPACE, NAME]
  }

  lemma NormalizedKeeps(o: Object, loc: Location)
    requires Identifying(loc)
    ensures Lookup(Normalized(o), loc) == Lookup(o, loc)
  {
    if |loc| == 1 {
      LookupOne(o, loc[0]);
      LookupOne(Normalized(o), loc[0]);
    } else {
      LookupTwo(o, META, loc[1]);
      LookupTwo(Normalized(o), META, loc[1]);
      assert loc[1] !in BOOKKEEPING;
      assert loc == [META, loc[1]];
      KidOfDrop(Kid(o, META), BOOKKEEPING, loc[1]);
    }
  }

  lemma KidOfDrop(v: Value, keys: seq<string>, t: string)
    requires t !in keys
    ensures Kid(Drop(v, keys), t) == Kid(v, t)
  {
  }

  lemma NamedHasMetadata(o: Object)
    requires Text(o, NAME) != ""
    ensures Lookup(o, [META]).Map?
  {
    LookupTwo(o, META, "name");
    LookupOne(o, META);
    assert !IsDigit("name"[0]);
    assert ParseIndex("name").None?;
  }

  /**
   * An admitted patch never widens a later permission. For a named object it leaves owner references,
   * finalizers, annotations, labels, status, UID and resource version exactly as they were, keeps the
   * identity, and therefore leaves the policy that will judge the next proposal unchanged.
   */
  lemma AdmittedPatchKeepsPermissions(original: Object, live: Object, proposed: Object, limit: int)
    requires Decide(original, live, proposed, limit).allowed && Text(live, NAME) != ""
    ensures Patched(live, proposed).Some? && Patched(live, proposed).value.Map?
    ensures var w := Patched(live, proposed).value;
            && (forall loc | Protected(loc) :: Lookup(w, loc) == Lookup(live, loc))
            && Lookup(w, STATUS) == Lookup(live, STATUS)
            && (forall k | k in BOOKKEEPING :: Lookup(w, [META, k]) == Lookup(live, [META, k]))
            && SameIdentity(w, live)
            && AnnotatedPaths(w) == AnnotatedPaths(live) && Owned(w) == Owned(live)
            && GVKOf(w) == GVKOf(live) && PolicyFor(w) == PolicyFor(live)
  {
    AdmittedPatchIsTheProposal(original, live, proposed, limit);
    Admitted(original, live, proposed, limit);
    var w := Patched(live, proposed).value;
    NamedHasMetadata(live);
    NamedHasMetadata(proposed);
    MetadataKept(live, proposed);
    StatusKept(live, proposed);
    IdentityKept(w, live, proposed);
    SamePermissions(w, live);
  }

  lemma SamePermissions(w: Object, live: Object)
    requires Lookup(w, ANNOTATIONS) == Lookup(live, ANNOTATIONS) && Lookup(w, OWNERS) == Lookup(live, OWNERS)
    requires Text(w, API_VERSION) == Text(live, API_VERSION) && Text(w, KIND) == Text(live, KIND)
    ensures AnnotatedPaths(w) == AnnotatedPaths(live) && Owned(w) == Owned(live)
    ensures GVKOf(w) == GVKOf(live) && PolicyFor(w) == PolicyFor(live)
  {
  }

  predicate BothHaveMetadata(live: Object, proposed: Object) {
    Lookup(live, [META]).Map? && Lookup(proposed, [META]).Map?
  }

  lemma EditsBelowMetadata(live: Object, proposed: Object, field: Location)
    requires BothHaveMetadata(live, proposed) && |field| == 2 && field[0] == META
    ensures forall e | e in ProposedEdits(live, proposed) :: e.loc <= field ==> e.loc == field
    ensures field[1] in BOOKKEEPING ==> forall e | e in ProposedEdits(live, proposed) :: !(field <= e.loc)
  {
    forall e | e in ProposedEdits(live, proposed) ensures e.loc <= field ==> e.loc == field {
      ProposedEditsClean(live, proposed, e);
      NotAboveMetadataField(e.loc, field);
    }
    forall e | e in ProposedEdits(live, proposed) && field[1] in BOOKKEEPING ensures !(field <= e.loc) {
      ProposedEditsClean(live, proposed, e);
    }
  }

  lemma MetadataKept(live: Object, proposed: Object)
    requires BothHaveMetadata(live, proposed) && Patched(live, proposed).Some?
    requires forall e | e in ProposedEdits(live, proposed) :: !HighRisk(Render(e.loc))
    ensures var w := Patched(live, proposed).value;
            && (forall loc | Protected(loc) :: Lookup(w, loc) == Lookup(live, loc))
            && (forall k | k in BOOKKEEPING :: Lookup(w, [META, k]) == Lookup(live, [META, k]))
  {
    var es := ProposedEdits(live, proposed);
    forall loc | Protected(loc) ensures Lookup(Patched(live, proposed).value, loc) == Lookup(live, loc) {
      EditsBelowMetadata(live, proposed, loc);
      forall e | e in es ensures Apart(e.loc, loc) {
        if loc <= e.loc { BelowProtectedIsHighRisk(e.loc, loc); }
      }
      ApplyFrame(live, es, loc);
    }
    forall k | k in BOOKKEEPING
      ensures Lookup(Patched(live, proposed).value, [META, k]) == Lookup(live, [META, k])
    {
      EditsBelowMetadata(live, proposed, [META, k]);
      ApplyFrame(live, es, [META, k]);
    }
  }

  lemma StatusKept(live: Object, proposed: Object)
    requires Patched(live, proposed).Some?
    ensures Lookup(Patched(live, proposed).value, STATUS) == Lookup(live, STATUS)
  {
    var es := ProposedEdits(live, proposed);
    forall e | e in es ensures Apart(e.loc, STATUS) { ProposedEditsClean(live, proposed, e); }
    ApplyFrame(live, es, STATUS);
  }

  lemma IdentityKept(w: Object, live: Object, proposed: Object)
    requires Canon(Normalized(w)) == Canon(Normalized(proposed)) && SameIdentity(proposed, live)
    ensures SameIdentity(w, live)
  {
    forall loc | Identifying(loc) ensures Text(w, loc) == Text(proposed, loc) {
      TextKept(w, proposed, loc);
    }
    assert Identifying(API_VERSION) && Identifying(KIND) && Identifying(NAMESPACE) && Identifying(NAME);
  }

  lemma TextKept(w: Object, proposed: Object, loc: Location)
    requires Canon(Normalized(w)) == Canon(Normalized(proposed)) && Identifying(loc)
    ensures Text(w, loc) == Text(proposed, loc)
  {
    EqvIffSameCanon(Normalized(w), Normalized(proposed));
    EqvEverywhere(Normalized(w), Normalized(proposed), loc);
    NormalizedKeeps(w, loc);
    NormalizedKeeps(proposed, loc);
  }

  lemma NotAboveMetadataField(loc: Location, field: Location)
    requires Clean(loc) && loc != [META] && |field| == 2 && field[0] == META
    ensures loc <= field ==> loc == field
  {
    assert loc <= field ==> loc[0] == META;
  }

  // ---------------------------------------------------------------- the image paths

  /**
   * imagePath accepts exactly prefix, one or more digits, "/image", also where the prefix and the
   * suffix could share characters.
   */
  lemma ImagePathLanguage(prefix: string, path: string)
    ensures ImagePath(prefix, path) <==>
            exists digits :: digits != "" && AllDigits(digits) && path == prefix + (digits + "/image")
  {
    if ImagePath(prefix, path) {
      DigitsInside(prefix, path);
    }
    if digits :| digits != "" && AllDigits(digits) && path == prefix + (digits + "/image") {
      PathAroundDigits(prefix, digits);
    }
  }

  lemma DigitsInside(prefix: string, path: string)
    requires ImagePath(prefix, path)
    ensures exists digits :: digits != "" && AllDigits(digits) && path == prefix + (digits + "/image")
  {
    var rest := path[|prefix|..];
    var middle := TrimSuffix(rest, "/image");
    assert rest[|rest| - 1] == path[|path| - 1] == path[|path| - 6..][5] == 'e';
    assert !AllDigits(rest);
    assert rest == middle + "/image";
    assert path == prefix + rest;
  }

  lemma PathAroundDigits(prefix: string, digits: string)
    requires digits != "" && AllDigits(digits)
    ensures ImagePath(prefix, prefix + (digits + "/image"))
  {
    var rest := digits + "/image";
    var path := prefix + rest;
    assert path[|prefix|..] == rest && HasPrefix(path, prefix);
    assert |rest| - 6 == |digits|;
    assert rest[|digits|..] == "/image" && rest[..|digits|] == digits;
    assert path[|path| - 6..] == rest[|digits|..];
  }

  lemma RenderImage(list: Location, digits: string)
    requires AllDigits(digits)
    ensures Render(list + [digits, "image"]) == (Render(list) + "/") + (digits + "/image")
  {
    assert '~' !in digits && '/' !in digits;
    RenderPlainPair(digits, "image");
    assert ['/'] + "image" == "/image";
    RenderConcat(list, [digits, "image"]);
    Assoc(Render(list), ['/'], digits + "/image");
  }

  lemma ImageLocation(spec: Location, list: string, path: string) returns (digits: string)
    requires ImagePath(ListPrefix(spec, list), path)
    ensures digits != "" && AllDigits(digits)
    ensures path == Render(spec + [list, digits, "image"])
  {
    ImagePathLanguage(ListPrefix(spec, list), path);
    digits :| digits != "" && AllDigits(digits) && path == ListPrefix(spec, list) + (digits + "/image");
    RenderImage(spec + [list], digits);
    assert spec + [list, digits, "image"] == (spec + [list]) + [digits, "image"];
  }

  lemma ContainsAt(s: string, sub: string, rest: string)
    ensures Contains(s + (sub + rest), sub)
  {
    var t := s + (sub + rest);
    if s == [] {
      assert t == sub + rest;
    } else {
      ContainsAt(s[1..], sub, rest);
      assert t[1..] == s[1..] + (sub + rest);
    }
  }

  predicate ContainerList(list: string) {
    list == "containers" || list == "initContainers"
  }

  lemma ContainsLastToken(spec: Location, list: string)
    requires '~' !in list && '/' !in list
    ensures Contains(Render(spec + [list]), ['/'] + list)
  {
    EscapeOfPlain(list);
    assert [list][1..] == [];
    assert Render([list]) == ['/'] + list;
    RenderConcat(spec, [list]);
    assert ['/'] + list == (['/'] + list) + [];
    ContainsAt(Render(spec), ['/'] + list, []);
  }

  lemma ImageExemption(spec: Location, list: string)
    requires ContainerList(list)
    ensures Contains(Render(spec + [list]), "/containers") || Contains(Render(spec + [list]), "/initContainers")
  {
    ContainsLastToken(spec, list);
    assert ['/'] + "containers" == "/containers";
    assert ['/'] + "initContainers" == "/initContainers";
  }

  /** The only listed prefixes above an image of a registered kind are the container lists themselves. */
  lemma ListedAboveImage(p: Policy, list: string, digits: string, i: nat)
    requires !p.ExactPaths? && ContainerList(list) && i < |HIGH_RISK|
    requires HIGH_RISK[i] <= PodSpec(p) + [list, digits, "image"]
    ensures HIGH_RISK[i] == PodSpec(p) + [list]
  {
    var h, loc := HIGH_RISK[i], PodSpec(p) + [list, digits, "image"];
    assert h[0] == loc[0] == "spec";
    assert |h| > 1 && h[1] == loc[1];
    assert |h| > 2 ==> h[2] == loc[2] && h[3] == loc[3];
  }

  /** No path accepted by a registered image policy is ever classed high-risk. */
  lemma ImagePathsAreNotHighRisk(p: Policy, path: string)
    requires !p.ExactPaths? && AllowedPath(p, path)
    ensures !HighRisk(path)
  {
    var list := if ImagePath(ListPrefix(PodSpec(p), "containers"), path) then "containers" else "initContainers";
    var digits := ImageLocation(PodSpec(p), list, path);
    var loc := PodSpec(p) + [list, digits, "image"];
    forall i | 0 <= i < |HIGH_RISK| ensures !RiskyBelow(path, Render(HIGH_RISK[i])) {
      TextualPrefixIsAncestor(loc, HIGH_RISK[i]);
      if HIGH_RISK[i] <= loc {
        ListedAboveImage(p, list, digits, i);
        ImageExemption(PodSpec(p), list);
      }
    }
  }

  // ---------------------------------------------------------------- one image and nothing else

  lemma {:induction false} ReplaceKeepsShape(v: Value, loc: Location, x: Value, above: Location)
    requires Replace(v, loc, x).Some? && above <= loc && above != loc
    ensures SameShape(Lookup(Replace(v, loc, x).value, above), Lookup(v, above))
    decreases |loc|
  {
    var t := loc[0];
    var c := Replace(Kid(v, t), loc[1..], x).value;
    forall u { KidOfPut(v, t, c, u); }
    if above != [] {
      assert above[0] == t && above[1..] <= loc[1..];
      ReplaceKeepsShape(Kid(v, t), loc[1..], x, above[1..]);
    }
  }

  lemma SpecKept(o: Object, loc: Location)
    requires loc != [] && loc[0] == "spec"
    ensures Lookup(Normalized(o), loc) == Lookup(o, loc)
  {
    assert Kid(Normalized(o), "spec") == Kid(o, "spec");
  }

  /** `w` is `v` with the value at the existing location `loc` replaced, and differs nowhere else. */
  ghost predicate OnlyReplaced(v: Value, w: Value, loc: Location, x: Value) {
    && Replace(v, loc, x) == Some(w)
    && Exists(v, loc) && Lookup(w, loc) == x
    && (forall other | Apart(loc, other) ::
          Lookup(w, other) == Lookup(v, other) && Exists(w, other) == Exists(v, other))
    && (forall above | above <= loc && above != loc :: SameShape(Lookup(w, above), Lookup(v, above)))
  }

  lemma ReplaceReplacesOnly(v: Value, loc: Location, x: Value)
    requires Replace(v, loc, x).Some?
    ensures OnlyReplaced(v, Replace(v, loc, x).value, loc, x)
  {
    ReplaceHits(v, loc, x);
    forall other | Apart(loc, other) { ReplaceFrame(v, loc, x, other); }
    forall above | above <= loc && above != loc { ReplaceKeepsShape(v, loc, x, above); }
  }

  /**
   * Under a registered policy and the default limit, an admitted decision is one replacement of one
   * existing, non-null container image below the kind's own pod specification. Every location apart
   * from it keeps its value, and every map and list above it keeps its keys and its length.
   */
  lemma RegisteredPolicyChangesOneImage(original: Object, live: Object, proposed: Object, p: Policy)
    returns (list: string, digits: string)
    requires RegisteredPolicy(GVKOf(live)) == Some(p)
    requires Decide(original, live, proposed, 0).allowed
    ensures ContainerList(list) && digits != "" && AllDigits(digits)
    ensures var loc := PodSpec(p) + [list, digits, "image"];
            && Decide(original, live, proposed, 0).patch == [ReplaceAt(Render(loc), Lookup(proposed, loc))]
            && !Lookup(live, loc).Null? && !Lookup(proposed, loc).Null?
            && !Eqv(Lookup(live, loc), Lookup(proposed, loc))
            && Patched(live, proposed).Some?
            && OnlyReplaced(live, Patched(live, proposed).value, loc, Lookup(proposed, loc))
  {
    Admitted(original, live, proposed, 0);
    AdmittedPatchIsTheProposal(original, live, proposed, 0);
    var e := ProposedEdits(live, proposed)[0];
    assert e in ProposedEdits(live, proposed);
    list, digits := OneEdit(p, live, proposed, e);
    OneEditDecision(live, proposed, e);
    ReplaceReplacesOnly(live, e.loc, e.after);
  }

  lemma OneEdit(p: Policy, live: Object, proposed: Object, e: Edit) returns (list: string, digits: string)
    requires !p.ExactPaths? && e in ProposedEdits(live, proposed) && AllowedPath(p, Render(e.loc))
    ensures ContainerList(list) && digits != "" && AllDigits(digits)
    ensures e.loc == PodSpec(p) + [list, digits, "image"]
    ensures e.before == Lookup(live, e.loc) && e.after == Lookup(proposed, e.loc) && !Eqv(e.before, e.after)
  {
    list := if ImagePath(ListPrefix(PodSpec(p), "containers"), Render(e.loc)) then "containers" else "initContainers";
    digits := ImageLocation(PodSpec(p), list, Render(e.loc));
    RenderInjective(e.loc, PodSpec(p) + [list, digits, "image"]);
    EditsRecord(Normalized(live), Normalized(proposed));
    SpecKept(live, e.loc);
    SpecKept(proposed, e.loc);
  }

  lemma OneEditDecision(live: Object, proposed: Object, e: Edit)
    requires |ProposedEdits(live, proposed)| == 1 && ProposedEdits(live, proposed)[0] == e
    ensures Patched(live, proposed) == Replace(live, e.loc, e.after)
    ensures Replacements(Changes("", ProposedEdits(live, proposed))) == [ReplaceAt(Render(e.loc), e.after)]
  {
    var es := ProposedEdits(live, proposed);
    assert es == [e] + [];
    ApplyCons(live, e, []);
    ChangesAt(es, 0);
    assert Changes("", es)[1..] == [];
  }

  // ---------------------------------------------------------------- distinct paths

  /** No two reported paths coincide, nor does one name an ancestor of another. */
  lemma ReportedPathsAreIndependent(live: Object, proposed: Object, i: nat, j: nat)
    requires var cs := Changes("", ProposedEdits(live, proposed)); i < j < |cs|
    ensures var cs := Changes("", ProposedEdits(live, proposed));
            && cs[i].path != cs[j].path
            && !HasPrefix(cs[j].path, cs[i].path + "/") && !HasPrefix(cs[i].path, cs[j].path + "/")
  {
    var es := ProposedEdits(live, proposed);
    ChangesAt(es, i);
    ChangesAt(es, j);
    DiffApart(Normalized(live), Normalized(proposed));
    assert Apart(es[i].loc, es[j].loc);
    TextualPrefixIsAncestor(es[i].loc, es[j].loc);
    TextualPrefixIsAncestor(es[j].loc, es[i].loc);
  }
}
