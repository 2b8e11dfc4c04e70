/** What the gate decides, told on the plain fields of the objects and on the texts of the paths. */
module GateFields {
  import opened Strings
  import opened Pointer
  import opened Json
  import opened Diff
  import opened Gvk
  import opened Gate
  import opened GateProofs

  // ---------------------------------------------------------------- identity

  lemma {:induction false} TextOfField(o: Object, key: string)
    ensures Text(o, [key]) == TextAt(o, key)
  {
    LookupField(o, key);
  }

  lemma {:induction false} TextOfFieldIn(o: Object, outer: string, inner: string)
    requires inner != "" && !IsDigit(inner[0])
    ensures Text(o, [outer, inner]) == TextIn(o, outer, inner)
  {
    LookupFieldIn(o, outer, inner);
  }

  lemma {:induction false} IdentityTexts(o: Object)
    ensures Text(o, API_VERSION) == TextAt(o, "apiVersion") && Text(o, KIND) == TextAt(o, "kind")
    ensures Text(o, NAMESPACE) == TextIn(o, "metadata", "namespace") && Text(o, NAME) == TextIn(o, "metadata", "name")
    ensures Text(o, UID) == TextIn(o, "metadata", "uid")
    ensures Text(o, RESOURCE_VERSION) == TextIn(o, "metadata", "resourceVersion")
    ensures Text(o, GENERATE_NAME) == TextIn(o, "metadata", "generateName")
  {
    TextOfField(o, "apiVersion");
    TextOfField(o, "kind");
    TextOfFieldIn(o, "metadata", "namespace");
    TextOfFieldIn(o, "metadata", "name");
    TextOfFieldIn(o, "metadata", "uid");
    TextOfFieldIn(o, "metadata", "resourceVersion");
    TextOfFieldIn(o, "metadata", "generateName");
  }

  /** The same API version, kind, namespace and name. */
  predicate SameObject(a: Object, b: Object) {
    && TextAt(a, "apiVersion") == TextAt(b, "apiVersion") && TextAt(a, "kind") == TextAt(b, "kind")
    && TextIn(a, "metadata", "namespace") == TextIn(b, "metadata", "namespace")
    && TextIn(a, "metadata", "name") == TextIn(b, "metadata", "name")
  }

  /** Both carry the same non-empty string there. */
  predicate Share(a: Object, b: Object, field: string) {
    TextIn(a, "metadata", field) == TextIn(b, "metadata", field) != ""
  }

  /** The live object is the very version the proposal was made for. */
  predicate SameVersion(original: Object, live: Object) {
    Share(original, live, "uid") && Share(original, live, "resourceVersion") && SameObject(original, live)
  }

  /** The proposal is about the live object and claims no other identity or version. */
  predicate Fits(proposed: Object, live: Object) {
    && SameObject(proposed, live)
    && TextIn(proposed, "metadata", "uid") in ["", TextIn(live, "metadata", "uid")]
    && TextIn(proposed, "metadata", "resourceVersion") in ["", TextIn(live, "metadata", "resourceVersion")]
    && TextIn(proposed, "metadata", "generateName") == TextIn(live, "metadata", "generateName")
  }

  lemma {:induction false} MismatchFields(original: Object, live: Object, proposed: Object)
    ensures LiveMismatch(original, live).None? <==> SameVersion(original, live)
    ensures ProposedMismatch(proposed, live).None? <==> Fits(proposed, live)
  {
    IdentityTexts(original);
    IdentityTexts(live);
    IdentityTexts(proposed);
  }

  /** Which check fails first is the reason. */
  lemma {:induction false} FirstMismatch(original: Object, live: Object, proposed: Object, limit: int)
    ensures var d := Decide(original, live, proposed, limit);
            && (!Share(original, live, "uid") ==> d == Rejected(UidMismatch))
            && (Share(original, live, "uid") && !Share(original, live, "resourceVersion") ==> d == Rejected(ResourceVersionMismatch))
            && (Share(original, live, "uid") && Share(original, live, "resourceVersion") && !SameObject(original, live) ==>
                  d == Rejected(IdentityMismatch))
            && (SameVersion(original, live) && !SameObject(proposed, live) ==> d == Rejected(ProposedIdentity))
  {
    IdentityTexts(original);
    IdentityTexts(live);
    IdentityTexts(proposed);
  }

  // ---------------------------------------------------------------- group, version and kind

  /** A group and a version without slashes are read back from the API version. */
  lemma {:induction false} KindOfGroup(o: Object, group: string, version: string)
    requires '/' !in group && '/' !in version && group != "" && TextAt(o, "apiVersion") == group + (['/'] + version)
    ensures GVKOf(o) == GVK(group, version, TextAt(o, "kind"))
  {
    IdentityTexts(o);
    SplitCons(group, '/', version);
    SplitWhole(version, '/');
    assert (group + (['/'] + version))[|group|] == '/';
  }

  /** An API version without a slash is of the core group. */
  lemma {:induction false} KindOfCore(o: Object, version: string)
    requires '/' !in version && version != "" && TextAt(o, "apiVersion") == version
    ensures GVKOf(o) == GVK("", version, TextAt(o, "kind"))
  {
    IdentityTexts(o);
    SplitWhole(version, '/');
  }

  lemma {:induction false} SplitWhole(s: string, c: char)
    requires c !in s
    ensures Split(s, c) == [s]
  {
  }

  // ---------------------------------------------------------------- what a proposal may be about

  /** `rest` is this map without these keys. */
  predicate Without(v: Value, keys: set<string>, rest: Value) {
    if v.Map? then rest == Map(v.fields - keys) else rest == v
  }

  const SERVER_FIELDS: set<string> :=
    {"uid", "resourceVersion", "generation", "creationTimestamp", "deletionTimestamp", "managedFields", "selfLink"}

  lemma {:induction false} ServerFields()
    ensures SERVER_FIELDS == set k | k in BOOKKEEPING
  {
  }

  /** Left out are the status and, in a metadata that is a map, the fields the server writes. */
  lemma {:induction false} NormalizedIs(o: Object)
    ensures var n := Normalized(o).fields;
            && n.Keys == o.fields.Keys - {"status"}
            && (forall k | k in n && k != "metadata" :: n[k] == o.fields[k])
            && ("metadata" in n ==> Without(o.fields["metadata"], SERVER_FIELDS, n["metadata"]))
  {
    if "metadata" in o.fields && o.fields["metadata"].Map? {
      ServerFields();
      DroppedIs(o.fields["metadata"], BOOKKEEPING, SERVER_FIELDS);
    }
  }

  lemma {:induction false} DroppedIs(v: Value, keys: seq<string>, dropped: set<string>)
    requires v.Map? && dropped == set k | k in keys
    ensures Without(v, dropped, Drop(v, keys))
  {
    assert Drop(v, keys).fields == v.fields - dropped;
  }

  // ---------------------------------------------------------------- owned Pods

  /** A v1 Pod whose metadata.ownerReferences are these, all of them maps. */
  predicate PodOwnedBy(o: Object, refs: seq<Value>) {
    && Holds(o, "apiVersion", Str("v1")) && Holds(o, "kind", Str("Pod"))
    && HoldsIn(o, "metadata", "ownerReferences", List(refs)) && forall i | 0 <= i < |refs| :: refs[i].Map?
  }

  /** metadata.ownerReferences is absent or the empty list. */
  predicate NoOwners(o: Object) {
    LacksIn(o, "metadata", "ownerReferences") || HoldsIn(o, "metadata", "ownerReferences", List([]))
  }

  /** Whatever is proposed, nothing is ever allowed on a Pod with owner references, however many. */
  lemma {:induction false} OwnedPodIsNeverAllowed(original: Object, live: Object, proposed: Object, limit: int, refs: seq<Value>)
    requires PodOwnedBy(live, refs) && refs != []
    ensures !Decide(original, live, proposed, limit).allowed
  {
    KindOfCore(live, "v1");
    LookupFieldIn(live, "metadata", "ownerReferences");
    AdmittedIff(original, live, proposed, limit);
  }

  /** The first so many changes are not refused. */
  predicate PassesUpTo(policy: Policy, changes: seq<Change>, n: nat)
    requires n <= |changes|
  {
    forall i | 0 <= i < n :: Refusal(policy, changes[i]).None?
  }

  predicate RefusedFirst(policy: Policy, changes: seq<Change>, n: nat, refusal: Option<Reason>) {
    n < |changes| && refusal == Refusal(policy, changes[n]) && PassesUpTo(policy, changes, n)
  }

  lemma {:induction false} PassesOneMore(policy: Policy, changes: seq<Change>, n: nat)
    requires n < |changes| && Refusal(policy, changes[0]).None? && PassesUpTo(policy, changes[1..], n)
    ensures PassesUpTo(policy, changes, n + 1)
  {
    forall i | 0 <= i < n + 1 ensures Refusal(policy, changes[i]).None? {
      if i > 0 { assert changes[i] == changes[1..][i - 1]; }
    }
  }

  /** The loop over the changes ends with the refusal of the first one refused; it gets through when none is. */
  lemma {:induction false} FirstRefusalIs(policy: Policy, changes: seq<Change>)
    ensures var refusal := FirstRefusal(policy, changes);
            if refusal.Some? then exists n: nat :: RefusedFirst(policy, changes, n, refusal)
            else PassesUpTo(policy, changes, |changes|)
  {
    if changes != [] {
      var rest, refusal := changes[1..], FirstRefusal(policy, changes);
      if Refusal(policy, changes[0]).Some? {
        assert RefusedFirst(policy, changes, 0, refusal);
      } else {
        FirstRefusalIs(policy, rest);
        if refusal.Some? {
          var n: nat :| RefusedFirst(policy, rest, n, refusal);
          PassesOneMore(policy, changes, n);
          assert RefusedFirst(policy, changes, n + 1, refusal);
        } else {
          PassesOneMore(policy, changes, |rest|);
        }
      }
    }
  }

  /** It leaves one replacement for each change, in order. */
  lemma {:induction false} ReplacementsAre(changes: seq<Change>)
    ensures var patch := Replacements(changes);
            |patch| == |changes| && forall i | 0 <= i < |changes| :: patch[i] == ReplaceAt(changes[i].path, changes[i].after)
  {
    if changes != [] { ReplacementsAre(changes[1..]); }
  }

  lemma {:induction false} RefusalIsOfChange(policy: Policy, changes: seq<Change>)
    ensures FirstRefusal(policy, changes) != Some(OwnedPod)
  {
    if changes != [] { RefusalIsOfChange(policy, changes[1..]); }
  }

  lemma {:induction false} NotOwned(o: Object)
    requires NoOwners(o)
    ensures !Owned(o)
  {
    LookupFieldIn(o, "metadata", "ownerReferences");
  }

  lemma {:induction false} ChangesAreNoOwners(policy: Policy, changes: seq<Change>, limit: int)
    ensures OwnedPod !in DecideChanges(policy, changes, limit).reasons
  {
    RefusalIsOfChange(policy, changes);
  }

  lemma {:induction false} MismatchesAreNoOwners(original: Object, live: Object, proposed: Object)
    ensures LiveMismatch(original, live) != Some(OwnedPod) && ProposedMismatch(proposed, live) != Some(OwnedPod)
  {
  }

  lemma {:induction false} UnownedReasons(original: Object, live: Object, proposed: Object, limit: int)
    requires !Owned(live)
    requires LiveMismatch(original, live) != Some(OwnedPod) && ProposedMismatch(proposed, live) != Some(OwnedPod)
    requires OwnedPod !in DecideChanges(PolicyFor(live), Changes("", ProposedEdits(live, proposed)), limit).reasons
    ensures OwnedPod !in Decide(original, live, proposed, limit).reasons
  {
  }

  /** Without owner references that is never the reason. */
  lemma {:induction false} UnownedIsNotRefusedAsOwned(original: Object, live: Object, proposed: Object, limit: int)
    requires NoOwners(live)
    ensures OwnedPod !in Decide(original, live, proposed, limit).reasons
  {
    NotOwned(live);
    MismatchesAreNoOwners(original, live, proposed);
    ChangesAreNoOwners(PolicyFor(live), Changes("", ProposedEdits(live, proposed)), limit);
    UnownedReasons(original, live, proposed, limit);
  }

  // ---------------------------------------------------------------- the registry

  const TEMPLATED: set<GVK> := {
    GVK("apps", "v1", "Deployment"), GVK("apps", "v1", "DaemonSet"), GVK("apps", "v1", "StatefulSet"),
    GVK("apps", "v1", "ReplicaSet"), GVK("batch", "v1", "Job")}

  /** The seven registered kinds. */
  lemma {:induction false} RegisteredIff(g: GVK)
    ensures RegisteredPolicy(g).Some? <==> g in TEMPLATED || g == GVK("", "v1", "Pod") || g == GVK("batch", "v1", "CronJob")
  {
  }

  /** The image of the container with this index in one of the two lists of a pod specification. */
  predicate ImageAt(spec: Location, list: string, digits: string, path: string) {
    && (list == "containers" || list == "initContainers") && digits != "" && AllDigits(digits)
    && path == Render(spec + [list, digits, "image"])
  }

  ghost predicate ImageInList(spec: Location, list: string, path: string) {
    exists digits :: ImageAt(spec, list, digits, path)
  }

  /** An image of a container in one of the two lists. */
  ghost predicate ImageIn(spec: Location, path: string) {
    ImageInList(spec, "containers", path) || ImageInList(spec, "initContainers", path)
  }

  lemma {:induction false} ImageOfList(spec: Location, list: string, path: string)
    requires list == "containers" || list == "initContainers"
    ensures ImagePath(ListPrefix(spec, list), path) <==> ImageInList(spec, list, path)
  {
    if ImagePath(ListPrefix(spec, list), path) {
      var digits := ImageLocation(spec, list, path);
      assert ImageAt(spec, list, digits, path);
    }
    if digits :| ImageAt(spec, list, digits, path) { ImageIsAllowed(spec, list, digits); }
  }

  lemma {:induction false} ImageIsAllowed(spec: Location, list: string, digits: string)
    requires digits != "" && AllDigits(digits)
    ensures ImagePath(ListPrefix(spec, list), Render(spec + [list, digits, "image"]))
  {
    RenderImage(spec + [list], digits);
    assert spec + [list, digits, "image"] == (spec + [list]) + [digits, "image"];
    PathAroundDigits(ListPrefix(spec, list), digits);
  }

  lemma {:induction false} ImageInEither(spec: Location, path: string)
    ensures ImagePath(ListPrefix(spec, "containers"), path) || ImagePath(ListPrefix(spec, "initContainers"), path) <==> ImageIn(spec, path)
  {
    ImageOfList(spec, "containers", path);
    ImageOfList(spec, "initContainers", path);
  }

  lemma {:induction false} AllowedIsImage(g: GVK, path: string)
    requires RegisteredPolicy(g).Some?
    ensures var p := RegisteredPolicy(g).value;
            AllowedPath(p, path) <==>
              ImagePath(ListPrefix(PodSpec(p), "containers"), path) || ImagePath(ListPrefix(PodSpec(p), "initContainers"), path)
  {
  }

  lemma {:induction false} RegisteredSpec(g: GVK)
    requires RegisteredPolicy(g).Some?
    ensures var spec := PodSpec(RegisteredPolicy(g).value);
            && (g == GVK("", "v1", "Pod") ==> spec == ["spec"])
            && (g in TEMPLATED ==> spec == ["spec", "template", "spec"])
            && (g == GVK("batch", "v1", "CronJob") ==> spec == ["spec", "jobTemplate", "spec", "template", "spec"])
  {
  }

  /** What each registered kind may have changed: container images of its own pod specification. */
  lemma {:induction false} RegisteredPaths(g: GVK, path: string)
    requires RegisteredPolicy(g).Some?
    ensures var p := RegisteredPolicy(g).value;
            && (g == GVK("", "v1", "Pod") ==> (AllowedPath(p, path) <==> ImageIn(["spec"], path)))
            && (g in TEMPLATED ==> (AllowedPath(p, path) <==> ImageIn(["spec", "template", "spec"], path)))
            && (g == GVK("batch", "v1", "CronJob") ==>
                  (AllowedPath(p, path) <==> ImageIn(["spec", "jobTemplate", "spec", "template", "spec"], path)))
  {
    AllowedIsImage(g, path);
    ImageInEither(PodSpec(RegisteredPolicy(g).value), path);
    RegisteredSpec(g);
  }

  // ---------------------------------------------------------------- high risk

  const META_RISKS: seq<string> := ["ownerReferences", "finalizers", "managedFields", "annotations", "labels"]
  const SPEC_RISKS: seq<string> := ["serviceAccountName", "hostNetwork", "hostPID", "hostIPC", "securityContext"]

  /** A field of a Pod's own specification, or of the one in a template. */
  predicate OfPodSpec(p: Location, field: string) {
    p == ["spec", field] || p == ["spec", "template", "spec", field]
  }

  /** Nothing at or below these may ever be changed. */
  predicate Risk(p: Location) {
    && p != []
    && var field := p[|p| - 1];
       p == ["status"] || (field in META_RISKS && p == ["metadata", field]) || (field in SPEC_RISKS && OfPodSpec(p, field))
  }

  /** Nothing at or below these but images may be changed. */
  predicate ListOfContainers(p: Location) {
    OfPodSpec(p, "containers") || OfPodSpec(p, "initContainers")
  }

  lemma {:induction false} ListedAre(p: Location)
    ensures p in HIGH_RISK <==> Risk(p) || ListOfContainers(p)
  {
  }

  predicate Plain(loc: Location) {
    forall t | t in loc :: '~' !in t && '/' !in t
  }

  /** Some key starts with this. */
  predicate KeyStarts(loc: Location, w: string) {
    exists i | 0 <= i < |loc| :: w <= loc[i]
  }

  lemma {:induction false} SkipKey(t: string, rest: string, sub: string)
    requires '/' !in t && sub != "" && sub[0] == '/'
    ensures Contains(t + rest, sub) <==> Contains(rest, sub)
    decreases |t|
  {
    if t == "" {
      assert t + rest == rest;
    } else {
      assert (t + rest)[0] == t[0] && (t + rest)[1..] == t[1..] + rest;
      SkipKey(t[1..], rest, sub);
    }
  }

  lemma {:induction false} KeyAtFront(t: string, rest: string, w: string)
    requires '/' !in w && (rest == "" || rest[0] == '/')
    ensures w <= t + rest <==> w <= t
  {
    if |t| < |w| <= |t + rest| { assert (t + rest)[|t|] == '/'; }
    if w <= t { assert (t + rest)[..|w|] == t[..|w|]; }
    if w <= t + rest && |w| <= |t| { assert (t + rest)[..|w|] == t[..|w|]; }
  }

  /** A separator and a word occur in the text exactly when some key starts with the word. */
  lemma {:induction false} SegmentOccurs(loc: Location, w: string)
    requires Plain(loc) && '/' !in w
    ensures Contains(Render(loc), ['/'] + w) <==> KeyStarts(loc, w)
    decreases |loc|
  {
    if loc != [] {
      var t, rest := loc[0], Render(loc[1..]);
      assert t in loc && forall u | u in loc[1..] :: u in loc;
      EscapeOfPlain(t);
      Tail('/', t + rest);
      Tail('/', w);
      assert HasPrefix(Render(loc), ['/'] + w) <==> w <= t + rest;
      if loc[1..] != [] { RenderBody(loc[1..]); }
      KeyAtFront(t, rest, w);
      SkipKey(t, rest, ['/'] + w);
      SegmentOccurs(loc[1..], w);
      KeyStartsSplit(loc, w);
    }
  }

  lemma {:induction false} KeyStartsSplit(loc: Location, w: string)
    requires loc != []
    ensures KeyStarts(loc, w) <==> w <= loc[0] || KeyStarts(loc[1..], w)
  {
    if i :| 0 <= i < |loc| && w <= loc[i] { assert i > 0 ==> loc[1..][i - 1] == loc[i]; }
    if i :| 0 <= i < |loc[1..]| && w <= loc[1..][i] { assert loc[i + 1] == loc[1..][i]; }
  }

  /** A key that needs no escaping and starts with neither word. */
  predicate Harmless(t: string) {
    '~' !in t && '/' !in t && t != "" && t[0] != 'c' && t[0] != 'i'
  }

  lemma {:induction false} HarmlessNames(t: string)
    requires t == "metadata" || t == "spec" || t == "template" || t == "status"
    ensures Harmless(t)
  {
  }

  lemma {:induction false} HarmlessMeta(t: string)
    requires t in META_RISKS
    ensures Harmless(t)
  {
  }

  lemma {:induction false} HarmlessSpec(t: string)
    requires t in SPEC_RISKS
    ensures Harmless(t)
  {
  }

  lemma {:induction false} HarmlessKeys(p: Location)
    requires forall t | t in p :: Harmless(t)
    ensures Plain(p) && !KeyStarts(p, "containers") && !KeyStarts(p, "initContainers")
  {
    assert "containers"[0] == 'c' && "initContainers"[0] == 'i';
    forall i | 0 <= i < |p| ensures Harmless(p[i]) && '~' !in p[i] && '/' !in p[i] { assert p[i] in p; }
  }

  lemma {:induction false} PodSpecKeys(p: Location, f: string)
    requires OfPodSpec(p, f)
    ensures forall t | t in p :: t == f || Harmless(t)
    ensures f in p
  {
    HarmlessNames("spec");
    HarmlessNames("template");
  }

  lemma {:induction false} RiskKeys(p: Location)
    requires Risk(p)
    ensures Plain(p) && !KeyStarts(p, "containers") && !KeyStarts(p, "initContainers")
  {
    var field := p[|p| - 1];
    HarmlessNames("metadata");
    HarmlessNames("status");
    if field in META_RISKS { HarmlessMeta(field); }
    if field in SPEC_RISKS && OfPodSpec(p, field) {
      HarmlessSpec(field);
      PodSpecKeys(p, field);
    }
    HarmlessKeys(p);
  }

  lemma {:induction false} ListKeys(p: Location, list: string)
    requires OfPodSpec(p, list) && '~' !in list && '/' !in list
    ensures Plain(p) && KeyStarts(p, list)
  {
    PodSpecKeys(p, list);
    var i :| 0 <= i < |p| && p[i] == list;
    assert list <= p[i];
  }

  /** The words of the exemption occur in a prefix exactly when one of its keys starts with them. */
  lemma {:induction false} WordsOccur(p: Location)
    requires Plain(p)
    ensures Contains(Render(p), "/containers") <==> KeyStarts(p, "containers")
    ensures Contains(Render(p), "/initContainers") <==> KeyStarts(p, "initContainers")
  {
    assert "/containers" == ['/'] + "containers" && "/initContainers" == ['/'] + "initContainers";
    SegmentOccurs(p, "containers");
    SegmentOccurs(p, "initContainers");
  }

  /** The prefixes below which images are exempt. */
  predicate Exempt(p: Location) {
    Contains(Render(p), "/containers") || Contains(Render(p), "/initContainers")
  }

  lemma {:induction false} ExemptPrefixes(p: Location)
    requires Risk(p) || ListOfContainers(p)
    ensures Exempt(p) <==> ListOfContainers(p)
    ensures !(Risk(p) && ListOfContainers(p))
  {
    if ListOfContainers(p) {
      if OfPodSpec(p, "containers") { ListKeys(p, "containers"); } else { ListKeys(p, "initContainers"); }
      WordsOccur(p);
    }
    if Risk(p) {
      RiskKeys(p);
      WordsOccur(p);
    }
  }

  lemma {:induction false} SlashInside(front: string, key: string, other: string, longer: string)
    requires front + (['/'] + key) == other + (['/'] + longer) && |key| < |longer|
    ensures '/' in longer
  {
    assert (front + (['/'] + key))[|front|] == '/';
    assert (other + (['/'] + longer))[|front|] == longer[|front| - |other| - 1];
  }

  lemma {:induction false} SameLastKey(front: string, key: string, other: string, w: string)
    requires front + (['/'] + key) == other + (['/'] + w) && '/' !in key && '/' !in w
    ensures key == w
  {
    if |key| < |w| {
      SlashInside(front, key, other, w);
    } else if |w| < |key| {
      SlashInside(other, w, front, key);
    } else {
      assert key == (front + (['/'] + key))[|front| + 1..];
      assert w == (other + (['/'] + w))[|other| + 1..];
    }
  }

  lemma {:induction false} TextEndsIn(front: string, key: string, w: string)
    requires '/' !in key && '/' !in w
    ensures HasSuffix(front + (['/'] + key), ['/'] + w) <==> key == w
  {
    var text := front + (['/'] + key);
    if HasSuffix(text, ['/'] + w) {
      var other := text[..|text| - |w| - 1];
      assert text == other + (['/'] + w);
      SameLastKey(front, key, other, w);
    }
    if key == w { assert text[|text| - |w| - 1..] == ['/'] + w; }
  }

  /** A path ends in a key exactly when that is its last key. */
  lemma {:induction false} EndsInKey(loc: Location, w: string)
    requires loc != [] && '~' !in w && '/' !in w
    ensures HasSuffix(Render(loc), ['/'] + w) <==> loc[|loc| - 1] == w
  {
    var init, last := loc[..|loc| - 1], loc[|loc| - 1];
    assert loc == init + [last] && [last][1..] == [];
    RenderConcat(init, [last]);
    assert Render([last]) == ['/'] + Escape(last);
    EscapeHidesSlash(last);
    EscapeOfPlain(w);
    TextEndsIn(Render(init), Escape(last), w);
    UnescapeOfEscape(last);
    UnescapeOfEscape(w);
  }

  lemma {:induction false} EndsInImage(loc: Location)
    requires loc != []
    ensures HasSuffix(Render(loc), "/image") <==> loc[|loc| - 1] == "image"
  {
    assert "/image" == ['/'] + "image";
    EndsInKey(loc, "image");
  }

  lemma {:induction false} RiskyBelowIff(loc: Location, p: Location)
    requires loc != []
    ensures RiskyBelow(Render(loc), Render(p)) <==> p <= loc && !(loc[|loc| - 1] == "image" && Exempt(p))
  {
    TextualPrefixIsAncestor(loc, p);
    EndsInImage(loc);
  }

  /** Covered by a listed prefix, and not exempt. */
  predicate Covered(loc: Location, p: Location)
    requires loc != []
  {
    p <= loc && !(loc[|loc| - 1] == "image" && Exempt(p))
  }

  lemma {:induction false} RiskyAmongIff(loc: Location, listed: seq<Location>)
    requires loc != []
    ensures RiskyAmong(Render(loc), listed) <==> exists i | 0 <= i < |listed| :: Covered(loc, listed[i])
  {
    forall i | 0 <= i < |listed| ensures RiskyBelow(Render(loc), Render(listed[i])) <==> Covered(loc, listed[i]) {
      RiskyBelowIff(loc, listed[i]);
    }
  }

  lemma {:induction false} CoveredIff(loc: Location, p: Location)
    requires loc != [] && p in HIGH_RISK
    ensures Covered(loc, p) <==> p <= loc && (Risk(p) || loc[|loc| - 1] != "image")
  {
    ListedAre(p);
    ExemptPrefixes(p);
  }

  /** High risk, as locations: below a risk, or below a container list unless it is an image. */
  lemma {:induction false} HighRiskIff(loc: Location)
    requires loc != []
    ensures HighRisk(Render(loc)) <==>
            (exists p :: Risk(p) && p <= loc) || (loc[|loc| - 1] != "image" && exists p :: ListOfContainers(p) && p <= loc)
  {
    RiskyAmongIff(loc, HIGH_RISK);
    if i :| 0 <= i < |HIGH_RISK| && Covered(loc, HIGH_RISK[i]) {
      ListedAre(HIGH_RISK[i]);
      CoveredIff(loc, HIGH_RISK[i]);
    }
    if p :| Risk(p) && p <= loc { RiskIsCovered(loc, p); }
    if p :| ListOfContainers(p) && p <= loc {
      if loc[|loc| - 1] != "image" { RiskIsCovered(loc, p); }
    }
  }

  lemma {:induction false} RiskIsCovered(loc: Location, p: Location)
    requires loc != [] && p <= loc && (Risk(p) || (ListOfContainers(p) && loc[|loc| - 1] != "image"))
    ensures exists i | 0 <= i < |HIGH_RISK| :: Covered(loc, HIGH_RISK[i])
  {
    ListedAre(p);
    CoveredIff(loc, p);
    var i :| 0 <= i < |HIGH_RISK| && HIGH_RISK[i] == p;
    assert Covered(loc, HIGH_RISK[i]);
  }

  // ---------------------------------------------------------------- the object's own allowlist

  /** `part` stands in the text between separators, or its ends. */
  predicate StandsBetween(text: string, c: char, before: string, part: string, after: string) {
    && text == before + (part + after) && c !in part
    && (before == "" || before[|before| - 1] == c) && (after == "" || after[0] == c)
  }

  ghost predicate IsPart(text: string, c: char, part: string) {
    exists before, after :: StandsBetween(text, c, before, part, after)
  }

  lemma {:induction false} StandsLater(text: string, c: char, i: nat, before: string, part: string, after: string)
    requires i < |text| && text[i] == c && StandsBetween(text[i + 1..], c, before, part, after)
    ensures StandsBetween(text, c, text[..i + 1] + before, part, after)
  {
    var longer := text[..i + 1] + before;
    assert text == text[..i + 1] + text[i + 1..];
    Assoc(text[..i + 1], before, part + after);
    assert longer[|longer| - 1] == c;
  }

  lemma {:induction false} FirstPart(text: string, c: char, i: nat)
    requires i == IndexOf(text, c)
    ensures StandsBetween(text, c, "", text[..i], text[i..])
  {
    assert text == "" + (text[..i] + text[i..]);
  }

  lemma {:induction false} LaterPart(text: string, c: char, i: nat, part: string)
    requires i < |text| && text[i] == c && IsPart(text[i + 1..], c, part)
    ensures IsPart(text, c, part)
  {
    var before, after :| StandsBetween(text[i + 1..], c, before, part, after);
    StandsLater(text, c, i, before, part, after);
  }

  lemma {:induction false} SplitCases(text: string, c: char, part: string)
    requires part in Split(text, c)
    ensures var i := IndexOf(text, c); part == text[..i] || (i < |text| && part in Split(text[i + 1..], c))
  {
    var i := IndexOf(text, c);
    if i == |text| { assert text[..i] == text; }
  }

  lemma {:induction false} SplitHasParts(text: string, c: char, part: string)
    requires part in Split(text, c)
    ensures IsPart(text, c, part)
    decreases |text|
  {
    var i := IndexOf(text, c);
    SplitCases(text, c, part);
    if part == text[..i] {
      FirstPart(text, c, i);
    } else {
      SplitHasParts(text[i + 1..], c, part);
      LaterPart(text, c, i, part);
    }
  }

  lemma {:induction false} PartsAreSplit(text: string, c: char, before: string, part: string, after: string)
    requires StandsBetween(text, c, before, part, after)
    ensures part in Split(text, c)
    decreases |text|
  {
    if before == "" {
      assert text == part + after;
      if after == "" {
        assert text == part;
      } else {
        assert after == [c] + after[1..];
        SplitCons(part, c, after[1..]);
      }
    } else {
      var i := IndexOf(text, c);
      assert text[|before| - 1] == c;
      assert text[i + 1..] == before[i + 1..] + (part + after);
      assert i + 1 < |before| ==> before[i + 1..][|before| - i - 2] == c;
      PartsAreSplit(text[i + 1..], c, before[i + 1..], part, after);
    }
  }

  /** All annotations of the object are strings or null, and this is the one of the allowlist. */
  predicate Allowlisted(o: Object, annotations: map<string, Value>, text: string) {
    && HoldsIn(o, "metadata", "annotations", Map(annotations)) && (forall k | k in annotations :: annotations[k].Str? || annotations[k].Null?)
    && Holds(Map(annotations), "core.k8sgpt.ai/auto-remediation-allowed-paths", Str(text))
  }

  lemma {:induction false} AllowlistText(o: Object, annotations: map<string, Value>, text: string)
    requires Allowlisted(o, annotations, text)
    ensures Annotation(o, ALLOWED_PATHS_ANNOTATION) == text
  {
    LookupFieldIn(o, "metadata", "annotations");
  }

  /** The allowlist holds exactly the trimmed parts between commas that start with a slash. */
  lemma {:induction false} AllowlistIs(o: Object, annotations: map<string, Value>, text: string, path: string)
    requires Allowlisted(o, annotations, text)
    ensures path in AnnotatedPaths(o) <==>
            path != "" && path[0] == '/' && exists part :: IsPart(text, ',', part) && TrimSpace(part) == path
  {
    AllowlistText(o, annotations, text);
    if path in AnnotatedPaths(o) {
      var i :| 0 <= i < |Split(text, ',')| && HasPrefix(TrimSpace(Split(text, ',')[i]), "/") && TrimSpace(Split(text, ',')[i]) == path;
      SplitHasParts(text, ',', Split(text, ',')[i]);
      assert "/"[0] == '/';
    }
    if part :| IsPart(text, ',', part) && TrimSpace(part) == path && path != "" && path[0] == '/' {
      var before, after :| StandsBetween(text, ',', before, part, after);
      PartsAreSplit(text, ',', before, part, after);
      assert "/" <= path;
    }
  }

  /** Without annotations an unregistered kind has no policy. */
  lemma {:induction false} NothingAllowlisted(o: Object)
    requires LacksIn(o, "metadata", "annotations")
    ensures AnnotatedPaths(o) == {}
  {
    LookupFieldIn(o, "metadata", "annotations");
    SplitWhole("", ',');
  }

  /** One annotation that is neither a string nor null, and the whole allowlist is void. */
  lemma {:induction false} MalformedAnnotationsAllowNothing(o: Object, annotations: map<string, Value>, key: string)
    requires HoldsIn(o, "metadata", "annotations", Map(annotations))
    requires key in annotations && !annotations[key].Str? && !annotations[key].Null?
    ensures AnnotatedPaths(o) == {}
  {
    LookupFieldIn(o, "metadata", "annotations");
    SplitWhole("", ',');
  }

  // ---------------------------------------------------------------- admission

  /** Admission told on the fields: whose version, whose object, how many changes, and that each is permitted. */
  lemma {:induction false} AllowedOnFields(original: Object, live: Object, proposed: Object, limit: int)
    ensures var es := ProposedEdits(live, proposed);
            Decide(original, live, proposed, limit).allowed <==>
            && SameVersion(original, live) && Fits(proposed, live)
            && PolicyFor(live) != ExactPaths({}) && !(GVKOf(live) == GVK("", "v1", "Pod") && Owned(live))
            && 0 < |es| <= (if limit == 0 then 1 else limit) && forall e | e in es :: Permitted(PolicyFor(live), e)
  {
    MismatchFields(original, live, proposed);
    AdmittedIff(original, live, proposed, limit);
  }
}
