/** The compact image selection: internal/controller/mutation/image_proposal.go. */
module ImageProposal {
  import opened Strings
  import opened Pointer
  import opened Json
  import opened Diff
  import opened Gvk
  import opened Gate
  import opened GateProofs
  import opened GateFields

  /** The container lists tried in order. */
  const PATHS: seq<Location> := [
    POD_SPEC + ["containers"], POD_SPEC + ["initContainers"],
    TEMPLATE_SPEC + ["containers"], TEMPLATE_SPEC + ["initContainers"],
    CRON_SPEC + ["containers"], CRON_SPEC + ["initContainers"]]

  /** unstructured.NestedSlice: none when the path is missing or does not end in a list. */
  function NestedSlice(o: Object, path: Location): Option<seq<Value>> {
    var x := Lookup(o, path); if x.List? then Some(x.items) else None
  }

  predicate Named(container: Value, name: string) {
    container.Map? && Get(container.fields, "name") == Str(name)
  }

  /** Index of the first container with that name, or the length. */
  function FirstNamed(items: seq<Value>, name: string): (i: nat)
    ensures i <= |items|
    ensures i < |items| ==> Named(items[i], name)
  {
    if items == [] then 0 else if Named(items[0], name) then 0 else 1 + FirstNamed(items[1..], name)
  }

  /** The container a selection means: a list path and an index. */
  datatype Target = Target(path: Location, index: nat)

  function Select(o: Object, name: string, paths: seq<Location>): Option<Target> {
    if paths == [] then None
    else
      var items := NestedSlice(o, paths[0]);
      if items.Some? && FirstNamed(items.value, name) < |items.value|
      then Some(Target(paths[0], FirstNamed(items.value, name)))
      else Select(o, name, paths[1..])
  }

  lemma {:induction false} SelectFinds(o: Object, name: string, paths: seq<Location>)
    requires Select(o, name, paths).Some?
    ensures var t := Select(o, name, paths).value;
            && t.path in paths && Lookup(o, t.path).List?
            && t.index < |Lookup(o, t.path).items| && Named(Lookup(o, t.path).items[t.index], name)
  {
    var items := NestedSlice(o, paths[0]);
    if !(items.Some? && FirstNamed(items.value, name) < |items.value|) {
      SelectFinds(o, name, paths[1..]);
    }
  }

  function WithImage(container: Value, image: string): Value
    requires container.Map?
  {
    Map(container.fields["image" := Str(image)])
  }

  /** The object with the selected container's image overwritten or added. */
  function SetImage(o: Object, name: string, image: string): Option<Value> {
    var t := Select(o, name, PATHS);
    if t.None? then None
    else
      SelectFinds(o, name, PATHS);
      var items := Lookup(o, t.value.path).items;
      Replace(o, t.value.path, List(items[t.value.index := WithImage(items[t.value.index], image)]))
  }

  lemma {:induction false} LookupExists(v: Value, loc: Location)
    requires !Lookup(v, loc).Null?
    ensures Exists(v, loc)
    decreases |loc|
  {
    if loc != [] { LookupExists(Kid(v, loc[0]), loc[1..]); }
  }

  lemma PathsStartAtSpec(path: Location)
    requires path in PATHS
    ensures path != [] && path[0] == "spec"
  {
  }

  lemma SetImageExists(o: Object, name: string, image: string)
    requires Select(o, name, PATHS).Some?
    ensures SetImage(o, name, image).Some? && SetImage(o, name, image).value.Map?
  {
    SelectFinds(o, name, PATHS);
    var path := Select(o, name, PATHS).value.path;
    PathsStartAtSpec(path);
    LookupExists(o, path);
    ReplaceHits(o, path, List(Lookup(o, path).items));
    var items := Lookup(o, path).items;
    var i := Select(o, name, PATHS).value.index;
    ReplaceHits(o, path, List(items[i := WithImage(items[i], image)]));
  }

  // ---------------------------------------------------------------- which container is written

  /** The six container lists, in the order they are tried. */
  const LISTS: seq<Location> := [
    ["spec", "containers"], ["spec", "initContainers"],
    ["spec", "template", "spec", "containers"], ["spec", "template", "spec", "initContainers"],
    ["spec", "jobTemplate", "spec", "template", "spec", "containers"],
    ["spec", "jobTemplate", "spec", "template", "spec", "initContainers"]]

  /** The container with this index in this list is a map with this name. */
  predicate NameAt(o: Object, list: Location, i: nat, name: string) {
    && Lookup(o, list).List? && i < |Lookup(o, list).items|
    && Holds(Lookup(o, list).items[i], "name", Str(name))
  }

  ghost predicate NameIn(o: Object, list: Location, name: string) {
    exists i: nat :: NameAt(o, list, i, name)
  }

  /** Some container of the object has this name. */
  ghost predicate HasContainer(o: Object, name: string) {
    exists n | 0 <= n < 6 :: NameIn(o, LISTS[n], name)
  }

  /** No container in an earlier list, or earlier in this one, has the name. */
  ghost predicate FirstOfName(o: Object, n: nat, i: nat, name: string)
    requires n < 6
  {
    && NameAt(o, LISTS[n], i, name)
    && (forall m | 0 <= m < n :: !NameIn(o, LISTS[m], name))
    && (forall j: nat | j < i :: !NameAt(o, LISTS[n], j, name))
  }

  /** Only the image of the i-th container of the n-th list differs. */
  ghost predicate OnlyImage(o: Object, w: Object, n: nat, i: nat, image: string)
    requires n < 6
  {
    var before, after := Lookup(o, LISTS[n]), Lookup(w, LISTS[n]);
    && before.List? && i < |before.items| && before.items[i].Map? && after.List? && |after.items| == |before.items|
    && after.items[i] == Map(before.items[i].fields["image" := Str(image)])
    && (forall j | 0 <= j < |before.items| && j != i :: after.items[j] == before.items[j])
    && (forall loc | Apart(LISTS[n], loc) :: Lookup(w, loc) == Lookup(o, loc))
  }

  /** The first container of this name has this image now, and nothing else has changed. */
  ghost predicate FirstRenewed(o: Object, w: Object, name: string, image: string) {
    exists n: nat, i: nat :: n < 6 && FirstOfName(o, n, i, name) && OnlyImage(o, w, n, i, image)
  }

  lemma {:induction false} FirstNamedIs(items: seq<Value>, name: string)
    ensures forall j | 0 <= j < FirstNamed(items, name) :: !Holds(items[j], "name", Str(name))
    ensures FirstNamed(items, name) < |items| ==> Holds(items[FirstNamed(items, name)], "name", Str(name))
  {
    if items != [] && !Named(items[0], name) {
      FirstNamedIs(items[1..], name);
      forall j | 0 <= j < FirstNamed(items, name) ensures !Holds(items[j], "name", Str(name)) {
        if j > 0 { assert items[j] == items[1..][j - 1]; }
      }
    }
  }

  lemma {:induction false} ListNames(o: Object, list: Location, name: string)
    ensures var items := NestedSlice(o, list);
            NameIn(o, list, name) <==> items.Some? && FirstNamed(items.value, name) < |items.value|
    ensures NameIn(o, list, name) ==>
              var i := FirstNamed(Lookup(o, list).items, name);
              NameAt(o, list, i, name) && forall j: nat | j < i :: !NameAt(o, list, j, name)
  {
    var x := Lookup(o, list);
    if x.List? {
      FirstNamedIs(x.items, name);
      if FirstNamed(x.items, name) < |x.items| { assert NameAt(o, list, FirstNamed(x.items, name), name); }
    }
  }

  lemma {:induction false} SelectIs(o: Object, name: string, paths: seq<Location>)
    ensures Select(o, name, paths).Some? <==> exists n | 0 <= n < |paths| :: NameIn(o, paths[n], name)
    ensures Select(o, name, paths).Some? ==>
              exists n | 0 <= n < |paths| ::
                && NameIn(o, paths[n], name) && (forall m | 0 <= m < n :: !NameIn(o, paths[m], name))
                && Select(o, name, paths) == Some(Target(paths[n], FirstNamed(Lookup(o, paths[n]).items, name)))
    decreases |paths|
  {
    if paths != [] {
      ListNames(o, paths[0], name);
      SelectIs(o, name, paths[1..]);
      assert forall n | 0 <= n < |paths| - 1 :: paths[1..][n] == paths[n + 1];
    }
  }

  lemma {:induction false} PathsAreLists()
    ensures PATHS == LISTS && |LISTS| == 6
  {
    assert PATHS[0] == LISTS[0] && PATHS[1] == LISTS[1] && PATHS[2] == LISTS[2];
    assert PATHS[3] == LISTS[3] && PATHS[4] == LISTS[4] && PATHS[5] == LISTS[5];
  }

  lemma {:induction false} WritesList(o: Object, n: nat, i: nat, name: string, image: string)
    requires n < 6 && NameAt(o, LISTS[n], i, name)
    requires var items := Lookup(o, LISTS[n]).items;
             Replace(o, LISTS[n], List(items[i := WithImage(items[i], image)])).Some?
    requires var items := Lookup(o, LISTS[n]).items;
             Replace(o, LISTS[n], List(items[i := WithImage(items[i], image)])).value.Map?
    ensures var items := Lookup(o, LISTS[n]).items;
            OnlyImage(o, Replace(o, LISTS[n], List(items[i := WithImage(items[i], image)])).value, n, i, image)
  {
    var items := Lookup(o, LISTS[n]).items;
    var x := List(items[i := WithImage(items[i], image)]);
    ReplaceHits(o, LISTS[n], x);
    forall loc | Apart(LISTS[n], loc) ensures Lookup(Replace(o, LISTS[n], x).value, loc) == Lookup(o, loc) {
      ReplaceFrame(o, LISTS[n], x, loc);
    }
  }

  /** Setting an image, told on the fields. */
  lemma {:induction false} SetImageMeans(o: Object, name: string, image: string)
    ensures SetImage(o, name, image).Some? <==> HasContainer(o, name)
    ensures SetImage(o, name, image).Some? ==>
              SetImage(o, name, image).value.Map? && FirstRenewed(o, SetImage(o, name, image).value, name, image)
  {
    PathsAreLists();
    SelectIs(o, name, PATHS);
    if Select(o, name, PATHS).Some? {
      SetImageExists(o, name, image);
      var n :| 0 <= n < |PATHS| && NameIn(o, PATHS[n], name) && (forall m | 0 <= m < n :: !NameIn(o, PATHS[m], name))
               && Select(o, name, PATHS) == Some(Target(PATHS[n], FirstNamed(Lookup(o, PATHS[n]).items, name)));
      var i := Select(o, name, PATHS).value.index;
      ListNames(o, PATHS[n], name);
      WritesList(o, n, i, name, image);
      assert FirstOfName(o, n, i, name);
    }
  }

  /** No location of one list lies in another. */
  lemma {:induction false} ListsApart(m: nat, n: nat)
    requires m < 6 && n < 6 && m != n
    ensures Apart(LISTS[m], LISTS[n])
  {
    var at := if m / 2 == n / 2 then 2 * (m / 2) + 1 else 1;
    assert LISTS[m][at] != LISTS[n][at];
  }

  /** Every container of another name stays as it was, in whatever list. */
  lemma {:induction false} OtherContainersStay(o: Object, w: Object, name: string, image: string, m: nat, j: nat)
    requires FirstRenewed(o, w, name, image) && m < 6
    requires Lookup(o, LISTS[m]).List? && j < |Lookup(o, LISTS[m]).items| && !NameAt(o, LISTS[m], j, name)
    ensures Lookup(w, LISTS[m]).List? && |Lookup(w, LISTS[m]).items| == |Lookup(o, LISTS[m]).items|
    ensures Lookup(w, LISTS[m]).items[j] == Lookup(o, LISTS[m]).items[j]
  {
    var n: nat, i: nat :| n < 6 && FirstOfName(o, n, i, name) && OnlyImage(o, w, n, i, image);
    if m != n { ListsApart(n, m); }
  }

  /** The unstructured object the proposal is written into. */
  class Unstructured {
    var content: Object

    constructor (content: Object)
      ensures this.content == content
    {
      this.content := content;
    }

    /** image_proposal.go's setContainerImage. */
    method SetContainerImage(name: string, image: string) returns (ok: bool)
      modifies this
      ensures ok == SetImage(old(content), name, image).Some?
      ensures ok ==> content == SetImage(old(content), name, image).value
      ensures !ok ==> content == old(content)
      ensures ok <==> HasContainer(old(content), name)
      ensures ok ==> FirstRenewed(old(content), content, name, image)
    {
      SetImageMeans(content, name, image);
      assert PATHS[0..] == PATHS;
      for n := 0 to |PATHS|
        invariant content == old(content)
        invariant Select(content, name, PATHS) == Select(content, name, PATHS[n..])
      {
        assert PATHS[n..][0] == PATHS[n] && PATHS[n..][1..] == PATHS[n + 1..];
        var containers := NestedSlice(content, PATHS[n]);
        if containers.None? {
          continue;
        }
        var items := containers.value;
        for i := 0 to |items|
          invariant content == old(content)
          invariant FirstNamed(items, name) == i + FirstNamed(items[i..], name)
        {
          assert items[i..][0] == items[i] && items[i..][1..] == items[i + 1..];
          if !Named(items[i], name) {
            continue;
          }
          SetImageExists(content, name, image);
          var written := Replace(content, PATHS[n], List(items[i := WithImage(items[i], image)]));
          content := written.value;
          return true;
        }
      }
      return false;
    }
  }

  // ---------------------------------------------------------------- the proposal text

  /** The two readings of one response text: as a manifest, and as a JSON image selection. */
  datatype Response = Response(manifest: Option<Object>, selection: Option<(string, string)>)

  /** imageSelectionProposal; none is an error. */
  function Proposal(origin: Object, response: Response): Option<Value> {
    if response.manifest.Some? && Text(response.manifest.value, API_VERSION) != ""
       && Text(response.manifest.value, KIND) != ""
    then Some(response.manifest.value)
    else if response.selection.None? then None
    else
      var (container, image) := response.selection.value;
      if container == "" || image == "" || '\n' in image || '\r' in image then None
      else SetImage(origin, container, image)
  }

  /** The response reads as an object with an API version and a kind. */
  predicate IsManifest(response: Response) {
    response.manifest.Some? && TextAt(response.manifest.value, "apiVersion") != "" && TextAt(response.manifest.value, "kind") != ""
  }

  /** The response reads as a selection of a container and an image of one line, neither of them empty. */
  predicate IsSelection(response: Response) {
    && response.selection.Some? && response.selection.value.0 != "" && response.selection.value.1 != ""
    && '\n' !in response.selection.value.1 && '\r' !in response.selection.value.1
  }

  lemma {:induction false} ProposalMeans(origin: Object, response: Response)
    ensures var proposal := Proposal(origin, response);
            && (IsManifest(response) ==> proposal == Some(response.manifest.value))
            && (!IsManifest(response) ==>
                  (proposal.Some? <==> IsSelection(response) && HasContainer(origin, response.selection.value.0)))
            && (!IsManifest(response) && proposal.Some? ==>
                  proposal.value.Map?
                  && FirstRenewed(origin, proposal.value, response.selection.value.0, response.selection.value.1))
  {
    if response.manifest.Some? {
      TextOfField(response.manifest.value, "apiVersion");
      TextOfField(response.manifest.value, "kind");
    }
    if IsSelection(response) { SetImageMeans(origin, response.selection.value.0, response.selection.value.1); }
  }

  /** image_proposal.go's imageSelectionProposal. */
  method ImageSelectionProposal(origin: Object, response: Response) returns (proposal: Option<Value>)
    ensures proposal == Proposal(origin, response)
    ensures IsManifest(response) ==> proposal == Some(response.manifest.value)
    ensures !IsManifest(response) ==>
              (proposal.Some? <==> IsSelection(response) && HasContainer(origin, response.selection.value.0))
    ensures !IsManifest(response) && proposal.Some? ==>
              proposal.value.Map? && FirstRenewed(origin, proposal.value, response.selection.value.0, response.selection.value.1)
  {
    ProposalMeans(origin, response);
    if response.manifest.Some? {
      if Text(response.manifest.value, API_VERSION) != "" && Text(response.manifest.value, KIND) != "" {
        return Some(response.manifest.value);
      }
    }
    if response.selection.None? {
      return None;
    }
    var (container, image) := response.selection.value;
    if container == "" || image == "" || '\n' in image || '\r' in image {
      return None;
    }
    var candidate := new Unstructured(origin);
    var ok := candidate.SetContainerImage(container, image);
    if !ok {
      return None;
    }
    proposal := Some(candidate.content);
  }

  /** SetName and SetNamespace: an empty string removes the field. */
  function WithMeta(o: Object, field: string, s: string): Object {
    var m := Get(o.fields, META);
    if s == "" then (if m.Map? then Map(o.fields[META := Map(m.fields - {field})]) else o)
    else if m.Map? then Map(o.fields[META := Map(m.fields[field := Str(s)])])
    else if META in o.fields then o
    else Map(o.fields[META := Map(map[field := Str(s)])])
  }

  /** util.FromConfig after decoding: the reference decides name and namespace. */
  function FromConfig(config: Object, name: string, namespace: string): Object {
    WithMeta(WithMeta(config, "name", name), "namespace", namespace)
  }

  /** The field holds the forced string, or is gone when that is empty. */
  predicate Forced(o: Object, field: string, s: string) {
    if s == "" then LacksIn(o, "metadata", field) else HoldsIn(o, "metadata", field, Str(s))
  }

  /** Both objects hold the same under these keys, or nothing. */
  ghost predicate SameIn(a: Object, b: Object, outer: string, inner: string) {
    (LacksIn(a, outer, inner) && LacksIn(b, outer, inner)) || exists x :: HoldsIn(a, outer, inner, x) && HoldsIn(b, outer, inner, x)
  }

  lemma {:induction false} WithMetaForces(o: Object, field: string, s: string)
    requires "metadata" in o.fields ==> o.fields["metadata"].Map?
    ensures var r := WithMeta(o, field, s);
            && Forced(r, field, s) && ("metadata" in r.fields ==> r.fields["metadata"].Map?)
            && (forall k | k != "metadata" :: (k in r.fields <==> k in o.fields) && (k in o.fields ==> r.fields[k] == o.fields[k]))
            && (forall f | f != field :: SameIn(r, o, "metadata", f))
  {
    var r := WithMeta(o, field, s);
    forall f | f != field ensures SameIn(r, o, "metadata", f) {
      if !LacksIn(o, "metadata", f) { assert HoldsIn(r, "metadata", f, o.fields["metadata"].fields[f]); }
    }
  }

  /** The reference decides name and namespace; nothing else of the configuration changes. */
  lemma {:induction false} FromConfigForces(config: Object, name: string, namespace: string)
    requires "metadata" in config.fields ==> config.fields["metadata"].Map?
    ensures var r := FromConfig(config, name, namespace);
            && Forced(r, "name", name) && Forced(r, "namespace", namespace)
            && (forall k | k != "metadata" :: (k in r.fields <==> k in config.fields) && (k in r.fields ==> r.fields[k] == config.fields[k]))
            && (forall f | f != "name" && f != "namespace" :: SameIn(r, config, "metadata", f))
  {
    var first := WithMeta(config, "name", name);
    var r := FromConfig(config, name, namespace);
    WithMetaForces(config, "name", name);
    WithMetaForces(first, "namespace", namespace);
    assert SameIn(r, first, "metadata", "name");
    forall f | f != "name" && f != "namespace" ensures SameIn(r, config, "metadata", f) {
      assert SameIn(r, first, "metadata", f) && SameIn(first, config, "metadata", f);
    }
  }

  /** An object whose metadata holds its own name and namespace, as the API server serves it. */
  predicate ServedIdentity(o: Object) {
    && Text(o, NAME) != ""
    && (Text(o, NAMESPACE) == "" ==> !Has(Kid(o, META), "namespace"))
  }

  /** Forcing an object's own identity onto it changes nothing. */
  lemma FromConfigOfOwnIdentity(o: Object)
    requires ServedIdentity(o)
    ensures FromConfig(o, Text(o, NAME), Text(o, NAMESPACE)) == o
  {
    NamedHasMetadata(o);
    LookupOne(o, META);
    LookupTwo(o, META, "name");
    LookupTwo(o, META, "namespace");
    var m := Kid(o, META);
    assert m.fields["name" := Str(Text(o, NAME))] == m.fields;
    assert o.fields[META := m] == o.fields;
    if Text(o, NAMESPACE) == "" {
      assert m.fields - {"namespace"} == m.fields;
    } else {
      assert m.fields["namespace" := Str(Text(o, NAMESPACE))] == m.fields;
    }
  }

  // ---------------------------------------------------------------- what the gate says to a compact proposal

  function ImageLocationOf(t: Target): Location {
    t.path + [Decimal(t.index), "image"]
  }

  /** Writing one element of a nested list is a replacement at that element. */
  lemma {:induction false} ReplaceElement(v: Value, path: Location, i: nat, x: Value)
    requires Lookup(v, path).List? && i < |Lookup(v, path).items|
    ensures Replace(v, path + [Decimal(i)], x) == Replace(v, path, List(Lookup(v, path).items[i := x]))
    ensures Replace(v, path + [Decimal(i)], x).Some?
    decreases |path|
  {
    if path == [] {
      ParseOfDecimal(i);
      assert path + [Decimal(i)] == [Decimal(i)];
      assert [Decimal(i)][1..] == [];
    } else {
      assert (path + [Decimal(i)])[1..] == path[1..] + [Decimal(i)];
      ReplaceElement(Kid(v, path[0]), path[1..], i, x);
    }
  }

  lemma {:induction false} LookupConcat(v: Value, p: Location, q: Location)
    ensures Lookup(v, p + q) == Lookup(Lookup(v, p), q)
    decreases |p|
  {
    if p == [] {
      assert p + q == q;
    } else {
      assert (p + q)[1..] == p[1..] + q;
      LookupConcat(Kid(v, p[0]), p[1..], q);
    }
  }

  lemma {:induction false} BelowConcat(p: Location, e: Edit)
    ensures Below(p, [e]) == [Edit(p + e.loc, e.before, e.after)]
    ensures Below(p, []) == []
  {
    if p == [] {
      assert p + e.loc == e.loc;
    } else {
      BelowConcat(p[1..], e);
      assert p + e.loc == [p[0]] + (p[1..] + e.loc);
    }
  }

  lemma EditsAgainstString(v: Value, s: string)
    ensures Edits(v, Str(s)) == if v == Str(s) then [] else [Edit([], v, Str(s))]
  {
  }

  lemma UnderOne(t: string, e: Edit)
    ensures Under(t, [e]) == [Edit([t] + e.loc, e.before, e.after)]
    ensures Under(t, []) == []
  {
  }

  lemma EditsOfWithImage(c: Value, image: string)
    requires c.Map?
    ensures Edits(c, WithImage(c, image)) ==
            if Get(c.fields, "image") == Str(image) then []
            else [Edit(["image"], Get(c.fields, "image"), Str(image))]
  {
    var w, before := WithImage(c, image), Get(c.fields, "image");
    forall u ensures Kid(c, u) == Get(c.fields, u) && Kid(w, u) == Get(w.fields, u) {
      KidOfKey(c.fields, u);
      KidOfKey(w.fields, u);
    }
    assert Has(w, "image");
    EditsOfOneKid(c, w, "image");
    EditsAgainstString(before, image);
    UnderOne("image", Edit([], before, Str(image)));
    assert ["image"] + [] == ["image"];
  }

  /** Looking into the selected container. */
  lemma LookupSelected(live: Object, t: Target)
    requires Lookup(live, t.path).List? && t.index < |Lookup(live, t.path).items|
    requires Lookup(live, t.path).items[t.index].Map?
    ensures var c := Lookup(live, t.path).items[t.index];
            && Lookup(live, t.path + [Decimal(t.index)]) == c
            && Lookup(live, ImageLocationOf(t)) == Get(c.fields, "image")
  {
    var c, at := Lookup(live, t.path).items[t.index], t.path + [Decimal(t.index)];
    LookupConcat(live, t.path, [Decimal(t.index)]);
    LookupOne(Lookup(live, t.path), Decimal(t.index));
    KidOfIndex(Lookup(live, t.path).items, t.index);
    LookupConcat(live, at, ["image"]);
    LookupOne(c, "image");
    KidOfKey(c.fields, "image");
    assert at + ["image"] == ImageLocationOf(t);
  }

  /** Setting the image is a replacement of the selected container. */
  lemma SetImageIsReplace(live: Object, name: string, image: string)
    requires Select(live, name, PATHS).Some?
    ensures var t := Select(live, name, PATHS).value;
            && t.path != [] && t.path[0] == "spec" && Lookup(live, t.path + [Decimal(t.index)]).Map?
            && SetImage(live, name, image) ==
               Replace(live, t.path + [Decimal(t.index)], WithImage(Lookup(live, t.path + [Decimal(t.index)]), image))
            && Lookup(live, ImageLocationOf(t)) == Get(Lookup(live, t.path + [Decimal(t.index)]).fields, "image")
    ensures SetImage(live, name, image).Some? && SetImage(live, name, image).value.Map?
  {
    SelectFinds(live, name, PATHS);
    SetImageExists(live, name, image);
    var t := Select(live, name, PATHS).value;
    PathsStartAtSpec(t.path);
    LookupSelected(live, t);
    ReplaceElement(live, t.path, t.index, WithImage(Lookup(live, t.path).items[t.index], image));
  }

  /** The edits of writing an image into the container at `at`. */
  lemma ImageWriteEdits(live: Object, w: Object, at: Location, c: Value, image: string)
    requires at != [] && at[0] == "spec" && c.Map? && Lookup(live, at) == c
    requires Replace(live, at, WithImage(c, image)) == Some(w)
    ensures ProposedEdits(live, w) ==
            if Get(c.fields, "image") == Str(image) then []
            else [Edit(at + ["image"], Get(c.fields, "image"), Str(image))]
  {
    NormalizedReplace(live, at, WithImage(c, image));
    SpecKept(live, at);
    EditsOfReplace(Normalized(live), at, WithImage(c, image));
    EditsOfWithImage(c, image);
    BelowConcat(at, Edit(["image"], Get(c.fields, "image"), Str(image)));
  }

  /** The edits of a compact proposal: none, or the one image. */
  lemma CompactEdits(live: Object, name: string, image: string)
    requires Select(live, name, PATHS).Some?
    ensures SetImage(live, name, image).Some? && SetImage(live, name, image).value.Map?
    ensures var loc := ImageLocationOf(Select(live, name, PATHS).value);
            ProposedEdits(live, SetImage(live, name, image).value) ==
            if Lookup(live, loc) == Str(image) then [] else [Edit(loc, Lookup(live, loc), Str(image))]
  {
    SetImageIsReplace(live, name, image);
    var t := Select(live, name, PATHS).value;
    var at := t.path + [Decimal(t.index)];
    ImageWriteEdits(live, SetImage(live, name, image).value, at, Lookup(live, at), image);
    assert at + ["image"] == ImageLocationOf(t);
  }

  /** Whether the selected container lies in the kind's own pod specification. */
  predicate OwnList(p: Policy, path: Location)
    requires !p.ExactPaths?
  {
    path == PodSpec(p) + ["containers"] || path == PodSpec(p) + ["initContainers"]
  }

  lemma ImagePathOfLocation(spec: Location, list: string, digits: string)
    requires digits != "" && AllDigits(digits)
    ensures ImagePath(ListPrefix(spec, list), Render(spec + [list] + [digits, "image"]))
  {
    RenderImage(spec + [list], digits);
    ImagePathLanguage(ListPrefix(spec, list), Render(spec + [list] + [digits, "image"]));
  }

  lemma ListSplit(path: Location, a: string, b: string, spec: Location, list: string, digits: string)
    requires path + [a, b] == spec + [list, digits, "image"]
    ensures path == spec + [list]
  {
    assert |path| == |spec| + 1;
    assert path == (path + [a, b])[..|path|];
    assert spec + [list] == (spec + [list, digits, "image"])[..|path|];
  }

  /** An image location is allowlisted exactly when it is in the kind's own lists. */
  lemma OwnListIsAllowlisted(p: Policy, t: Target)
    requires !p.ExactPaths?
    ensures AllowedPath(p, Render(ImageLocationOf(t))) <==> OwnList(p, t.path)
  {
    var path := Render(ImageLocationOf(t));
    if OwnList(p, t.path) {
      var list := if t.path == PodSpec(p) + ["containers"] then "containers" else "initContainers";
      ImagePathOfLocation(PodSpec(p), list, Decimal(t.index));
    }
    if AllowedPath(p, path) {
      var list := if ImagePath(ListPrefix(PodSpec(p), "containers"), path) then "containers" else "initContainers";
      var digits := ImageLocation(PodSpec(p), list, path);
      RenderInjective(ImageLocationOf(t), PodSpec(p) + [list, digits, "image"]);
      ListSplit(t.path, Decimal(t.index), "image", PodSpec(p), list, digits);
    }
  }

  /** An object the gate can judge: identified, versioned, registered and not an owned Pod. */
  predicate Judgeable(live: Object) {
    && Text(live, UID) != "" && Text(live, RESOURCE_VERSION) != ""
    && RegisteredPolicy(GVKOf(live)).Some? && !(GVKOf(live) == GVK("", "v1", "Pod") && Owned(live))
  }

  lemma NonSpecEditsKeepMetadata(live: Object, proposed: Object, path: Location, x: Value, field: Location)
    requires Replace(live, path, x) == Some(proposed) && path != [] && path[0] == "spec"
    requires field != [] && field[0] != "spec"
    ensures Lookup(proposed, field) == Lookup(live, field)
  {
    assert path[0] != field[0];
    assert Apart(path, field);
    ReplaceFrame(live, path, x, field);
  }

  lemma CompactKeepsIdentity(live: Object, name: string, image: string)
    requires Select(live, name, PATHS).Some? && Judgeable(live)
    requires SetImage(live, name, image).Some? && SetImage(live, name, image).value.Map?
    ensures LiveMismatch(live, live).None? && ProposedMismatch(SetImage(live, name, image).value, live).None?
  {
    SelectFinds(live, name, PATHS);
    var t := Select(live, name, PATHS).value;
    var items := Lookup(live, t.path).items;
    var x := List(items[t.index := WithImage(items[t.index], image)]);
    PathsStartAtSpec(t.path);
    forall field: Location | field != [] && field[0] != "spec"
      ensures Lookup(SetImage(live, name, image).value, field) == Lookup(live, field)
    {
      NonSpecEditsKeepMetadata(live, SetImage(live, name, image).value, t.path, x, field);
    }
  }

  /**
   * Completeness of the compact form, both directions. With the origin equal to the live object, the
   * gate admits the proposal exactly when the first container of that name lies in the kind's own pod
   * specification and has a non-null image other than the requested one; it then answers with one
   * replacement at that container. An equal image is rejected as no change.
   */
  lemma CompactProposalIsJudgedExactly(live: Object, name: string, image: string, p: Policy)
    requires Judgeable(live) && RegisteredPolicy(GVKOf(live)) == Some(p)
    requires Select(live, name, PATHS).Some?
    ensures SetImage(live, name, image).Some? && SetImage(live, name, image).value.Map?
    ensures JudgedExactly(Decide(live, live, SetImage(live, name, image).value, 0), p,
                          Select(live, name, PATHS).value, live, image)
  {
    CompactEdits(live, name, image);
    CompactKeepsIdentity(live, name, image);
    var proposed, t := SetImage(live, name, image).value, Select(live, name, PATHS).value;
    DecideRegistered(live, proposed, p);
    CompactDecision(p, t, live, proposed, image);
  }

  /** Admitted exactly for a differing non-null image in an own list, with exactly that replacement. */
  predicate JudgedExactly(d: Decision, p: Policy, t: Target, live: Object, image: string)
    requires !p.ExactPaths?
  {
    var loc := ImageLocationOf(t);
    && (d.allowed <==> OwnList(p, t.path) && !Lookup(live, loc).Null? && Lookup(live, loc) != Str(image))
    && (d.allowed ==> d.patch == [ReplaceAt(Render(loc), Str(image))])
    && (Lookup(live, loc) == Str(image) ==> d == RejectedWith([], NoChange))
  }

  lemma {:induction false} CompactDecision(p: Policy, t: Target, live: Object, proposed: Object, image: string)
    requires !p.ExactPaths?
    requires var loc := ImageLocationOf(t);
             ProposedEdits(live, proposed) ==
             if Lookup(live, loc) == Str(image) then [] else [Edit(loc, Lookup(live, loc), Str(image))]
    ensures JudgedExactly(DecideChanges(p, Changes("", ProposedEdits(live, proposed)), 0), p, t, live, image)
  {
    var loc := ImageLocationOf(t);
    if Lookup(live, loc) != Str(image) {
      var e := Edit(loc, Lookup(live, loc), Str(image));
      ChangesAt([e], 0);
      OneEditDecision(live, proposed, e);
      ImageChangeDecision(p, t, Changes("", [e]), image);
    }
  }

  lemma DecideRegistered(live: Object, proposed: Object, p: Policy)
    requires LiveMismatch(live, live).None? && ProposedMismatch(proposed, live).None?
    requires Judgeable(live) && RegisteredPolicy(GVKOf(live)) == Some(p)
    ensures Decide(live, live, proposed, 0) == DecideChanges(p, Changes("", ProposedEdits(live, proposed)), 0)
  {
  }

  /** One change of one image is admitted in the kind's own lists and when it is not an addition. */
  lemma {:induction false} ImageChangeDecision(p: Policy, t: Target, changes: seq<Change>, image: string)
    requires !p.ExactPaths? && |changes| == 1
    requires changes[0].path == Render(ImageLocationOf(t)) && changes[0].after == Str(image)
    ensures DecideChanges(p, changes, 0).allowed <==> OwnList(p, t.path) && !changes[0].before.Null?
    ensures DecideChanges(p, changes, 0).allowed ==> DecideChanges(p, changes, 0).patch == Replacements(changes)
  {
    var c := changes[0];
    OwnListIsAllowlisted(p, t);
    if OwnList(p, t.path) { ImagePathsAreNotHighRisk(p, c.path); }
    OneChangeRefusal(p, changes);
    OneChangeDecision(p, changes);
  }

  lemma OneChangeRefusal(p: Policy, changes: seq<Change>)
    requires |changes| == 1
    ensures FirstRefusal(p, changes) == Refusal(p, changes[0])
  {
    assert FirstRefusal(p, changes[1..]).None?;
  }

  lemma OneChangeDecision(p: Policy, changes: seq<Change>)
    requires |changes| == 1
    ensures DecideChanges(p, changes, 0) ==
            match FirstRefusal(p, changes)
            case Some(reason) => RejectedWith(changes, reason)
            case None => Decision(true, [], changes, Replacements(changes))
  {
  }
}
