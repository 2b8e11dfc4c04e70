/** From stored findings to remediation targets: ResultsToEligibleResources of to_eligible_resource.go. */
module Eligibility {
  import opened Strings
  import opened Json
  import opened Gvk
  import opened Gate
  import opened Selectors
  import opened Ownership
  import Results
  import Pipeline

  datatype Target = Target(gvk: GVK, namespace: string, name: string)

  /** The namespace and name of a legacy finding. */
  function LegacyName(text: string): Option<(string, string)> {
    var parts := Split(text, '/');
    if |parts| > 2 || parts[|parts| - 1] == "" then None
    else if |parts| == 1 then Some(("", parts[0]))
    else if parts[0] == "" then None
    else Some((parts[0], parts[1]))
  }

  /** resultTarget. */
  function ResultTarget(selectors: seq<string>, spec: Results.Spec): Option<Target> {
    match spec.target
    case Some(t) =>
      if t.apiVersion == "" || t.kind == "" || t.name == "" then None
      else
        (match ParseGroupVersion(t.apiVersion)
         case None => None
         case Some(gv) => Some(Target(gv.WithKind(t.kind), t.namespace, t.name)))
    case None =>
      match LegacyName(spec.name)
      case None => None
      case Some((namespace, name)) =>
        if LegacyGVK(selectors, spec.kind).Some? then Some(Target(LegacyGVK(selectors, spec.kind).value, namespace, name))
        else if spec.kind == "Pod" && namespace != "" then Some(Target(POD, namespace, name))
        else if spec.kind == "Deployment" && namespace != "" then Some(Target(GVK("apps", "v1", "Deployment"), namespace, name))
        else None
  }

  /** A legacy name is read back exactly when its parts are non-empty and have no slash. */
  lemma LegacyNameIff(namespace: string, name: string)
    ensures LegacyName(namespace + (['/'] + name)) == Some((namespace, name)) <==>
            namespace != "" && name != "" && '/' !in namespace && '/' !in name
  {
    var text := namespace + (['/'] + name);
    if '/' !in namespace {
      SplitCons(namespace, '/', name);
      if '/' !in name { SplitOne(name); }
      if |Split(name, '/')| == 1 { OnePart(name); }
    } else if |Split(text, '/')| == 2 {
      TwoParts(text);
    }
  }

  /** Target resolution does not depend on the order of the selectors. */
  lemma TargetIgnoresOrder(a: seq<string>, b: seq<string>, spec: Results.Spec)
    requires multiset(a) == multiset(b)
    ensures ResultTarget(a, spec) == ResultTarget(b, spec)
  {
    OrderDoesNotMatter(a, b, spec.kind, POD);
  }

  // ---------------------------------------------------------------- the objects in the cluster

  type Objects = map<Pipeline.Key, Object>

  /** Unstructured's GetOwnerReferences: nothing at all when an entry is not a map. */
  function OwnersOf(o: Object): seq<OwnerReference> {
    var r := Json.Lookup(o, OWNERS);
    if Owned(o) then seq(|r.items|, i requires 0 <= i < |r.items| => OwnerOf(r.items[i])) else []
  }

  function OwnerOf(v: Value): OwnerReference {
    var controller := Json.Lookup(v, ["controller"]);
    OwnerReference(StringOf(Json.Lookup(v, ["apiVersion"])), StringOf(Json.Lookup(v, ["kind"])),
                   StringOf(Json.Lookup(v, ["name"])), if controller.Bool? then Some(controller.b) else None)
  }

  /** The owner references of one namespace. */
  function Owners(objects: Objects, namespace: string): Cluster {
    map k | k in objects && k.namespace == namespace :: Node(k.gvk, k.name) := OwnersOf(objects[k])
  }

  datatype EligibleResource = EligibleResource(key: Pipeline.Key, uid: string, version: string, origin: Object)

  function ResourceAt(objects: Objects, key: Pipeline.Key): EligibleResource
    requires key in objects
  {
    EligibleResource(key, Pipeline.Uid(objects[key]), Pipeline.Version(objects[key]), Pipeline.Snapshot(objects[key]))
  }

  /** An exact reference still agrees with the object; it is compared only when no owner took its place. */
  predicate StillAgrees(spec: Results.Spec, original: GVK, e: EligibleResource) {
    spec.target.Some? && original == e.key.gvk ==>
      && (spec.target.value.uid == "" || spec.target.value.uid == e.uid)
      && (spec.target.value.resourceVersion == "" || spec.target.value.resourceVersion == e.version)
  }

  /** This finding leads to this resource through this workload. */
  predicate YieldsThrough(objects: Objects, selectors: seq<string>, spec: Results.Spec, w: Workload, e: EligibleResource) {
    var target := ResultTarget(selectors, spec);
    && target.Some?
    && Resolves(Owners(objects, target.value.namespace), selectors, target.value.gvk, target.value.namespace,
                target.value.name, w)
    && w.Workload? && Enabled(selectors, w.gvk)
    && Pipeline.Key(w.gvk, w.namespace, w.name) in objects
    && e == ResourceAt(objects, Pipeline.Key(w.gvk, w.namespace, w.name))
    && StillAgrees(spec, target.value.gvk, e)
  }

  ghost predicate Yields(objects: Objects, selectors: seq<string>, spec: Results.Spec, e: EligibleResource) {
    exists w :: YieldsThrough(objects, selectors, spec, w, e)
  }

  /** A finding leads to at most one resource. */
  lemma YieldsOne(objects: Objects, selectors: seq<string>, spec: Results.Spec, w: Workload, e: EligibleResource)
    requires ResultTarget(selectors, spec).Some?
    requires var t := ResultTarget(selectors, spec).value;
             Resolves(Owners(objects, t.namespace), selectors, t.gvk, t.namespace, t.name, w)
    ensures Yields(objects, selectors, spec, e) <==> YieldsThrough(objects, selectors, spec, w, e)
  {
    var t := ResultTarget(selectors, spec).value;
    if v :| YieldsThrough(objects, selectors, spec, v, e) {
      ResolutionIsUnique(Owners(objects, t.namespace), selectors, t.gvk, t.namespace, t.name, v, w);
    }
  }

  /** What one finding yields once its workload is resolved. */
  method Admit(objects: Objects, selectors: seq<string>, spec: Results.Spec, t: Target, w: Workload)
    returns (r: Option<EligibleResource>)
    requires ResultTarget(selectors, spec) == Some(t)
    requires Resolves(Owners(objects, t.namespace), selectors, t.gvk, t.namespace, t.name, w)
    ensures forall e :: YieldsThrough(objects, selectors, spec, w, e) <==> r == Some(e)
  {
    if w.Failed? {
      return None;
    }
    var enabled := AutoRemediationResourceEnabled(selectors, w.gvk);
    var key := Pipeline.Key(w.gvk, w.namespace, w.name);
    if !enabled || key !in objects {
      return None;
    }
    var resource := ResourceAt(objects, key);
    if spec.target.Some? && t.gvk == w.gvk {
      var exact := spec.target.value;
      if (exact.uid != "" && exact.uid != resource.uid)
         || (exact.resourceVersion != "" && exact.resourceVersion != resource.version) {
        return None;
      }
    }
    r := Some(resource);
  }

  /** One turn of ResultsToEligibleResources. */
  method Convert(objects: Objects, selectors: seq<string>, spec: Results.Spec) returns (r: Option<EligibleResource>)
    ensures forall e :: Yields(objects, selectors, spec, e) <==> r == Some(e)
  {
    var target := ResultTarget(selectors, spec);
    if target.None? {
      return None;
    }
    var t := target.value;
    var w := ResolveOwningWorkload(Owners(objects, t.namespace), selectors, t.gvk, t.namespace, t.name);
    forall e ensures Yields(objects, selectors, spec, e) <==> YieldsThrough(objects, selectors, spec, w, e) {
      YieldsOne(objects, selectors, spec, w, e);
    }
    r := Admit(objects, selectors, spec, t, w);
  }

  /** One of the first `n` findings leads to this resource. */
  ghost predicate Reached(objects: Objects, selectors: seq<string>, items: seq<Results.Spec>, n: nat, e: EligibleResource) {
    exists i | 0 <= i < n <= |items| :: Yields(objects, selectors, items[i], e)
  }

  lemma ReachedOneMore(objects: Objects, selectors: seq<string>, items: seq<Results.Spec>, n: nat, e: EligibleResource)
    requires n < |items|
    ensures Reached(objects, selectors, items, n + 1, e) <==>
            Reached(objects, selectors, items, n, e) || Yields(objects, selectors, items[n], e)
  {
  }

  /** ResultsToEligibleResources: exactly the resources the findings lead to. */
  method ResultsToEligibleResources(objects: Objects, selectors: seq<string>, items: seq<Results.Spec>)
    returns (eligible: seq<EligibleResource>)
    ensures forall e :: e in eligible <==> Reached(objects, selectors, items, |items|, e)
  {
    eligible := [];
    for n := 0 to |items|
      invariant forall e :: e in eligible <==> Reached(objects, selectors, items, n, e)
    {
      var r := Convert(objects, selectors, items[n]);
      forall e { ReachedOneMore(objects, selectors, items, n, e); }
      if r.Some? {
        eligible := eligible + [r.value];
      }
    }
  }

  /**
   * Every eligible resource is explicitly enabled, is the snapshot of an object that is there, stays in
   * the namespace of the finding, and is the object an exact reference names, or an enabled owner of it.
   */
  lemma EligibleIsAuthorised(objects: Objects, selectors: seq<string>, spec: Results.Spec, e: EligibleResource)
    requires Yields(objects, selectors, spec, e)
    ensures Enabled(selectors, e.key.gvk) && e.key in objects && e == ResourceAt(objects, e.key)
    ensures ResultTarget(selectors, spec).Some? && e.key.namespace == ResultTarget(selectors, spec).value.namespace
    ensures spec.target.Some? && spec.target.value.uid != "" && ResultTarget(selectors, spec).value.gvk == e.key.gvk ==>
              e.uid == spec.target.value.uid
    ensures spec.target.Some? && spec.target.value.resourceVersion != ""
            && ResultTarget(selectors, spec).value.gvk == e.key.gvk ==>
              e.version == spec.target.value.resourceVersion
    ensures ResultTarget(selectors, spec).value.gvk != POD ==>
              e.key.gvk == ResultTarget(selectors, spec).value.gvk && e.key.name == ResultTarget(selectors, spec).value.name
  {
    var t := ResultTarget(selectors, spec).value;
    var w :| YieldsThrough(objects, selectors, spec, w, e);
    NeverAnIntermediateOwner(Owners(objects, t.namespace), selectors, t.gvk, t.namespace, t.name, w);
  }

  // ---------------------------------------------------------------- told on the fields

  /** `origin` is the object without metadata.managedFields. */
  ghost predicate SnapshotOf(o: Object, origin: Object) {
    && (forall k | k != "metadata" :: (k in origin.fields <==> k in o.fields) && (k in o.fields ==> origin.fields[k] == o.fields[k]))
    && ("metadata" in origin.fields <==> "metadata" in o.fields)
    && ("metadata" in o.fields ==>
          origin.fields["metadata"] ==
          if o.fields["metadata"].Map? then Map(o.fields["metadata"].fields - {"managedFields"}) else o.fields["metadata"])
  }

  /** The resource is this object of the cluster, with its UID, its version and its snapshot. */
  ghost predicate Describes(e: EligibleResource, objects: Objects, key: Pipeline.Key) {
    && key in objects && e.key == key && SnapshotOf(objects[key], e.origin)
    && e.uid == TextIn(objects[key], "metadata", "uid") && e.version == TextIn(objects[key], "metadata", "resourceVersion")
  }

  lemma {:induction false} SnapshotIs(o: Object, origin: Object)
    ensures SnapshotOf(o, origin) <==> origin == Pipeline.Snapshot(o)
  {
    var taken := Pipeline.Snapshot(o);
    if "metadata" in o.fields && o.fields["metadata"].Map? {
      var m := o.fields["metadata"].fields;
      assert taken.fields["metadata"].fields == m - {"managedFields"};
    }
    if SnapshotOf(o, origin) { assert origin.fields == taken.fields; }
  }

  lemma {:induction false} ResourceIs(objects: Objects, key: Pipeline.Key, e: EligibleResource)
    requires key in objects
    ensures Describes(e, objects, key) <==> e == ResourceAt(objects, key)
  {
    SnapshotIs(objects[key], e.origin);
    LookupFieldIn(objects[key], "metadata", "uid");
    LookupFieldIn(objects[key], "metadata", "resourceVersion");
  }

  /** An enabled object of the cluster under this key, with this UID and version where they are given. */
  ghost predicate Leads(objects: Objects, selectors: seq<string>, key: Pipeline.Key, uid: string, version: string, e: EligibleResource) {
    && Describes(e, objects, key) && Enabled(selectors, key.gvk)
    && (uid != "" ==> e.uid == uid) && (version != "" ==> e.version == version)
  }

  /** A reference with API version, kind and name, to the kind its API version parses to. */
  predicate Refers(t: Results.TargetReference, g: GVK) {
    && t.apiVersion != "" && t.kind != "" && t.name != "" && g.kind == t.kind
    && ParseGroupVersion(t.apiVersion) == Some(GroupVersion(g.group, g.version))
  }

  lemma {:induction false} DirectlyYields(objects: Objects, selectors: seq<string>, spec: Results.Spec, t: Target, e: EligibleResource)
    requires ResultTarget(selectors, spec) == Some(t) && t.gvk != POD
    ensures var key := Pipeline.Key(t.gvk, t.namespace, t.name);
            Yields(objects, selectors, spec, e) <==>
            key in objects && e == ResourceAt(objects, key) && Enabled(selectors, t.gvk) && StillAgrees(spec, t.gvk, e)
  {
    var w := Workload(t.gvk, t.namespace, t.name);
    YieldsOne(objects, selectors, spec, w, e);
  }

  /** An exact reference to another kind than a Pod leads to exactly the object it names. */
  lemma {:induction false} ExactReferenceYields(objects: Objects, selectors: seq<string>, spec: Results.Spec, t: Results.TargetReference,
                                                g: GVK, e: EligibleResource)
    requires spec.target == Some(t) && Refers(t, g) && g != GVK("", "v1", "Pod")
    ensures Yields(objects, selectors, spec, e) <==>
            Leads(objects, selectors, Pipeline.Key(g, t.namespace, t.name), t.uid, t.resourceVersion, e)
  {
    var key := Pipeline.Key(g, t.namespace, t.name);
    DirectlyYields(objects, selectors, spec, Target(g, t.namespace, t.name), e);
    if key in objects { ResourceIs(objects, key, e); }
  }

  /** A reference that lacks a part, or whose API version does not parse, leads nowhere. */
  lemma {:induction false} MalformedReferenceYieldsNothing(objects: Objects, selectors: seq<string>, spec: Results.Spec,
                                                           t: Results.TargetReference, e: EligibleResource)
    requires spec.target == Some(t)
    requires t.apiVersion == "" || t.kind == "" || t.name == "" || ParseGroupVersion(t.apiVersion).None?
    ensures !Yields(objects, selectors, spec, e)
  {
  }

  /**
   * An exact reference to a Pod leads to the workload its owner references resolve to; UID and version of
   * the reference are compared only when that is a Pod.
   */
  lemma {:induction false} PodReferenceYields(objects: Objects, selectors: seq<string>, spec: Results.Spec, t: Results.TargetReference,
                                              w: Workload, e: EligibleResource)
    requires spec.target == Some(t) && Refers(t, GVK("", "v1", "Pod"))
    requires Resolves(Owners(objects, t.namespace), selectors, GVK("", "v1", "Pod"), t.namespace, t.name, w)
    ensures Yields(objects, selectors, spec, e) <==>
            && w.Workload?
            && var own := w.gvk == GVK("", "v1", "Pod");
               Leads(objects, selectors, Pipeline.Key(w.gvk, w.namespace, w.name), if own then t.uid else "",
                     if own then t.resourceVersion else "", e)
  {
    YieldsOne(objects, selectors, spec, w, e);
    if w.Workload? && Pipeline.Key(w.gvk, w.namespace, w.name) in objects {
      ResourceIs(objects, Pipeline.Key(w.gvk, w.namespace, w.name), e);
    }
  }

  /** A name `namespace/name` with two non-empty parts. */
  predicate TwoPartName(text: string, namespace: string, name: string) {
    text == namespace + (['/'] + name) && namespace != "" && name != "" && '/' !in namespace && '/' !in name
  }

  /** The reference a legacy finding stands for. */
  function AsReference(spec: Results.Spec, apiVersion: string, kind: string, namespace: string, name: string): Results.Spec {
    spec.(target := Some(Results.TargetReference(apiVersion, kind, namespace, name, "", "")))
  }

  lemma {:induction false} SameTargetSameYield(objects: Objects, selectors: seq<string>, spec: Results.Spec, exact: Results.Spec,
                                               e: EligibleResource)
    requires ResultTarget(selectors, spec) == ResultTarget(selectors, exact)
    requires spec.target.None? && exact.target.Some? && exact.target.value.uid == "" && exact.target.value.resourceVersion == ""
    ensures Yields(objects, selectors, spec, e) <==> Yields(objects, selectors, exact, e)
  {
    forall w ensures YieldsThrough(objects, selectors, spec, w, e) <==> YieldsThrough(objects, selectors, exact, w, e) {}
    if w :| YieldsThrough(objects, selectors, spec, w, e) { assert YieldsThrough(objects, selectors, exact, w, e); }
    if w :| YieldsThrough(objects, selectors, exact, w, e) { assert YieldsThrough(objects, selectors, spec, w, e); }
  }

  lemma {:induction false} LegacyTarget(selectors: seq<string>, spec: Results.Spec, namespace: string, name: string)
    requires spec.target.None? && TwoPartName(spec.name, namespace, name) && LegacyGVK(selectors, spec.kind).None?
    ensures ResultTarget(selectors, spec) ==
            if spec.kind == "Pod" then Some(Target(POD, namespace, name))
            else if spec.kind == "Deployment" then Some(Target(GVK("apps", "v1", "Deployment"), namespace, name)) else None
  {
    LegacyNameIff(namespace, name);
  }

  lemma {:induction false} ReferenceTarget(selectors: seq<string>, spec: Results.Spec, apiVersion: string, kind: string,
                                           namespace: string, name: string, g: GVK)
    requires Refers(Results.TargetReference(apiVersion, kind, namespace, name, "", ""), g)
    ensures ResultTarget(selectors, AsReference(spec, apiVersion, kind, namespace, name)) == Some(Target(g, namespace, name))
  {
  }

  /** Without a selector of its own, a legacy Pod finding stands for the v1 Pod of that namespace and name. */
  lemma {:induction false} LegacyPodYields(objects: Objects, selectors: seq<string>, spec: Results.Spec, namespace: string, name: string,
                                           e: EligibleResource)
    requires spec.target.None? && TwoPartName(spec.name, namespace, name) && LegacyGVK(selectors, spec.kind).None?
    requires spec.kind == "Pod"
    ensures Yields(objects, selectors, spec, e) <==> Yields(objects, selectors, AsReference(spec, "v1", "Pod", namespace, name), e)
  {
    CoreV1();
    LegacyTarget(selectors, spec, namespace, name);
    ReferenceTarget(selectors, spec, "v1", "Pod", namespace, name, GVK("", "v1", "Pod"));
    SameTargetSameYield(objects, selectors, spec, AsReference(spec, "v1", "Pod", namespace, name), e);
  }

  /** And a legacy Deployment finding for the apps/v1 Deployment. */
  lemma {:induction false} LegacyDeploymentYields(objects: Objects, selectors: seq<string>, spec: Results.Spec, namespace: string,
                                                  name: string, e: EligibleResource)
    requires spec.target.None? && TwoPartName(spec.name, namespace, name) && LegacyGVK(selectors, spec.kind).None?
    requires spec.kind == "Deployment"
    ensures Yields(objects, selectors, spec, e) <==>
            Leads(objects, selectors, Pipeline.Key(GVK("apps", "v1", "Deployment"), namespace, name), "", "", e)
  {
    LegacyTarget(selectors, spec, namespace, name);
    DirectlyYields(objects, selectors, spec, Target(GVK("apps", "v1", "Deployment"), namespace, name), e);
    var key := Pipeline.Key(GVK("apps", "v1", "Deployment"), namespace, name);
    if key in objects { ResourceIs(objects, key, e); }
  }

  /** No other legacy finding leads anywhere without a selector of its own. */
  lemma {:induction false} LegacyYieldsNothing(objects: Objects, selectors: seq<string>, spec: Results.Spec, e: EligibleResource)
    requires spec.target.None? && LegacyGVK(selectors, spec.kind).None? && spec.kind != "Pod" && spec.kind != "Deployment"
    ensures !Yields(objects, selectors, spec, e)
  {
  }

  lemma {:induction false} CoreV1()
    ensures ParseGroupVersion("v1") == Some(GroupVersion("", "v1"))
  {
    SplitOne("v1");
  }

  /** The one selector that qualifies decides the kind of a legacy finding, in its namespace or in none. */
  lemma {:induction false} LegacySelectorYields(objects: Objects, selectors: seq<string>, spec: Results.Spec, namespace: string,
                                                name: string, g: GVK, e: EligibleResource)
    requires spec.target.None? && LegacyGVK(selectors, spec.kind) == Some(g) && g != GVK("", "v1", "Pod")
    requires TwoPartName(spec.name, namespace, name) || (namespace == "" && spec.name == name != "" && '/' !in name)
    ensures Yields(objects, selectors, spec, e) <==> Leads(objects, selectors, Pipeline.Key(g, namespace, name), "", "", e)
  {
    LegacyNameIff(namespace, name);
    if namespace == "" { SplitOne(name); }
    DirectlyYields(objects, selectors, spec, Target(g, namespace, name), e);
    if Pipeline.Key(g, namespace, name) in objects { ResourceIs(objects, Pipeline.Key(g, namespace, name), e); }
  }

  /** The owner references of an object, field by field. */
  lemma {:induction false} OwnerReferenceFields(o: Object, refs: seq<Value>, i: nat)
    requires HoldsIn(o, "metadata", "ownerReferences", List(refs)) && (forall j | 0 <= j < |refs| :: refs[j].Map?) && i < |refs|
    ensures |OwnersOf(o)| == |refs|
    ensures var r := OwnersOf(o)[i];
            && r.apiVersion == TextAt(refs[i], "apiVersion") && r.kind == TextAt(refs[i], "kind") && r.name == TextAt(refs[i], "name")
            && (r.controller == Some(true) <==> Holds(refs[i], "controller", Bool(true)))
  {
    LookupFieldIn(o, "metadata", "ownerReferences");
    LookupField(refs[i], "apiVersion");
    LookupField(refs[i], "kind");
    LookupField(refs[i], "name");
    LookupField(refs[i], "controller");
  }

  /** The walk sees the objects of the namespace, under their kind and name. */
  lemma {:induction false} OwnersAre(objects: Objects, namespace: string, node: Node)
    ensures var key := Pipeline.Key(node.gvk, namespace, node.name);
            && (node in Owners(objects, namespace) <==> key in objects)
            && (key in objects ==> Owners(objects, namespace)[node] == OwnersOf(objects[key]))
  {
    var key := Pipeline.Key(node.gvk, namespace, node.name);
    if key in objects { assert key.namespace == namespace && Node(key.gvk, key.name) == node; }
  }
}
