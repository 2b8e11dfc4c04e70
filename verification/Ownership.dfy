/** From a finding to the workload to remediate: resolveOwningWorkload of to_eligible_resource.go. */
module Ownership {
  import opened Strings
  import opened Gvk
  import opened Selectors

  datatype OwnerReference = OwnerReference(apiVersion: string, kind: string, name: string, controller: Option<bool>)

  /** A namespaced object, in the one namespace of the walk. */
  datatype Node = Node(gvk: GVK, name: string)

  /** What the server answers to Get in that namespace; missing objects are errors. */
  type Cluster = map<Node, seq<OwnerReference>>

  const POD := GVK("", "v1", "Pod")

  /** How many owners are followed before a cycle is assumed. */
  const DEPTH: nat := 8

  // ---------------------------------------------------------------- one step up

  predicate Controls(o: OwnerReference) {
    o.controller == Some(true)
  }

  /** controllerOwner: the first owner that is a controller. */
  method ControllerOwner(owners: seq<OwnerReference>) returns (owner: Option<OwnerReference>)
    ensures owner == FirstController(owners)
  {
    for i := 0 to |owners|
      invariant FirstController(owners) == FirstController(owners[i..])
    {
      assert owners[i..][0] == owners[i] && owners[i..][1..] == owners[i + 1..];
      if owners[i].controller.Some? && owners[i].controller.value {
        return Some(owners[i]);
      }
    }
    return None;
  }

  function FirstController(owners: seq<OwnerReference>): (owner: Option<OwnerReference>)
    ensures owner.Some? ==> owner.value in owners && Controls(owner.value)
    ensures owner.None? <==> forall i | 0 <= i < |owners| :: !Controls(owners[i])
  {
    if owners == [] then None
    else if Controls(owners[0]) then Some(owners[0])
    else FirstController(owners[1..])
  }

  /** Where one step up from an object leads. */
  datatype Step = Broken | Top | Up(owner: Node)

  function StepFrom(cluster: Cluster, node: Node): Step {
    if node !in cluster then Broken
    else
      match FirstController(cluster[node])
      case None => Top
      case Some(o) =>
        (match ParseGroupVersion(o.apiVersion)
         case None => Broken
         case Some(gv) => Up(Node(gv.WithKind(o.kind), o.name)))
  }

  /** The n-th controller ancestor, if the chain reaches so far. */
  function Ancestor(cluster: Cluster, node: Node, n: nat): Option<Node> {
    if n == 0 then Some(node)
    else
      var below := Ancestor(cluster, node, n - 1);
      if below.Some? && StepFrom(cluster, below.value).Up? then Some(StepFrom(cluster, below.value).owner) else None
  }

  // ---------------------------------------------------------------- the walk

  datatype Workload = Failed | Workload(gvk: GVK, namespace: string, name: string)

  /** The n-th ancestor is an enabled one. */
  predicate EnabledAt(cluster: Cluster, selectors: seq<string>, node: Node, n: nat) {
    Ancestor(cluster, node, n).Some? && Enabled(selectors, Ancestor(cluster, node, n).value.gvk)
  }

  /** No proper ancestor up to the n-th is enabled. */
  predicate NoneEnabledUpTo(cluster: Cluster, selectors: seq<string>, node: Node, n: nat) {
    forall m | 0 < m <= n :: !EnabledAt(cluster, selectors, node, m)
  }

  /** The n-th ancestor is the first enabled one. */
  predicate FirstEnabled(cluster: Cluster, selectors: seq<string>, node: Node, n: nat) {
    0 < n <= DEPTH && EnabledAt(cluster, selectors, node, n) && NoneEnabledUpTo(cluster, selectors, node, n - 1)
  }

  /** The chain ends, in this way, at the n-th ancestor, and nothing enabled was on it. */
  predicate EndsAt(cluster: Cluster, selectors: seq<string>, node: Node, n: nat, end: Step) {
    && n < DEPTH && Ancestor(cluster, node, n).Some? && StepFrom(cluster, Ancestor(cluster, node, n).value) == end
    && NoneEnabledUpTo(cluster, selectors, node, n)
  }

  /** The chain is longer than the walk, with nothing enabled on it. */
  predicate TooDeep(cluster: Cluster, selectors: seq<string>, node: Node) {
    Ancestor(cluster, node, DEPTH).Some? && NoneEnabledUpTo(cluster, selectors, node, DEPTH)
  }

  /** What the walk must answer for an object of this GVK. */
  predicate Resolves(cluster: Cluster, selectors: seq<string>, gvk: GVK, namespace: string, name: string, w: Workload) {
    var node := Node(gvk, name);
    if gvk != POD then w == Workload(gvk, namespace, name)
    else
      || (exists n | 0 < n <= DEPTH ::
            && FirstEnabled(cluster, selectors, node, n)
            && w == Workload(Ancestor(cluster, node, n).value.gvk, namespace, Ancestor(cluster, node, n).value.name))
      || ((exists n | 0 <= n < DEPTH :: EndsAt(cluster, selectors, node, n, Top)) && w == Workload(gvk, namespace, name))
      || ((TooDeep(cluster, selectors, node) || exists n | 0 <= n < DEPTH :: EndsAt(cluster, selectors, node, n, Broken))
          && w == Failed)
  }

  /** One turn of the walk extends what is known about the chain. */
  lemma OneMore(cluster: Cluster, selectors: seq<string>, node: Node, n: nat)
    requires NoneEnabledUpTo(cluster, selectors, node, n) && !EnabledAt(cluster, selectors, node, n + 1)
    ensures NoneEnabledUpTo(cluster, selectors, node, n + 1)
  {
  }

  /** resolveOwningWorkload. */
  method ResolveOwningWorkload(cluster: Cluster, selectors: seq<string>, gvk: GVK, namespace: string, name: string)
    returns (w: Workload)
    ensures Resolves(cluster, selectors, gvk, namespace, name, w)
  {
    if gvk != POD {
      return Workload(gvk, namespace, name);
    }
    var start := Node(gvk, name);
    var current := start;
    for n := 0 to DEPTH
      invariant Ancestor(cluster, start, n) == Some(current)
      invariant NoneEnabledUpTo(cluster, selectors, start, n)
    {
      if current !in cluster {
        assert EndsAt(cluster, selectors, start, n, Broken);
        return Failed;
      }
      var owner := ControllerOwner(cluster[current]);
      if owner.None? {
        assert EndsAt(cluster, selectors, start, n, Top);
        return Workload(gvk, namespace, name);
      }
      var ownerGV := ParseGroupVersion(owner.value.apiVersion);
      if ownerGV.None? {
        assert EndsAt(cluster, selectors, start, n, Broken);
        return Failed;
      }
      current := Node(ownerGV.value.WithKind(owner.value.kind), owner.value.name);
      assert Ancestor(cluster, start, n + 1) == Some(current);
      var enabled := AutoRemediationResourceEnabled(selectors, current.gvk);
      if enabled {
        assert FirstEnabled(cluster, selectors, start, n + 1);
        return Workload(current.gvk, namespace, current.name);
      }
      OneMore(cluster, selectors, start, n);
    }
    return Failed;
  }

  // ---------------------------------------------------------------- the answer is the only one

  lemma {:induction false} ChainIsUnbroken(cluster: Cluster, node: Node, m: nat, n: nat)
    requires m <= n && Ancestor(cluster, node, n).Some?
    ensures Ancestor(cluster, node, m).Some?
    ensures m < n ==> StepFrom(cluster, Ancestor(cluster, node, m).value).Up?
    decreases n - m
  {
    if m < n {
      ChainIsUnbroken(cluster, node, m + 1, n);
    }
  }

  /** A chain that ends at the n-th ancestor goes no further. */
  lemma NothingAboveTheEnd(cluster: Cluster, selectors: seq<string>, node: Node, n: nat, end: Step, k: nat)
    requires EndsAt(cluster, selectors, node, n, end) && !end.Up? && k > n
    ensures Ancestor(cluster, node, k).None?
  {
    if Ancestor(cluster, node, k).Some? { ChainIsUnbroken(cluster, node, n, k); }
  }

  /** The first enabled ancestor is below any end of the chain and unique. */
  lemma FirstIsUnique(cluster: Cluster, selectors: seq<string>, node: Node, n: nat)
    requires FirstEnabled(cluster, selectors, node, n)
    ensures forall k: nat | FirstEnabled(cluster, selectors, node, k) :: k == n
    ensures !TooDeep(cluster, selectors, node)
    ensures forall k: nat, end: Step | EndsAt(cluster, selectors, node, k, end) && !end.Up? :: false
  {
    forall k: nat, end: Step | EndsAt(cluster, selectors, node, k, end) && !end.Up? ensures false {
      if k < n { NothingAboveTheEnd(cluster, selectors, node, k, end, n); }
    }
  }

  /** The end of a chain is unique, and then it is not too deep. */
  lemma EndIsUnique(cluster: Cluster, selectors: seq<string>, node: Node, n: nat, end: Step)
    requires EndsAt(cluster, selectors, node, n, end) && !end.Up?
    ensures forall k: nat, other: Step | EndsAt(cluster, selectors, node, k, other) && !other.Up? :: k == n && other == end
    ensures !TooDeep(cluster, selectors, node)
  {
    NothingAboveTheEnd(cluster, selectors, node, n, end, DEPTH);
    forall k: nat, other: Step | EndsAt(cluster, selectors, node, k, other) && !other.Up? ensures k == n && other == end {
      if k < n { NothingAboveTheEnd(cluster, selectors, node, k, other, n); }
      if n < k { NothingAboveTheEnd(cluster, selectors, node, n, end, k); }
    }
  }

  /** However the graph looks, cycles included, the description above allows one answer. */
  lemma ResolutionIsUnique(cluster: Cluster, selectors: seq<string>, gvk: GVK, namespace: string, name: string,
                           w: Workload, v: Workload)
    requires Resolves(cluster, selectors, gvk, namespace, name, w) && Resolves(cluster, selectors, gvk, namespace, name, v)
    ensures w == v
  {
    var node := Node(gvk, name);
    if gvk == POD {
      if n: nat :| FirstEnabled(cluster, selectors, node, n) {
        FirstIsUnique(cluster, selectors, node, n);
      } else if n: nat :| EndsAt(cluster, selectors, node, n, Top) {
        EndIsUnique(cluster, selectors, node, n, Top);
      }
    }
  }

  /** The walk never leaves the namespace and never answers an owner that is not enabled. */
  lemma NeverAnIntermediateOwner(cluster: Cluster, selectors: seq<string>, gvk: GVK, namespace: string, name: string, w: Workload)
    requires Resolves(cluster, selectors, gvk, namespace, name, w) && w.Workload?
    ensures w.namespace == namespace
    ensures (w.gvk == gvk && w.name == name) || Enabled(selectors, w.gvk)
  {
  }

  // ---------------------------------------------------------------- the chain of owner references

  /** The k-th owner reference is the first one marked as controller. */
  predicate FirstMarked(refs: seq<OwnerReference>, k: nat) {
    k < |refs| && refs[k].controller == Some(true) && forall j | 0 <= j < k :: refs[j].controller != Some(true)
  }

  /** The reference names this object. */
  predicate Names(ref: OwnerReference, owner: Node) {
    && owner.name == ref.name && owner.gvk.kind == ref.kind
    && ParseGroupVersion(ref.apiVersion) == Some(GroupVersion(owner.gvk.group, owner.gvk.version))
  }

  /** The first owner reference of the child that is marked as controller names the owner. */
  ghost predicate OwnedBy(cluster: Cluster, child: Node, owner: Node) {
    child in cluster && exists k: nat :: FirstMarked(cluster[child], k) && Names(cluster[child][k], owner)
  }

  /** The child is there and no owner reference of it is marked as controller. */
  predicate Uncontrolled(cluster: Cluster, child: Node) {
    child in cluster && forall k | 0 <= k < |cluster[child]| :: cluster[child][k].controller != Some(true)
  }

  lemma {:induction false} FirstControllerIs(refs: seq<OwnerReference>, k: nat)
    requires FirstMarked(refs, k)
    ensures FirstController(refs) == Some(refs[k])
    decreases k
  {
    if k > 0 { FirstControllerIs(refs[1..], k - 1); }
  }

  lemma {:induction false} SomeFirstMarked(refs: seq<OwnerReference>)
    requires FirstController(refs).Some?
    ensures exists k: nat :: FirstMarked(refs, k)
    decreases |refs|
  {
    if refs[0].controller == Some(true) {
      assert FirstMarked(refs, 0);
    } else {
      SomeFirstMarked(refs[1..]);
      var k: nat :| FirstMarked(refs[1..], k);
      assert forall j | 0 < j <= k :: refs[j] == refs[1..][j - 1];
      assert FirstMarked(refs, k + 1);
    }
  }

  /** A step of the walk follows the controller reference, and nothing else. */
  lemma {:induction false} StepIs(cluster: Cluster, child: Node, owner: Node)
    ensures StepFrom(cluster, child) == Up(owner) <==> OwnedBy(cluster, child, owner)
    ensures StepFrom(cluster, child) == Top <==> Uncontrolled(cluster, child)
  {
    if child in cluster && FirstController(cluster[child]).Some? {
      SomeFirstMarked(cluster[child]);
      var k: nat :| FirstMarked(cluster[child], k);
      FirstControllerIs(cluster[child], k);
      assert StepFrom(cluster, child) == Up(owner) <==> Names(cluster[child][k], owner);
    }
    if k: nat :| child in cluster && FirstMarked(cluster[child], k) && Names(cluster[child][k], owner) {
      FirstControllerIs(cluster[child], k);
    }
  }

  /** Every node is the controller of the one before it. */
  ghost predicate IsChain(cluster: Cluster, path: seq<Node>) {
    path != [] && forall i | 0 <= i < |path| - 1 :: OwnedBy(cluster, path[i], path[i + 1])
  }

  lemma {:induction false} ChainIsAncestry(cluster: Cluster, path: seq<Node>, i: nat)
    requires IsChain(cluster, path) && i < |path|
    ensures Ancestor(cluster, path[0], i) == Some(path[i])
    decreases i
  {
    if i > 0 {
      ChainIsAncestry(cluster, path, i - 1);
      assert OwnedBy(cluster, path[i - 1], path[i - 1 + 1]);
      StepIs(cluster, path[i - 1], path[i]);
    }
  }

  lemma {:induction false} AncestryIsChain(cluster: Cluster, node: Node, n: nat) returns (path: seq<Node>)
    requires Ancestor(cluster, node, n).Some?
    ensures IsChain(cluster, path) && |path| == n + 1 && path[0] == node && Some(path[n]) == Ancestor(cluster, node, n)
  {
    if n == 0 {
      path := [node];
    } else {
      var below := AncestryIsChain(cluster, node, n - 1);
      var owner := Ancestor(cluster, node, n).value;
      StepIs(cluster, below[n - 1], owner);
      path := below + [owner];
      forall i | 0 <= i < |path| - 1 ensures OwnedBy(cluster, path[i], path[i + 1]) {
        if i < n - 1 { assert OwnedBy(cluster, below[i], below[i + 1]); }
      }
    }
  }

  /** A chain of at most eight owners from the Pod to its first enabled one. */
  ghost predicate LeadsTo(cluster: Cluster, selectors: seq<string>, pod: Node, path: seq<Node>) {
    && IsChain(cluster, path) && 2 <= |path| <= 9 && path[0] == pod && Enabled(selectors, path[|path| - 1].gvk)
    && forall i | 0 < i < |path| - 1 :: !Enabled(selectors, path[i].gvk)
  }

  lemma {:induction false} LeadingIsFirst(cluster: Cluster, selectors: seq<string>, pod: Node, path: seq<Node>)
    requires LeadsTo(cluster, selectors, pod, path)
    ensures FirstEnabled(cluster, selectors, pod, |path| - 1)
    ensures Ancestor(cluster, pod, |path| - 1) == Some(path[|path| - 1])
  {
    forall i | 0 <= i < |path| ensures Ancestor(cluster, pod, i) == Some(path[i]) { ChainIsAncestry(cluster, path, i); }
  }

  lemma {:induction false} FirstIsLeading(cluster: Cluster, selectors: seq<string>, pod: Node, n: nat) returns (path: seq<Node>)
    requires FirstEnabled(cluster, selectors, pod, n)
    ensures LeadsTo(cluster, selectors, pod, path) && Ancestor(cluster, pod, n) == Some(path[|path| - 1])
  {
    path := AncestryIsChain(cluster, pod, n);
    forall i | 0 < i < |path| - 1 ensures !Enabled(selectors, path[i].gvk) {
      ChainIsAncestry(cluster, path, i);
      assert !EnabledAt(cluster, selectors, pod, i);
    }
  }

  /** The answer for a Pod with an enabled owner within reach is that owner, by the name its reference gives. */
  lemma {:induction false} EnabledOwnerIsAnswered(cluster: Cluster, selectors: seq<string>, namespace: string, name: string,
                                                  path: seq<Node>, w: Workload)
    requires Resolves(cluster, selectors, POD, namespace, name, w) && LeadsTo(cluster, selectors, Node(POD, name), path)
    ensures w == Workload(path[|path| - 1].gvk, namespace, path[|path| - 1].name)
  {
    var last := path[|path| - 1];
    LeadingIsFirst(cluster, selectors, Node(POD, name), path);
    ResolutionIsUnique(cluster, selectors, POD, namespace, name, w, Workload(last.gvk, namespace, last.name));
  }

  /** Any other answer than the Pod itself comes by such a chain. */
  lemma {:induction false} AnswerHasChain(cluster: Cluster, selectors: seq<string>, namespace: string, name: string, w: Workload)
    requires Resolves(cluster, selectors, POD, namespace, name, w) && w.Workload? && !(w.gvk == POD && w.name == name)
    ensures exists path :: LeadsTo(cluster, selectors, Node(POD, name), path) && path[|path| - 1] == Node(w.gvk, w.name)
  {
    var n :| 0 < n <= DEPTH && FirstEnabled(cluster, selectors, Node(POD, name), n)
             && w == Workload(Ancestor(cluster, Node(POD, name), n).value.gvk, namespace, Ancestor(cluster, Node(POD, name), n).value.name);
    var path := FirstIsLeading(cluster, selectors, Node(POD, name), n);
    assert path[|path| - 1] == Node(w.gvk, w.name);
  }

  /** A chain of fewer than eight owners, none of them enabled, to one that nothing controls. */
  ghost predicate EndsUncontrolled(cluster: Cluster, selectors: seq<string>, pod: Node, path: seq<Node>) {
    && IsChain(cluster, path) && |path| <= 8 && path[0] == pod && Uncontrolled(cluster, path[|path| - 1])
    && forall i | 0 < i < |path| :: !Enabled(selectors, path[i].gvk)
  }

  /** Then the Pod itself is the answer. */
  lemma {:induction false} UncontrolledIsAnswered(cluster: Cluster, selectors: seq<string>, namespace: string, name: string,
                                                  path: seq<Node>, w: Workload)
    requires Resolves(cluster, selectors, POD, namespace, name, w) && EndsUncontrolled(cluster, selectors, Node(POD, name), path)
    ensures w == Workload(POD, namespace, name)
  {
    var pod, n := Node(POD, name), |path| - 1;
    forall i | 0 <= i < |path| ensures Ancestor(cluster, pod, i) == Some(path[i]) { ChainIsAncestry(cluster, path, i); }
    StepIs(cluster, path[n], pod);
    assert EndsAt(cluster, selectors, pod, n, Top);
    ResolutionIsUnique(cluster, selectors, POD, namespace, name, w, Workload(POD, namespace, name));
  }

  /** And a workload is answered only in one of these two ways. */
  lemma {:induction false} AnswerIsLedTo(cluster: Cluster, selectors: seq<string>, namespace: string, name: string, w: Workload)
    requires Resolves(cluster, selectors, POD, namespace, name, w) && w.Workload?
    ensures (exists path :: LeadsTo(cluster, selectors, Node(POD, name), path) && path[|path| - 1] == Node(w.gvk, w.name))
            || (w == Workload(POD, namespace, name) && exists path :: EndsUncontrolled(cluster, selectors, Node(POD, name), path))
  {
    var pod := Node(POD, name);
    if n :| 0 < n <= DEPTH && FirstEnabled(cluster, selectors, pod, n)
            && w == Workload(Ancestor(cluster, pod, n).value.gvk, namespace, Ancestor(cluster, pod, n).value.name) {
      var path := FirstIsLeading(cluster, selectors, pod, n);
      assert path[|path| - 1] == Node(w.gvk, w.name);
    } else {
      var n :| 0 <= n < DEPTH && EndsAt(cluster, selectors, pod, n, Top);
      var path := TopIsUncontrolled(cluster, selectors, pod, n);
    }
  }

  lemma {:induction false} TopIsUncontrolled(cluster: Cluster, selectors: seq<string>, pod: Node, n: nat) returns (path: seq<Node>)
    requires n < DEPTH && EndsAt(cluster, selectors, pod, n, Top)
    ensures EndsUncontrolled(cluster, selectors, pod, path)
  {
    path := AncestryIsChain(cluster, pod, n);
    StepIs(cluster, path[n], pod);
    forall i | 0 < i < |path| ensures !Enabled(selectors, path[i].gvk) {
      ChainIsAncestry(cluster, path, i);
      assert !EnabledAt(cluster, selectors, pod, i);
    }
  }

  /** One hop: a Pod whose controller is an enabled ReplicaSet is answered with that ReplicaSet. */
  lemma {:induction false} PodOfReplicaSet(cluster: Cluster, selectors: seq<string>, namespace: string, name: string, k: nat, w: Workload)
    requires Resolves(cluster, selectors, POD, namespace, name, w) && Node(POD, name) in cluster
    requires FirstMarked(cluster[Node(POD, name)], k)
    requires cluster[Node(POD, name)][k].apiVersion == "apps/v1" && cluster[Node(POD, name)][k].kind == "ReplicaSet"
    requires Enabled(selectors, GVK("apps", "v1", "ReplicaSet"))
    ensures w == Workload(GVK("apps", "v1", "ReplicaSet"), namespace, cluster[Node(POD, name)][k].name)
  {
    var owner := Node(GVK("apps", "v1", "ReplicaSet"), cluster[Node(POD, name)][k].name);
    AppsV1();
    assert OwnedBy(cluster, Node(POD, name), owner);
    EnabledOwnerIsAnswered(cluster, selectors, namespace, name, [Node(POD, name), owner], w);
  }

  lemma {:induction false} AppsV1()
    ensures ParseGroupVersion("apps/v1") == Some(GroupVersion("apps", "v1"))
  {
    assert "apps/v1" == "apps" + (['/'] + "v1");
    SplitTwo("apps", "v1");
  }
}
