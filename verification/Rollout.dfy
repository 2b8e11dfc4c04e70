/** The rollout test of a patched target: targetReady in internal/controller/mutation/mutation_controller.go. */
module Rollout {
  import opened Strings
  import opened Gvk
  import opened Json
  import opened Gate

  /** What NestedInt64 finds below a path. */
  datatype Nested = Missing | Malformed | Found(n: int)

  /** The accessor of apimachinery: a missing key or a null on the way is no error, anything else that is no map is. */
  function NestedInt(v: Value, fields: seq<string>): Nested {
    if fields == [] then if v.Num? && v.n.Floor as real == v.n then Found(v.n.Floor) else Malformed
    else if v.Null? then Missing
    else if !v.Map? then Malformed
    else if fields[0] !in v.fields then Missing
    else NestedInt(v.fields[fields[0]], fields[1..])
  }

  function OrElse(found: Nested, absent: int): int {
    if found.Found? then found.n else absent
  }

  const DEPLOYMENT := GVK("apps", "v1", "Deployment")

  const REPLICAS := ["spec", "replicas"]
  const OBSERVED_GENERATION := ["status", "observedGeneration"]
  const AVAILABLE_REPLICAS := ["status", "availableReplicas"]
  const GENERATION := [META, "generation"]

  /** GetGeneration: zero unless the field is there and holds a number. */
  function Generation(o: Object): int {
    OrElse(NestedInt(o, GENERATION), 0)
  }

  /** The controller of the Deployment has seen this generation and has enough replicas available. */
  predicate RolledOut(o: Object) {
    && OrElse(NestedInt(o, OBSERVED_GENERATION), 0) >= Generation(o)
    && OrElse(NestedInt(o, AVAILABLE_REPLICAS), 0) >= OrElse(NestedInt(o, REPLICAS), 1)
  }

  predicate WellFormed(o: Object) {
    !NestedInt(o, REPLICAS).Malformed? && !NestedInt(o, OBSERVED_GENERATION).Malformed? && !NestedInt(o, AVAILABLE_REPLICAS).Malformed?
  }

  /** The answer for the Mutation with this snapshot, given the target that was read; none is an error. */
  function Ready(origin: Object, target: Option<Object>): Option<bool> {
    if GVKOf(origin) != DEPLOYMENT then Some(true)
    else if target.None? then None
    else if Text(origin, UID) != "" && Text(target.value, UID) != Text(origin, UID) then None
    else if !WellFormed(target.value) then None
    else Some(RolledOut(target.value))
  }

  /** The rest of targetReady, once the Deployment has been read. */
  method CheckDeployment(origin: Object, live: Object) returns (ready: Option<bool>)
    requires GVKOf(origin) == DEPLOYMENT
    ensures ready == Ready(origin, Some(live))
  {
    var expectedUID := Text(origin, UID);
    if expectedUID != "" && Text(live, UID) != expectedUID {
      return None;
    }
    var expectedReplicas := NestedInt(live, REPLICAS);
    if expectedReplicas.Malformed? {
      return None;
    }
    if expectedReplicas.Missing? {
      expectedReplicas := Found(1);
    }
    var observedGeneration := NestedInt(live, OBSERVED_GENERATION);
    if observedGeneration.Malformed? {
      return None;
    }
    var availableReplicas := NestedInt(live, AVAILABLE_REPLICAS);
    if availableReplicas.Malformed? {
      return None;
    }
    ready := Some(OrElse(observedGeneration, 0) >= Generation(live) && OrElse(availableReplicas, 0) >= expectedReplicas.n);
  }

  // ---------------------------------------------------------------- told on the fields

  /** The whole number under two keys, this one when there is none. */
  predicate NumberIn(o: Object, outer: string, inner: string, absent: int, n: int) {
    if LacksIn(o, outer, inner) then n == absent && Descends(o, outer) else HoldsIn(o, outer, inner, Num(n as real))
  }

  /** Nothing, a null or a map is under the outer key. */
  predicate Descends(o: Object, outer: string) {
    outer in o.fields ==> o.fields[outer].Null? || o.fields[outer].Map?
  }

  lemma {:induction false} WholeNumber(n: int)
    ensures NestedInt(Num(n as real), []) == Found(n)
  {
    var x: real := n as real;
    assert x.Floor == n;
    assert x.Floor as real == x;
  }

  predicate IsWhole(x: Value) {
    x.Num? && x.n == x.n.Floor as real
  }

  /** Anything but a whole number under the inner key is malformed. */
  lemma {:induction false} NoNumber(o: Object, outer: string, inner: string, x: Value)
    requires HoldsIn(o, outer, inner, x) && !IsWhole(x)
    ensures NestedInt(o, [outer, inner]).Malformed?
  {
    var below := o.fields[outer];
    assert [outer, inner][1..] == [inner];
    assert [inner][1..] == [];
    assert NestedInt(o, [outer, inner]) == NestedInt(below, [inner]) == NestedInt(x, []);
  }

  lemma {:induction false} NumberFound(o: Object, outer: string, inner: string, absent: int, n: int)
    requires NumberIn(o, outer, inner, absent, n)
    ensures !NestedInt(o, [outer, inner]).Malformed? && OrElse(NestedInt(o, [outer, inner]), absent) == n
  {
    assert [outer, inner][1..] == [inner] && [inner][1..] == [];
    WholeNumber(n);
    if outer in o.fields && o.fields[outer].Map? && inner in o.fields[outer].fields {
      assert o.fields[outer].fields[inner] == Num(n as real);
    }
  }

  /**
   * A Deployment under the UID of the snapshot is ready exactly when the observed generation is not behind
   * and there are as many available replicas as wanted, one when no number is given.
   */
  lemma {:induction false} DeploymentReadyIff(origin: Object, live: Object, replicas: int, generation: int, observed: int, available: int)
    requires GVKOf(origin) == GVK("apps", "v1", "Deployment") && Text(live, UID) == Text(origin, UID)
    requires NumberIn(live, "spec", "replicas", 1, replicas) && NumberIn(live, "metadata", "generation", 0, generation)
    requires NumberIn(live, "status", "observedGeneration", 0, observed) && NumberIn(live, "status", "availableReplicas", 0, available)
    ensures Ready(origin, Some(live)) == Some(observed >= generation && available >= replicas)
  {
    NumberFound(live, "spec", "replicas", 1, replicas);
    NumberFound(live, "metadata", "generation", 0, generation);
    NumberFound(live, "status", "observedGeneration", 0, observed);
    NumberFound(live, "status", "availableReplicas", 0, available);
  }

  /** Anything but a whole number where one is read is an error. */
  lemma {:induction false} MalformedIsAnError(origin: Object, live: Object, outer: string, inner: string, x: Value)
    requires GVKOf(origin) == GVK("apps", "v1", "Deployment")
    requires [outer, inner] in [["spec", "replicas"], ["status", "observedGeneration"], ["status", "availableReplicas"]]
    requires HoldsIn(live, outer, inner, x) && !IsWhole(x)
    ensures Ready(origin, Some(live)) == None
  {
    NoNumber(live, outer, inner, x);
  }

  /** A Deployment that is gone, or carries another UID than the snapshot, is an error; no other target is tested at all. */
  lemma {:induction false} OtherTargets(origin: Object, live: Object)
    ensures GVKOf(origin) != GVK("apps", "v1", "Deployment") ==> Ready(origin, Some(live)) == Ready(origin, None) == Some(true)
    ensures GVKOf(origin) == GVK("apps", "v1", "Deployment") ==> Ready(origin, None) == None
    ensures GVKOf(origin) == GVK("apps", "v1", "Deployment") && TextIn(origin, "metadata", "uid") !in ["", TextIn(live, "metadata", "uid")] ==>
              Ready(origin, Some(live)) == None
  {
    LookupFieldIn(origin, "metadata", "uid");
    LookupFieldIn(live, "metadata", "uid");
  }
}
