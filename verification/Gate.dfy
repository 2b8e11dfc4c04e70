/** The deterministic policy gate: internal/controller/remediation/policy/gate.go. */
module Gate {
  import opened Strings
  import opened Pointer
  import opened Json
  import opened Diff
  import opened Gvk

  /** An unstructured Kubernetes object. */
  type Object = v: Value | v.Map? witness Map(map[])

  // ---------------------------------------------------------------- reading an object

  function StringOf(v: Value): string {
    if v.Str? then v.s else ""
  }

  const META := "metadata"
  const UID := [META, "uid"]
  const RESOURCE_VERSION := [META, "resourceVersion"]
  const NAME := [META, "name"]
  const NAMESPACE := [META, "namespace"]
  const GENERATE_NAME := [META, "generateName"]
  const ANNOTATIONS := [META, "annotations"]
  const LABELS := [META, "labels"]
  const FINALIZERS := [META, "finalizers"]
  const OWNERS := [META, "ownerReferences"]
  const API_VERSION := ["apiVersion"]
  const KIND := ["kind"]
  const STATUS := ["status"]

  /** The Get accessors of Unstructured: empty unless the field is there and holds a string. */
  function Text(o: Object, loc: Location): string {
    StringOf(Lookup(o, loc))
  }

  function GVKOf(o: Object): GVK {
    match ParseGroupVersion(Text(o, API_VERSION))
    case None => GVK("", "", "")
    case Some(gv) => gv.WithKind(Text(o, KIND))
  }

  /** GetAnnotations drops every annotation when one of them is neither a string nor null. */
  function Annotation(o: Object, key: string): string {
    var a := Lookup(o, ANNOTATIONS);
    if a.Map? && (forall k | k in a.fields :: a.fields[k].Str? || a.fields[k].Null?)
    then StringOf(Get(a.fields, key)) else ""
  }

  /** len(GetOwnerReferences()) > 0. */
  predicate Owned(o: Object) {
    var r := Lookup(o, OWNERS);
    r.List? && r.items != [] && forall i | 0 <= i < |r.items| :: r.items[i].Map?
  }

  // ---------------------------------------------------------------- normalisation

  const BOOKKEEPING: seq<string> :=
    ["uid", "resourceVersion", "generation", "creationTimestamp", "deletionTimestamp", "managedFields", "selfLink"]

  /** A map without some of its keys; anything else as it is. */
  function Drop(v: Value, keys: seq<string>): Value {
    if v.Map? then Map(map k | k in v.fields && k !in keys :: v.fields[k]) else v
  }

  /** The part of an object that a proposal may be about. */
  function Normalized(o: Object): Object {
    var top := Drop(o, STATUS);
    if META in top.fields then Map(top.fields[META := Drop(top.fields[META], BOOKKEEPING)]) else top
  }

  lemma DropOneMore(v: Value, keys: seq<string>, i: nat)
    requires v.Map? && i < |keys|
    ensures Map(Drop(v, keys[..i]).fields - {keys[i]}) == Drop(v, keys[..i + 1])
  {
    assert keys[..i + 1] == keys[..i] + [keys[i]];
  }

  /** delete() of each listed key. */
  method DeleteKeys(fields: map<string, Value>, keys: seq<string>) returns (left: map<string, Value>)
    ensures Map(left) == Drop(Map(fields), keys)
  {
    left := fields;
    for i := 0 to |keys|
      invariant Map(left) == Drop(Map(fields), keys[..i])
    {
      left := left - {keys[i]};
      DropOneMore(Map(fields), keys, i);
    }
    assert keys[..|keys|] == keys;
  }

  /** gate.go's normalized: deletes keys from a copy. */
  method Normalize(o: Object) returns (copy: Object)
    ensures copy == Normalized(o)
  {
    var fields := DeleteKeys(o.fields, STATUS);
    if META in fields && fields[META].Map? {
      var metadata := DeleteKeys(fields[META].fields, BOOKKEEPING);
      fields := fields[META := Map(metadata)];
    }
    copy := Map(fields);
    assert META in fields ==> fields[META := fields[META]] == fields;
  }

  // ---------------------------------------------------------------- policies

  datatype Policy =
    | PodImages
    | PodTemplateImages
    | CronJobImages
    | ExactPaths(paths: set<string>)

  /** The closed registry. */
  function RegisteredPolicy(g: GVK): (p: Option<Policy>)
    ensures p.Some? ==> !p.value.ExactPaths?
  {
    if g == GVK("", "v1", "Pod") then Some(PodImages)
    else if g == GVK("batch", "v1", "CronJob") then Some(CronJobImages)
    else if g == GVK("batch", "v1", "Job") then Some(PodTemplateImages)
    else if g.group == "apps" && g.version == "v1" && g.kind in ["Deployment", "DaemonSet", "StatefulSet", "ReplicaSet"]
    then Some(PodTemplateImages)
    else None
  }

  predicate ImagePath(prefix: string, path: string) {
    HasPrefix(path, prefix) && HasSuffix(path, "/image") &&
    var middle := TrimSuffix(TrimPrefix(path, prefix), "/image");
    middle != "" && '/' !in middle && AllDigits(middle)
  }

  const POD_SPEC: Location := ["spec"]
  const TEMPLATE_SPEC: Location := ["spec", "template", "spec"]
  const CRON_SPEC: Location := ["spec", "jobTemplate", "spec", "template", "spec"]

  /** Where a registered resource keeps its pod specification. */
  function PodSpec(p: Policy): Location
    requires !p.ExactPaths?
  {
    match p
    case PodImages => POD_SPEC
    case PodTemplateImages => TEMPLATE_SPEC
    case CronJobImages => CRON_SPEC
  }

  /** The text of a prefix such as `/spec/containers/`. */
  function ListPrefix(spec: Location, list: string): string {
    Render(spec + [list]) + "/"
  }

  predicate AllowedPath(p: Policy, path: string) {
    match p
    case ExactPaths(paths) => path in paths
    case _ => ImagePath(ListPrefix(PodSpec(p), "containers"), path) || ImagePath(ListPrefix(PodSpec(p), "initContainers"), path)
  }

  const ALLOWED_PATHS_ANNOTATION := "core.k8sgpt.ai/auto-remediation-allowed-paths"

  /** The object-local allowlist. */
  function AnnotatedPaths(o: Object): set<string> {
    var parts := Split(Annotation(o, ALLOWED_PATHS_ANNOTATION), ',');
    set i | 0 <= i < |parts| && HasPrefix(TrimSpace(parts[i]), "/") :: TrimSpace(parts[i])
  }

  /** gate.go's annotationAllowedPaths. */
  method AnnotationAllowedPaths(o: Object) returns (paths: set<string>)
    ensures paths == AnnotatedPaths(o)
  {
    var parts := Split(Annotation(o, ALLOWED_PATHS_ANNOTATION), ',');
    paths := {};
    for n := 0 to |parts|
      invariant paths == set i | 0 <= i < n && HasPrefix(TrimSpace(parts[i]), "/") :: TrimSpace(parts[i])
    {
      var path := TrimSpace(parts[n]);
      if HasPrefix(path, "/") {
        paths := paths + {path};
      }
    }
  }

  function PolicyFor(live: Object): Policy {
    match RegisteredPolicy(GVKOf(live))
    case Some(p) => p
    case None => ExactPaths(AnnotatedPaths(live))
  }

  /** The listed prefixes, as locations: `["spec", "hostPID"]` is the source's "/spec/hostPID". */
  const HIGH_RISK: seq<Location> := [
    OWNERS, FINALIZERS, [META, "managedFields"],
    ANNOTATIONS, LABELS, STATUS, ["spec", "serviceAccountName"],
    ["spec", "hostNetwork"], ["spec", "hostPID"], ["spec", "hostIPC"], ["spec", "securityContext"],
    ["spec", "containers"], ["spec", "initContainers"], ["spec", "template", "spec", "serviceAccountName"],
    ["spec", "template", "spec", "hostNetwork"], ["spec", "template", "spec", "hostPID"],
    ["spec", "template", "spec", "hostIPC"], ["spec", "template", "spec", "securityContext"],
    ["spec", "template", "spec", "containers"], ["spec", "template", "spec", "initContainers"]]

  /** Whether a listed prefix covers the path and the image exemption does not apply. */
  predicate RiskyBelow(path: string, prefix: string) {
    && (path == prefix || HasPrefix(path, prefix + "/"))
    && !(HasSuffix(path, "/image") && (Contains(prefix, "/containers") || Contains(prefix, "/initContainers")))
  }

  predicate RiskyAmong(path: string, listed: seq<Location>) {
    exists i | 0 <= i < |listed| :: RiskyBelow(path, Render(listed[i]))
  }

  predicate HighRisk(path: string) {
    RiskyAmong(path, HIGH_RISK)
  }

  /** The loop of gate.go's isHighRisk. */
  method IsRiskyAmong(path: string, listed: seq<Location>) returns (risky: bool)
    ensures risky == RiskyAmong(path, listed)
  {
    for n := 0 to |listed|
      invariant forall i | 0 <= i < n :: !RiskyBelow(path, Render(listed[i]))
    {
      var prefix := Render(listed[n]);
      if path == prefix || HasPrefix(path, prefix + "/") {
        if HasSuffix(path, "/image") && (Contains(prefix, "/containers") || Contains(prefix, "/initContainers")) {
          continue;
        }
        return true;
      }
    }
    return false;
  }

  // ---------------------------------------------------------------- the decision

  datatype Reason =
    | MissingObject
    | UidMismatch
    | ResourceVersionMismatch
    | IdentityMismatch
    | ProposedIdentity
    | ProposedUid
    | ProposedResourceVersion
    | ProposedGenerateName
    | NoPolicy(gvk: GVK)
    | OwnedPod
    | NoChange
    | NegativeLimit
    | TooManyChanges(count: nat, limit: int)
    | ForbiddenHighRisk(path: string)
    | NotAllowlisted(path: string)
    | AddOrRemove(path: string)

  datatype Decision = Decision(allowed: bool, reasons: seq<Reason>, changes: seq<Change>, patch: seq<PatchOperation>)

  function Rejected(reason: Reason): Decision {
    Decision(false, [reason], [], [])
  }

  function RejectedWith(changes: seq<Change>, reason: Reason): Decision {
    Decision(false, [reason], changes, [])
  }

  predicate SameIdentity(a: Object, b: Object) {
    && Text(a, API_VERSION) == Text(b, API_VERSION) && Text(a, KIND) == Text(b, KIND)
    && Text(a, NAMESPACE) == Text(b, NAMESPACE) && Text(a, NAME) == Text(b, NAME)
  }

  function LiveMismatch(original: Object, live: Object): Option<Reason> {
    if Text(original, UID) == "" || Text(live, UID) == "" || Text(original, UID) != Text(live, UID)
    then Some(UidMismatch)
    else if Text(original, RESOURCE_VERSION) == "" || Text(live, RESOURCE_VERSION) == ""
            || Text(original, RESOURCE_VERSION) != Text(live, RESOURCE_VERSION)
    then Some(ResourceVersionMismatch)
    else if !SameIdentity(original, live) then Some(IdentityMismatch)
    else None
  }

  function ProposedMismatch(proposed: Object, live: Object): Option<Reason> {
    if !SameIdentity(proposed, live) then Some(ProposedIdentity)
    else if Text(proposed, UID) != "" && Text(proposed, UID) != Text(live, UID) then Some(ProposedUid)
    else if Text(proposed, RESOURCE_VERSION) != "" && Text(proposed, RESOURCE_VERSION) != Text(live, RESOURCE_VERSION)
    then Some(ProposedResourceVersion)
    else if Text(proposed, GENERATE_NAME) != Text(live, GENERATE_NAME) then Some(ProposedGenerateName)
    else None
  }

  /** Why one change is refused, if it is. */
  function Refusal(policy: Policy, c: Change): Option<Reason> {
    if HighRisk(c.path) then Some(ForbiddenHighRisk(c.path))
    else if !AllowedPath(policy, c.path) then Some(NotAllowlisted(c.path))
    else if c.before.Null? || c.after.Null? then Some(AddOrRemove(c.path))
    else None
  }

  function FirstRefusal(policy: Policy, changes: seq<Change>): Option<Reason> {
    if changes == [] then None
    else if Refusal(policy, changes[0]).Some? then Refusal(policy, changes[0])
    else FirstRefusal(policy, changes[1..])
  }

  /** A limit of zero stands for the default of one changed path. */
  function EffectiveLimit(limit: int): int {
    if limit == 0 then 1 else limit
  }

  /** The edits a decision is about. */
  function ProposedEdits(live: Object, proposed: Object): seq<Edit> {
    Edits(Normalized(live), Normalized(proposed))
  }

  function DecideChanges(policy: Policy, changes: seq<Change>, limit: int): Decision {
    if changes == [] then RejectedWith(changes, NoChange)
    else if EffectiveLimit(limit) < 0 then RejectedWith(changes, NegativeLimit)
    else if |changes| > EffectiveLimit(limit)
    then RejectedWith(changes, TooManyChanges(|changes|, EffectiveLimit(limit)))
    else
      match FirstRefusal(policy, changes)
      case Some(reason) => RejectedWith(changes, reason)
      case None => Decision(true, [], changes, Replacements(changes))
  }

  /** What Evaluate answers on three present objects. */
  function Decide(original: Object, live: Object, proposed: Object, limit: int): Decision {
    var mismatch := LiveMismatch(original, live);
    if mismatch.Some? then Rejected(mismatch.value)
    else
      var other := ProposedMismatch(proposed, live);
      if other.Some? then Rejected(other.value)
      else if PolicyFor(live) == ExactPaths({}) then Rejected(NoPolicy(GVKOf(live)))
      else if GVKOf(live) == GVK("", "v1", "Pod") && Owned(live) then Rejected(OwnedPod)
      else DecideChanges(PolicyFor(live), Changes("", ProposedEdits(live, proposed)), limit)
  }

  lemma {:induction false} ReplacementsAppend(changes: seq<Change>, c: Change)
    ensures Replacements(changes + [c]) == Replacements(changes) + [ReplaceAt(c.path, c.after)]
  {
    if changes == [] {
      assert [] + [c] == [c];
    } else {
      ReplacementsAppend(changes[1..], c);
      assert (changes + [c])[1..] == changes[1..] + [c];
    }
  }

  /** The three checks on one change. */
  method JudgeChange(policy: Policy, change: Change) returns (refusal: Option<Reason>)
    ensures refusal == Refusal(policy, change)
    ensures refusal.None? <==> !HighRisk(change.path) && AllowedPath(policy, change.path) && !change.before.Null? && !change.after.Null?
    ensures HighRisk(change.path) ==> refusal == Some(ForbiddenHighRisk(change.path))
    ensures !HighRisk(change.path) && !AllowedPath(policy, change.path) ==> refusal == Some(NotAllowlisted(change.path))
    ensures refusal == Some(AddOrRemove(change.path)) ==> change.before.Null? || change.after.Null?
  {
    var risky := IsRiskyAmong(change.path, HIGH_RISK);
    if risky {
      return Some(ForbiddenHighRisk(change.path));
    }
    if !AllowedPath(policy, change.path) {
      return Some(NotAllowlisted(change.path));
    }
    if change.before.Null? || change.after.Null? {
      return Some(AddOrRemove(change.path));
    }
    return None;
  }

  /** The loop over the calculated changes: the first refusal, or one replacement per change. */
  method CollectPatch(policy: Policy, changes: seq<Change>)
    returns (refusal: Option<Reason>, patch: seq<PatchOperation>)
    ensures refusal == FirstRefusal(policy, changes)
    ensures refusal.None? ==> patch == Replacements(changes)
  {
    patch := [];
    for n := 0 to |changes|
      invariant patch == Replacements(changes[..n])
      invariant FirstRefusal(policy, changes) == FirstRefusal(policy, changes[n..])
    {
      var change := changes[n];
      Tail(change, changes[n + 1..]);
      assert changes[n..] == [change] + changes[n + 1..];
      refusal := JudgeChange(policy, change);
      if refusal.Some? {
        return;
      }
      ReplacementsAppend(changes[..n], change);
      assert changes[..n + 1] == changes[..n] + [change];
      patch := patch + [ReplaceAt(change.path, change.after)];
    }
    assert changes[..|changes|] == changes;
    refusal := None;
  }

  /** The bound on the number of changes, then the changes themselves. */
  method JudgeChanges(policy: Policy, changes: seq<Change>, limit: int) returns (decision: Decision)
    ensures decision == DecideChanges(policy, changes, limit)
  {
    if changes == [] {
      return RejectedWith(changes, NoChange);
    }
    var bound := limit;
    if bound == 0 { bound := 1; }
    if bound < 0 {
      return RejectedWith(changes, NegativeLimit);
    }
    if |changes| > bound {
      return RejectedWith(changes, TooManyChanges(|changes|, bound));
    }
    var refusal, patch := CollectPatch(policy, changes);
    if refusal.Some? {
      return RejectedWith(changes, refusal.value);
    }
    return Decision(true, [], changes, patch);
  }

  /** Registry first, then the object's own allowlist; nothing admits anything otherwise. */
  method SelectPolicy(live: Object) returns (policy: Option<Policy>)
    ensures policy == if PolicyFor(live) == ExactPaths({}) then None else Some(PolicyFor(live))
  {
    policy := RegisteredPolicy(GVKOf(live));
    if policy.None? {
      var paths := AnnotationAllowedPaths(live);
      if paths != {} {
        policy := Some(ExactPaths(paths));
      }
    }
  }

  method CalculateChanges(live: Object, proposed: Object) returns (changes: seq<Change>)
    ensures changes == Changes("", ProposedEdits(live, proposed))
  {
    var before := Normalize(live);
    var after := Normalize(proposed);
    changes := Diff.Diff("", before, after);
  }

  /** gate.go's Evaluate. */
  method Evaluate(original: Option<Object>, live: Option<Object>, proposed: Option<Object>, limit: int)
    returns (decision: Decision)
    ensures decision ==
            if original.None? || live.None? || proposed.None? then Rejected(MissingObject)
            else Decide(original.value, live.value, proposed.value, limit)
  {
    if original.None? || live.None? || proposed.None? {
      return Rejected(MissingObject);
    }
    var reason := LiveMismatch(original.value, live.value);
    if reason.Some? {
      return Rejected(reason.value);
    }
    reason := ProposedMismatch(proposed.value, live.value);
    if reason.Some? {
      return Rejected(reason.value);
    }
    var gvk := GVKOf(live.value);
    var policy := SelectPolicy(live.value);
    if policy.None? {
      return Rejected(NoPolicy(gvk));
    }
    if gvk == GVK("", "v1", "Pod") && Owned(live.value) {
      return Rejected(OwnedPod);
    }
    var changes := CalculateChanges(live.value, proposed.value);
    decision := JudgeChanges(policy.value, changes, limit);
  }
}
