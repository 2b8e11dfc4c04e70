/**
 * The remediation pipeline as a state machine: an API server with optimistic concurrency, the creation
 * of Mutations, and any number of interleaved reconcile passes of the Mutation controller
 * (mutation_controller.go, object_to_execution.go, calculate_remediation_step.go).
 *
 * Every source of nondeterminism is a parameter of an action: which stored version a read returns, what
 * a third party writes, what the model answers, whether a reply is lost, and when a pass dies.
 */
module Pipeline {
  import opened Strings
  import opened Pointer
  import opened Json
  import opened Diff
  import opened Gvk
  import opened Gate
  import opened ImageProposal
  import opened Rollout

  // ---------------------------------------------------------------- objects on the server

  /** How the API server addresses an object. */
  datatype Key = Key(gvk: GVK, namespace: string, name: string)

  function KeyOf(o: Object): Key {
    Key(GVKOf(o), Text(o, NAMESPACE), Text(o, NAME))
  }

  function Uid(o: Object): string {
    Text(o, UID)
  }

  function Version(o: Object): string {
    Text(o, RESOURCE_VERSION)
  }

  /** Metadata without some fields. */
  function WithoutMeta(o: Object, keys: seq<string>): Object {
    if META in o.fields then Map(o.fields[META := Drop(o.fields[META], keys)]) else o
  }

  /** The origin configuration: the object as read, without managedFields. */
  function Snapshot(o: Object): Object {
    WithoutMeta(o, ["managedFields"])
  }

  /** What the server itself may change when it stores a write. */
  const STAMPS: seq<string> := ["resourceVersion", "generation", "managedFields"]

  /** `stored` is `written` up to the server's own stamps. */
  predicate Stamped(written: Object, stored: Object) {
    WithoutMeta(written, STAMPS) == WithoutMeta(stored, STAMPS)
  }

  // ---------------------------------------------------------------- Mutations

  datatype Phase = NotStarted | InProgress | Completed | Pending | Successful | Aborted

  datatype Verdict = Undecided | ApprovedVerdict | RejectedVerdict

  datatype Note =
    | NotStartedNote
    | InProgressNote
    | InvalidSelection
    | PolicyRejected(reason: Reason)
    | PatchApplied
    | WaitingForRollout
    | StillReported
    | Resolved

  datatype Mutation = Mutation(
    name: string,
    uid: string,
    version: string,
    finalizers: seq<string>,
    deleting: bool,
    refNamespace: string,
    refName: string,
    origin: Object,
    target: Option<Value>,
    phase: Phase,
    note: Note,
    verdict: Verdict,
    changedPaths: seq<string>,
    applied: bool)

  const FINALIZER := "mutation.finalizer.k8sgpt.ai"

  /** The Mutation the remediation step creates for a target it has read. */
  function NewMutation(name: string, uid: string, version: string, read: Object): Mutation {
    Mutation(name, uid, version, [FINALIZER], false, Text(read, NAMESPACE), Text(read, NAME), Snapshot(read), None,
             NotStarted, NotStartedNote, Undecided, [], false)
  }

  /** mutation_controller.go's removeFinalizer. */
  function WithoutFinalizer(finalizers: seq<string>, target: string): seq<string> {
    if finalizers == [] then []
    else (if finalizers[0] != target then [finalizers[0]] else []) + WithoutFinalizer(finalizers[1..], target)
  }

  // ---------------------------------------------------------------- the server

  /** A persistent patch that reached the server. */
  datatype Commit = Commit(
    mutation: string,
    read: string,
    key: Key,
    before: Object,
    proposed: Object,
    decision: Decision,
    after: Object)

  /** What never changes about a Mutation: its name and its snapshot. */
  datatype Birth = Birth(name: string, origin: Object)

  /**
   * `targets` and `mutations` are what the server holds now. `history` and `revisions` hold every
   * version it ever held, which is what a stale read may return.
   */
  datatype Server = Server(
    targets: map<Key, Object>,
    history: map<(Key, string), Object>,
    mutations: map<string, Mutation>,
    revisions: map<string, Mutation>,
    births: map<string, Birth>,
    commits: seq<Commit>)

  function StoreObject(sv: Server, key: Key, o: Object): Server {
    sv.(targets := sv.targets[key := o], history := sv.history[(key, Version(o)) := o])
  }

  /** A new revision of a Mutation becomes current. */
  function StoreMutation(sv: Server, m: Mutation): Server {
    sv.(mutations := sv.mutations[m.name := m], revisions := sv.revisions[m.version := m])
  }

  // ---------------------------------------------------------------- reconcile passes

  /** The version a pass read, what it proposed for it, and the gate's answer. */
  datatype Judgement = Judgement(live: Object, proposed: Object, decision: Decision)

  /** Where a reconcile pass is between two calls to the server. */
  datatype Worker =
    | Idle
    | Loaded(m: Mutation)
    | Ready(m: Mutation)
    | Approved(m: Mutation, j: Judgement)
    | Validated(m: Mutation, j: Judgement)
    | Writing(m: Mutation, next: Mutation)

  datatype State = State(server: Server, workers: map<nat, Worker>)

  function WorkerOf(s: State, w: nat): Worker {
    if w in s.workers then s.workers[w] else Idle
  }

  datatype Action =
    // third parties
    | StoreTarget(key: Key, content: Object)
    | DeleteTarget(key: Key)
    | RequestDeletion(name: string, version: string)
    | RemoveMutation(name: string)
    // the remediation step of the K8sGPT controller
    | CreateMutation(name: string, uid: string, version: string, key: Key, read: string)
    // the Mutation controller
    | Load(w: nat, version: string)
    | Prepare(w: nat, version: string)
    | Propose(w: nat, response: Response)
    | Judge(w: nat, read: string)
    | DryRun(w: nat)
    | Patch(w: nat, stored: Object, acknowledged: bool)
    | Observe(w: nat, read: string, reported: bool)
    | Update(w: nat, version: string)
    | Abandon(w: nat)

  /** The object the executor proposes: the stored target configuration under the referenced name. */
  function ProposedFor(m: Mutation): Option<Object> {
    if m.target.None? || !m.target.value.Map? then None
    else if Text(m.target.value, KIND) == "" then None
    else Some(FromConfig(m.target.value, m.refName, m.refNamespace))
  }

  /** The patch sent to the server: the resourceVersion test, then the approved replacements. */
  function TestedPatch(live: Object, decision: Decision): seq<PatchOperation> {
    [Test(Render(RESOURCE_VERSION), Str(Version(live)))] + decision.patch
  }

  function DecisionOn(m: Mutation, live: Object, proposed: Object): Decision {
    Decide(m.origin, live, proposed, 0)
  }

  /** decisionPaths. */
  function PathsOf(changes: seq<Change>): (paths: seq<string>)
    ensures |paths| == |changes| && forall i | 0 <= i < |changes| :: paths[i] == changes[i].path
  {
    if changes == [] then [] else [changes[0].path] + PathsOf(changes[1..])
  }

  /** What the tested patch makes of the object the server holds now. */
  function ServerPatched(sv: Server, j: Judgement): Option<Value> {
    if KeyOf(j.live) !in sv.targets then None
    else ApplyPatch(sv.targets[KeyOf(j.live)], TestedPatch(j.live, j.decision))
  }

  function CompletedBy(m: Mutation, decision: Decision): Mutation {
    m.(phase := Completed, note := PatchApplied, verdict := ApprovedVerdict,
       changedPaths := PathsOf(decision.changes), applied := true)
  }

  function RejectedBy(m: Mutation, decision: Decision): Mutation {
    m.(phase := Aborted, note := if decision.reasons != [] then PolicyRejected(decision.reasons[0]) else InvalidSelection,
       verdict := RejectedVerdict, changedPaths := PathsOf(decision.changes))
  }

  /** The outcome of the query in the first phase. */
  function ProposedBy(m: Mutation, response: Response): Mutation {
    match Proposal(m.origin, response)
    case None => m.(phase := Aborted, note := InvalidSelection, verdict := RejectedVerdict)
    case Some(p) => m.(target := Some(p), phase := InProgress, note := InProgressNote)
  }

  /** Where targetReady reads: the kind of the snapshot under the referenced name. */
  function RefKey(m: Mutation): Key {
    Key(GVKOf(m.origin), m.refNamespace, m.refName)
  }

  /** What a read of this key returns when the cache holds this version. */
  function ReadOf(history: map<(Key, string), Object>, key: Key, read: string): Option<Object> {
    if (key, read) in history then Some(history[(key, read)]) else None
  }

  /** targetReady, when its read returns this version; none is an error. */
  function ReadyOn(history: map<(Key, string), Object>, m: Mutation, read: string): Option<bool> {
    Rollout.Ready(m.origin, ReadOf(history, RefKey(m), read))
  }

  /** doesResultExist, given what targetReady and the Result lookup found. */
  function ObservedBy(m: Mutation, ready: bool, reported: bool): Mutation {
    if !ready then m.(phase := Pending, note := WaitingForRollout)
    else if reported then m.(phase := Pending, note := StillReported)
    else m.(phase := Successful, note := Resolved)
  }

  /** The finalizer block runs only on a Mutation that is being deleted. */
  predicate MustDropFinalizer(m: Mutation) {
    m.deleting && m.finalizers != []
  }

  /** The server still holds exactly the revision the worker read: Update's compare-and-swap. */
  predicate Current(sv: Server, m: Mutation) {
    m.name in sv.mutations && sv.mutations[m.name].version == m.version
  }

  predicate FreshVersion(sv: Server, version: string) {
    version != "" && version !in sv.revisions
  }

  /** Version strings are never reused for a key, and UIDs never reused at all. */
  predicate MayStore(sv: Server, key: Key, content: Object) {
    && KeyOf(content) == key && key.name != "" && Uid(content) != "" && Version(content) != ""
    && (key, Version(content)) !in sv.history
    && if key in sv.targets then Uid(content) == Uid(sv.targets[key])
       else forall kv | kv in sv.history :: Uid(sv.history[kv]) != Uid(content)
  }

  /** The server takes the tested patch; an ineffective one stores nothing. */
  predicate CanPersist(sv: Server, j: Judgement, stored: Object) {
    && ServerPatched(sv, j).Some?
    && var patched := ServerPatched(sv, j).value;
       patched == sv.targets[KeyOf(j.live)] || (patched.Map? && Stamped(patched, stored) && MayStore(sv, KeyOf(j.live), stored))
  }

  predicate Enabled(s: State, a: Action) {
    var sv := s.server;
    match a
    case StoreTarget(key, content) => MayStore(sv, key, content)
    case DeleteTarget(key) => key in sv.targets
    case RequestDeletion(name, version) => name in sv.mutations && FreshVersion(sv, version)
    case RemoveMutation(name) => name in sv.mutations
    case CreateMutation(name, uid, version, key, read) =>
      name !in sv.mutations && uid !in sv.births && FreshVersion(sv, version) && (key, read) in sv.history
    case Load(w, version) => WorkerOf(s, w).Idle? && version in sv.revisions
    case Prepare(w, version) =>
      var k := WorkerOf(s, w);
      k.Loaded? && (MustDropFinalizer(k.m) ==> Current(sv, k.m) && FreshVersion(sv, version))
    case Propose(w, response) =>
      var k := WorkerOf(s, w);
      k.Ready? && k.m.phase.NotStarted?
    case Judge(w, read) =>
      var k := WorkerOf(s, w);
      k.Ready? && k.m.phase.InProgress? && ProposedFor(k.m).Some? &&
      (KeyOf(ProposedFor(k.m).value), read) in sv.history
    case DryRun(w) =>
      var k := WorkerOf(s, w);
      k.Approved? && ServerPatched(sv, k.j).Some?
    case Patch(w, stored, acknowledged) =>
      var k := WorkerOf(s, w);
      k.Validated? && CanPersist(sv, k.j, stored)
    case Observe(w, read, reported) =>
      var k := WorkerOf(s, w);
      k.Ready? && (k.m.phase.Completed? || k.m.phase.Pending?) && ReadyOn(sv.history, k.m, read).Some?
    case Update(w, version) =>
      var k := WorkerOf(s, w);
      k.Writing? && Current(sv, k.m) && FreshVersion(sv, version)
    case Abandon(w) => true
  }

  /** A Mutation that is being deleted goes when its last finalizer goes. */
  predicate Released(m: Mutation) {
    m.deleting && m.finalizers == []
  }

  /** A write of a Mutation: it becomes current, or it goes. */
  function WriteMutation(sv: Server, m: Mutation): Server {
    var stored := StoreMutation(sv, m);
    if Released(m) then stored.(mutations := stored.mutations - {m.name}) else stored
  }

  /** The revision an update makes; the update of an unchanged Mutation makes none. */
  function Updated(m: Mutation, next: Mutation, version: string): Mutation {
    if next == m then m else next.(version := version)
  }

  function UpdateMutation(sv: Server, m: Mutation, next: Mutation, version: string): Server {
    if next == m then sv else WriteMutation(sv, next.(version := version))
  }

  /** The finalizer block: what the pass writes. */
  function ReleasedBy(m: Mutation): Mutation {
    m.(finalizers := WithoutFinalizer(m.finalizers, FINALIZER))
  }

  /** The record of a persistent patch. */
  function CommitOf(m: Mutation, j: Judgement, stored: Object): Commit {
    Commit(m.uid, m.version, KeyOf(j.live), j.live, j.proposed, j.decision, stored)
  }

  /** The persistent patch on the server, recorded with the version it really replaced. */
  function CommitPatch(sv: Server, m: Mutation, j: Judgement, stored: Object): Server
    requires KeyOf(j.live) in sv.targets
  {
    var key := KeyOf(j.live);
    StoreObject(sv, key, stored).(commits := sv.commits + [CommitOf(m, j, stored).(before := sv.targets[key])])
  }

  /** What the server makes of the tested patch. */
  function Persisted(sv: Server, m: Mutation, j: Judgement, stored: Object): Server
    requires ServerPatched(sv, j).Some?
  {
    if ServerPatched(sv, j).value == sv.targets[KeyOf(j.live)] then sv else CommitPatch(sv, m, j, stored)
  }

  function WithWorker(s: State, sv: Server, w: nat, k: Worker): State {
    State(sv, s.workers[w := k])
  }

  function Next(s: State, a: Action): State
    requires Enabled(s, a)
  {
    var sv := s.server;
    match a
    case StoreTarget(key, content) => s.(server := StoreObject(sv, key, content))
    case DeleteTarget(key) => s.(server := sv.(targets := sv.targets - {key}))
    case RequestDeletion(name, version) =>
      s.(server := WriteMutation(sv, sv.mutations[name].(deleting := true, version := version)))
    case RemoveMutation(name) => s.(server := sv.(mutations := sv.mutations - {name}))
    case CreateMutation(name, uid, version, key, read) =>
      var m := NewMutation(name, uid, version, sv.history[(key, read)]);
      s.(server := StoreMutation(sv.(births := sv.births[uid := Birth(name, m.origin)]), m))
    case Load(w, version) => WithWorker(s, sv, w, Loaded(sv.revisions[version]))
    case Prepare(w, version) =>
      var m := WorkerOf(s, w).m;
      if MustDropFinalizer(m)
      then WithWorker(s, UpdateMutation(sv, m, ReleasedBy(m), version), w, Ready(Updated(m, ReleasedBy(m), version)))
      else WithWorker(s, sv, w, Ready(m))
    case Propose(w, response) =>
      var m := WorkerOf(s, w).m;
      WithWorker(s, sv, w, Writing(m, ProposedBy(m, response)))
    case Judge(w, read) =>
      var m := WorkerOf(s, w).m;
      var proposed := ProposedFor(m).value;
      var live := sv.history[(KeyOf(proposed), read)];
      var decision := DecisionOn(m, live, proposed);
      WithWorker(s, sv, w, if decision.allowed then Approved(m, Judgement(live, proposed, decision))
                           else Writing(m, RejectedBy(m, decision)))
    case DryRun(w) =>
      var k := WorkerOf(s, w);
      WithWorker(s, sv, w, Validated(k.m, k.j))
    case Patch(w, stored, acknowledged) =>
      var k := WorkerOf(s, w);
      var done := if acknowledged then Writing(k.m, CompletedBy(k.m, k.j.decision)) else Idle;
      WithWorker(s, Persisted(sv, k.m, k.j, stored), w, done)
    case Observe(w, read, reported) =>
      var m := WorkerOf(s, w).m;
      WithWorker(s, sv, w, Writing(m, ObservedBy(m, ReadyOn(sv.history, m, read).value, reported)))
    case Update(w, version) =>
      var k := WorkerOf(s, w);
      WithWorker(s, UpdateMutation(sv, k.m, k.next, version), w, Idle)
    case Abandon(w) => WithWorker(s, sv, w, Idle)
  }

  /** An action that cannot happen changes nothing, so every sequence of actions is a run. */
  function Step(s: State, a: Action): State {
    if Enabled(s, a) then Next(s, a) else s
  }

  const EMPTY := State(Server(map[], map[], map[], map[], map[], []), map[])

  /** The state after a run from the empty cluster. */
  function After(run: seq<Action>): State {
    if run == [] then EMPTY else Step(After(run[..|run| - 1]), run[|run| - 1])
  }
}
