/** What holds in every state of the remediation pipeline, and that every step keeps it. */
module PipelineInvariant {
  import opened Strings
  import opened Gate
  import opened GateProofs
  import opened Pipeline

  type History = map<(Key, string), Object>
  type Revisions = map<string, Mutation>
  type Births = map<string, Birth>

  // ---------------------------------------------------------------- phases

  /** NotStarted, InProgress, Completed, Pending, Successful in this order, with Aborted beside the last three. */
  predicate MayPrecede(p: Phase, q: Phase) {
    match p
    case NotStarted => true
    case InProgress => !q.NotStarted?
    case Completed => q.Completed? || q.Pending? || q.Successful?
    case Pending => q.Pending? || q.Successful?
    case Successful => q.Successful?
    case Aborted => q.Aborted?
  }

  /** How many phase changes a Mutation in this phase can have seen. */
  function Level(p: Phase): nat {
    match p
    case NotStarted => 0
    case InProgress => 1
    case Completed => 2
    case Pending => 3
    case Successful => 4
    case Aborted => 2
  }

  lemma PhaseOrder(p: Phase, q: Phase, r: Phase)
    requires MayPrecede(p, q) && MayPrecede(q, r)
    ensures MayPrecede(p, r)
    ensures q != r ==> Level(q) < Level(r)
  {
  }

  /** The phases after an applied patch. */
  predicate Executed(p: Phase) {
    p.Completed? || p.Pending? || p.Successful?
  }

  // ---------------------------------------------------------------- targets

  /** The stored version at this key and version string is this object. */
  predicate Stored(history: History, o: Object) {
    (KeyOf(o), Version(o)) in history && history[(KeyOf(o), Version(o))] == o
  }

  ghost predicate KeysOk(history: History) {
    forall kv | kv in history :: KeyOf(history[kv]) == kv.0 && Version(history[kv]) == kv.1 && kv.0.name != ""
  }

  /** A UID belongs to one key. */
  ghost predicate UidsOk(history: History) {
    forall a, b | a in history && b in history && Uid(history[a]) == Uid(history[b]) :: a.0 == b.0
  }

  ghost predicate HistoryOk(history: History) {
    KeysOk(history) && UidsOk(history)
  }

  ghost predicate TargetsOk(targets: map<Key, Object>, history: History) {
    forall key | key in targets :: KeyOf(targets[key]) == key && Stored(history, targets[key])
  }

  /** Every snapshot was taken from a version the server really held. */
  ghost predicate Witnessed(history: History, origin: Object) {
    exists kv | kv in history :: origin == Snapshot(history[kv])
  }

  ghost predicate BirthsOk(births: Births, history: History) {
    forall u | u in births :: Witnessed(history, births[u].origin)
  }

  // ---------------------------------------------------------------- Mutations

  /** A revision carries the name and the snapshot its Mutation was created with. */
  predicate Born(births: Births, m: Mutation) {
    m.uid in births && m.name == births[m.uid].name && m.origin == births[m.uid].origin
  }

  ghost predicate CommittedPaths(commits: seq<Commit>, uid: string, paths: seq<string>) {
    exists i | 0 <= i < |commits| :: commits[i].mutation == uid && PathsOf(commits[i].decision.changes) == paths
  }

  /** What the recorded status says about what happened. */
  ghost predicate StatusOk(commits: seq<Commit>, m: Mutation) {
    && (m.phase.NotStarted? || m.phase.InProgress? ==> m.verdict.Undecided? && !m.applied)
    && (Executed(m.phase) ==> m.verdict.ApprovedVerdict? && m.applied && CommittedPaths(commits, m.uid, m.changedPaths))
    && (m.phase.Aborted? ==> m.verdict.RejectedVerdict? && !m.applied)
  }

  ghost predicate RevisionsOk(revisions: Revisions, births: Births) {
    forall v | v in revisions :: revisions[v].version == v && Born(births, revisions[v])
  }

  ghost predicate StatusesOk(revisions: Revisions, commits: seq<Commit>) {
    forall v | v in revisions :: StatusOk(commits, revisions[v])
  }

  /** The server stored exactly this revision, now or earlier. */
  predicate Held(revisions: Revisions, m: Mutation) {
    m.version in revisions && revisions[m.version] == m
  }

  /** No revision of this Mutation was ever further than this phase. */
  ghost predicate Furthest(revisions: Revisions, uid: string, phase: Phase) {
    forall v | v in revisions && revisions[v].uid == uid :: MayPrecede(revisions[v].phase, phase)
  }

  ghost predicate MutationsOk(mutations: map<string, Mutation>, revisions: Revisions) {
    forall n | n in mutations ::
      && mutations[n].name == n && Held(revisions, mutations[n]) && !Released(mutations[n])
      && Furthest(revisions, mutations[n].uid, mutations[n].phase)
  }

  // ---------------------------------------------------------------- commits

  /** The commit happened on the very version the snapshot was taken from. */
  ghost predicate OnSnapshot(births: Births, history: History, c: Commit) {
    && c.mutation in births && births[c.mutation].origin == Snapshot(c.before)
    && c.key == KeyOf(c.before) == KeyOf(c.after) && Stored(history, c.before) && Stored(history, c.after)
  }

  /** It was for the proposal of a stored revision that was in progress. */
  ghost predicate ForProposal(revisions: Revisions, c: Commit) {
    && c.read in revisions && revisions[c.read].uid == c.mutation && revisions[c.read].phase.InProgress?
    && ProposedFor(revisions[c.read]) == Some(c.proposed)
  }

  /** The gate approved it, and it stored the approved patch of that version, up to the server's stamps. */
  ghost predicate Approves(origin: Object, c: Commit) {
    && c.decision == Decide(origin, c.before, c.proposed, 0) && c.decision.allowed
    && Patched(c.before, c.proposed).Some? && Patched(c.before, c.proposed).value.Map?
    && Stamped(Patched(c.before, c.proposed).value, c.after)
  }

  ghost predicate SnapshotsOk(commits: seq<Commit>, births: Births, history: History) {
    forall i | 0 <= i < |commits| :: OnSnapshot(births, history, commits[i])
  }

  ghost predicate ProposalsOk(commits: seq<Commit>, revisions: Revisions) {
    forall i | 0 <= i < |commits| :: ForProposal(revisions, commits[i])
  }

  ghost predicate ApprovalsOk(commits: seq<Commit>, births: Births) {
    forall i | 0 <= i < |commits| ::
      commits[i].mutation in births && Approves(births[commits[i].mutation].origin, commits[i])
  }

  /** The version a commit replaced is never current again. */
  ghost predicate SupersededOk(commits: seq<Commit>, targets: map<Key, Object>) {
    forall i | 0 <= i < |commits| && commits[i].key in targets ::
      Version(targets[commits[i].key]) != Version(commits[i].before)
  }

  /** No two commits replaced the same version. */
  ghost predicate DistinctOk(commits: seq<Commit>) {
    forall i, j | 0 <= i < j < |commits| ::
      commits[i].key != commits[j].key || Version(commits[i].before) != Version(commits[j].before)
  }

  ghost predicate ObjectsOk(sv: Server) {
    HistoryOk(sv.history) && TargetsOk(sv.targets, sv.history) && BirthsOk(sv.births, sv.history)
  }

  ghost predicate RecordsOk(sv: Server) {
    && RevisionsOk(sv.revisions, sv.births) && StatusesOk(sv.revisions, sv.commits)
    && MutationsOk(sv.mutations, sv.revisions)
  }

  ghost predicate CommitsOk(sv: Server) {
    && SnapshotsOk(sv.commits, sv.births, sv.history) && ProposalsOk(sv.commits, sv.revisions)
    && ApprovalsOk(sv.commits, sv.births) && SupersededOk(sv.commits, sv.targets) && DistinctOk(sv.commits)
  }

  // ---------------------------------------------------------------- the grounds of a final phase

  /** All revisions of a Mutation in progress propose the same object. */
  ghost predicate ProposalsAgree(revisions: Revisions) {
    forall a, b | a in revisions && b in revisions && revisions[a].uid == revisions[b].uid
                  && revisions[a].phase.InProgress? && revisions[b].phase.InProgress? ::
      ProposedFor(revisions[a]) == ProposedFor(revisions[b])
  }

  ghost predicate NeverProposed(revisions: Revisions, uid: string) {
    forall v | v in revisions && revisions[v].uid == uid :: !revisions[v].phase.InProgress?
  }

  /** The gate refuses the proposal of this revision on this stored version, which is that of the snapshot. */
  predicate RefusedOn(history: History, revisions: Revisions, uid: string, origin: Object, kv: (Key, string), v: string) {
    && kv in history && Snapshot(history[kv]) == origin
    && v in revisions && revisions[v].uid == uid && revisions[v].phase.InProgress? && ProposedFor(revisions[v]).Some?
    && !Decide(origin, history[kv], ProposedFor(revisions[v]).value, 0).allowed
  }

  ghost predicate Refuted(history: History, revisions: Revisions, uid: string, origin: Object) {
    exists kv, v :: RefusedOn(history, revisions, uid, origin, kv, v)
  }

  /** The gate compared the snapshot with another version than it was taken from. */
  predicate Superseded(note: Note) {
    note == PolicyRejected(UidMismatch) || note == PolicyRejected(ResourceVersionMismatch)
  }

  /** Aborted for a reason that lies in the proposal. */
  predicate AbortedOnMerit(m: Mutation) {
    m.phase.Aborted? && !Superseded(m.note)
  }

  /** Some stored version of the target passed the rollout test. */
  ghost predicate SeenReady(history: History, m: Mutation) {
    exists read :: ReadyOn(history, m, read) == Some(true)
  }

  ghost predicate Grounded(history: History, revisions: Revisions, m: Mutation) {
    && (AbortedOnMerit(m) ==> NeverProposed(revisions, m.uid) || Refuted(history, revisions, m.uid, m.origin))
    && (m.phase.Successful? ==> SeenReady(history, m))
  }

  ghost predicate GroundsOk(sv: Server) {
    ProposalsAgree(sv.revisions) && forall v | v in sv.revisions :: Grounded(sv.history, sv.revisions, sv.revisions[v])
  }

  // ---------------------------------------------------------------- deletion

  /** A Mutation keeps its finalizer until it is released. */
  predicate Guarded(m: Mutation) {
    m.finalizers == [FINALIZER] || Released(m)
  }

  /** Some revision in progress of this Mutation was not being deleted. */
  ghost predicate ProposedAlive(revisions: Revisions, uid: string) {
    exists v :: v in revisions && revisions[v].uid == uid && revisions[v].phase.InProgress? && !revisions[v].deleting
  }

  ghost predicate DeletionsOk(revisions: Revisions) {
    forall v | v in revisions ::
      Guarded(revisions[v]) && (revisions[v].phase.InProgress? ==> ProposedAlive(revisions, revisions[v].uid))
  }

  ghost predicate ServerOk(sv: Server) {
    ObjectsOk(sv) && RecordsOk(sv) && CommitsOk(sv) && GroundsOk(sv) && DeletionsOk(sv.revisions)
  }

  // ---------------------------------------------------------------- passes

  ghost predicate JudgementOk(history: History, m: Mutation, j: Judgement) {
    && m.phase.InProgress? && ProposedFor(m) == Some(j.proposed) && Stored(history, j.live)
    && j.decision == DecisionOn(m, j.live, j.proposed) && j.decision.allowed
  }

  ghost predicate ChangeOk(commits: seq<Commit>, m: Mutation, next: Mutation) {
    && next == m.(phase := next.phase, note := next.note, verdict := next.verdict, target := next.target,
                  changedPaths := next.changedPaths, applied := next.applied)
    && MayPrecede(m.phase, next.phase) && (next.phase.InProgress? ==> m.phase.NotStarted?)
    && StatusOk(commits, next)
  }

  /** What the written phase rests on, as long as the Mutation is still the one the pass read. */
  ghost predicate WillBeGrounded(history: History, revisions: Revisions, m: Mutation, next: Mutation) {
    && (AbortedOnMerit(next) && !m.phase.NotStarted? ==> Refuted(history, revisions, m.uid, m.origin))
    && (next.phase.Successful? ==> SeenReady(history, next))
  }

  ghost predicate WriteOk(sv: Server, m: Mutation, next: Mutation) {
    ChangeOk(sv.commits, m, next) && WillBeGrounded(sv.history, sv.revisions, m, next)
  }

  /** A stored revision after the finalizer block. */
  predicate Prepared(revisions: Revisions, m: Mutation) {
    Held(revisions, m) && !MustDropFinalizer(m)
  }

  /** A pass holds a revision the server stored, judged a version it stored, and writes only legal changes. */
  ghost predicate WorkerOk(sv: Server, k: Worker) {
    match k
    case Idle => true
    case Loaded(m) => Held(sv.revisions, m)
    case Ready(m) => Prepared(sv.revisions, m)
    case Approved(m, j) => Prepared(sv.revisions, m) && JudgementOk(sv.history, m, j)
    case Validated(m, j) => Prepared(sv.revisions, m) && JudgementOk(sv.history, m, j)
    case Writing(m, next) => Prepared(sv.revisions, m) && WriteOk(sv, m, next)
  }

  ghost predicate Ok(s: State) {
    ServerOk(s.server) && forall w | w in s.workers :: WorkerOk(s.server, s.workers[w])
  }

  // ---------------------------------------------------------------- what only grows

  predicate Grown<K, V(==)>(before: map<K, V>, after: map<K, V>) {
    forall k | k in before :: k in after && after[k] == before[k]
  }

  /** What the server once held it does not forget. */
  predicate Extends(sv: Server, later: Server) {
    && Grown(sv.history, later.history) && Grown(sv.revisions, later.revisions) && Grown(sv.births, later.births)
    && sv.commits <= later.commits
  }

  ghost predicate Succeeds(sv: Server, later: Server) {
    ServerOk(later) && Extends(sv, later)
  }

  lemma ExtendsTransitive(a: Server, b: Server, c: Server)
    requires Extends(a, b) && Extends(b, c)
    ensures Extends(a, c)
  {
    assert a.commits <= c.commits by {
      assert c.commits[..|b.commits|] == b.commits;
      assert b.commits[..|a.commits|] == a.commits;
    }
  }

  lemma StatusStays(commits: seq<Commit>, later: seq<Commit>, m: Mutation)
    requires commits <= later && StatusOk(commits, m)
    ensures StatusOk(later, m)
  {
    if Executed(m.phase) {
      var i :| 0 <= i < |commits| && commits[i].mutation == m.uid && PathsOf(commits[i].decision.changes) == m.changedPaths;
      assert later[i] == commits[i];
    }
  }

  lemma RefutedStays(history: History, revisions: Revisions, all: History, later: Revisions, uid: string, origin: Object)
    requires Grown(history, all) && Grown(revisions, later) && Refuted(history, revisions, uid, origin)
    ensures Refuted(all, later, uid, origin)
  {
    var kv, v :| RefusedOn(history, revisions, uid, origin, kv, v);
    assert RefusedOn(all, later, uid, origin, kv, v);
  }

  lemma SeenReadyStays(history: History, later: History, m: Mutation)
    requires Grown(history, later) && SeenReady(history, m)
    ensures SeenReady(later, m)
  {
    var read :| ReadyOn(history, m, read) == Some(true);
    assert ReadyOn(later, m, read) == Some(true);
  }

  lemma WillBeGroundedStays(sv: Server, later: Server, m: Mutation, next: Mutation)
    requires Extends(sv, later) && WillBeGrounded(sv.history, sv.revisions, m, next)
    ensures WillBeGrounded(later.history, later.revisions, m, next)
  {
    if AbortedOnMerit(next) && !m.phase.NotStarted? {
      RefutedStays(sv.history, sv.revisions, later.history, later.revisions, m.uid, m.origin);
    }
    if next.phase.Successful? { SeenReadyStays(sv.history, later.history, next); }
  }

  /** A longer history takes no ground away. */
  lemma GroundsStay(sv: Server, history: History)
    requires GroundsOk(sv) && Grown(sv.history, history)
    ensures GroundsOk(sv.(history := history))
  {
    forall v | v in sv.revisions ensures Grounded(history, sv.revisions, sv.revisions[v]) {
      GroundedStays(sv.history, sv.revisions, history, sv.revisions, sv.revisions[v]);
    }
  }

  lemma GroundedStays(history: History, revisions: Revisions, all: History, later: Revisions, m: Mutation)
    requires Grounded(history, revisions, m) && Grown(history, all) && Grown(revisions, later)
    requires NeverProposed(revisions, m.uid) && AbortedOnMerit(m) ==> NeverProposed(later, m.uid)
    ensures Grounded(all, later, m)
  {
    if AbortedOnMerit(m) && !NeverProposed(revisions, m.uid) { RefutedStays(history, revisions, all, later, m.uid, m.origin); }
    if m.phase.Successful? { SeenReadyStays(history, all, m); }
  }

  lemma WorkerStays(sv: Server, later: Server, k: Worker)
    requires Extends(sv, later) && WorkerOk(sv, k)
    ensures WorkerOk(later, k)
  {
    if k.Writing? {
      StatusStays(sv.commits, later.commits, k.next);
      WillBeGroundedStays(sv, later, k.m, k.next);
    }
  }

  /** A state in order that has forgotten nothing of another. */
  ghost predicate Follows(s: State, later: State) {
    Ok(later) && Extends(s.server, later.server)
  }

  lemma WorkersStay(s: State, later: Server, w: nat, k: Worker)
    requires Ok(s) && Extends(s.server, later) && ServerOk(later) && WorkerOk(later, k)
    ensures Follows(s, WithWorker(s, later, w, k))
    ensures Follows(s, s.(server := later))
  {
    forall v | v in s.workers { WorkerStays(s.server, later, s.workers[v]); }
  }

  lemma WitnessStays(births: Births, history: History, later: History)
    requires BirthsOk(births, history) && Grown(history, later)
    ensures BirthsOk(births, later)
  {
    forall u | u in births ensures Witnessed(later, births[u].origin) {
      var kv :| kv in history && births[u].origin == Snapshot(history[kv]);
      assert kv in later;
    }
  }

  lemma SnapshotsStay(commits: seq<Commit>, births: Births, history: History, allBirths: Births, later: History)
    requires SnapshotsOk(commits, births, history) && Grown(births, allBirths) && Grown(history, later)
    ensures SnapshotsOk(commits, allBirths, later)
  {
    forall i | 0 <= i < |commits| ensures OnSnapshot(allBirths, later, commits[i]) {
      assert OnSnapshot(births, history, commits[i]);
    }
  }

  lemma ProposalsStay(commits: seq<Commit>, revisions: Revisions, later: Revisions)
    requires ProposalsOk(commits, revisions) && Grown(revisions, later)
    ensures ProposalsOk(commits, later)
  {
    forall i | 0 <= i < |commits| ensures ForProposal(later, commits[i]) {
      assert ForProposal(revisions, commits[i]);
    }
  }

  lemma ApprovalsStay(commits: seq<Commit>, births: Births, later: Births)
    requires ApprovalsOk(commits, births) && Grown(births, later)
    ensures ApprovalsOk(commits, later)
  {
    forall i | 0 <= i < |commits|
      ensures commits[i].mutation in later && Approves(later[commits[i].mutation].origin, commits[i])
    {
      assert commits[i].mutation in births && later[commits[i].mutation] == births[commits[i].mutation];
    }
  }

  lemma StatusesStay(revisions: Revisions, commits: seq<Commit>, later: seq<Commit>)
    requires StatusesOk(revisions, commits) && commits <= later
    ensures StatusesOk(revisions, later)
  {
    forall v | v in revisions ensures StatusOk(later, revisions[v]) { StatusStays(commits, later, revisions[v]); }
  }

  // ---------------------------------------------------------------- storing objects

  lemma UidsStay(history: History, key: Key, o: Object)
    requires UidsOk(history) && forall a | a in history && Uid(history[a]) == Uid(o) :: a.0 == key
    ensures UidsOk(history[(key, Version(o)) := o])
  {
  }

  /** A version string the key has not had, and a UID that is either kept or new. */
  lemma StoreObjectHistory(sv: Server, key: Key, o: Object)
    requires HistoryOk(sv.history) && TargetsOk(sv.targets, sv.history) && MayStore(sv, key, o)
    ensures HistoryOk(StoreObject(sv, key, o).history)
  {
    forall a | a in sv.history && Uid(sv.history[a]) == Uid(o) ensures a.0 == key {
      if key in sv.targets { assert Stored(sv.history, sv.targets[key]); }
    }
    UidsStay(sv.history, key, o);
  }

  lemma StoreObjectTargets(sv: Server, key: Key, o: Object)
    requires TargetsOk(sv.targets, sv.history) && KeyOf(o) == key && (key, Version(o)) !in sv.history
    ensures Grown(sv.history, StoreObject(sv, key, o).history)
    ensures TargetsOk(StoreObject(sv, key, o).targets, StoreObject(sv, key, o).history)
  {
    var later := StoreObject(sv, key, o);
    forall k | k in later.targets ensures KeyOf(later.targets[k]) == k && Stored(later.history, later.targets[k]) {
      if k != key { assert Stored(sv.history, sv.targets[k]); }
    }
  }

  lemma StoreObjectSupersedes(sv: Server, key: Key, o: Object)
    requires SupersededOk(sv.commits, sv.targets) && SnapshotsOk(sv.commits, sv.births, sv.history)
    requires (key, Version(o)) !in sv.history
    ensures SupersededOk(sv.commits, StoreObject(sv, key, o).targets)
    ensures forall i | 0 <= i < |sv.commits| && sv.commits[i].key == key :: Version(sv.commits[i].before) != Version(o)
  {
    forall i | 0 <= i < |sv.commits| && sv.commits[i].key == key ensures Version(sv.commits[i].before) != Version(o) {
      assert OnSnapshot(sv.births, sv.history, sv.commits[i]);
    }
  }

  lemma StoreObjectObjects(sv: Server, key: Key, o: Object)
    requires ObjectsOk(sv) && MayStore(sv, key, o)
    ensures ObjectsOk(StoreObject(sv, key, o)) && Extends(sv, StoreObject(sv, key, o))
  {
    StoreObjectHistory(sv, key, o);
    StoreObjectTargets(sv, key, o);
    WitnessStays(sv.births, sv.history, StoreObject(sv, key, o).history);
  }

  lemma StoreObjectOk(sv: Server, key: Key, o: Object)
    requires ServerOk(sv) && MayStore(sv, key, o)
    ensures Succeeds(sv, StoreObject(sv, key, o))
  {
    var later := StoreObject(sv, key, o);
    StoreObjectObjects(sv, key, o);
    StoreObjectSupersedes(sv, key, o);
    SnapshotsStay(sv.commits, sv.births, sv.history, sv.births, later.history);
    GroundsStay(sv, later.history);
  }

  /** Dropping current targets or Mutations disturbs nothing else. */
  lemma DropTargetOk(sv: Server, key: Key)
    requires ServerOk(sv)
    ensures Succeeds(sv, sv.(targets := sv.targets - {key}))
  {
  }

  lemma DropMutationOk(sv: Server, name: string)
    requires ServerOk(sv)
    ensures Succeeds(sv, sv.(mutations := sv.mutations - {name}))
  {
  }

  // ---------------------------------------------------------------- storing revisions

  /** Other Mutations keep what is known about them when a new revision of this one is written. */
  lemma OtherMutationsStay(sv: Server, m: Mutation)
    requires RevisionsOk(sv.revisions, sv.births) && MutationsOk(sv.mutations, sv.revisions)
    requires FreshVersion(sv, m.version) && Born(sv.births, m) && Furthest(sv.revisions, m.uid, m.phase)
    ensures MutationsOk(WriteMutation(sv, m).mutations, WriteMutation(sv, m).revisions)
  {
    var revisions, mutations := WriteMutation(sv, m).revisions, WriteMutation(sv, m).mutations;
    forall n | n in mutations
      ensures mutations[n].name == n && Held(revisions, mutations[n]) && !Released(mutations[n])
      ensures Furthest(revisions, mutations[n].uid, mutations[n].phase)
    {
      if n != m.name {
        assert Held(sv.revisions, mutations[n]);
        assert Born(sv.births, sv.revisions[mutations[n].version]);
      }
    }
  }

  lemma WriteMutationRecords(sv: Server, m: Mutation)
    requires RecordsOk(sv) && FreshVersion(sv, m.version) && Born(sv.births, m) && StatusOk(sv.commits, m)
    requires Furthest(sv.revisions, m.uid, m.phase)
    ensures RecordsOk(WriteMutation(sv, m))
  {
    OtherMutationsStay(sv, m);
  }

  lemma WriteMutationCommits(sv: Server, m: Mutation)
    requires CommitsOk(sv) && FreshVersion(sv, m.version)
    ensures CommitsOk(WriteMutation(sv, m))
  {
    ProposalsStay(sv.commits, sv.revisions, WriteMutation(sv, m).revisions);
  }

  lemma WriteMutationObjects(sv: Server, m: Mutation)
    requires ObjectsOk(sv) && FreshVersion(sv, m.version)
    ensures ObjectsOk(WriteMutation(sv, m)) && Extends(sv, WriteMutation(sv, m)) && Held(WriteMutation(sv, m).revisions, m)
  {
  }

  /** The new revision proposes what every earlier one in progress proposed. */
  ghost predicate AgreesWith(revisions: Revisions, m: Mutation) {
    m.phase.InProgress? ==>
      forall v | v in revisions && revisions[v].uid == m.uid && revisions[v].phase.InProgress? ::
        ProposedFor(revisions[v]) == ProposedFor(m)
  }

  lemma WriteMutationAgrees(revisions: Revisions, m: Mutation)
    requires ProposalsAgree(revisions) && m.version !in revisions && AgreesWith(revisions, m)
    ensures ProposalsAgree(revisions[m.version := m])
  {
  }

  /** A revision in progress comes before every aborted one, so it disturbs none. */
  lemma WriteMutationGrounds(sv: Server, m: Mutation)
    requires GroundsOk(sv) && FreshVersion(sv, m.version) && Furthest(sv.revisions, m.uid, m.phase)
    requires AgreesWith(sv.revisions, m) && Grounded(sv.history, sv.revisions[m.version := m], m)
    ensures GroundsOk(WriteMutation(sv, m))
  {
    WriteMutationAgrees(sv.revisions, m);
    var later := sv.revisions[m.version := m];
    forall v | v in later ensures Grounded(sv.history, later, later[v]) {
      if v != m.version { GroundedStays(sv.history, sv.revisions, sv.history, later, later[v]); }
    }
  }

  /** What makes a revision the next one of its Mutation. */
  ghost predicate RevisionOk(sv: Server, m: Mutation) {
    && Born(sv.births, m) && StatusOk(sv.commits, m) && Furthest(sv.revisions, m.uid, m.phase)
    && AgreesWith(sv.revisions, m) && Grounded(sv.history, sv.revisions[m.version := m], m)
    && Guarded(m) && (m.phase.InProgress? && m.deleting ==> ProposedAlive(sv.revisions, m.uid))
  }

  lemma WriteMutationDeletions(revisions: Revisions, m: Mutation)
    requires DeletionsOk(revisions) && m.version !in revisions && Guarded(m)
    requires m.phase.InProgress? && m.deleting ==> ProposedAlive(revisions, m.uid)
    ensures DeletionsOk(revisions[m.version := m])
  {
    var later := revisions[m.version := m];
    forall v | v in later && later[v].phase.InProgress? ensures ProposedAlive(later, later[v].uid) {
      if v == m.version && !m.deleting {
        assert later[v].uid == m.uid;
      } else {
        var u :| u in revisions && revisions[u].uid == later[v].uid && revisions[u].phase.InProgress? && !revisions[u].deleting;
        assert later[u] == revisions[u];
      }
    }
  }

  /** A new revision that comes after every earlier one of the same Mutation. */
  lemma WriteMutationOk(sv: Server, m: Mutation)
    requires ServerOk(sv) && FreshVersion(sv, m.version) && RevisionOk(sv, m)
    ensures Succeeds(sv, WriteMutation(sv, m)) && Held(WriteMutation(sv, m).revisions, m)
  {
    WriteMutationRecords(sv, m);
    WriteMutationCommits(sv, m);
    WriteMutationObjects(sv, m);
    WriteMutationGrounds(sv, m);
    WriteMutationDeletions(sv.revisions, m);
  }

  /** The current revision of a Mutation is the one a pass still holds. */
  lemma HeldIsCurrent(sv: Server, m: Mutation)
    requires ServerOk(sv) && Held(sv.revisions, m) && Current(sv, m)
    ensures sv.mutations[m.name] == m && Born(sv.births, m) && StatusOk(sv.commits, m) && !Released(m) && Guarded(m)
    ensures Furthest(sv.revisions, m.uid, m.phase)
  {
    assert Held(sv.revisions, sv.mutations[m.name]);
  }

  lemma FurthestLater(revisions: Revisions, uid: string, p: Phase, q: Phase)
    requires Furthest(revisions, uid, p) && MayPrecede(p, q)
    ensures Furthest(revisions, uid, q)
  {
    forall v | v in revisions && revisions[v].uid == uid ensures MayPrecede(revisions[v].phase, q) {
      PhaseOrder(revisions[v].phase, p, q);
    }
  }

  lemma RevisionAfter(sv: Server, m: Mutation, next: Mutation, version: string)
    requires Born(sv.births, m) && Furthest(sv.revisions, m.uid, m.phase) && ChangeOk(sv.commits, m, next)
    ensures var revision := next.(version := version);
            && Born(sv.births, revision) && StatusOk(sv.commits, revision)
            && Furthest(sv.revisions, revision.uid, revision.phase)
  {
    FurthestLater(sv.revisions, m.uid, m.phase, next.phase);
  }

  /** Before the first answer nothing of the Mutation is in progress. */
  lemma NothingProposedYet(revisions: Revisions, m: Mutation)
    requires Furthest(revisions, m.uid, m.phase) && m.phase.NotStarted?
    ensures NeverProposed(revisions, m.uid)
  {
  }

  lemma RevisionAgrees(revisions: Revisions, m: Mutation, next: Mutation)
    requires Furthest(revisions, m.uid, m.phase) && next.uid == m.uid && (next.phase.InProgress? ==> m.phase.NotStarted?)
    ensures AgreesWith(revisions, next)
  {
  }

  lemma SameGrounds(history: History, m: Mutation, next: Mutation)
    requires next.origin == m.origin && next.refNamespace == m.refNamespace && next.refName == m.refName && SeenReady(history, m)
    ensures SeenReady(history, next)
  {
    var read :| ReadyOn(history, m, read) == Some(true);
    assert ReadyOn(history, next, read) == Some(true);
  }

  lemma RevisionIsGrounded(history: History, revisions: Revisions, m: Mutation, next: Mutation, version: string)
    requires Furthest(revisions, m.uid, m.phase) && version !in revisions
    requires next.uid == m.uid && next.origin == m.origin && WillBeGrounded(history, revisions, m, next)
    ensures var revision := next.(version := version); Grounded(history, revisions[version := revision], revision)
  {
    var revision := next.(version := version);
    var later := revisions[version := revision];
    if AbortedOnMerit(revision) {
      if m.phase.NotStarted? {
        NothingProposedYet(revisions, m);
        assert NeverProposed(later, m.uid);
      } else {
        RefutedStays(history, revisions, history, later, m.uid, m.origin);
      }
    }
    if revision.phase.Successful? { SameGrounds(history, next, revision); }
  }

  lemma NextRevisionOk(sv: Server, m: Mutation, next: Mutation, version: string)
    requires ServerOk(sv) && Prepared(sv.revisions, m) && WriteOk(sv, m, next) && Current(sv, m) && FreshVersion(sv, version)
    ensures RevisionOk(sv, next.(version := version))
  {
    HeldIsCurrent(sv, m);
    RevisionAfter(sv, m, next, version);
    RevisionAgrees(sv.revisions, m, next.(version := version));
    RevisionIsGrounded(sv.history, sv.revisions, m, next, version);
  }

  lemma UpdateMutationOk(sv: Server, m: Mutation, next: Mutation, version: string)
    requires ServerOk(sv) && Prepared(sv.revisions, m) && WriteOk(sv, m, next)
    requires Current(sv, m) && FreshVersion(sv, version)
    ensures Succeeds(sv, UpdateMutation(sv, m, next, version))
  {
    if next != m {
      NextRevisionOk(sv, m, next, version);
      WriteMutationOk(sv, next.(version := version));
    }
  }

  /** The same proposal and the same grounds under another version. */
  lemma TouchedGrounds(sv: Server, m: Mutation, touched: Mutation)
    requires GroundsOk(sv) && Held(sv.revisions, m) && FreshVersion(sv, touched.version)
    requires touched == m.(version := touched.version, finalizers := touched.finalizers, deleting := touched.deleting)
    ensures AgreesWith(sv.revisions, touched) && Grounded(sv.history, sv.revisions[touched.version := touched], touched)
  {
    var later := sv.revisions[touched.version := touched];
    assert Grounded(sv.history, sv.revisions, sv.revisions[m.version]);
    if AbortedOnMerit(m) && !NeverProposed(sv.revisions, m.uid) {
      RefutedStays(sv.history, sv.revisions, sv.history, later, m.uid, m.origin);
    }
    if m.phase.Successful? { SameGrounds(sv.history, m, touched); }
  }

  /** A revision that changes neither phase nor status, such as a deletion request. */
  lemma TouchMutationOk(sv: Server, m: Mutation, touched: Mutation)
    requires ServerOk(sv) && Held(sv.revisions, m) && Current(sv, m) && FreshVersion(sv, touched.version)
    requires touched == m.(version := touched.version, finalizers := touched.finalizers, deleting := touched.deleting)
    requires Guarded(touched)
    ensures Succeeds(sv, WriteMutation(sv, touched)) && Held(WriteMutation(sv, touched).revisions, touched)
  {
    HeldIsCurrent(sv, m);
    assert StatusOk(sv.commits, touched);
    TouchedGrounds(sv, m, touched);
    WriteMutationOk(sv, touched);
  }

  lemma ReleaseEmpties(finalizers: seq<string>)
    requires finalizers == [FINALIZER] || finalizers == []
    ensures WithoutFinalizer(finalizers, FINALIZER) == []
  {
  }

  lemma DropFinalizerOk(sv: Server, m: Mutation, version: string)
    requires ServerOk(sv) && Held(sv.revisions, m) && MustDropFinalizer(m) && Current(sv, m) && FreshVersion(sv, version)
    ensures Succeeds(sv, UpdateMutation(sv, m, ReleasedBy(m), version))
    ensures Prepared(UpdateMutation(sv, m, ReleasedBy(m), version).revisions, Updated(m, ReleasedBy(m), version))
  {
    ReleaseEmpties(m.finalizers);
    if ReleasedBy(m) != m { TouchMutationOk(sv, m, ReleasedBy(m).(version := version)); }
  }

  lemma BirthCommits(sv: Server, uid: string, birth: Birth)
    requires CommitsOk(sv) && uid !in sv.births
    ensures CommitsOk(sv.(births := sv.births[uid := birth]))
  {
    SnapshotsStay(sv.commits, sv.births, sv.history, sv.births[uid := birth], sv.history);
    ApprovalsStay(sv.commits, sv.births, sv.births[uid := birth]);
  }

  lemma BirthWitness(sv: Server, uid: string, birth: Birth)
    requires ObjectsOk(sv) && uid !in sv.births && Witnessed(sv.history, birth.origin)
    ensures ObjectsOk(sv.(births := sv.births[uid := birth]))
  {
    var births := sv.births[uid := birth];
    forall u | u in births ensures Witnessed(sv.history, births[u].origin) {}
  }

  lemma BirthRecords(sv: Server, uid: string, birth: Birth)
    requires RecordsOk(sv) && uid !in sv.births
    ensures RecordsOk(sv.(births := sv.births[uid := birth]))
    ensures Furthest(sv.revisions, uid, NotStarted)
  {
    forall v | v in sv.revisions ensures Born(sv.births[uid := birth], sv.revisions[v]) && sv.revisions[v].uid != uid {
      assert Born(sv.births, sv.revisions[v]);
    }
  }

  lemma BirthGrounds(sv: Server, uid: string, birth: Birth)
    requires GroundsOk(sv) && uid !in sv.births
    ensures GroundsOk(sv.(births := sv.births[uid := birth])) && Extends(sv, sv.(births := sv.births[uid := birth]))
  {
  }

  /** A birth under a UID no Mutation ever had. */
  lemma BirthOk(sv: Server, uid: string, birth: Birth)
    requires ServerOk(sv) && uid !in sv.births && Witnessed(sv.history, birth.origin)
    ensures Succeeds(sv, sv.(births := sv.births[uid := birth])) && Furthest(sv.revisions, uid, NotStarted)
  {
    BirthCommits(sv, uid, birth);
    BirthRecords(sv, uid, birth);
    BirthWitness(sv, uid, birth);
    BirthGrounds(sv, uid, birth);
  }

  lemma NewbornStatus(commits: seq<Commit>, m: Mutation)
    requires m.phase.NotStarted? && m.verdict.Undecided? && !m.applied
    ensures StatusOk(commits, m)
  {
  }

  lemma NewbornOk(born: Server, m: Mutation)
    requires ServerOk(born) && FreshVersion(born, m.version) && Born(born.births, m) && StatusOk(born.commits, m)
    requires Furthest(born.revisions, m.uid, m.phase) && !m.deleting && m.phase.NotStarted? && m.finalizers == [FINALIZER]
    ensures Succeeds(born, StoreMutation(born, m))
  {
    WriteMutationOk(born, m);
    assert WriteMutation(born, m) == StoreMutation(born, m);
  }

  lemma CreateMutationOk(sv: Server, name: string, uid: string, version: string, key: Key, read: string)
    requires ServerOk(sv) && uid !in sv.births && FreshVersion(sv, version) && (key, read) in sv.history
    ensures var m := NewMutation(name, uid, version, sv.history[(key, read)]);
            Succeeds(sv, StoreMutation(sv.(births := sv.births[uid := Birth(name, m.origin)]), m))
  {
    var m := NewMutation(name, uid, version, sv.history[(key, read)]);
    var born := sv.(births := sv.births[uid := Birth(name, m.origin)]);
    BirthOk(sv, uid, Birth(name, m.origin));
    NewbornStatus(sv.commits, m);
    NewbornOk(born, m);
    ExtendsTransitive(sv, born, StoreMutation(born, m));
  }
}
