/** What holds in every run of the remediation pipeline. */
module PipelineSafety {
  import opened Strings
  import opened Gvk
  import opened Gate
  import opened ImageProposal
  import opened Pipeline
  import opened PipelineInvariant
  import opened PipelineCommit

  // ---------------------------------------------------------------- every step keeps the invariant

  lemma ProposedOk(commits: seq<Commit>, m: Mutation, response: Response)
    requires m.phase.NotStarted? && StatusOk(commits, m)
    ensures ChangeOk(commits, m, ProposedBy(m, response))
  {
  }

  lemma RejectedOk(commits: seq<Commit>, m: Mutation, decision: Decision)
    requires m.phase.InProgress? && StatusOk(commits, m)
    ensures ChangeOk(commits, m, RejectedBy(m, decision))
  {
  }

  lemma CompletedOk(commits: seq<Commit>, m: Mutation, c: Commit)
    requires m.phase.InProgress? && c in commits && c.mutation == m.uid
    ensures ChangeOk(commits, m, CompletedBy(m, c.decision))
  {
  }

  lemma ObservedOk(commits: seq<Commit>, m: Mutation, ready: bool, reported: bool)
    requires (m.phase.Completed? || m.phase.Pending?) && StatusOk(commits, m)
    ensures ChangeOk(commits, m, ObservedBy(m, ready, reported))
  {
  }

  /** Two stored versions with the same UID and resource version are one, so their identities agree. */
  lemma SameVersionSameIdentity(history: History, origin: Object, live: Object)
    requires HistoryOk(history) && Stored(history, live) && Witnessed(history, origin)
    ensures LiveMismatch(origin, live) != Some(IdentityMismatch)
  {
    if Uid(origin) == Uid(live) && Version(origin) == Version(live) {
      SameVersion(history, origin, live);
      SnapshotSameIdentity(live);
    }
  }

  lemma MismatchIsTheNote(m: Mutation, live: Object, proposed: Object)
    requires LiveMismatch(m.origin, live).Some?
    ensures RejectedBy(m, DecisionOn(m, live, proposed)).note == PolicyRejected(LiveMismatch(m.origin, live).value)
  {
  }

  /** A refusal that is not about the version is one on the version of the snapshot. */
  lemma MeritOnSnapshot(history: History, m: Mutation, live: Object, proposed: Object)
    requires HistoryOk(history) && Stored(history, live) && Witnessed(history, m.origin)
    requires AbortedOnMerit(RejectedBy(m, DecisionOn(m, live, proposed)))
    ensures m.origin == Snapshot(live)
  {
    SameVersionSameIdentity(history, m.origin, live);
    if LiveMismatch(m.origin, live).Some? { MismatchIsTheNote(m, live, proposed); } else { MatchingOrigin(history, m.origin, live); }
  }

  lemma RefusalOnMerit(sv: Server, m: Mutation, kv: (Key, string), proposed: Object)
    requires ServerOk(sv) && Held(sv.revisions, m) && m.phase.InProgress? && ProposedFor(m) == Some(proposed)
    requires kv in sv.history && !DecisionOn(m, sv.history[kv], proposed).allowed
    requires AbortedOnMerit(RejectedBy(m, DecisionOn(m, sv.history[kv], proposed)))
    ensures Refuted(sv.history, sv.revisions, m.uid, m.origin)
  {
    HeldIsBorn(sv, m);
    assert Stored(sv.history, sv.history[kv]);
    MeritOnSnapshot(sv.history, m, sv.history[kv], proposed);
    assert RefusedOn(sv.history, sv.revisions, m.uid, m.origin, kv, m.version);
  }

  lemma RejectedGrounds(sv: Server, m: Mutation, read: string)
    requires ServerOk(sv) && Held(sv.revisions, m) && m.phase.InProgress? && ProposedFor(m).Some?
    requires (KeyOf(ProposedFor(m).value), read) in sv.history
    requires !DecisionOn(m, sv.history[(KeyOf(ProposedFor(m).value), read)], ProposedFor(m).value).allowed
    ensures var d := DecisionOn(m, sv.history[(KeyOf(ProposedFor(m).value), read)], ProposedFor(m).value);
            WillBeGrounded(sv.history, sv.revisions, m, RejectedBy(m, d))
  {
    var d := DecisionOn(m, sv.history[(KeyOf(ProposedFor(m).value), read)], ProposedFor(m).value);
    if AbortedOnMerit(RejectedBy(m, d)) { RefusalOnMerit(sv, m, (KeyOf(ProposedFor(m).value), read), ProposedFor(m).value); }
  }

  lemma ObservedGrounds(sv: Server, m: Mutation, read: string, reported: bool)
    requires ReadyOn(sv.history, m, read).Some?
    ensures WillBeGrounded(sv.history, sv.revisions, m, ObservedBy(m, ReadyOn(sv.history, m, read).value, reported))
  {
    var next := ObservedBy(m, ReadyOn(sv.history, m, read).value, reported);
    if next.phase.Successful? { assert ReadyOn(sv.history, next, read) == Some(true); }
  }

  lemma ChangeReady(s: State, w: nat, m: Mutation, next: Mutation)
    requires Ok(s) && Prepared(s.server.revisions, m) && WriteOk(s.server, m, next)
    ensures Follows(s, WithWorker(s, s.server, w, Writing(m, next)))
  {
    WorkersStay(s, s.server, w, Writing(m, next));
  }

  lemma ProposeOk(s: State, w: nat, response: Response)
    requires Ok(s) && Enabled(s, Propose(w, response))
    ensures Follows(s, Next(s, Propose(w, response)))
  {
    var m := WorkerOf(s, w).m;
    HeldIsBorn(s.server, m);
    ProposedOk(s.server.commits, m, response);
    ChangeReady(s, w, m, ProposedBy(m, response));
  }

  lemma JudgeOk(s: State, w: nat, read: string)
    requires Ok(s) && Enabled(s, Judge(w, read))
    ensures Follows(s, Next(s, Judge(w, read)))
  {
    var sv, m := s.server, WorkerOf(s, w).m;
    var proposed := ProposedFor(m).value;
    var live := sv.history[(KeyOf(proposed), read)];
    var decision := DecisionOn(m, live, proposed);
    if decision.allowed {
      assert Stored(sv.history, live);
      WorkersStay(s, sv, w, Approved(m, Judgement(live, proposed, decision)));
    } else {
      HeldIsBorn(sv, m);
      RejectedOk(sv.commits, m, decision);
      RejectedGrounds(sv, m, read);
      ChangeReady(s, w, m, RejectedBy(m, decision));
    }
  }

  lemma ValidatedIsJudged(s: State, w: nat, m: Mutation, j: Judgement)
    requires Ok(s) && WorkerOf(s, w) == Validated(m, j)
    ensures Prepared(s.server.revisions, m) && JudgementOk(s.server.history, m, j)
  {
    assert WorkerOk(s.server, WorkerOf(s, w));
  }

  /** On a judged version the tested patch is always effective. */
  lemma PersistsEffectively(sv: Server, m: Mutation, j: Judgement, stored: Object)
    requires TargetsOk(sv.targets, sv.history) && JudgementOk(sv.history, m, j) && CanPersist(sv, j, stored)
    ensures KeyOf(j.live) in sv.targets && sv.targets[KeyOf(j.live)] == j.live && MayStore(sv, KeyOf(j.live), stored)
    ensures Persisted(sv, m, j, stored) == CommitPatch(sv, m, j, stored)
  {
    PatchHitsJudgedVersion(sv, m, j);
  }

  lemma PersistsTheApproved(sv: Server, m: Mutation, j: Judgement, stored: Object)
    requires ServerOk(sv) && Held(sv.revisions, m) && JudgementOk(sv.history, m, j) && CanPersist(sv, j, stored)
    ensures ExactCommit(sv, CommitOf(m, j, stored), stored)
  {
    PatchHitsJudgedVersion(sv, m, j);
    CommitIsExact(sv, m, j, stored);
  }

  lemma PatchedServer(sv: Server, m: Mutation, j: Judgement, stored: Object)
    requires ServerOk(sv) && Held(sv.revisions, m) && JudgementOk(sv.history, m, j) && CanPersist(sv, j, stored)
    ensures KeyOf(j.live) in sv.targets && Persisted(sv, m, j, stored) == CommitPatch(sv, m, j, stored)
    ensures Succeeds(sv, CommitPatch(sv, m, j, stored))
  {
    PersistsEffectively(sv, m, j, stored);
    PersistsTheApproved(sv, m, j, stored);
    PatchSucceeds(sv, m, j, stored);
  }

  lemma PatchSucceeds(sv: Server, m: Mutation, j: Judgement, stored: Object)
    requires ServerOk(sv) && ExactCommit(sv, CommitOf(m, j, stored), stored) && MayStore(sv, KeyOf(j.live), stored)
    ensures Succeeds(sv, CommitPatch(sv, m, j, stored))
  {
    CommitPatchOk(sv, CommitOf(m, j, stored), stored);
  }

  /** What an enabled patch does. */
  lemma PatchEffect(s: State, w: nat, m: Mutation, j: Judgement, stored: Object, acknowledged: bool)
    requires WorkerOf(s, w) == Validated(m, j) && Enabled(s, Patch(w, stored, acknowledged))
    ensures CanPersist(s.server, j, stored)
    ensures Next(s, Patch(w, stored, acknowledged)) ==
            WithWorker(s, Persisted(s.server, m, j, stored), w, if acknowledged then Writing(m, CompletedBy(m, j.decision)) else Idle)
  {
  }

  lemma PatchingWorker(s: State, w: nat, stored: Object, acknowledged: bool)
    requires Enabled(s, Patch(w, stored, acknowledged))
    ensures WorkerOf(s, w).Validated?
  {
  }

  lemma CompletedReady(sv: Server, m: Mutation, j: Judgement, stored: Object)
    requires Prepared(sv.revisions, m) && m.phase.InProgress? && KeyOf(j.live) in sv.targets
    ensures WorkerOk(CommitPatch(sv, m, j, stored), Writing(m, CompletedBy(m, j.decision)))
  {
    var later := CommitPatch(sv, m, j, stored);
    assert later.commits[|sv.commits|].mutation == m.uid;
    CompletedOk(later.commits, m, later.commits[|sv.commits|]);
  }

  lemma PatchOfValidated(s: State, w: nat, m: Mutation, j: Judgement, stored: Object, acknowledged: bool)
    requires Ok(s) && WorkerOf(s, w) == Validated(m, j) && CanPersist(s.server, j, stored)
    ensures Follows(s, WithWorker(s, Persisted(s.server, m, j, stored), w,
                                  if acknowledged then Writing(m, CompletedBy(m, j.decision)) else Idle))
  {
    ValidatedIsJudged(s, w, m, j);
    PatchedServer(s.server, m, j, stored);
    CompletedReady(s.server, m, j, stored);
    WorkersStay(s, CommitPatch(s.server, m, j, stored), w, if acknowledged then Writing(m, CompletedBy(m, j.decision)) else Idle);
  }

  lemma PatchOk(s: State, w: nat, stored: Object, acknowledged: bool)
    requires Ok(s) && Enabled(s, Patch(w, stored, acknowledged))
    ensures Follows(s, Next(s, Patch(w, stored, acknowledged)))
  {
    PatchingWorker(s, w, stored, acknowledged);
    var k := WorkerOf(s, w);
    PatchEffect(s, w, k.m, k.j, stored, acknowledged);
    PatchOfValidated(s, w, k.m, k.j, stored, acknowledged);
  }

  lemma PrepareOk(s: State, w: nat, version: string)
    requires Ok(s) && Enabled(s, Prepare(w, version))
    ensures Follows(s, Next(s, Prepare(w, version)))
  {
    var m := WorkerOf(s, w).m;
    if MustDropFinalizer(m) {
      DropFinalizerOk(s.server, m, version);
      WorkersStay(s, UpdateMutation(s.server, m, ReleasedBy(m), version), w, Ready(Updated(m, ReleasedBy(m), version)));
    } else {
      WorkersStay(s, s.server, w, Ready(m));
    }
  }

  lemma ObserveOk(s: State, w: nat, read: string, reported: bool)
    requires Ok(s) && Enabled(s, Observe(w, read, reported))
    ensures Follows(s, Next(s, Observe(w, read, reported)))
  {
    var m := WorkerOf(s, w).m;
    HeldIsBorn(s.server, m);
    ObservedOk(s.server.commits, m, ReadyOn(s.server.history, m, read).value, reported);
    ObservedGrounds(s.server, m, read, reported);
    ChangeReady(s, w, m, ObservedBy(m, ReadyOn(s.server.history, m, read).value, reported));
  }

  lemma WritingIsOk(s: State, w: nat, m: Mutation, next: Mutation)
    requires Ok(s) && WorkerOf(s, w) == Writing(m, next)
    ensures Prepared(s.server.revisions, m) && WriteOk(s.server, m, next)
  {
    assert WorkerOk(s.server, WorkerOf(s, w));
  }

  lemma UpdateOk(s: State, w: nat, m: Mutation, next: Mutation, version: string)
    requires Ok(s) && WorkerOf(s, w) == Writing(m, next) && Current(s.server, m) && FreshVersion(s.server, version)
    ensures Follows(s, WithWorker(s, UpdateMutation(s.server, m, next, version), w, Idle))
  {
    WritingIsOk(s, w, m, next);
    UpdateMutationOk(s.server, m, next, version);
    WorkersStay(s, UpdateMutation(s.server, m, next, version), w, Idle);
  }

  lemma ServerChanges(s: State, later: Server)
    requires Ok(s) && Succeeds(s.server, later)
    ensures Follows(s, s.(server := later))
  {
    WorkersStay(s, later, 0, Idle);
  }

  lemma StoreTargetOk(s: State, key: Key, content: Object)
    requires Ok(s) && Enabled(s, StoreTarget(key, content))
    ensures Follows(s, Next(s, StoreTarget(key, content)))
  {
    StoreObjectOk(s.server, key, content);
    ServerChanges(s, StoreObject(s.server, key, content));
  }

  lemma DeletionRevision(sv: Server, name: string, version: string)
    requires ServerOk(sv) && name in sv.mutations && FreshVersion(sv, version)
    ensures Succeeds(sv, WriteMutation(sv, sv.mutations[name].(deleting := true, version := version)))
  {
    var m := sv.mutations[name];
    assert Held(sv.revisions, m);
    TouchMutationOk(sv, m, m.(deleting := true, version := version));
  }

  lemma RequestDeletionOk(s: State, name: string, version: string)
    requires Ok(s) && name in s.server.mutations && FreshVersion(s.server, version)
    ensures Follows(s, s.(server := WriteMutation(s.server, s.server.mutations[name].(deleting := true, version := version))))
  {
    DeletionRevision(s.server, name, version);
    ServerChanges(s, WriteMutation(s.server, s.server.mutations[name].(deleting := true, version := version)));
  }

  lemma RemoveOk(s: State, key: Key, name: string)
    requires Ok(s)
    ensures Follows(s, s.(server := s.server.(targets := s.server.targets - {key})))
    ensures Follows(s, s.(server := s.server.(mutations := s.server.mutations - {name})))
  {
    DropTargetOk(s.server, key);
    ServerChanges(s, s.server.(targets := s.server.targets - {key}));
    DropMutationOk(s.server, name);
    ServerChanges(s, s.server.(mutations := s.server.mutations - {name}));
  }

  lemma CreateOk(s: State, name: string, uid: string, version: string, key: Key, read: string)
    requires Ok(s) && Enabled(s, CreateMutation(name, uid, version, key, read))
    ensures Follows(s, Next(s, CreateMutation(name, uid, version, key, read)))
  {
    CreateMutationOk(s.server, name, uid, version, key, read);
    ServerChanges(s, Next(s, CreateMutation(name, uid, version, key, read)).server);
  }

  /** Third parties: other writers, users, and the remediation step that creates Mutations. */
  predicate ByThirdParty(a: Action) {
    a.StoreTarget? || a.DeleteTarget? || a.RequestDeletion? || a.RemoveMutation? || a.CreateMutation?
  }

  lemma ThirdPartyStepOk(s: State, a: Action)
    requires Ok(s) && Enabled(s, a) && ByThirdParty(a)
    ensures Follows(s, Next(s, a))
  {
    match a
    case StoreTarget(key, content) => StoreTargetOk(s, key, content);
    case DeleteTarget(key) => RemoveOk(s, key, "");
    case RequestDeletion(name, version) => RequestDeletionOk(s, name, version);
    case RemoveMutation(name) => RemoveOk(s, Key(GVK("", "", ""), "", ""), name);
    case CreateMutation(name, uid, version, key, read) => CreateOk(s, name, uid, version, key, read);
  }

  lemma ReadOk(s: State, w: nat, k: Worker)
    requires Ok(s) && WorkerOk(s.server, k)
    ensures Follows(s, WithWorker(s, s.server, w, k))
  {
    WorkersStay(s, s.server, w, k);
  }

  lemma LoadOk(s: State, w: nat, version: string)
    requires Ok(s) && Enabled(s, Load(w, version))
    ensures Follows(s, Next(s, Load(w, version)))
  {
    ReadOk(s, w, Loaded(s.server.revisions[version]));
  }

  lemma ValidatedOk(s: State, w: nat, m: Mutation, j: Judgement)
    requires Ok(s) && WorkerOf(s, w) == Approved(m, j)
    ensures Follows(s, WithWorker(s, s.server, w, Validated(m, j)))
  {
    assert WorkerOk(s.server, WorkerOf(s, w));
    ReadOk(s, w, Validated(m, j));
  }

  lemma DryRunOk(s: State, w: nat)
    requires Ok(s) && Enabled(s, DryRun(w))
    ensures Follows(s, Next(s, DryRun(w)))
  {
    ValidatedOk(s, w, WorkerOf(s, w).m, WorkerOf(s, w).j);
  }

  lemma PassStepOk(s: State, a: Action)
    requires Ok(s) && Enabled(s, a) && !ByThirdParty(a)
    ensures Follows(s, Next(s, a))
  {
    match a
    case Load(w, version) => LoadOk(s, w, version);
    case DryRun(w) => DryRunOk(s, w);
    case Abandon(w) => ReadOk(s, w, Idle);
    case Prepare(w, version) => PrepareOk(s, w, version);
    case Propose(w, response) => ProposeOk(s, w, response);
    case Judge(w, read) => JudgeOk(s, w, read);
    case Patch(w, stored, acknowledged) => PatchOk(s, w, stored, acknowledged);
    case Observe(w, read, reported) => ObserveOk(s, w, read, reported);
    case Update(w, version) => UpdateOk(s, w, WorkerOf(s, w).m, WorkerOf(s, w).next, version);
  }

  /** Every action of every party keeps the invariant. */
  lemma StepOk(s: State, a: Action)
    requires Ok(s)
    ensures Follows(s, Step(s, a))
  {
    if Enabled(s, a) {
      if ByThirdParty(a) { ThirdPartyStepOk(s, a); } else { PassStepOk(s, a); }
    }
  }

  /** Every reachable state is in order. */
  lemma {:induction false} ReachableOk(run: seq<Action>)
    ensures Ok(After(run))
    decreases |run|
  {
    if run != [] {
      ReachableOk(run[..|run| - 1]);
      StepOk(After(run[..|run| - 1]), run[|run| - 1]);
    }
  }
}
