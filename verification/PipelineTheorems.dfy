/** The guarantees of the remediation pipeline over all runs. */
module PipelineTheorems {
  import opened Strings
  import opened Json
  import opened Diff
  import opened Gate
  import opened GateProofs
  import opened Rollout
  import opened Pipeline
  import opened PipelineInvariant
  import opened PipelineCommit
  import opened PipelineSafety

  // ---------------------------------------------------------------- what a commit is

  /** The approved change of exactly the version the snapshot was taken from, and nothing else. */
  ghost predicate CommitsTheApprovedPatch(origin: Object, c: Commit) {
    var patched := ApplyPatch(c.before, c.decision.patch);
    && origin == Snapshot(c.before)
    && c.decision == Decide(origin, c.before, c.proposed, 0) && c.decision.allowed
    && patched.Some? && patched.value.Map? && Stamped(patched.value, c.after)
    && Canon(Normalized(patched.value)) == Canon(Normalized(c.proposed))
  }

  lemma ApprovedPatch(origin: Object, c: Commit)
    requires origin == Snapshot(c.before) && Approves(origin, c)
    ensures CommitsTheApprovedPatch(origin, c)
  {
    AdmittedPatchIsTheProposal(origin, c.before, c.proposed, 0);
  }

  /** Every commit of every run is for the proposal its Mutation stored, on the version of its snapshot. */
  lemma {:induction false} EveryCommitIsExact(run: seq<Action>, i: nat)
    requires i < |After(run).server.commits|
    ensures var sv, c := After(run).server, After(run).server.commits[i];
            && c.mutation in sv.births && CommitsTheApprovedPatch(sv.births[c.mutation].origin, c)
            && ForProposal(sv.revisions, c) && Stored(sv.history, c.before) && Stored(sv.history, c.after)
            && KeyOf(c.before) == KeyOf(c.after)
  {
    ReachableOk(run);
    var sv := After(run).server;
    var c := sv.commits[i];
    assert OnSnapshot(sv.births, sv.history, c) && ForProposal(sv.revisions, c);
    ApprovedPatch(sv.births[c.mutation].origin, c);
  }

  /** A step that commits replaces the current version, which is the one in the snapshot. */
  ghost predicate CommitsOnce(s: State, t: State) {
    var n := |s.server.commits|;
    && |t.server.commits| == n + 1 && t.server.commits[..n] == s.server.commits
    && var c := t.server.commits[n];
    && c.key in s.server.targets && s.server.targets[c.key] == c.before
    && t.server.targets == s.server.targets[c.key := c.after]
    && c.mutation in s.server.births && s.server.births[c.mutation].origin == Snapshot(s.server.targets[c.key])
  }

  predicate SameTargets(s: State, t: State) {
    t.server.targets == s.server.targets && t.server.commits == s.server.commits
  }

  lemma CommitPatchCommitsOnce(s: State, m: Mutation, j: Judgement, stored: Object, t: State)
    requires KeyOf(j.live) in s.server.targets && s.server.targets[KeyOf(j.live)] == j.live
    requires m.uid in s.server.births && s.server.births[m.uid].origin == Snapshot(j.live)
    requires t.server == CommitPatch(s.server, m, j, stored)
    ensures CommitsOnce(s, t)
  {
  }

  lemma PatchCommitsOnce(s: State, w: nat, m: Mutation, j: Judgement, stored: Object, t: State)
    requires Ok(s) && WorkerOf(s, w) == Validated(m, j) && CanPersist(s.server, j, stored)
    requires t.server == Persisted(s.server, m, j, stored)
    ensures CommitsOnce(s, t)
  {
    ValidatedIsJudged(s, w, m, j);
    PersistsEffectively(s.server, m, j, stored);
    OriginIsSnapshot(s.server, m, j);
    CommitPatchCommitsOnce(s, m, j, stored, t);
  }

  lemma PatchRespectsOthers(s: State, w: nat, stored: Object, acknowledged: bool)
    requires Ok(s) && Enabled(s, Patch(w, stored, acknowledged))
    ensures CommitsOnce(s, Next(s, Patch(w, stored, acknowledged)))
  {
    PatchingWorker(s, w, stored, acknowledged);
    var k := WorkerOf(s, w);
    PatchEffect(s, w, k.m, k.j, stored, acknowledged);
    PatchCommitsOnce(s, w, k.m, k.j, stored, Next(s, Patch(w, stored, acknowledged)));
  }

  lemma UpdateKeepsTargets(sv: Server, m: Mutation, next: Mutation, version: string)
    ensures UpdateMutation(sv, m, next, version).targets == sv.targets
    ensures UpdateMutation(sv, m, next, version).commits == sv.commits
  {
  }

  lemma PrepareKeepsTargets(s: State, w: nat, version: string)
    requires Enabled(s, Prepare(w, version))
    ensures SameTargets(s, Next(s, Prepare(w, version)))
  {
    var m := WorkerOf(s, w).m;
    UpdateKeepsTargets(s.server, m, ReleasedBy(m), version);
  }

  lemma StatusWriteKeepsTargets(s: State, w: nat, version: string)
    requires Enabled(s, Update(w, version))
    ensures SameTargets(s, Next(s, Update(w, version)))
  {
    UpdateKeepsTargets(s.server, WorkerOf(s, w).m, WorkerOf(s, w).next, version);
  }

  lemma ReadsChangeNothing(s: State, a: Action)
    requires Enabled(s, a) && (a.Load? || a.Propose? || a.Judge? || a.DryRun? || a.Observe? || a.Abandon?)
    ensures Next(s, a).server == s.server
  {
  }

  lemma OnlyPatchesCommit(s: State, a: Action)
    requires Enabled(s, a) && !ByThirdParty(a) && !a.Patch?
    ensures SameTargets(s, Next(s, a))
  {
    match a
    case Prepare(w, version) => PrepareKeepsTargets(s, w, version);
    case Update(w, version) => StatusWriteKeepsTargets(s, w, version);
    case _ => ReadsChangeNothing(s, a);
  }

  /**
   * No concurrent write is overwritten: whatever the interleaving, a step of the controller either
   * leaves every target as it was, or replaces one whose current version is the Mutation's snapshot.
   */
  lemma {:induction false} ControllerStepsRespectOtherWriters(run: seq<Action>, a: Action)
    requires !ByThirdParty(a)
    ensures var s, t := After(run), Step(After(run), a); SameTargets(s, t) || CommitsOnce(s, t)
  {
    ReachableOk(run);
    var s := After(run);
    if Enabled(s, a) {
      if a.Patch? { PatchRespectsOthers(s, a.w, a.stored, a.acknowledged); } else { OnlyPatchesCommit(s, a); }
    }
  }

  // ---------------------------------------------------------------- at most one commit

  /** Each snapshot version is committed on at most once. */
  lemma {:induction false} OneCommitPerVersion(run: seq<Action>, i: nat, j: nat)
    requires i < |After(run).server.commits| && j < |After(run).server.commits|
    requires var a, b := After(run).server.commits[i], After(run).server.commits[j];
             Uid(a.before) == Uid(b.before) && Version(a.before) == Version(b.before)
    ensures i == j
  {
    ReachableOk(run);
    var sv := After(run).server;
    SameVersionSameCommit(sv, i, j);
  }

  lemma SameVersionSameCommit(sv: Server, i: nat, j: nat)
    requires ServerOk(sv) && i < |sv.commits| && j < |sv.commits|
    requires Uid(sv.commits[i].before) == Uid(sv.commits[j].before)
    requires Version(sv.commits[i].before) == Version(sv.commits[j].before)
    ensures i == j
  {
    var a, b := sv.commits[i], sv.commits[j];
    assert OnSnapshot(sv.births, sv.history, a) && OnSnapshot(sv.births, sv.history, b);
    assert Uid(sv.history[(a.key, Version(a.before))]) == Uid(sv.history[(b.key, Version(b.before))]);
  }

  /** Two Mutations whose snapshots name the same UID and resource version never both commit. */
  lemma {:induction false} SharedSnapshotCommitsOnce(run: seq<Action>, i: nat, j: nat)
    requires i < |After(run).server.commits| && j < |After(run).server.commits|
    requires var sv := After(run).server;
             var a, b := sv.commits[i].mutation, sv.commits[j].mutation;
             a in sv.births && b in sv.births && Uid(sv.births[a].origin) == Uid(sv.births[b].origin)
             && Version(sv.births[a].origin) == Version(sv.births[b].origin)
    ensures i == j
  {
    EveryCommitIsExact(run, i);
    EveryCommitIsExact(run, j);
    SnapshotIdentifies(After(run).server.commits[i].before);
    SnapshotIdentifies(After(run).server.commits[j].before);
    OneCommitPerVersion(run, i, j);
  }

  /** How often a Mutation has committed. */
  function CommitCount(commits: seq<Commit>, uid: string): nat {
    if commits == [] then 0
    else CommitCount(commits[..|commits| - 1], uid) + if commits[|commits| - 1].mutation == uid then 1 else 0
  }

  predicate CommitsOnlyOnce(commits: seq<Commit>) {
    forall i, j | 0 <= i < j < |commits| :: commits[i].mutation != commits[j].mutation
  }

  lemma {:induction false} CountPositive(commits: seq<Commit>, uid: string)
    ensures CommitCount(commits, uid) > 0 <==> exists i | 0 <= i < |commits| :: commits[i].mutation == uid
    ensures CommitsOnlyOnce(commits) ==> CommitCount(commits, uid) <= 1
    decreases |commits|
  {
    if commits != [] {
      var n := |commits| - 1;
      CountPositive(commits[..n], uid);
      assert commits == commits[..n] + [commits[n]];
    }
  }

  /** Retries, crashes, lost status updates and stale caches never make a Mutation commit twice. */
  lemma {:induction false} AtMostOneCommitEach(run: seq<Action>, uid: string)
    ensures CommitCount(After(run).server.commits, uid) <= 1
  {
    var sv := After(run).server;
    forall i, j | 0 <= i < j < |sv.commits| ensures sv.commits[i].mutation != sv.commits[j].mutation {
      EveryCommitIsExact(run, i);
      EveryCommitIsExact(run, j);
      if sv.commits[i].mutation == sv.commits[j].mutation { SharedSnapshotCommitsOnce(run, i, j); }
    }
    CountPositive(sv.commits, uid);
  }

  // ---------------------------------------------------------------- the grounds of a final phase

  /** What was committed was refused on no version with the same snapshot, for no revision in progress. */
  lemma CommittedWasNotRefused(sv: Server, i: nat, kv: (Key, string), v: string)
    requires ServerOk(sv) && i < |sv.commits| && sv.commits[i].mutation in sv.births
    ensures !RefusedOn(sv.history, sv.revisions, sv.commits[i].mutation, sv.births[sv.commits[i].mutation].origin, kv, v)
  {
    var c := sv.commits[i];
    var origin := sv.births[c.mutation].origin;
    assert OnSnapshot(sv.births, sv.history, c) && ForProposal(sv.revisions, c) && Approves(origin, c);
    if kv in sv.history && Snapshot(sv.history[kv]) == origin { SameSnapshotSameObject(sv.history, kv, c.before); }
  }

  lemma SameSnapshotSameObject(history: History, kv: (Key, string), o: Object)
    requires HistoryOk(history) && kv in history && Stored(history, o) && Snapshot(history[kv]) == Snapshot(o)
    ensures history[kv] == o
  {
    SnapshotIdentifies(history[kv]);
    SnapshotIdentifies(o);
    assert Uid(history[kv]) == Uid(history[(KeyOf(o), Version(o))]);
  }

  lemma ProposedByCommit(sv: Server, i: nat)
    requires ServerOk(sv) && i < |sv.commits|
    ensures !NeverProposed(sv.revisions, sv.commits[i].mutation)
  {
    assert ForProposal(sv.revisions, sv.commits[i]);
  }

  lemma NoCommitOnMerit(sv: Server, m: Mutation)
    requires ServerOk(sv) && Held(sv.revisions, m) && AbortedOnMerit(m)
    ensures CommitCount(sv.commits, m.uid) == 0
  {
    CountPositive(sv.commits, m.uid);
    HeldIsBorn(sv, m);
    assert Grounded(sv.history, sv.revisions, sv.revisions[m.version]);
    forall i | 0 <= i < |sv.commits| ensures sv.commits[i].mutation != m.uid {
      if sv.commits[i].mutation == m.uid {
        ProposedByCommit(sv, i);
        var kv, v :| RefusedOn(sv.history, sv.revisions, m.uid, m.origin, kv, v);
        CommittedWasNotRefused(sv, i, kv, v);
      }
    }
  }

  /**
   * When Aborted means that nothing was applied. Over all runs, a Mutation that was ever aborted for any
   * other reason than a changed UID or resource version has committed nothing, and never will.
   */
  lemma {:induction false} AbortedOnMeritNeverCommits(run: seq<Action>, v: string)
    requires v in After(run).server.revisions && AbortedOnMerit(After(run).server.revisions[v])
    ensures CommitCount(After(run).server.commits, After(run).server.revisions[v].uid) == 0
  {
    ReachableOk(run);
    assert Held(After(run).server.revisions, After(run).server.revisions[v]);
    NoCommitOnMerit(After(run).server, After(run).server.revisions[v]);
  }

  // ---------------------------------------------------------------- what a phase means

  /** The commit this status reports. */
  ghost predicate ReportsItsCommit(commits: seq<Commit>, m: Mutation) {
    && CommitCount(commits, m.uid) == 1 && m.verdict == ApprovedVerdict && m.applied
    && exists i | 0 <= i < |commits| ::
         commits[i].mutation == m.uid && m.changedPaths == PathsOf(commits[i].decision.changes)
  }

  /** A stored version of the snapshot's own Deployment with this version string that had rolled out. */
  predicate RolledOutAt(history: History, origin: Object, read: string) {
    && (KeyOf(origin), read) in history
    && var o := history[(KeyOf(origin), read)];
       Uid(o) == Uid(origin) && WellFormed(o) && RolledOut(o)
  }

  /** What Successful says about the target: a Deployment was seen rolled out. */
  ghost predicate WasReady(history: History, origin: Object) {
    GVKOf(origin) == DEPLOYMENT ==> exists read :: RolledOutAt(history, origin, read)
  }

  /** What the phase of a stored Mutation says about the persistent patches it made, and about the target. */
  ghost predicate PhaseMeans(sv: Server, m: Mutation) {
    match m.phase
    case NotStarted => CommitCount(sv.commits, m.uid) == 0 && !m.applied
    case InProgress => CommitCount(sv.commits, m.uid) <= 1 && !m.applied
    case Aborted =>
      CommitCount(sv.commits, m.uid) <= (if Superseded(m.note) then 1 else 0) && m.verdict == RejectedVerdict && !m.applied
    case Successful => ReportsItsCommit(sv.commits, m) && WasReady(sv.history, m.origin)
    case _ => ReportsItsCommit(sv.commits, m)
  }

  lemma NotStartedHasNoCommit(sv: Server, m: Mutation)
    requires ServerOk(sv) && m.name in sv.mutations && sv.mutations[m.name] == m && m.phase.NotStarted?
    ensures CommitCount(sv.commits, m.uid) == 0
  {
    CountPositive(sv.commits, m.uid);
    forall i | 0 <= i < |sv.commits| ensures sv.commits[i].mutation != m.uid {
      assert ForProposal(sv.revisions, sv.commits[i]);
    }
  }

  /** An executed Mutation was judged on a version with its snapshot's UID, so that is not empty. */
  lemma ExecutedIsIdentified(sv: Server, m: Mutation, i: nat)
    requires ServerOk(sv) && Held(sv.revisions, m) && i < |sv.commits| && sv.commits[i].mutation == m.uid
    ensures Uid(m.origin) != "" && m.origin == Snapshot(sv.commits[i].before) && Stored(sv.history, sv.commits[i].before)
  {
    var c := sv.commits[i];
    HeldIsBorn(sv, m);
    assert OnSnapshot(sv.births, sv.history, c) && Approves(sv.births[c.mutation].origin, c);
    Admitted(m.origin, c.before, c.proposed, 0);
  }

  lemma ReadyDeployment(history: History, m: Mutation, before: Object, read: string)
    requires HistoryOk(history) && Stored(history, before) && m.origin == Snapshot(before) && Uid(m.origin) != ""
    requires GVKOf(m.origin) == DEPLOYMENT && ReadyOn(history, m, read) == Some(true)
    ensures RolledOutAt(history, m.origin, read)
  {
    SnapshotIdentifies(before);
    var o := history[(RefKey(m), read)];
    assert Uid(o) == Uid(history[(KeyOf(before), Version(before))]);
  }

  lemma SuccessfulWasReady(sv: Server, m: Mutation)
    requires ServerOk(sv) && Held(sv.revisions, m) && m.phase.Successful?
    ensures WasReady(sv.history, m.origin)
  {
    HeldIsBorn(sv, m);
    assert Grounded(sv.history, sv.revisions, sv.revisions[m.version]);
    if GVKOf(m.origin) == DEPLOYMENT {
      var i :| 0 <= i < |sv.commits| && sv.commits[i].mutation == m.uid;
      ExecutedIsIdentified(sv, m, i);
      var read :| ReadyOn(sv.history, m, read) == Some(true);
      ReadyDeployment(sv.history, m, sv.commits[i].before, read);
    }
  }

  lemma ExecutedReports(commits: seq<Commit>, m: Mutation)
    requires StatusOk(commits, m) && Executed(m.phase) && CommitCount(commits, m.uid) <= 1
    ensures ReportsItsCommit(commits, m)
  {
    CountPositive(commits, m.uid);
  }

  lemma UnappliedMeans(sv: Server, m: Mutation)
    requires ServerOk(sv) && m.name in sv.mutations && sv.mutations[m.name] == m && !Executed(m.phase)
    requires StatusOk(sv.commits, m) && Held(sv.revisions, m) && CommitCount(sv.commits, m.uid) <= 1
    ensures PhaseMeans(sv, m)
  {
    if m.phase.NotStarted? { NotStartedHasNoCommit(sv, m); }
    if AbortedOnMerit(m) { NoCommitOnMerit(sv, m); }
  }

  lemma PhaseMeansIt(sv: Server, m: Mutation)
    requires ServerOk(sv) && m.name in sv.mutations && sv.mutations[m.name] == m
    requires StatusOk(sv.commits, m) && Held(sv.revisions, m) && CommitCount(sv.commits, m.uid) <= 1
    ensures PhaseMeans(sv, m)
  {
    if Executed(m.phase) {
      ExecutedReports(sv.commits, m);
      if m.phase.Successful? { SuccessfulWasReady(sv, m); }
    } else {
      UnappliedMeans(sv, m);
    }
  }

  /** The inductive reading of every stored phase, in every reachable state. */
  lemma {:induction false} StoredPhasesMeanWhatTheySay(run: seq<Action>, name: string)
    requires name in After(run).server.mutations
    ensures PhaseMeans(After(run).server, After(run).server.mutations[name])
  {
    ReachableOk(run);
    var sv := After(run).server;
    AtMostOneCommitEach(run, sv.mutations[name].uid);
    assert Held(sv.revisions, sv.mutations[name]);
    HeldIsBorn(sv, sv.mutations[name]);
    PhaseMeansIt(sv, sv.mutations[name]);
  }

  // ---------------------------------------------------------------- progress of the phases

  /** The phase the server stores for the Mutation with this UID. */
  function PhaseOf(s: State, uid: string): Option<Phase> {
    var sv := s.server;
    if uid in sv.births && sv.births[uid].name in sv.mutations && sv.mutations[sv.births[uid].name].uid == uid
    then Some(sv.mutations[sv.births[uid].name].phase)
    else None
  }

  /** A history with what is stored now, unless nothing is or it has not changed. */
  function WithPhase(h: seq<Phase>, now: Option<Phase>): seq<Phase> {
    if now.None? || (h != [] && h[|h| - 1] == now.value) then h else h + [now.value]
  }

  /** The phases the server stored for a Mutation during a run, in order. */
  function PhaseHistory(run: seq<Action>, uid: string): seq<Phase>
    decreases |run|
  {
    if run == [] then [] else WithPhase(PhaseHistory(run[..|run| - 1], uid), PhaseOf(After(run), uid))
  }

  /** Every phase of the history was the phase of some revision of this Mutation. */
  ghost predicate Recorded(revisions: Revisions, uid: string, p: Phase) {
    exists v | v in revisions :: revisions[v].uid == uid && revisions[v].phase == p
  }

  ghost predicate AllRecorded(revisions: Revisions, uid: string, h: seq<Phase>) {
    forall i | 0 <= i < |h| :: Recorded(revisions, uid, h[i])
  }

  /** Later phases come after all earlier ones, so no phase returns. */
  predicate Ascending(h: seq<Phase>) {
    forall i, j | 0 <= i < j < |h| :: MayPrecede(h[i], h[j]) && h[i] != h[j]
  }

  lemma AllRecordedStays(revisions: Revisions, later: Revisions, uid: string, h: seq<Phase>)
    requires Grown(revisions, later) && AllRecorded(revisions, uid, h)
    ensures AllRecorded(later, uid, h)
  {
    forall i | 0 <= i < |h| ensures Recorded(later, uid, h[i]) {
      assert Recorded(revisions, uid, h[i]);
      var v :| v in revisions && revisions[v].uid == uid && revisions[v].phase == h[i];
      assert v in later;
    }
  }

  lemma CurrentIsFurthest(s: State, uid: string, h: seq<Phase>)
    requires Ok(s) && PhaseOf(s, uid).Some? && AllRecorded(s.server.revisions, uid, h)
    ensures forall i | 0 <= i < |h| :: MayPrecede(h[i], PhaseOf(s, uid).value)
    ensures Recorded(s.server.revisions, uid, PhaseOf(s, uid).value)
  {
    var m := s.server.mutations[s.server.births[uid].name];
    assert Held(s.server.revisions, m);
    forall i | 0 <= i < |h| ensures MayPrecede(h[i], m.phase) {
      assert Recorded(s.server.revisions, uid, h[i]);
    }
  }

  /** MayPrecede is antisymmetric, so what has changed does not change back. */
  lemma NoReturn(p: Phase, q: Phase)
    requires MayPrecede(p, q) && MayPrecede(q, p)
    ensures p == q
  {
  }

  lemma AscendingAppend(h: seq<Phase>, p: Phase)
    requires Ascending(h) && (forall i | 0 <= i < |h| :: MayPrecede(h[i], p))
    requires h == [] || h[|h| - 1] != p
    ensures Ascending(h + [p])
  {
    forall i | 0 <= i < |h| ensures h[i] != p {
      if h[i] == p { NoReturn(h[|h| - 1], p); }
    }
  }

  lemma {:induction false} WithPhaseOk(revisions: Revisions, h: seq<Phase>, now: Option<Phase>, uid: string)
    requires Ascending(h) && AllRecorded(revisions, uid, h)
    requires now.Some? ==> Recorded(revisions, uid, now.value) && forall i | 0 <= i < |h| :: MayPrecede(h[i], now.value)
    ensures Ascending(WithPhase(h, now)) && AllRecorded(revisions, uid, WithPhase(h, now))
  {
    if now.Some? && (h == [] || h[|h| - 1] != now.value) { AscendingAppend(h, now.value); }
  }

  lemma HistoryStep(s: State, t: State, h: seq<Phase>, uid: string)
    requires Follows(s, t) && Ascending(h) && AllRecorded(s.server.revisions, uid, h)
    ensures Ascending(WithPhase(h, PhaseOf(t, uid))) && AllRecorded(t.server.revisions, uid, WithPhase(h, PhaseOf(t, uid)))
  {
    AllRecordedStays(s.server.revisions, t.server.revisions, uid, h);
    if PhaseOf(t, uid).Some? { CurrentIsFurthest(t, uid, h); }
    WithPhaseOk(t.server.revisions, h, PhaseOf(t, uid), uid);
  }

  lemma {:induction false} HistoryAscends(run: seq<Action>, uid: string)
    ensures Ascending(PhaseHistory(run, uid))
    ensures AllRecorded(After(run).server.revisions, uid, PhaseHistory(run, uid))
    decreases |run|
  {
    if run != [] {
      var before := run[..|run| - 1];
      HistoryAscends(before, uid);
      ReachableOk(before);
      StepOk(After(before), run[|run| - 1]);
      HistoryStep(After(before), After(run), PhaseHistory(before, uid), uid);
    }
  }

  lemma {:induction false} AscendingIsShort(h: seq<Phase>)
    requires Ascending(h) && h != []
    ensures |h| <= Level(h[|h| - 1]) + 1
    decreases |h|
  {
    if |h| > 1 {
      AscendingIsShort(h[..|h| - 1]);
      PhaseOrder(h[|h| - 2], h[|h| - 2], h[|h| - 1]);
    }
  }

  /**
   * Phase progress. Over any run, with any number of passes, lost replies and stale reads, the stored
   * phases of a Mutation only move forward, none returns, and there are at most four changes.
   */
  lemma {:induction false} PhasesOnlyMoveForward(run: seq<Action>, uid: string)
    ensures Ascending(PhaseHistory(run, uid)) && |PhaseHistory(run, uid)| <= 5
  {
    HistoryAscends(run, uid);
    if PhaseHistory(run, uid) != [] { AscendingIsShort(PhaseHistory(run, uid)); }
  }

  lemma FinalIsLast(h: seq<Phase>, i: nat)
    requires Ascending(h) && i < |h| && (h[i].Successful? || h[i].Aborted?)
    ensures i == |h| - 1
  {
    var last := h[|h| - 1];
    assert MayPrecede(h[i], last) ==> h[i] == last;
  }

  /** Once Successful or Aborted is stored, no other phase of this Mutation ever is. */
  lemma {:induction false} FinalPhasesAbsorb(run: seq<Action>, uid: string, i: nat)
    requires i < |PhaseHistory(run, uid)|
    requires PhaseHistory(run, uid)[i].Successful? || PhaseHistory(run, uid)[i].Aborted?
    ensures i == |PhaseHistory(run, uid)| - 1
  {
    HistoryAscends(run, uid);
    FinalIsLast(PhaseHistory(run, uid), i);
  }
}
