/**
 * What the pipeline can do: an undisturbed pass applies a compact answer, a lost reply ends Aborted
 * although the patch was applied, and a deleted Mutation still commits.
 */
module PipelineScenarios {
  import opened Strings
  import opened Json
  import opened Diff
  import opened Gate
  import opened GateProofs
  import opened ImageProposal
  import opened Pipeline
  import opened PipelineInvariant
  import opened PipelineCommit
  import opened PipelineTheorems

  /** The state after more actions. */
  function Steps(s: State, run: seq<Action>): State
    decreases |run|
  {
    if run == [] then s else Steps(Step(s, run[0]), run[1..])
  }

  lemma {:induction false} StepsOne(s: State, a: Action, rest: seq<Action>)
    ensures Steps(s, [a] + rest) == Steps(Step(s, a), rest)
  {
    Tail(a, rest);
  }

  /** What the server holds and where this worker is. */
  predicate Reached(s: State, sv: Server, w: nat, k: Worker) {
    s.server == sv && WorkerOf(s, w) == k
  }

  // ---------------------------------------------------------------- one step of an undisturbed pass

  lemma LoadStep(s: State, sv: Server, w: nat, m: Mutation)
    requires Reached(s, sv, w, Idle) && Held(sv.revisions, m)
    ensures Reached(Step(s, Load(w, m.version)), sv, w, Loaded(m))
  {
  }

  lemma PrepareStep(s: State, sv: Server, w: nat, m: Mutation, version: string)
    requires Reached(s, sv, w, Loaded(m)) && !MustDropFinalizer(m)
    ensures Reached(Step(s, Prepare(w, version)), sv, w, Ready(m))
  {
  }

  lemma ProposeStep(s: State, sv: Server, w: nat, m: Mutation, response: Response)
    requires Reached(s, sv, w, Ready(m)) && m.phase.NotStarted?
    ensures Reached(Step(s, Propose(w, response)), sv, w, Writing(m, ProposedBy(m, response)))
  {
  }

  /** What the gate answers to this proposal for this version. */
  function Judged(m: Mutation, live: Object, proposed: Object): Judgement {
    Judgement(live, proposed, DecisionOn(m, live, proposed))
  }

  lemma JudgeEnabled(s: State, sv: Server, w: nat, m: Mutation, live: Object, proposed: Object)
    requires Reached(s, sv, w, Ready(m)) && m.phase.InProgress? && ProposedFor(m) == Some(proposed)
    requires KeyOf(proposed) == KeyOf(live) && Stored(sv.history, live)
    ensures Enabled(s, Judge(w, Version(live)))
  {
  }

  lemma JudgeStep(s: State, sv: Server, w: nat, m: Mutation, live: Object, proposed: Object)
    requires Reached(s, sv, w, Ready(m)) && m.phase.InProgress? && ProposedFor(m) == Some(proposed)
    requires KeyOf(proposed) == KeyOf(live) && Stored(sv.history, live)
    ensures var j := Judged(m, live, proposed);
            Reached(Step(s, Judge(w, Version(live))), sv, w,
                    if j.decision.allowed then Approved(m, j) else Writing(m, RejectedBy(m, j.decision)))
  {
    JudgeEnabled(s, sv, w, m, live, proposed);
  }

  lemma DryRunEnabled(s: State, sv: Server, w: nat, m: Mutation, j: Judgement)
    requires Reached(s, sv, w, Approved(m, j)) && ServerPatched(sv, j).Some?
    ensures Enabled(s, DryRun(w))
  {
  }

  lemma DryRunNext(s: State, w: nat, m: Mutation, j: Judgement)
    requires WorkerOf(s, w) == Approved(m, j) && Enabled(s, DryRun(w))
    ensures Step(s, DryRun(w)) == WithWorker(s, s.server, w, Validated(m, j))
  {
  }

  lemma DryRunStep(s: State, sv: Server, w: nat, m: Mutation, j: Judgement)
    requires Reached(s, sv, w, Approved(m, j)) && ServerPatched(sv, j).Some?
    ensures Step(s, DryRun(w)) == WithWorker(s, sv, w, Validated(m, j))
  {
    DryRunEnabled(s, sv, w, m, j);
    DryRunNext(s, w, m, j);
  }

  lemma UpdateStep(s: State, sv: Server, w: nat, m: Mutation, next: Mutation, version: string)
    requires Reached(s, sv, w, Writing(m, next)) && Current(sv, m) && FreshVersion(sv, version)
    requires next != m && !Released(next)
    ensures Reached(Step(s, Update(w, version)), StoreMutation(sv, next.(version := version)), w, Idle)
  {
  }

  /** The current target is the judged one, the patch applies to it, and the server may store the outcome. */
  ghost predicate CanPatch(sv: Server, j: Judgement, stored: Object) {
    var patched := Patched(j.live, j.proposed);
    && KeyOf(j.live) in sv.targets && sv.targets[KeyOf(j.live)] == j.live && ServerPatched(sv, j) == patched
    && patched.Some? && patched.value.Map? && patched.value != j.live
    && Stamped(patched.value, stored) && MayStore(sv, KeyOf(j.live), stored)
  }

  lemma PatchEnabled(s: State, sv: Server, w: nat, m: Mutation, j: Judgement, stored: Object, acknowledged: bool)
    requires Reached(s, sv, w, Validated(m, j)) && CanPatch(sv, j, stored)
    ensures Enabled(s, Patch(w, stored, acknowledged))
  {
  }

  lemma PatchStep(s: State, sv: Server, w: nat, m: Mutation, j: Judgement, stored: Object, acknowledged: bool)
    requires Reached(s, sv, w, Validated(m, j)) && CanPatch(sv, j, stored)
    ensures Reached(Step(s, Patch(w, stored, acknowledged)), CommitPatch(sv, m, j, stored), w,
                    if acknowledged then Writing(m, CompletedBy(m, j.decision)) else Idle)
  {
    PatchEnabled(s, sv, w, m, j, stored, acknowledged);
  }

  // ---------------------------------------------------------------- from judgement to patch

  lemma SameIdentitySameKey(a: Object, b: Object)
    requires SameIdentity(a, b)
    ensures KeyOf(a) == KeyOf(b)
  {
  }

  lemma {:induction false} TestPassesOnItself(live: Object, decision: Decision)
    requires Version(live) != ""
    ensures ApplyPatch(live, TestedPatch(live, decision)) == ApplyPatch(live, decision.patch)
  {
    LookupExists(live, RESOURCE_VERSION);
    TestFirst(live, RESOURCE_VERSION, Str(Version(live)), decision.patch);
  }

  lemma AllowedPatch(m: Mutation, live: Object, proposed: Object)
    requires DecisionOn(m, live, proposed).allowed
    ensures Patched(live, proposed).Some? && Patched(live, proposed).value.Map? && Patched(live, proposed).value != live
    ensures ApplyPatch(live, DecisionOn(m, live, proposed).patch) == Patched(live, proposed)
    ensures Version(live) != "" && KeyOf(proposed) == KeyOf(live)
  {
    Admitted(m.origin, live, proposed, 0);
    SameIdentitySameKey(proposed, live);
    AdmittedPatchIsTheProposal(m.origin, live, proposed, 0);
    AdmittedPatchIsEffective(m.origin, live, proposed, 0);
  }

  /** What an undisturbed pass needs to change the current version of its target. */
  ghost predicate CanApply(sv: Server, m: Mutation, j: Judgement, stored: Object) {
    && JudgementOk(sv.history, m, j)
    && KeyOf(j.live) in sv.targets && sv.targets[KeyOf(j.live)] == j.live
    && (Patched(j.live, j.proposed).Some? && Patched(j.live, j.proposed).value.Map? ==>
          Stamped(Patched(j.live, j.proposed).value, stored))
    && MayStore(sv, KeyOf(j.live), stored)
  }

  lemma ApplicablePatch(sv: Server, m: Mutation, j: Judgement, stored: Object)
    requires CanApply(sv, m, j, stored)
    ensures CanPatch(sv, j, stored) && KeyOf(j.proposed) == KeyOf(j.live)
  {
    AllowedPatch(m, j.live, j.proposed);
    TestPassesOnItself(j.live, j.decision);
  }

  /** Undisturbed, a pass judges, validates and patches. */
  lemma ApplySteps(s: State, sv: Server, w: nat, m: Mutation, j: Judgement, stored: Object)
    requires Reached(s, sv, w, Ready(m)) && CanApply(sv, m, j, stored)
    ensures Reached(Step(Step(Step(s, Judge(w, Version(j.live))), DryRun(w)), Patch(w, stored, true)),
                    CommitPatch(sv, m, j, stored), w, Writing(m, CompletedBy(m, j.decision)))
  {
    ApplicablePatch(sv, m, j, stored);
    var s1 := Step(s, Judge(w, Version(j.live)));
    JudgeStep(s, sv, w, m, j.live, j.proposed);
    DryRunStep(s1, sv, w, m, j);
    PatchStep(Step(s1, DryRun(w)), sv, w, m, j, stored, true);
  }

  lemma PatchingRecords(sv: Server, m: Mutation, j: Judgement, stored: Object)
    requires KeyOf(j.live) in sv.targets
    ensures CommitCount(CommitPatch(sv, m, j, stored).commits, m.uid) >= 1
  {
    var commits := CommitPatch(sv, m, j, stored).commits;
    assert commits[|sv.commits|].mutation == m.uid;
    CountPositive(commits, m.uid);
  }

  // ---------------------------------------------------------------- a lost reply

  /** After its commit a Mutation is rejected on every other version of the target. */
  lemma LaterVersionIsRejected(m: Mutation, live: Object, proposed: Object, stored: Object)
    requires DecisionOn(m, live, proposed).allowed && Version(stored) != Version(live)
    ensures !DecisionOn(m, stored, proposed).allowed
  {
    Admitted(m.origin, live, proposed, 0);
  }

  /** The retry of a pass whose patch is in but whose reply was lost. */
  lemma RetryAborts(s: State, sv: Server, w: nat, m: Mutation, stored: Object, proposed: Object, version: string)
    requires Reached(s, sv, w, Idle) && Held(sv.revisions, m) && Current(sv, m) && !m.deleting
    requires m.phase.InProgress? && ProposedFor(m) == Some(proposed) && !DecisionOn(m, stored, proposed).allowed
    requires KeyOf(proposed) == KeyOf(stored) && Stored(sv.history, stored) && FreshVersion(sv, version)
    ensures Reached(Step(Step(Step(Step(s, Load(w, m.version)), Prepare(w, version)), Judge(w, Version(stored))),
                         Update(w, version)),
                    StoreMutation(sv, RejectedBy(m, DecisionOn(m, stored, proposed)).(version := version)), w, Idle)
  {
    var s1 := Step(s, Load(w, m.version));
    var s2 := Step(s1, Prepare(w, version));
    LoadStep(s, sv, w, m);
    PrepareStep(s1, sv, w, m, version);
    JudgeStep(s2, sv, w, m, stored, proposed);
    UpdateStep(Step(s2, Judge(w, Version(stored))), sv, w, m, RejectedBy(m, DecisionOn(m, stored, proposed)), version);
  }

  function RetryAfterLostReply(w: nat, m: Mutation, stored: Object, version: string): seq<Action> {
    [Patch(w, stored, false), Load(w, m.version), Prepare(w, version), Judge(w, Version(stored)), Update(w, version)]
  }

  lemma StepsFive(s: State, a: Action, b: Action, c: Action, d: Action, e: Action)
    ensures Steps(s, [a, b, c, d, e]) == Step(Step(Step(Step(Step(s, a), b), c), d), e)
  {
    assert [a, b, c, d, e] == [a] + ([b] + ([c] + ([d] + ([e] + []))));
    StepsOne(s, a, [b] + ([c] + ([d] + ([e] + []))));
    StepsOne(Step(s, a), b, [c] + ([d] + ([e] + [])));
    StepsOne(Step(Step(s, a), b), c, [d] + ([e] + []));
    StepsOne(Step(Step(Step(s, a), b), c), d, [e] + []);
    StepsOne(Step(Step(Step(Step(s, a), b), c), d), e, []);
  }

  /** The Mutation as the retry leaves it. */
  predicate AbortedDespiteItsCommit(sv: Server, m: Mutation, live: Object, stored: Object) {
    && m.name in sv.mutations && sv.mutations[m.name].uid == m.uid
    && sv.mutations[m.name].phase.Aborted? && !sv.mutations[m.name].applied
    && KeyOf(live) in sv.targets && sv.targets[KeyOf(live)] == stored && CommitCount(sv.commits, m.uid) >= 1
  }

  /** The patch replaced the version, so the retry reads another one and is rejected. */
  lemma StaleAfterPatch(sv: Server, m: Mutation, j: Judgement, stored: Object)
    requires CanApply(sv, m, j, stored)
    ensures KeyOf(stored) == KeyOf(j.live) == KeyOf(j.proposed) && !DecisionOn(m, stored, j.proposed).allowed
    ensures Stored(CommitPatch(sv, m, j, stored).history, stored)
  {
    AllowedPatch(m, j.live, j.proposed);
    LaterVersionIsRejected(m, j.live, j.proposed, stored);
  }

  lemma RetryOutcome(t: State, later: Server, w: nat, m: Mutation, live: Object, proposed: Object, stored: Object, version: string)
    requires Reached(t, later, w, Idle) && Held(later.revisions, m) && Current(later, m) && !m.deleting
    requires m.phase.InProgress? && !m.applied && ProposedFor(m) == Some(proposed) && !DecisionOn(m, stored, proposed).allowed
    requires KeyOf(proposed) == KeyOf(stored) && Stored(later.history, stored) && FreshVersion(later, version)
    requires KeyOf(live) in later.targets && later.targets[KeyOf(live)] == stored && CommitCount(later.commits, m.uid) >= 1
    ensures AbortedDespiteItsCommit(
              Step(Step(Step(Step(t, Load(w, m.version)), Prepare(w, version)), Judge(w, Version(stored))),
                   Update(w, version)).server, m, live, stored)
  {
    RetryAborts(t, later, w, m, stored, proposed, version);
  }

  /**
   * Aborted does not mean that nothing was applied. From every state in which a pass is about to make
   * the persistent patch for a current Mutation, losing the reply and retrying undisturbed leaves the
   * target patched and the Mutation Aborted, although it committed.
   */
  lemma LostReplyEndsAborted(s: State, w: nat, m: Mutation, j: Judgement, stored: Object, version: string)
    requires WorkerOf(s, w) == Validated(m, j) && CanApply(s.server, m, j, stored) && !m.applied
    requires Held(s.server.revisions, m) && Current(s.server, m) && !m.deleting && FreshVersion(s.server, version)
    ensures AbortedDespiteItsCommit(Steps(s, RetryAfterLostReply(w, m, stored, version)).server, m, j.live, stored)
  {
    var sv := s.server;
    ApplicablePatch(sv, m, j, stored);
    PatchStep(s, sv, w, m, j, stored, false);
    StaleAfterPatch(sv, m, j, stored);
    PatchingRecords(sv, m, j, stored);
    RetryOutcome(Step(s, Patch(w, stored, false)), CommitPatch(sv, m, j, stored), w, m, j.live, j.proposed, stored, version);
    StepsFive(s, Patch(w, stored, false), Load(w, m.version), Prepare(w, version), Judge(w, Version(stored)), Update(w, version));
  }

  // ---------------------------------------------------------------- a deleted Mutation

  lemma PrepareDropStep(s: State, sv: Server, w: nat, m: Mutation, version: string)
    requires Reached(s, sv, w, Loaded(m)) && MustDropFinalizer(m) && Current(sv, m) && FreshVersion(sv, version)
    requires WithoutFinalizer(m.finalizers, FINALIZER) == []
    ensures var next := m.(finalizers := [], version := version);
            Reached(Step(s, Prepare(w, version)),
                    StoreMutation(sv, next).(mutations := StoreMutation(sv, next).mutations - {m.name}), w, Ready(next))
  {
  }

  /** What the released pass leaves behind. */
  ghost predicate CommittedWithoutARecord(t: State, w: nat, m: Mutation, live: Object, stored: Object) {
    && m.name !in t.server.mutations
    && KeyOf(live) in t.server.targets && t.server.targets[KeyOf(live)] == stored
    && CommitCount(t.server.commits, m.uid) >= 1
    && WorkerOf(t, w).Writing? && !Current(t.server, WorkerOf(t, w).m)
  }

  lemma StepsFour(s: State, a: Action, b: Action, c: Action, d: Action)
    ensures Steps(s, [a, b, c, d]) == Step(Step(Step(Step(s, a), b), c), d)
  {
    assert [a, b, c, d] == [a] + ([b] + ([c] + ([d] + [])));
    StepsOne(s, a, [b] + ([c] + ([d] + [])));
    StepsOne(Step(s, a), b, [c] + ([d] + []));
    StepsOne(Step(Step(s, a), b), c, [d] + []);
    StepsOne(Step(Step(Step(s, a), b), c), d, []);
  }

  /**
   * Deleting a Mutation does not stop the pass that releases it. Removing the last finalizer ends the
   * object, the same pass goes on to patch the target, and the outcome can never be recorded.
   */
  lemma DeletedMutationStillCommits(s: State, w: nat, m: Mutation, j: Judgement, stored: Object, version: string)
    requires WorkerOf(s, w) == Loaded(m) && MustDropFinalizer(m) && Current(s.server, m) && FreshVersion(s.server, version)
    requires WithoutFinalizer(m.finalizers, FINALIZER) == [] && CanApply(s.server, m, j, stored)
    ensures CommittedWithoutARecord(
              Steps(s, [Prepare(w, version), Judge(w, Version(j.live)), DryRun(w), Patch(w, stored, true)]), w, m, j.live, stored)
  {
    var next := m.(finalizers := [], version := version);
    var sv := StoreMutation(s.server, next);
    sv := sv.(mutations := sv.mutations - {m.name});
    PrepareDropStep(s, s.server, w, m, version);
    assert CanApply(sv, next, j, stored);
    ApplySteps(Step(s, Prepare(w, version)), sv, w, next, j, stored);
    PatchingRecords(sv, next, j, stored);
    StepsFour(s, Prepare(w, version), Judge(w, Version(j.live)), DryRun(w), Patch(w, stored, true));
  }
}
