/** The persistent patch: what a successful one proves about the server at that moment. */
module PipelineCommit {
  import opened Strings
  import opened Pointer
  import opened Json
  import opened Diff
  import opened Gate
  import opened GateProofs
  import opened Pipeline
  import opened PipelineInvariant

  // ---------------------------------------------------------------- the snapshot decides the version

  lemma WithoutMetaKeeps(o: Object, keys: seq<string>, field: string)
    requires field !in keys
    ensures Text(WithoutMeta(o, keys), [META, field]) == Text(o, [META, field])
  {
    LookupTwo(o, META, field);
    LookupTwo(WithoutMeta(o, keys), META, field);
    if META in o.fields { KidOfDrop(o.fields[META], keys, field); }
  }

  lemma WithoutMetaKeepsGVK(o: Object, keys: seq<string>)
    ensures GVKOf(WithoutMeta(o, keys)) == GVKOf(o)
  {
    forall t | t != META ensures Text(WithoutMeta(o, keys), [t]) == Text(o, [t]) {
      LookupOne(o, t);
      LookupOne(WithoutMeta(o, keys), t);
    }
  }

  /** The snapshot identifies the version it was taken from. */
  lemma SnapshotIdentifies(o: Object)
    ensures Uid(Snapshot(o)) == Uid(o) && Version(Snapshot(o)) == Version(o) && KeyOf(Snapshot(o)) == KeyOf(o)
  {
    var keys := ["managedFields"];
    WithoutMetaKeeps(o, keys, "uid");
    WithoutMetaKeeps(o, keys, "resourceVersion");
    WithoutMetaKeeps(o, keys, "namespace");
    WithoutMetaKeeps(o, keys, "name");
    WithoutMetaKeepsGVK(o, keys);
  }

  lemma SnapshotSameIdentity(o: Object)
    ensures SameIdentity(Snapshot(o), o)
  {
    var keys := ["managedFields"];
    WithoutMetaKeeps(o, keys, "namespace");
    WithoutMetaKeeps(o, keys, "name");
    LookupOne(o, "apiVersion");
    LookupOne(Snapshot(o), "apiVersion");
    LookupOne(o, "kind");
    LookupOne(Snapshot(o), "kind");
  }

  /** UID and resource version determine a stored version. */
  lemma SameVersion(history: History, origin: Object, live: Object)
    requires HistoryOk(history) && Stored(history, live) && Witnessed(history, origin)
    requires Uid(origin) == Uid(live) && Version(origin) == Version(live)
    ensures origin == Snapshot(live)
  {
    var kv :| kv in history && origin == Snapshot(history[kv]);
    SnapshotIdentifies(history[kv]);
    var here := (KeyOf(live), Version(live));
    assert Uid(history[kv]) == Uid(history[here]);
    assert kv == here;
  }

  /** A snapshot that matches a stored version was taken from that very version. */
  lemma MatchingOrigin(history: History, origin: Object, live: Object)
    requires HistoryOk(history) && Stored(history, live) && Witnessed(history, origin)
    requires LiveMismatch(origin, live).None?
    ensures origin == Snapshot(live)
  {
    SameVersion(history, origin, live);
  }

  // ---------------------------------------------------------------- the test operation

  /** A leading test lets the rest of the patch through, or fails all of it. */
  lemma {:induction false} TestFirst(x: Value, loc: Location, expected: Value, ops: seq<PatchOperation>)
    ensures ApplyPatch(x, [Test(Render(loc), expected)] + ops) ==
            if Exists(x, loc) && Lookup(x, loc) == expected then ApplyPatch(x, ops) else None
  {
    ParseOfRender(loc);
    Tail(Test(Render(loc), expected), ops);
  }

  /** The patch applies only to an object of the tested version, and then does what follows the test. */
  lemma {:induction false} TestedVersion(x: Object, live: Object, decision: Decision)
    requires ApplyPatch(x, TestedPatch(live, decision)).Some?
    ensures Version(x) == Version(live)
    ensures ApplyPatch(x, TestedPatch(live, decision)) == ApplyPatch(x, decision.patch)
  {
    TestFirst(x, RESOURCE_VERSION, Str(Version(live)), decision.patch);
  }

  lemma CurrentVersion(sv: Server, live: Object)
    requires TargetsOk(sv.targets, sv.history) && Stored(sv.history, live)
    requires KeyOf(live) in sv.targets && Version(sv.targets[KeyOf(live)]) == Version(live)
    ensures sv.targets[KeyOf(live)] == live
  {
    assert Stored(sv.history, sv.targets[KeyOf(live)]);
  }

  /** The version the worker judged is still the stored one, and the patch is effective on it. */
  lemma PatchHitsJudgedVersion(sv: Server, m: Mutation, j: Judgement)
    requires TargetsOk(sv.targets, sv.history) && JudgementOk(sv.history, m, j)
    requires ServerPatched(sv, j).Some?
    ensures sv.targets[KeyOf(j.live)] == j.live
    ensures ServerPatched(sv, j) == Patched(j.live, j.proposed)
    ensures Patched(j.live, j.proposed).value.Map? && Patched(j.live, j.proposed).value != j.live
  {
    TestedVersion(sv.targets[KeyOf(j.live)], j.live, j.decision);
    CurrentVersion(sv, j.live);
    AdmittedPatchIsTheProposal(m.origin, j.live, j.proposed, 0);
    AdmittedPatchIsEffective(m.origin, j.live, j.proposed, 0);
  }

  lemma HeldIsBorn(sv: Server, m: Mutation)
    requires ServerOk(sv) && Held(sv.revisions, m)
    ensures Born(sv.births, m) && StatusOk(sv.commits, m) && Witnessed(sv.history, sv.births[m.uid].origin)
  {
    assert StatusOk(sv.commits, sv.revisions[m.version]);
  }

  lemma OriginIsSnapshot(sv: Server, m: Mutation, j: Judgement)
    requires ServerOk(sv) && Held(sv.revisions, m) && JudgementOk(sv.history, m, j)
    ensures m.uid in sv.births && sv.births[m.uid].origin == m.origin == Snapshot(j.live)
  {
    HeldIsBorn(sv, m);
    Admitted(m.origin, j.live, j.proposed, 0);
    MatchingOrigin(sv.history, m.origin, j.live);
  }

  // ---------------------------------------------------------------- the commit keeps the invariant

  lemma NewSnapshotOk(commits: seq<Commit>, c: Commit, births: Births, history: History, later: History)
    requires SnapshotsOk(commits, births, history) && Grown(history, later) && OnSnapshot(births, later, c)
    ensures SnapshotsOk(commits + [c], births, later)
  {
    SnapshotsStay(commits, births, history, births, later);
    var all := commits + [c];
    forall i | 0 <= i < |all| ensures OnSnapshot(births, later, all[i]) {
      if i < |commits| { assert all[i] == commits[i]; }
    }
  }

  lemma NewApprovalOk(commits: seq<Commit>, c: Commit, births: Births)
    requires ApprovalsOk(commits, births) && c.mutation in births && Approves(births[c.mutation].origin, c)
    ensures ApprovalsOk(commits + [c], births)
  {
    var all := commits + [c];
    forall i | 0 <= i < |all| ensures all[i].mutation in births && Approves(births[all[i].mutation].origin, all[i]) {
      if i < |commits| { assert all[i] == commits[i]; }
    }
  }

  lemma NewProposalOk(commits: seq<Commit>, c: Commit, revisions: Revisions)
    requires ProposalsOk(commits, revisions) && ForProposal(revisions, c)
    ensures ProposalsOk(commits + [c], revisions)
  {
    var all := commits + [c];
    forall i | 0 <= i < |all| ensures ForProposal(revisions, all[i]) {
      if i < |commits| { assert all[i] == commits[i]; }
    }
  }

  /** The replaced version was current, so no earlier commit replaced it, and no later one can. */
  lemma NewCommitDistinct(commits: seq<Commit>, c: Commit, targets: map<Key, Object>, after: map<Key, Object>)
    requires SupersededOk(commits, targets) && DistinctOk(commits) && SupersededOk(commits, after)
    requires c.key in targets && targets[c.key] == c.before
    requires c.key in after && Version(after[c.key]) != Version(c.before)
    ensures DistinctOk(commits + [c]) && SupersededOk(commits + [c], after)
  {
    var all := commits + [c];
    forall i, j | 0 <= i < j < |all|
      ensures all[i].key != all[j].key || Version(all[i].before) != Version(all[j].before)
    {
      assert all[i] == commits[i];
    }
    forall i | 0 <= i < |all| && all[i].key in after ensures Version(after[all[i].key]) != Version(all[i].before) {
      if i < |commits| { assert all[i] == commits[i]; }
    }
  }

  /** What makes a commit the exact one. */
  ghost predicate ExactCommit(sv: Server, c: Commit, stored: Object) {
    && c.key in sv.targets && sv.targets[c.key] == c.before && c.after == stored
    && c.mutation in sv.births && sv.births[c.mutation].origin == Snapshot(c.before)
    && c.key == KeyOf(c.before) && Stored(sv.history, c.before)
    && ForProposal(sv.revisions, c) && Approves(sv.births[c.mutation].origin, c)
  }

  lemma CommitIsExact(sv: Server, m: Mutation, j: Judgement, stored: Object)
    requires ServerOk(sv) && Held(sv.revisions, m) && JudgementOk(sv.history, m, j)
    requires ServerPatched(sv, j).Some?
    requires Patched(j.live, j.proposed).Some? && Patched(j.live, j.proposed).value.Map?
    requires Stamped(Patched(j.live, j.proposed).value, stored)
    ensures ExactCommit(sv, CommitOf(m, j, stored), stored)
  {
    PatchHitsJudgedVersion(sv, m, j);
    OriginIsSnapshot(sv, m, j);
  }

  lemma CommitOnSnapshot(sv: Server, c: Commit, stored: Object)
    requires ExactCommit(sv, c, stored) && KeyOf(stored) == c.key && (c.key, Version(stored)) !in sv.history
    ensures OnSnapshot(sv.births, StoreObject(sv, c.key, stored).history, c)
  {
  }

  lemma StoreCommitDistinct(sv: Server, c: Commit, stored: Object)
    requires CommitsOk(sv) && ExactCommit(sv, c, stored) && MayStore(sv, c.key, stored)
    ensures DistinctOk(sv.commits + [c]) && SupersededOk(sv.commits + [c], StoreObject(sv, c.key, stored).targets)
  {
    StoreObjectSupersedes(sv, c.key, stored);
    NewCommitDistinct(sv.commits, c, sv.targets, StoreObject(sv, c.key, stored).targets);
  }

  lemma StoreCommitJustified(sv: Server, c: Commit, stored: Object)
    requires CommitsOk(sv) && ExactCommit(sv, c, stored) && KeyOf(stored) == c.key && (c.key, Version(stored)) !in sv.history
    ensures SnapshotsOk(sv.commits + [c], sv.births, StoreObject(sv, c.key, stored).history)
    ensures ApprovalsOk(sv.commits + [c], sv.births) && ProposalsOk(sv.commits + [c], sv.revisions)
  {
    CommitOnSnapshot(sv, c, stored);
    NewSnapshotOk(sv.commits, c, sv.births, sv.history, StoreObject(sv, c.key, stored).history);
    NewApprovalOk(sv.commits, c, sv.births);
    NewProposalOk(sv.commits, c, sv.revisions);
  }

  lemma StoreCommitOk(sv: Server, c: Commit, stored: Object)
    requires CommitsOk(sv) && ExactCommit(sv, c, stored) && MayStore(sv, c.key, stored)
    ensures CommitsOk(StoreObject(sv, c.key, stored).(commits := sv.commits + [c]))
  {
    StoreCommitDistinct(sv, c, stored);
    StoreCommitJustified(sv, c, stored);
  }

  lemma StoreCommitRecords(sv: Server, c: Commit)
    requires RecordsOk(sv)
    ensures RecordsOk(sv.(commits := sv.commits + [c]))
  {
    StatusesStay(sv.revisions, sv.commits, sv.commits + [c]);
  }

  lemma CommitPatchOk(sv: Server, c: Commit, stored: Object)
    requires ServerOk(sv) && ExactCommit(sv, c, stored) && MayStore(sv, c.key, stored)
    ensures Succeeds(sv, StoreObject(sv, c.key, stored).(commits := sv.commits + [c]))
  {
    StoreObjectOk(sv, c.key, stored);
    StoreCommitOk(sv, c, stored);
    StoreCommitRecords(sv, c);
  }
}
