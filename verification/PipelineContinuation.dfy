/** When a Mutation can still commit: whatever became of it, exactly as long as its snapshot is current. */
module PipelineContinuation {
  import opened Json
  import opened Gate
  import opened GateProofs
  import opened Pipeline
  import opened PipelineInvariant
  import opened PipelineCommit
  import opened PipelineSafety
  import opened PipelineTheorems
  import opened PipelineScenarios

  // ---------------------------------------------------------------- what the server can store

  /** The object under a new resource version. */
  function Restamped(o: Object, version: string): Object {
    var m := Get(o.fields, META);
    if m.Map? then Map(o.fields[META := Map(m.fields["resourceVersion" := Str(version)])]) else o
  }

  lemma RestampedKeeps(o: Object, version: string)
    requires Get(o.fields, META).Map?
    ensures Stamped(o, Restamped(o, version)) && Version(Restamped(o, version)) == version
    ensures Uid(Restamped(o, version)) == Uid(o) && KeyOf(Restamped(o, version)) == KeyOf(o)
  {
    var r := Restamped(o, version);
    assert WithoutMeta(o, STAMPS).fields == WithoutMeta(r, STAMPS).fields by {
      assert Drop(Get(o.fields, META), STAMPS).fields == Drop(Get(r.fields, META), STAMPS).fields;
    }
    SameObjectTexts(o, r);
    LookupTwo(r, META, "resourceVersion");
  }

  lemma SameObjectTexts(o: Object, r: Object)
    requires Kid(o, "apiVersion") == Kid(r, "apiVersion") && Kid(o, "kind") == Kid(r, "kind")
    requires forall t | t != "resourceVersion" :: Kid(Kid(o, META), t) == Kid(Kid(r, META), t)
    ensures Uid(r) == Uid(o) && KeyOf(r) == KeyOf(o)
  {
    LookupOne(o, "apiVersion");
    LookupOne(r, "apiVersion");
    LookupOne(o, "kind");
    LookupOne(r, "kind");
    LookupTwo(o, META, "name");
    LookupTwo(r, META, "name");
    LookupTwo(o, META, "namespace");
    LookupTwo(r, META, "namespace");
    LookupTwo(o, META, "uid");
    LookupTwo(r, META, "uid");
  }

  /** A length no used string has. */
  lemma LongerThanAll(used: set<string>) returns (n: nat)
    ensures n > 0 && forall s | s in used :: |s| < n
  {
    n := 1;
    if used != {} {
      var s :| s in used;
      n := LongerThanAll(used - {s});
      if n <= |s| { n := |s| + 1; }
    }
  }

  /** There is always another resource version to give. */
  lemma UnusedVersion(history: History, key: Key) returns (version: string)
    ensures version != "" && (key, version) !in history
  {
    var used := set kv | kv in history :: kv.1;
    var n := LongerThanAll(used);
    version := seq(n, _ => '0');
    assert forall kv | kv in history :: kv.1 in used;
    assert forall kv | kv in history :: |kv.1| < n;
  }

  /** A patched object is still a named one of the same key and UID. */
  lemma PatchedKeepsKey(m: Mutation, live: Object, proposed: Object)
    requires DecisionOn(m, live, proposed).allowed && KeyOf(live).name != ""
    ensures Patched(live, proposed).Some? && Patched(live, proposed).value.Map?
    ensures var w := Patched(live, proposed).value;
            Get(w.fields, META).Map? && Uid(w) == Uid(live) && KeyOf(w) == KeyOf(live) && Uid(live) != ""
  {
    AdmittedPatchKeepsPermissions(m.origin, live, proposed, 0);
    Admitted(m.origin, live, proposed, 0);
    var w := Patched(live, proposed).value;
    assert "uid" in BOOKKEEPING;
    assert Lookup(w, UID) == Lookup(live, UID);
    NamedHasMetadata(w);
    LookupOne(w, META);
  }

  /** The patched object under another resource version can be stored in place of the judged one. */
  lemma PatchedCanBeStored(sv: Server, m: Mutation, live: Object, proposed: Object, version: string)
    requires HistoryOk(sv.history) && Stored(sv.history, live) && DecisionOn(m, live, proposed).allowed
    requires KeyOf(live) in sv.targets && sv.targets[KeyOf(live)] == live
    requires version != "" && (KeyOf(live), version) !in sv.history
    ensures Patched(live, proposed).Some? && Patched(live, proposed).value.Map?
    ensures var stored := Restamped(Patched(live, proposed).value, version);
            Stamped(Patched(live, proposed).value, stored) && MayStore(sv, KeyOf(live), stored)
  {
    assert KeyOf(live).name != "";
    PatchedKeepsKey(m, live, proposed);
    RestampedKeeps(Patched(live, proposed).value, version);
  }

  // ---------------------------------------------------------------- as long as the snapshot is current

  /** The server still holds this version of the target. */
  predicate IsCurrent(sv: Server, live: Object) {
    KeyOf(live) in sv.targets && sv.targets[KeyOf(live)] == live
  }

  /** A pass of its own, from reading the revision to the patch. */
  function FreshPass(w: nat, v: string, live: Object, stored: Object): seq<Action> {
    [Abandon(w), Load(w, v), Prepare(w, ""), Judge(w, Version(live)), DryRun(w), Patch(w, stored, true)]
  }

  lemma {:induction false} AfterSteps(before: seq<Action>, more: seq<Action>)
    ensures After(before + more) == Steps(After(before), more)
    decreases |more|
  {
    if more == [] {
      assert before + more == before;
    } else {
      assert before + more == (before + [more[0]]) + more[1..];
      assert (before + [more[0]])[..|before|] == before;
      AfterSteps(before + [more[0]], more[1..]);
    }
  }

  lemma FreshPassSteps(s: State, w: nat, v: string, live: Object, stored: Object)
    ensures Steps(s, FreshPass(w, v, live, stored)) ==
            Step(Step(Step(Step(Step(Step(s, Abandon(w)), Load(w, v)), Prepare(w, "")), Judge(w, Version(live))), DryRun(w)),
                 Patch(w, stored, true))
  {
    var s1 := Step(s, Abandon(w));
    assert FreshPass(w, v, live, stored) ==
           [Abandon(w)] + [Load(w, v), Prepare(w, ""), Judge(w, Version(live)), DryRun(w), Patch(w, stored, true)];
    StepsOne(s, Abandon(w), [Load(w, v), Prepare(w, ""), Judge(w, Version(live)), DryRun(w), Patch(w, stored, true)]);
    StepsFive(s1, Load(w, v), Prepare(w, ""), Judge(w, Version(live)), DryRun(w), Patch(w, stored, true));
  }

  lemma OneMoreCommit(sv: Server, m: Mutation, j: Judgement, stored: Object)
    requires KeyOf(j.live) in sv.targets
    ensures CommitCount(CommitPatch(sv, m, j, stored).commits, m.uid) == CommitCount(sv.commits, m.uid) + 1
  {
    var commits := CommitPatch(sv, m, j, stored).commits;
    assert commits[..|commits| - 1] == sv.commits;
  }

  lemma FreshPassReads(s: State, w: nat, m: Mutation)
    requires Held(s.server.revisions, m) && !MustDropFinalizer(m)
    ensures Reached(Step(Step(Step(s, Abandon(w)), Load(w, m.version)), Prepare(w, "")), s.server, w, Ready(m))
  {
    var s1 := Step(s, Abandon(w));
    LoadStep(s1, s.server, w, m);
    PrepareStep(Step(s1, Load(w, m.version)), s.server, w, m, "");
  }

  lemma FreshPassCommits(s: State, w: nat, m: Mutation, j: Judgement, stored: Object)
    requires Held(s.server.revisions, m) && !MustDropFinalizer(m) && CanApply(s.server, m, j, stored)
    ensures Reached(Steps(s, FreshPass(w, m.version, j.live, stored)), CommitPatch(s.server, m, j, stored), w,
                    Writing(m, CompletedBy(m, j.decision)))
  {
    FreshPassReads(s, w, m);
    FreshPassSteps(s, w, m.version, j.live, stored);
    ApplySteps(Step(Step(Step(s, Abandon(w)), Load(w, m.version)), Prepare(w, "")), s.server, w, m, j, stored);
  }

  /** While the snapshot's version is current, one more pass over any revision in progress commits. */
  lemma CurrentCanCommit(s: State, m: Mutation, live: Object) returns (more: seq<Action>)
    requires Ok(s) && Held(s.server.revisions, m) && m.phase.InProgress? && !MustDropFinalizer(m) && ProposedFor(m).Some?
    requires Stored(s.server.history, live) && IsCurrent(s.server, live) && DecisionOn(m, live, ProposedFor(m).value).allowed
    ensures CommitCount(Steps(s, more).server.commits, m.uid) == CommitCount(s.server.commits, m.uid) + 1
  {
    var proposed := ProposedFor(m).value;
    var version := UnusedVersion(s.server.history, KeyOf(live));
    PatchedCanBeStored(s.server, m, live, proposed, version);
    var stored := Restamped(Patched(live, proposed).value, version);
    more := FreshPass(0, m.version, live, stored);
    FreshPassCommits(s, 0, m, Judged(m, live, proposed), stored);
    OneMoreCommit(s.server, m, Judged(m, live, proposed), stored);
  }

  // ---------------------------------------------------------------- once it is not

  /** A stored version that is not current. */
  predicate Past(sv: Server, live: Object) {
    Stored(sv.history, live) && !IsCurrent(sv, live)
  }

  /** The version in this Mutation's snapshot is not current. */
  predicate SnapshotIsPast(sv: Server, uid: string, live: Object) {
    Past(sv, live) && uid in sv.births && sv.births[uid].origin == Snapshot(live)
  }

  lemma StoredElsewhere(sv: Server, key: Key, o: Object, live: Object)
    requires Past(sv, live) && (key, Version(o)) !in sv.history
    ensures Past(StoreObject(sv, key, o), live)
  {
  }

  lemma PatchStores(s: State, w: nat, m: Mutation, j: Judgement, stored: Object, live: Object)
    requires Ok(s) && WorkerOf(s, w) == Validated(m, j) && CanPersist(s.server, j, stored) && Past(s.server, live)
    ensures Past(Persisted(s.server, m, j, stored), live)
  {
    ValidatedIsJudged(s, w, m, j);
    PersistsEffectively(s.server, m, j, stored);
    StoredElsewhere(s.server, KeyOf(j.live), stored, live);
  }

  lemma PastByPatch(s: State, w: nat, stored: Object, acknowledged: bool, live: Object)
    requires Ok(s) && Enabled(s, Patch(w, stored, acknowledged)) && Past(s.server, live)
    ensures Past(Next(s, Patch(w, stored, acknowledged)).server, live)
  {
    PatchingWorker(s, w, stored, acknowledged);
    var k := WorkerOf(s, w);
    PatchEffect(s, w, k.m, k.j, stored, acknowledged);
    PatchStores(s, w, k.m, k.j, stored, live);
  }

  lemma PastByThirdParty(s: State, a: Action, live: Object)
    requires Enabled(s, a) && ByThirdParty(a) && Past(s.server, live)
    ensures Past(Next(s, a).server, live) && Next(s, a).server.commits == s.server.commits
  {
    if a.StoreTarget? { StoredElsewhere(s.server, a.key, a.content, live); }
  }

  lemma PastByPass(s: State, a: Action, live: Object)
    requires Enabled(s, a) && !ByThirdParty(a) && !a.Patch? && Past(s.server, live)
    ensures Past(Next(s, a).server, live)
  {
  }

  /** A version that was replaced or deleted is never current again. */
  lemma PastStays(s: State, a: Action, live: Object)
    requires Ok(s) && Past(s.server, live)
    ensures Past(Step(s, a).server, live)
  {
    if Enabled(s, a) {
      if ByThirdParty(a) { PastByThirdParty(s, a, live); }
      else if a.Patch? { PastByPatch(s, a.w, a.stored, a.acknowledged, live); }
      else { PastByPass(s, a, live); }
    }
  }

  lemma PastIsNoTarget(sv: Server, key: Key, live: Object)
    requires ObjectsOk(sv) && Past(sv, live) && key in sv.targets
    ensures Snapshot(sv.targets[key]) != Snapshot(live)
  {
    var o := sv.targets[key];
    assert KeyOf(o) == key && Stored(sv.history, o);
    if Snapshot(o) == Snapshot(live) { SameSnapshotSameObject(sv.history, (KeyOf(live), Version(live)), o); }
  }

  /** A commit replaces the version in its Mutation's snapshot, so it is not this Mutation's. */
  lemma PastCommitIsAnothers(sv: Server, c: Commit, uid: string, live: Object)
    requires ObjectsOk(sv) && SnapshotIsPast(sv, uid, live) && c.key in sv.targets
    requires c.mutation in sv.births && sv.births[c.mutation].origin == Snapshot(sv.targets[c.key])
    ensures c.mutation != uid
  {
    PastIsNoTarget(sv, c.key, live);
  }

  lemma CommitByAnother(s: State, t: State, uid: string, live: Object)
    requires ObjectsOk(s.server) && SnapshotIsPast(s.server, uid, live) && CommitsOnce(s, t)
    ensures CommitCount(t.server.commits, uid) == CommitCount(s.server.commits, uid)
  {
    var c := t.server.commits[|s.server.commits|];
    PastCommitIsAnothers(s.server, c, uid, live);
    CountNext(s.server.commits, t.server.commits, uid);
  }

  lemma CountNext(commits: seq<Commit>, later: seq<Commit>, uid: string)
    requires |later| == |commits| + 1 && later[..|commits|] == commits && later[|commits|].mutation != uid
    ensures CommitCount(later, uid) == CommitCount(commits, uid)
  {
  }

  lemma {:induction false} PastStepCount(run: seq<Action>, a: Action, uid: string, live: Object)
    requires SnapshotIsPast(After(run).server, uid, live)
    ensures CommitCount(Step(After(run), a).server.commits, uid) == CommitCount(After(run).server.commits, uid)
  {
    ReachableOk(run);
    var s := After(run);
    if ByThirdParty(a) {
      if Enabled(s, a) { PastByThirdParty(s, a, live); }
    } else {
      ControllerStepsRespectOtherWriters(run, a);
      if CommitsOnce(s, Step(s, a)) { CommitByAnother(s, Step(s, a), uid, live); }
    }
  }

  lemma {:induction false} SnapshotStaysPast(run: seq<Action>, a: Action, uid: string, live: Object)
    requires SnapshotIsPast(After(run).server, uid, live)
    ensures SnapshotIsPast(Step(After(run), a).server, uid, live)
  {
    ReachableOk(run);
    PastStays(After(run), a, live);
    StepOk(After(run), a);
  }

  /** Once the snapshot's version is past, no continuation commits for the Mutation. */
  lemma {:induction false} PastNeverCommits(run: seq<Action>, more: seq<Action>, uid: string, live: Object)
    requires SnapshotIsPast(After(run).server, uid, live)
    ensures CommitCount(After(run + more).server.commits, uid) == CommitCount(After(run).server.commits, uid)
    decreases |more|
  {
    if more == [] {
      assert run + more == run;
    } else {
      var next := run + [more[0]];
      assert next[..|run|] == run && run + more == next + more[1..];
      PastStepCount(run, more[0], uid, live);
      SnapshotStaysPast(run, more[0], uid, live);
      PastNeverCommits(next, more[1..], uid, live);
    }
  }

  // ---------------------------------------------------------------- exactly

  /** Some continuation of this run commits for this Mutation. */
  ghost predicate CanCommit(run: seq<Action>, uid: string) {
    exists more :: CommitCount(After(run + more).server.commits, uid) > CommitCount(After(run).server.commits, uid)
  }

  /** Every revision in progress proposes what one that was not being deleted proposed. */
  lemma ProposedBeforeDeletion(sv: Server, m: Mutation) returns (alive: Mutation)
    requires ServerOk(sv) && Held(sv.revisions, m) && m.phase.InProgress?
    ensures Held(sv.revisions, alive) && alive.phase.InProgress? && !alive.deleting
    ensures alive.uid == m.uid && alive.origin == m.origin && ProposedFor(alive) == ProposedFor(m)
  {
    assert ProposedAlive(sv.revisions, sv.revisions[m.version].uid);
    var v :| v in sv.revisions && sv.revisions[v].uid == m.uid && sv.revisions[v].phase.InProgress? && !sv.revisions[v].deleting;
    alive := sv.revisions[v];
    assert Born(sv.births, sv.revisions[v]) && Born(sv.births, sv.revisions[m.version]);
  }

  /**
   * What stops a Mutation, exactly. Once a revision with an allowed proposal was stored, the Mutation can
   * still commit as long as its target is the version of the snapshot, and no longer. Neither its stored
   * phase nor its deletion makes a difference.
   */
  lemma {:induction false} CanCommitIffCurrent(run: seq<Action>, v: string, live: Object)
    requires v in After(run).server.revisions
    requires var m := After(run).server.revisions[v];
             && m.phase.InProgress? && ProposedFor(m).Some?
             && Stored(After(run).server.history, live) && m.origin == Snapshot(live)
             && DecisionOn(m, live, ProposedFor(m).value).allowed
    ensures CanCommit(run, After(run).server.revisions[v].uid) <==> IsCurrent(After(run).server, live)
  {
    ReachableOk(run);
    var s := After(run);
    var m := s.server.revisions[v];
    HeldIsBorn(s.server, m);
    if IsCurrent(s.server, live) {
      var alive := ProposedBeforeDeletion(s.server, m);
      var more := CurrentCanCommit(s, alive, live);
      AfterSteps(run, more);
    } else if CanCommit(run, m.uid) {
      var more :| CommitCount(After(run + more).server.commits, m.uid) > CommitCount(s.server.commits, m.uid);
      PastNeverCommits(run, more, m.uid, live);
    }
  }
}
