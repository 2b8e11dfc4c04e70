/** What Successful rests on: an observation of the Mutation that found its target ready and its finding gone. */
module PipelineResolution {
  import opened Strings
  import opened Gate
  import opened Pipeline
  import opened PipelineInvariant
  import opened PipelineSafety

  /** A pass on this Mutation looks: its target passes the rollout test and its Result is not found. */
  predicate FindsItResolved(s: State, a: Action, uid: string) {
    && a.Observe? && !a.reported && WorkerOf(s, a.w).Ready? && WorkerOf(s, a.w).m.uid == uid
    && (WorkerOf(s, a.w).m.phase.Completed? || WorkerOf(s, a.w).m.phase.Pending?)
    && ReadyOn(s.server.history, WorkerOf(s, a.w).m, a.read) == Some(true)
  }

  ghost predicate SuccessStored(sv: Server, uid: string) {
    exists v :: v in sv.revisions && sv.revisions[v].uid == uid && sv.revisions[v].phase.Successful?
  }

  predicate WritesSuccess(k: Worker, uid: string) {
    k.Writing? && k.next.uid == uid && k.next.phase.Successful?
  }

  /** A revision of this Mutation is Successful, or a pass is about to write one. */
  ghost predicate SuccessIn(s: State, uid: string) {
    SuccessStored(s.server, uid) || exists w :: w in s.workers && WritesSuccess(s.workers[w], uid)
  }

  lemma {:induction false} OneMoreRevision(sv: Server, m: Mutation, uid: string)
    requires SuccessStored(WriteMutation(sv, m), uid)
    ensures SuccessStored(sv, uid) || (m.uid == uid && m.phase.Successful?)
  {
    var later := WriteMutation(sv, m).revisions;
    var v :| v in later && later[v].uid == uid && later[v].phase.Successful?;
    if v != m.version { assert sv.revisions[v] == later[v]; }
  }

  lemma {:induction false} HeldSuccess(sv: Server, m: Mutation)
    requires Held(sv.revisions, m) && m.phase.Successful?
    ensures SuccessStored(sv, m.uid)
  {
    assert sv.revisions[m.version] == m;
  }

  /** A write that keeps a stored phase. */
  lemma {:induction false} TouchedSuccess(sv: Server, m: Mutation, touched: Mutation, uid: string)
    requires Held(sv.revisions, m) && touched.uid == m.uid && touched.phase == m.phase
    requires SuccessStored(WriteMutation(sv, touched), uid)
    ensures SuccessStored(sv, uid)
  {
    OneMoreRevision(sv, touched, uid);
    if touched.uid == uid && touched.phase.Successful? { HeldSuccess(sv, m); }
  }

  lemma {:induction false} AfterWorker(s: State, sv: Server, w: nat, k: Worker, uid: string)
    requires SuccessIn(WithWorker(s, sv, w, k), uid)
    ensures SuccessStored(sv, uid) || SuccessIn(s, uid) || WritesSuccess(k, uid)
  {
    var t := WithWorker(s, sv, w, k);
    if v :| v in t.workers && WritesSuccess(t.workers[v], uid) {
      if v != w { assert s.workers[v] == t.workers[v]; }
    }
  }

  lemma {:induction false} ByDeletion(s: State, name: string, version: string, uid: string)
    requires Ok(s) && Enabled(s, RequestDeletion(name, version)) && SuccessIn(Next(s, RequestDeletion(name, version)), uid)
    ensures SuccessIn(s, uid)
  {
    var m := s.server.mutations[name];
    assert Held(s.server.revisions, m);
    if SuccessStored(Next(s, RequestDeletion(name, version)).server, uid) {
      TouchedSuccess(s.server, m, m.(deleting := true, version := version), uid);
    }
  }

  lemma {:induction false} ByOthers(s: State, a: Action, uid: string)
    requires Ok(s) && Enabled(s, a) && ByThirdParty(a) && SuccessIn(Next(s, a), uid)
    ensures SuccessIn(s, uid)
  {
    if a.RequestDeletion? {
      ByDeletion(s, a.name, a.version, uid);
    } else if a.CreateMutation? {
      CreatedIsNew(s, a.name, a.uid, a.version, a.key, a.read, uid);
    } else {
      ByTargets(s, a, uid);
    }
  }

  lemma {:induction false} ByTargets(s: State, a: Action, uid: string)
    requires Enabled(s, a) && (a.StoreTarget? || a.DeleteTarget? || a.RemoveMutation?) && SuccessIn(Next(s, a), uid)
    ensures SuccessIn(s, uid)
  {
    SameRevisions(s, Next(s, a), uid);
  }

  lemma {:induction false} SameRevisions(s: State, t: State, uid: string)
    requires t.server.revisions == s.server.revisions && t.workers == s.workers && SuccessIn(t, uid)
    ensures SuccessIn(s, uid)
  {
  }

  lemma {:induction false} CreatedIsNew(s: State, name: string, created: string, version: string, key: Key, read: string, uid: string)
    requires Ok(s) && Enabled(s, CreateMutation(name, created, version, key, read))
    requires SuccessIn(Next(s, CreateMutation(name, created, version, key, read)), uid)
    ensures SuccessIn(s, uid)
  {
    var t := Next(s, CreateMutation(name, created, version, key, read));
    if v :| v in t.server.revisions && t.server.revisions[v].uid == uid && t.server.revisions[v].phase.Successful? {
      assert s.server.revisions[v] == t.server.revisions[v];
    }
  }

  lemma {:induction false} ByPrepare(s: State, w: nat, version: string, uid: string)
    requires Ok(s) && Enabled(s, Prepare(w, version)) && SuccessIn(Next(s, Prepare(w, version)), uid)
    ensures SuccessIn(s, uid)
  {
    var m := WorkerOf(s, w).m;
    assert Held(s.server.revisions, m);
    if MustDropFinalizer(m) {
      var sv := UpdateMutation(s.server, m, ReleasedBy(m), version);
      AfterWorker(s, sv, w, Ready(Updated(m, ReleasedBy(m), version)), uid);
      if SuccessStored(sv, uid) && ReleasedBy(m) != m { TouchedSuccess(s.server, m, ReleasedBy(m).(version := version), uid); }
    } else {
      AfterWorker(s, s.server, w, Ready(m), uid);
    }
  }

  lemma {:induction false} ByStatus(s: State, w: nat, m: Mutation, next: Mutation, version: string, uid: string)
    requires WorkerOf(s, w) == Writing(m, next)
    requires SuccessIn(WithWorker(s, UpdateMutation(s.server, m, next, version), w, Idle), uid)
    ensures SuccessIn(s, uid)
  {
    AfterWorker(s, UpdateMutation(s.server, m, next, version), w, Idle, uid);
    if SuccessStored(UpdateMutation(s.server, m, next, version), uid) && next != m {
      OneMoreRevision(s.server, next.(version := version), uid);
      assert WritesSuccess(s.workers[w], next.uid) <==> next.phase.Successful?;
    }
  }

  lemma {:induction false} ByObserve(s: State, w: nat, read: string, reported: bool, uid: string)
    requires Enabled(s, Observe(w, read, reported)) && SuccessIn(Next(s, Observe(w, read, reported)), uid)
    ensures SuccessIn(s, uid) || FindsItResolved(s, Observe(w, read, reported), uid)
  {
    var m := WorkerOf(s, w).m;
    AfterWorker(s, s.server, w, Writing(m, ObservedBy(m, ReadyOn(s.server.history, m, read).value, reported)), uid);
  }

  lemma {:induction false} ByPatch(s: State, w: nat, stored: Object, acknowledged: bool, uid: string)
    requires Ok(s) && Enabled(s, Patch(w, stored, acknowledged)) && SuccessIn(Next(s, Patch(w, stored, acknowledged)), uid)
    ensures SuccessIn(s, uid)
  {
    PatchingWorker(s, w, stored, acknowledged);
    var k := WorkerOf(s, w);
    PatchEffect(s, w, k.m, k.j, stored, acknowledged);
    AfterWorker(s, Persisted(s.server, k.m, k.j, stored), w,
                if acknowledged then Writing(k.m, CompletedBy(k.m, k.j.decision)) else Idle, uid);
  }

  lemma {:induction false} ByReading(s: State, a: Action, uid: string)
    requires Enabled(s, a) && (a.Load? || a.Propose? || a.Judge? || a.DryRun? || a.Abandon?) && SuccessIn(Next(s, a), uid)
    ensures SuccessIn(s, uid)
  {
    var t := Next(s, a);
    AfterWorker(s, s.server, a.w, t.workers[a.w], uid);
  }

  lemma {:induction false} ByUpdate(s: State, w: nat, version: string, uid: string)
    requires Enabled(s, Update(w, version)) && SuccessIn(Next(s, Update(w, version)), uid)
    ensures SuccessIn(s, uid)
  {
    ByStatus(s, w, WorkerOf(s, w).m, WorkerOf(s, w).next, version, uid);
  }

  lemma {:induction false} ByPass(s: State, a: Action, uid: string)
    requires Ok(s) && Enabled(s, a) && !ByThirdParty(a) && SuccessIn(Next(s, a), uid)
    ensures SuccessIn(s, uid) || FindsItResolved(s, a, uid)
  {
    if a.Prepare? {
      ByPrepare(s, a.w, a.version, uid);
    } else if a.Update? {
      ByUpdate(s, a.w, a.version, uid);
    } else if a.Observe? {
      ByObserve(s, a.w, a.read, a.reported, uid);
    } else if a.Patch? {
      ByPatch(s, a.w, a.stored, a.acknowledged, uid);
    } else {
      ByReading(s, a, uid);
    }
  }

  /** Success comes from an observation, or was there before. */
  lemma {:induction false} SuccessComesFrom(s: State, a: Action, uid: string)
    requires Ok(s) && SuccessIn(Step(s, a), uid)
    ensures SuccessIn(s, uid) || FindsItResolved(s, a, uid)
  {
    if Enabled(s, a) {
      if ByThirdParty(a) { ByOthers(s, a, uid); } else { ByPass(s, a, uid); }
    }
  }

  /** Action `i` of the run was such an observation. */
  ghost predicate FoundAt(run: seq<Action>, uid: string, i: nat) {
    i < |run| && FindsItResolved(After(run[..i]), run[i], uid)
  }

  lemma {:induction false} FoundBefore(run: seq<Action>, a: Action, uid: string, i: nat)
    requires FoundAt(run, uid, i)
    ensures FoundAt(run + [a], uid, i)
  {
    assert (run + [a])[..i] == run[..i];
  }

  lemma {:induction false} FoundNow(run: seq<Action>, a: Action, uid: string)
    requires FindsItResolved(After(run), a, uid)
    ensures FoundAt(run + [a], uid, |run|)
  {
    assert (run + [a])[..|run|] == run;
  }

  lemma {:induction false} SuccessWasFound(run: seq<Action>, uid: string) returns (i: nat)
    requires SuccessIn(After(run), uid)
    ensures FoundAt(run, uid, i)
    decreases |run|
  {
    if run == [] {
      assert false;
    } else {
      var before, a := run[..|run| - 1], run[|run| - 1];
      assert run == before + [a];
      ReachableOk(before);
      SuccessComesFrom(After(before), a, uid);
      if FindsItResolved(After(before), a, uid) {
        FoundNow(before, a, uid);
        i := |before|;
      } else {
        i := SuccessWasFound(before, uid);
        FoundBefore(before, a, uid, i);
      }
    }
  }

  /**
   * What Successful rests on. Over all runs, a revision is stored as Successful only after a pass on that
   * Mutation looked, in phase Completed or Pending, and found its target ready and its finding gone.
   */
  lemma {:induction false} SuccessfulWasResolved(run: seq<Action>, v: string)
    requires v in After(run).server.revisions && After(run).server.revisions[v].phase.Successful?
    ensures exists i: nat :: FoundAt(run, After(run).server.revisions[v].uid, i)
  {
    assert SuccessStored(After(run).server, After(run).server.revisions[v].uid);
    var i := SuccessWasFound(run, After(run).server.revisions[v].uid);
  }
}
