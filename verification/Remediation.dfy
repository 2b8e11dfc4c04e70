/** The creation of Mutations: calculate_remediation_step.go. */
module Remediation {
  import opened Json
  import opened Pipeline
  import opened PipelineInvariant
  import opened Reconciler
  import opened Gate
  import Eligibility

  /** A Mutation to create, with the UID and version the server would give it. */
  datatype Wanted = Wanted(name: string, key: Key, read: string, uid: string, version: string)

  /** This stored Mutation was created for one of the wanted ones, from the version that was read. */
  predicate CreatedFor(history: History, wanted: seq<Wanted>, m: Mutation) {
    exists i | 0 <= i < |wanted| ::
      && (wanted[i].key, wanted[i].read) in history
      && m == NewMutation(wanted[i].name, wanted[i].uid, wanted[i].version, history[(wanted[i].key, wanted[i].read)])
  }

  /**
   * The new Mutation: under its finalizer and not started, it refers to the object by name and namespace and
   * holds it without managedFields; no target, no verdict and no paths yet.
   */
  lemma {:induction false} NewMutationIs(name: string, uid: string, version: string, read: Object)
    ensures var m := NewMutation(name, uid, version, read);
            && m.name == name && m.uid == uid && m.version == version && m.finalizers == ["mutation.finalizer.k8sgpt.ai"] && !m.deleting
            && m.refNamespace == TextIn(read, "metadata", "namespace") && m.refName == TextIn(read, "metadata", "name")
            && Eligibility.SnapshotOf(read, m.origin) && m.target.None?
            && m.phase == NotStarted && m.verdict == Undecided && m.changedPaths == [] && !m.applied
  {
    LookupFieldIn(read, "metadata", "namespace");
    LookupFieldIn(read, "metadata", "name");
    Eligibility.SnapshotIs(read, Snapshot(read));
  }

  ghost predicate CreatesWanted(a: Action, wanted: seq<Wanted>) {
    exists x | x in wanted :: a == CreateMutation(x.name, x.uid, x.version, x.key, x.read)
  }

  /** The run grew by creations of wanted Mutations only. */
  ghost predicate OnlyCreates(before: seq<Action>, after: seq<Action>, wanted: seq<Wanted>) {
    before <= after && forall i | |before| <= i < |after| :: CreatesWanted(after[i], wanted)
  }

  /** The wanted Mutations that were missing may be there now, and nothing else has changed. */
  ghost predicate Creates(before: Server, after: Server, wanted: seq<Wanted>) {
    && after.targets == before.targets && after.history == before.history && after.commits == before.commits
    && Grown(before.mutations, after.mutations)
    && forall n | n in after.mutations && n !in before.mutations :: CreatedFor(before.history, wanted, after.mutations[n])
  }

  lemma CreatesTransitive(a: Server, b: Server, c: Server, wanted: seq<Wanted>)
    requires Creates(a, b, wanted) && Creates(b, c, wanted)
    ensures Creates(a, c, wanted)
  {
  }

  lemma OnlyCreatesTransitive(a: seq<Action>, b: seq<Action>, c: seq<Action>, wanted: seq<Wanted>)
    requires OnlyCreates(a, b, wanted) && OnlyCreates(b, c, wanted)
    ensures OnlyCreates(a, c, wanted)
  {
    assert c[..|b|] == b && c[..|a|] == b[..|a|];
    forall i | |a| <= i < |c| ensures CreatesWanted(c[i], wanted) {
      if i < |b| { assert c[i] == b[i]; }
    }
  }

  lemma NewIsWanted(history: History, wanted: seq<Wanted>, i: nat)
    requires i < |wanted|
    ensures (wanted[i].key, wanted[i].read) in history ==>
              CreatedFor(history, wanted,
                         NewMutation(wanted[i].name, wanted[i].uid, wanted[i].version, history[(wanted[i].key, wanted[i].read)]))
  {
  }

  /** Creates one Mutation unless it exists; false when the server refuses. */
  method CreateIfMissing(api: ApiServer, wanted: seq<Wanted>, n: nat) returns (ok: bool)
    requires api.Valid() && n < |wanted|
    modifies api
    ensures api.Valid() && api.passes == old(api.passes)
    ensures OnlyCreates(old(api.run), api.run, wanted) && Creates(old(api.server), api.server, wanted)
    ensures ok ==> wanted[n].name in api.server.mutations
  {
    var x := wanted[n];
    if x.name in api.server.mutations {
      return true;
    }
    assert x in wanted;
    NewIsWanted(api.server.history, wanted, n);
    ok := api.CreateMutation(x.name, x.uid, x.version, x.key, x.read);
  }

  /**
   * The creation loop. Mutations that exist are kept as they are, whatever became of them; the others
   * are created with their snapshot; the loop stops at the first failure. It does nothing else.
   */
  method CreateMutations(api: ApiServer, wanted: seq<Wanted>) returns (ok: bool)
    requires api.Valid()
    modifies api
    ensures api.Valid() && api.passes == old(api.passes)
    ensures OnlyCreates(old(api.run), api.run, wanted) && Creates(old(api.server), api.server, wanted)
    ensures ok ==> forall i | 0 <= i < |wanted| :: wanted[i].name in api.server.mutations
  {
    for n := 0 to |wanted|
      invariant api.Valid() && api.passes == old(api.passes)
      invariant OnlyCreates(old(api.run), api.run, wanted) && Creates(old(api.server), api.server, wanted)
      invariant forall i | 0 <= i < n :: wanted[i].name in api.server.mutations
    {
      ghost var run, server := api.run, api.server;
      var created := CreateIfMissing(api, wanted, n);
      OnlyCreatesTransitive(old(api.run), run, api.run, wanted);
      CreatesTransitive(old(api.server), server, api.server, wanted);
      if !created {
        return false;
      }
    }
    ok := true;
  }
}
