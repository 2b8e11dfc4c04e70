/** What the Mutations refer to and what a commit changes, told on the plain fields. */
module PipelineFields {
  import opened Strings
  import opened Pointer
  import opened Json
  import opened Diff
  import opened Gate
  import opened GateProofs
  import opened ImageProposal
  import opened Pipeline
  import opened PipelineCommit
  import opened PipelineTheorems

  /** A new Mutation refers to the key of the object it was created for. */
  lemma {:induction false} NewMutationRefers(name: string, uid: string, version: string, read: Object)
    ensures RefKey(NewMutation(name, uid, version, read)) == KeyOf(read)
    ensures KeyOf(read).namespace == TextIn(read, "metadata", "namespace") && KeyOf(read).name == TextIn(read, "metadata", "name")
  {
    SnapshotIdentifies(read);
    LookupFieldIn(read, "metadata", "namespace");
    LookupFieldIn(read, "metadata", "name");
  }

  /** This is what a Mutation with that target proposes: its configuration under the name and namespace referred to. */
  lemma {:induction false} ProposedIs(m: Mutation, config: Object)
    requires m.target == Some(config) && ("metadata" in config.fields ==> config.fields["metadata"].Map?)
    ensures ProposedFor(m).None? <==> TextAt(config, "kind") == ""
    ensures ProposedFor(m).Some? ==>
              Forced(ProposedFor(m).value, "name", m.refName) && Forced(ProposedFor(m).value, "namespace", m.refNamespace)
  {
    LookupField(config, "kind");
    FromConfigForces(config, m.refName, m.refNamespace);
  }

  /** The decision is one change of one existing value to another, and its patch does just that. */
  predicate ChangesOneValue(decision: Decision, e: Edit) {
    && decision.changes == [Change(Render(e.loc), e.before, e.after)] && decision.patch == [ReplaceAt(Render(e.loc), e.after)]
    && !e.before.Null? && !e.after.Null?
  }

  lemma {:induction false} OneEdit(e: Edit)
    ensures Changes("", [e]) == [Change(Render(e.loc), e.before, e.after)]
    ensures Replacements(Changes("", [e])) == [ReplaceAt(Render(e.loc), e.after)]
  {
    assert Changes("", [e])[0] == Change("" + Render(e.loc), e.before, e.after);
    assert "" + Render(e.loc) == Render(e.loc);
  }

  /** Without a limit, an allowed decision changes exactly one value. */
  lemma {:induction false} AllowedChangesOneValue(origin: Object, live: Object, proposed: Object) returns (e: Edit)
    requires Decide(origin, live, proposed, 0).allowed
    ensures ChangesOneValue(Decide(origin, live, proposed, 0), e)
    ensures ProposedEdits(live, proposed) == [e] && !HighRisk(Render(e.loc))
  {
    Admitted(origin, live, proposed, 0);
    var es := ProposedEdits(live, proposed);
    e := es[0];
    assert es == [e];
    OneEdit(e);
  }

  /** Over all runs, every commit changes exactly one value of its target. */
  lemma {:induction false} EveryCommitChangesOneValue(run: seq<Action>, i: nat) returns (e: Edit)
    requires i < |After(run).server.commits|
    ensures var c := After(run).server.commits[i];
            ChangesOneValue(c.decision, e) && ProposedEdits(c.before, c.proposed) == [e] && !HighRisk(Render(e.loc))
  {
    var sv, c := After(run).server, After(run).server.commits[i];
    EveryCommitIsExact(run, i);
    e := AllowedChangesOneValue(sv.births[c.mutation].origin, c.before, c.proposed);
  }
}
