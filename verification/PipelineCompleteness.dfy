/** A compact answer about a judgeable object, carried through undisturbed, is applied exactly. */
module PipelineCompleteness {
  import opened Strings
  import opened Pointer
  import opened Json
  import opened Diff
  import opened Gate
  import opened GateProofs
  import opened ImageProposal
  import opened Pipeline
  import opened PipelineInvariant
  import opened PipelineCommit
  import opened PipelineScenarios

  // ---------------------------------------------------------------- managedFields do not matter

  const MANAGED: seq<string> := ["managedFields"]

  lemma DropManaged(v: Value)
    ensures Drop(Drop(v, MANAGED), BOOKKEEPING) == Drop(v, BOOKKEEPING)
  {
    if v.Map? {
      assert Drop(Drop(v, MANAGED), BOOKKEEPING).fields == Drop(v, BOOKKEEPING).fields;
    }
  }

  lemma SnapshotNormalized(o: Object)
    ensures Normalized(Snapshot(o)) == Normalized(o)
  {
    if META in o.fields {
      DropManaged(o.fields[META]);
      var top := Drop(o, STATUS);
      assert Drop(Snapshot(o), STATUS).fields == top.fields[META := Drop(o.fields[META], MANAGED)];
      assert top.fields[META := Drop(o.fields[META], MANAGED)][META := Drop(o.fields[META], BOOKKEEPING)] ==
             top.fields[META := Drop(o.fields[META], BOOKKEEPING)];
    }
  }

  lemma SnapshotField(o: Object, t: string)
    requires t != META
    ensures Text(Snapshot(o), [t]) == Text(o, [t])
  {
    LookupOne(o, t);
    LookupOne(Snapshot(o), t);
  }

  /** The texts the identity checks read. */
  predicate SameTexts(a: Object, b: Object) {
    && SameIdentity(a, b) && Text(a, UID) == Text(b, UID)
    && Text(a, RESOURCE_VERSION) == Text(b, RESOURCE_VERSION) && Text(a, GENERATE_NAME) == Text(b, GENERATE_NAME)
  }

  lemma SnapshotTexts(o: Object)
    ensures SameTexts(Snapshot(o), o)
  {
    SnapshotField(o, "apiVersion");
    SnapshotField(o, "kind");
    WithoutMetaKeeps(o, MANAGED, "name");
    WithoutMetaKeeps(o, MANAGED, "namespace");
    WithoutMetaKeeps(o, MANAGED, "uid");
    WithoutMetaKeeps(o, MANAGED, "resourceVersion");
    WithoutMetaKeeps(o, MANAGED, "generateName");
  }

  lemma SameTextsSameMismatch(a: Object, b: Object, live: Object)
    requires SameTexts(a, b)
    ensures LiveMismatch(a, live) == LiveMismatch(b, live) && ProposedMismatch(a, live) == ProposedMismatch(b, live)
  {
  }

  lemma {:induction false} SameChecksSameDecision(a: Object, b: Object, live: Object, p: Object, q: Object)
    requires LiveMismatch(a, live) == LiveMismatch(b, live) && ProposedMismatch(p, live) == ProposedMismatch(q, live)
    requires ProposedEdits(live, p) == ProposedEdits(live, q)
    ensures Decide(a, live, p, 0) == Decide(b, live, q, 0)
  {
  }

  /** The gate answers the same whether or not managedFields were dropped from origin and proposal. */
  lemma SnapshotJudgedAlike(live: Object, p: Object)
    ensures Decide(Snapshot(live), live, Snapshot(p), 0) == Decide(live, live, p, 0)
    ensures ProposedEdits(live, Snapshot(p)) == ProposedEdits(live, p)
  {
    SnapshotTexts(live);
    SnapshotTexts(p);
    SnapshotNormalized(p);
    SameTextsSameMismatch(Snapshot(live), live, live);
    SameTextsSameMismatch(Snapshot(p), p, live);
    SameChecksSameDecision(Snapshot(live), live, live, Snapshot(p), p);
  }

  // ---------------------------------------------------------------- the compact proposal on a snapshot

  lemma SnapshotSpec(o: Object, path: Location)
    requires path != [] && path[0] == "spec"
    ensures Lookup(Snapshot(o), path) == Lookup(o, path)
  {
    assert Kid(Snapshot(o), "spec") == Kid(o, "spec");
  }

  lemma SnapshotReplace(o: Object, path: Location, x: Value)
    requires path != [] && path[0] == "spec" && Replace(o, path, x).Some? && Replace(o, path, x).value.Map?
    ensures Replace(Snapshot(o), path, x) == Some(Snapshot(Replace(o, path, x).value))
  {
    assert Child(Snapshot(o), "spec") == Child(o, "spec");
    var w := Replace(o, path, x).value;
    if META in o.fields {
      var kid := Replace(o.fields["spec"], path[1..], x).value;
      assert o.fields[META := Drop(o.fields[META], MANAGED)]["spec" := kid] ==
             o.fields["spec" := kid][META := Drop(o.fields[META], MANAGED)];
    }
  }

  lemma {:induction false} SnapshotSelect(o: Object, name: string, paths: seq<Location>)
    requires forall path | path in paths :: path != [] && path[0] == "spec"
    ensures Select(Snapshot(o), name, paths) == Select(o, name, paths)
  {
    if paths != [] {
      assert paths[0] in paths;
      SnapshotSpec(o, paths[0]);
      assert forall path | path in paths[1..] :: path in paths;
      SnapshotSelect(o, name, paths[1..]);
    }
  }

  lemma SnapshotSetImage(o: Object, name: string, image: string)
    requires Select(o, name, PATHS).Some?
    ensures SetImage(o, name, image).Some? && SetImage(o, name, image).value.Map?
    ensures SetImage(Snapshot(o), name, image) == Some(Snapshot(SetImage(o, name, image).value))
  {
    SetImageExists(o, name, image);
    SnapshotSelect(o, name, PATHS);
    SelectFinds(o, name, PATHS);
    var t := Select(o, name, PATHS).value;
    PathsStartAtSpec(t.path);
    SnapshotSpec(o, t.path);
    var items := Lookup(o, t.path).items;
    SnapshotReplace(o, t.path, List(items[t.index := WithImage(items[t.index], image)]));
  }

  // ---------------------------------------------------------------- the compact answer

  /** A compact answer the source accepts as well-formed. */
  predicate Answers(response: Response, container: string, image: string) {
    && response == Response(None, Some((container, image)))
    && container != "" && image != "" && '\n' !in image && '\r' !in image
  }

  /** The image location a selection means. */
  function Selected(live: Object, container: string): Location
    requires Select(live, container, PATHS).Some?
  {
    ImageLocationOf(Select(live, container, PATHS).value)
  }

  /** The selected container is in the kind's own list and its image is another one. */
  predicate Improves(live: Object, container: string, image: string) {
    && Judgeable(live) && ServedIdentity(live) && Select(live, container, PATHS).Some?
    && OwnList(RegisteredPolicy(GVKOf(live)).value, Select(live, container, PATHS).value.path)
    && !Lookup(live, Selected(live, container)).Null? && Lookup(live, Selected(live, container)) != Str(image)
  }

  lemma CompactKeepsMetadata(live: Object, container: string, image: string)
    requires Select(live, container, PATHS).Some?
    ensures SetImage(live, container, image).Some? && SetImage(live, container, image).value.Map?
    ensures Kid(SetImage(live, container, image).value, META) == Kid(live, META)
    ensures Text(SetImage(live, container, image).value, KIND) == Text(live, KIND)
  {
    SetImageExists(live, container, image);
    SelectFinds(live, container, PATHS);
    var t, w := Select(live, container, PATHS).value, SetImage(live, container, image).value;
    PathsStartAtSpec(t.path);
    var items := Lookup(live, t.path).items;
    var x := List(items[t.index := WithImage(items[t.index], image)]);
    NonSpecEditsKeepMetadata(live, w, t.path, x, [META]);
    NonSpecEditsKeepMetadata(live, w, t.path, x, KIND);
    LookupOne(live, META);
    LookupOne(w, META);
  }

  lemma SameMetadataSameIdentity(a: Object, b: Object)
    requires Kid(a, META) == Kid(b, META)
    ensures Text(a, NAME) == Text(b, NAME) && Text(a, NAMESPACE) == Text(b, NAMESPACE)
    ensures ServedIdentity(a) <==> ServedIdentity(b)
  {
    LookupTwo(a, META, "name");
    LookupTwo(b, META, "name");
    LookupTwo(a, META, "namespace");
    LookupTwo(b, META, "namespace");
  }

  lemma SnapshotServed(o: Object)
    requires ServedIdentity(o)
    ensures ServedIdentity(Snapshot(o)) && Text(Snapshot(o), NAME) == Text(o, NAME)
    ensures Text(Snapshot(o), NAMESPACE) == Text(o, NAMESPACE)
  {
    SnapshotTexts(o);
  }

  /** What the executor proposes from a stored compact answer: the snapshot with the one image. */
  lemma CompactTarget(live: Object, container: string, image: string)
    requires Improves(live, container, image)
    ensures SetImage(live, container, image).Some? && SetImage(live, container, image).value.Map?
    ensures var q := Snapshot(SetImage(live, container, image).value);
            FromConfig(q, Text(live, NAME), Text(live, NAMESPACE)) == q && Text(q, KIND) != ""
  {
    CompactKeepsMetadata(live, container, image);
    var p := SetImage(live, container, image).value;
    SameMetadataSameIdentity(p, live);
    SnapshotServed(p);
    FromConfigOfOwnIdentity(Snapshot(p));
    SnapshotField(p, "kind");
  }

  /** The gate allows it, and the patch is the one image. */
  lemma CompactAllowed(live: Object, container: string, image: string)
    requires Improves(live, container, image)
    ensures SetImage(live, container, image).Some? && SetImage(live, container, image).value.Map?
    ensures var d := Decide(Snapshot(live), live, Snapshot(SetImage(live, container, image).value), 0);
            var loc := Selected(live, container);
            && d.allowed && PathsOf(d.changes) == [Render(loc)]
            && Patched(live, Snapshot(SetImage(live, container, image).value)) == Replace(live, loc, Str(image))
  {
    var p := RegisteredPolicy(GVKOf(live)).value;
    CompactProposalIsJudgedExactly(live, container, image, p);
    CompactEdits(live, container, image);
    var w, loc := SetImage(live, container, image).value, Selected(live, container);
    SnapshotJudgedAlike(live, w);
    CompactPatch(live, w, Edit(loc, Lookup(live, loc), Str(image)));
  }

  lemma CompactPatch(live: Object, w: Object, e: Edit)
    requires ProposedEdits(live, w) == [e] && Decide(live, live, w, 0).allowed
    ensures PathsOf(Decide(live, live, w, 0).changes) == [Render(e.loc)]
    ensures Patched(live, w) == Replace(live, e.loc, e.after)
  {
    Admitted(live, live, w, 0);
    OneEditDecision(live, w, e);
    ChangesAt([e], 0);
    OnePath(Changes("", [e]));
  }

  lemma OnePath(changes: seq<Change>)
    requires |changes| == 1
    ensures PathsOf(changes) == [changes[0].path]
  {
    assert PathsOf(changes[1..]) == [];
  }

  // ---------------------------------------------------------------- the undisturbed run

  /** The Mutation after its answer was stored. */
  function Asked(name: string, uid: string, version: string, live: Object, q: Value): Mutation {
    NewMutation(name, uid, version, live).(target := Some(q), phase := InProgress, note := InProgressNote)
  }

  function Answered(live: Object, container: string, image: string): Object
    requires Improves(live, container, image)
  {
    CompactTarget(live, container, image);
    Snapshot(SetImage(live, container, image).value)
  }

  lemma AnsweredMutation(name: string, uid: string, version: string, live: Object, container: string, image: string,
                         response: Response)
    requires Improves(live, container, image) && Answers(response, container, image)
    ensures var m, q := NewMutation(name, uid, version, live), Answered(live, container, image);
            ProposedBy(m, response) == Asked(name, uid, version, live, q)
            && ProposedFor(Asked(name, uid, version, live, q)) == Some(q)
  {
    CompactTarget(live, container, image);
    SnapshotSetImage(live, container, image);
  }

  /** The names and versions the server is about to hand out are new. */
  predicate FreshNames(sv: Server, name: string, uid: string, versions: seq<string>) {
    && name !in sv.mutations && uid !in sv.births
    && |versions| == 3 && versions[0] != versions[1] && versions[0] != versions[2] && versions[1] != versions[2]
    && FreshVersion(sv, versions[0]) && FreshVersion(sv, versions[1]) && FreshVersion(sv, versions[2])
  }

  function Created(sv: Server, name: string, uid: string, version: string, live: Object): Server {
    var m := NewMutation(name, uid, version, live);
    StoreMutation(sv.(births := sv.births[uid := Birth(name, m.origin)]), m)
  }

  lemma CreateStep(s: State, sv: Server, w: nat, name: string, uid: string, version: string, live: Object)
    requires Reached(s, sv, w, Idle) && name !in sv.mutations && uid !in sv.births && FreshVersion(sv, version)
    requires Stored(sv.history, live)
    ensures Reached(Step(s, CreateMutation(name, uid, version, KeyOf(live), Version(live))),
                    Created(sv, name, uid, version, live), w, Idle)
  {
  }

  /** The first pass: ask, and store the answer. */
  lemma FirstPass(s: State, sv: Server, w: nat, m: Mutation, next: Mutation, response: Response, version: string)
    requires Reached(s, sv, w, Idle) && Held(sv.revisions, m) && Current(sv, m) && !m.deleting
    requires m.phase.NotStarted? && next == ProposedBy(m, response) && next != m && FreshVersion(sv, version)
    ensures Reached(Step(Step(Step(Step(s, Load(w, m.version)), Prepare(w, version)), Propose(w, response)),
                         Update(w, version)),
                    StoreMutation(sv, next.(version := version)), w, Idle)
  {
    var s1 := Step(s, Load(w, m.version));
    var s2 := Step(s1, Prepare(w, version));
    LoadStep(s, sv, w, m);
    PrepareStep(s1, sv, w, m, version);
    ProposeStep(s2, sv, w, m, response);
    UpdateStep(Step(s2, Propose(w, response)), sv, w, m, next, version);
  }

  /** The second pass: judge, validate, patch, and record. */
  lemma SecondPass(s: State, sv: Server, w: nat, m: Mutation, j: Judgement, stored: Object, version: string)
    requires Reached(s, sv, w, Idle) && Held(sv.revisions, m) && Current(sv, m) && !m.deleting
    requires CanApply(sv, m, j, stored) && FreshVersion(sv, version)
    ensures var ready := Step(Step(s, Load(w, m.version)), Prepare(w, version));
            Reached(Step(Step(Step(Step(ready, Judge(w, Version(j.live))), DryRun(w)), Patch(w, stored, true)),
                         Update(w, version)),
                    StoreMutation(CommitPatch(sv, m, j, stored), CompletedBy(m, j.decision).(version := version)), w, Idle)
  {
    var s1 := Step(s, Load(w, m.version));
    var s2 := Step(s1, Prepare(w, version));
    LoadStep(s, sv, w, m);
    PrepareStep(s1, sv, w, m, version);
    ApplySteps(s2, sv, w, m, j, stored);
    var patched := Step(Step(Step(s2, Judge(w, Version(j.live))), DryRun(w)), Patch(w, stored, true));
    UpdateStep(patched, CommitPatch(sv, m, j, stored), w, m, CompletedBy(m, j.decision), version);
  }

  /** The pipeline from the finding to the recorded outcome. */
  function Undisturbed(w: nat, name: string, uid: string, versions: seq<string>, live: Object, response: Response,
                       stored: Object): seq<Action>
    requires |versions| == 3
  {
    [CreateMutation(name, uid, versions[0], KeyOf(live), Version(live)),
     Load(w, versions[0]), Prepare(w, versions[1]), Propose(w, response), Update(w, versions[1]),
     Load(w, versions[1]), Prepare(w, versions[2]), Judge(w, Version(live)), DryRun(w), Patch(w, stored, true),
     Update(w, versions[2])]
  }

  /** The outcome: one image replaced, and a Completed Mutation that says so. */
  predicate DoneAsAsked(sv: Server, name: string, live: Object, loc: Location, stored: Object) {
    && name in sv.mutations && sv.mutations[name].phase.Completed? && sv.mutations[name].applied
    && sv.mutations[name].verdict.ApprovedVerdict? && sv.mutations[name].changedPaths == [Render(loc)]
    && KeyOf(live) in sv.targets && sv.targets[KeyOf(live)] == stored
  }

  lemma StepsAppend(s: State, a: seq<Action>, b: seq<Action>)
    ensures Steps(s, a + b) == Steps(Steps(s, a), b)
    decreases |a|
  {
    if a == [] {
      assert a + b == b;
    } else {
      assert a + b == [a[0]] + (a[1..] + b);
      StepsOne(s, a[0], a[1..] + b);
      StepsAppend(Step(s, a[0]), a[1..], b);
    }
  }

  lemma StepsSix(s: State, load: Action, prepare: Action, judge: Action, dryRun: Action, patch: Action, update: Action)
    ensures Steps(s, [load, prepare, judge, dryRun, patch, update]) ==
            Step(Step(Step(Step(Step(Step(s, load), prepare), judge), dryRun), patch), update)
  {
    var s2 := Step(Step(s, load), prepare);
    assert [load, prepare, judge, dryRun, patch, update] == [load] + ([prepare] + [judge, dryRun, patch, update]);
    StepsOne(s, load, [prepare] + [judge, dryRun, patch, update]);
    StepsOne(Step(s, load), prepare, [judge, dryRun, patch, update]);
    StepsFour(s2, judge, dryRun, patch, update);
  }

  /** The pass that asks, and the pass that applies. */
  function Asking(w: nat, versions: seq<string>, response: Response): seq<Action>
    requires |versions| == 3
  {
    [Load(w, versions[0]), Prepare(w, versions[1]), Propose(w, response), Update(w, versions[1])]
  }

  function Applying(w: nat, versions: seq<string>, live: Object, stored: Object): seq<Action>
    requires |versions| == 3
  {
    [Load(w, versions[1]), Prepare(w, versions[2]), Judge(w, Version(live)), DryRun(w), Patch(w, stored, true),
     Update(w, versions[2])]
  }

  lemma UndisturbedInParts(s: State, w: nat, name: string, uid: string, versions: seq<string>, live: Object,
                           response: Response, stored: Object)
    requires |versions| == 3
    ensures var create := CreateMutation(name, uid, versions[0], KeyOf(live), Version(live));
            Steps(s, Undisturbed(w, name, uid, versions, live, response, stored)) ==
            Steps(Steps(Step(s, create), Asking(w, versions, response)), Applying(w, versions, live, stored))
  {
    var create := CreateMutation(name, uid, versions[0], KeyOf(live), Version(live));
    var first, second := Asking(w, versions, response), Applying(w, versions, live, stored);
    assert Undisturbed(w, name, uid, versions, live, response, stored) == [create] + (first + second);
    StepsOne(s, create, first + second);
    StepsAppend(Step(s, create), first, second);
  }

  lemma UndisturbedSteps(s: State, w: nat, name: string, uid: string, versions: seq<string>, live: Object,
                         response: Response, stored: Object)
    requires |versions| == 3
    ensures Steps(s, Undisturbed(w, name, uid, versions, live, response, stored)) ==
            var s1 := Step(s, CreateMutation(name, uid, versions[0], KeyOf(live), Version(live)));
            var s2 := Step(Step(Step(Step(s1, Load(w, versions[0])), Prepare(w, versions[1])), Propose(w, response)),
                           Update(w, versions[1]));
            var s3 := Step(Step(s2, Load(w, versions[1])), Prepare(w, versions[2]));
            Step(Step(Step(Step(s3, Judge(w, Version(live))), DryRun(w)), Patch(w, stored, true)), Update(w, versions[2]))
  {
    UndisturbedInParts(s, w, name, uid, versions, live, response, stored);
    var s1 := Step(s, CreateMutation(name, uid, versions[0], KeyOf(live), Version(live)));
    StepsFour(s1, Load(w, versions[0]), Prepare(w, versions[1]), Propose(w, response), Update(w, versions[1]));
    var s2 := Steps(s1, Asking(w, versions, response));
    StepsSix(s2, Load(w, versions[1]), Prepare(w, versions[2]), Judge(w, Version(live)), DryRun(w), Patch(w, stored, true),
             Update(w, versions[2]));
  }

  /** The target is current, the answer improves it, and the server may store the improved object. */
  predicate Deliverable(sv: Server, live: Object, container: string, image: string, stored: Object) {
    && KeyOf(live) in sv.targets && sv.targets[KeyOf(live)] == live && Stored(sv.history, live)
    && Improves(live, container, image) && MayStore(sv, KeyOf(live), stored)
    && var improved := Replace(live, Selected(live, container), Str(image));
       (improved.Some? && improved.value.Map? ==> Stamped(improved.value, stored))
  }

  /** What the answered Mutation allows the second pass to do. */
  lemma AnsweredCanApply(sv: Server, m: Mutation, live: Object, container: string, image: string, stored: Object)
    requires Deliverable(sv, live, container, image, stored)
    requires m.origin == Snapshot(live) && m.phase.InProgress?
    requires ProposedFor(m) == Some(Answered(live, container, image))
    ensures CanApply(sv, m, Judged(m, live, Answered(live, container, image)), stored)
    ensures PathsOf(DecisionOn(m, live, Answered(live, container, image)).changes) == [Render(Selected(live, container))]
  {
    CompactAllowed(live, container, image);
  }

  /** The server between the two passes: the answered Mutation is current and the targets are untouched. */
  predicate Awaiting(sv: Server, later: Server, m: Mutation) {
    && Held(later.revisions, m) && Current(later, m) && !m.deleting
    && later.targets == sv.targets && later.history == sv.history && later.commits == sv.commits
  }

  /** The server after creation and first pass. */
  function AskedServer(sv: Server, name: string, uid: string, versions: seq<string>, live: Object, q: Value): Server
    requires |versions| == 3
  {
    StoreMutation(Created(sv, name, uid, versions[0], live), Asked(name, uid, versions[0], live, q).(version := versions[1]))
  }

  lemma AskedIsAwaiting(sv: Server, name: string, uid: string, versions: seq<string>, live: Object, q: Value)
    requires FreshNames(sv, name, uid, versions)
    ensures var later := AskedServer(sv, name, uid, versions, live, q);
            Awaiting(sv, later, Asked(name, uid, versions[0], live, q).(version := versions[1])) && FreshVersion(later, versions[2])
  {
  }

  lemma AskingPass(s: State, w: nat, name: string, uid: string, versions: seq<string>, live: Object, q: Value, response: Response)
    requires WorkerOf(s, w).Idle? && FreshNames(s.server, name, uid, versions) && Stored(s.server.history, live)
    requires var m := NewMutation(name, uid, versions[0], live);
             ProposedBy(m, response) == Asked(name, uid, versions[0], live, q)
    ensures var s1 := Step(s, CreateMutation(name, uid, versions[0], KeyOf(live), Version(live)));
            var s2 := Step(Step(Step(Step(s1, Load(w, versions[0])), Prepare(w, versions[1])), Propose(w, response)),
                           Update(w, versions[1]));
            var m1 := Asked(name, uid, versions[0], live, q).(version := versions[1]);
            WorkerOf(s2, w).Idle? && Awaiting(s.server, s2.server, m1) && FreshVersion(s2.server, versions[2])
  {
    CreateStep(s, s.server, w, name, uid, versions[0], live);
    FirstPass(Step(s, CreateMutation(name, uid, versions[0], KeyOf(live), Version(live))),
              Created(s.server, name, uid, versions[0], live), w, NewMutation(name, uid, versions[0], live),
              Asked(name, uid, versions[0], live, q), response, versions[1]);
    AskedIsAwaiting(s.server, name, uid, versions, live, q);
  }

  lemma ApplyingPass(s: State, w: nat, m: Mutation, live: Object, container: string, image: string, stored: Object, version: string)
    requires WorkerOf(s, w).Idle? && Awaiting(s.server, s.server, m) && FreshVersion(s.server, version)
    requires Deliverable(s.server, live, container, image, stored) && m.origin == Snapshot(live) && m.phase.InProgress?
    requires ProposedFor(m) == Some(Answered(live, container, image))
    ensures var ready := Step(Step(s, Load(w, m.version)), Prepare(w, version));
            DoneAsAsked(Step(Step(Step(Step(ready, Judge(w, Version(live))), DryRun(w)), Patch(w, stored, true)),
                             Update(w, version)).server, m.name, live, Selected(live, container), stored)
  {
    AnsweredCanApply(s.server, m, live, container, image, stored);
    SecondPass(s, s.server, w, m, Judged(m, live, Answered(live, container, image)), stored, version);
  }

  /**
   * End to end. Whatever else the server holds, a well-formed compact answer that selects a container
   * of the kind's own pod specification with another image is carried out when nobody interferes: the
   * target ends as it was with exactly that image replaced, and the Mutation ends Completed and says so.
   */
  lemma UndisturbedAnswerIsCarriedOut(s: State, w: nat, name: string, uid: string, versions: seq<string>, live: Object,
                                      container: string, image: string, response: Response, stored: Object)
    requires WorkerOf(s, w).Idle? && FreshNames(s.server, name, uid, versions)
    requires Deliverable(s.server, live, container, image, stored) && Answers(response, container, image)
    ensures DoneAsAsked(Steps(s, Undisturbed(w, name, uid, versions, live, response, stored)).server, name, live,
                        Selected(live, container), stored)
  {
    var q := Answered(live, container, image);
    AnsweredMutation(name, uid, versions[0], live, container, image, response);
    UndisturbedSteps(s, w, name, uid, versions, live, response, stored);
    AskingPass(s, w, name, uid, versions, live, q, response);
    var s1 := Step(s, CreateMutation(name, uid, versions[0], KeyOf(live), Version(live)));
    var s2 := Step(Step(Step(Step(s1, Load(w, versions[0])), Prepare(w, versions[1])), Propose(w, response)),
                   Update(w, versions[1]));
    var m1 := Asked(name, uid, versions[0], live, q).(version := versions[1]);
    ApplyingPass(s2, w, m1, live, container, image, stored, versions[2]);
  }
}
