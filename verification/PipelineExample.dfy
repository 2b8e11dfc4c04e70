/**
 * Runs from the empty cluster: one that ends Completed, one that ends Aborted after its commit, and one
 * that commits after its Mutation is gone.
 */
module PipelineExample {
  import opened Strings
  import opened Pointer
  import opened Json
  import opened Diff
  import opened Gvk
  import opened Gate
  import opened GateProofs
  import opened ImageProposal
  import opened Pipeline
  import opened PipelineInvariant
  import opened PipelineSafety
  import opened PipelineTheorems
  import opened PipelineScenarios
  import opened PipelineContinuation
  import opened PipelineCompleteness

  // ---------------------------------------------------------------- the server can store the outcome

  /** The object with the one image replaced. */
  function Improved(live: Object, container: string, image: string): Option<Value>
    requires Improves(live, container, image)
  {
    Replace(live, Selected(live, container), Str(image))
  }

  lemma ReplaceInSpec(o: Object, loc: Location, x: Value)
    requires loc != [] && loc[0] == "spec" && Replace(o, loc, x).Some?
    ensures Replace(o, loc, x).value.Map?
    ensures forall t | t != "spec" :: Kid(Replace(o, loc, x).value, t) == Kid(o, t)
  {
  }

  lemma ImageIsInSpec(live: Object, container: string, image: string)
    requires Improves(live, container, image)
    ensures Selected(live, container) != [] && Selected(live, container)[0] == "spec"
    ensures Improved(live, container, image).Some?
  {
    SelectFinds(live, container, PATHS);
    PathsStartAtSpec(Select(live, container, PATHS).value.path);
    LookupExists(live, Selected(live, container));
    ReplaceHits(live, Selected(live, container), Str(image));
  }

  lemma ImprovedKeeps(live: Object, container: string, image: string)
    requires Improves(live, container, image)
    ensures Improved(live, container, image).Some? && Improved(live, container, image).value.Map?
    ensures var w := Improved(live, container, image).value;
            Get(w.fields, META).Map? && Uid(w) == Uid(live) && KeyOf(w) == KeyOf(live)
  {
    ImageIsInSpec(live, container, image);
    ReplaceInSpec(live, Selected(live, container), Str(image));
    NamedHasMetadata(live);
    LookupOne(live, META);
    SameObjectTexts(live, Improved(live, container, image).value);
  }

  /** Whatever the server holds, it can store the improved object under any version new to its key. */
  lemma OutcomeCanBeStored(sv: Server, live: Object, container: string, image: string, version: string)
    requires KeyOf(live) in sv.targets && sv.targets[KeyOf(live)] == live && Stored(sv.history, live)
    requires Improves(live, container, image) && version != "" && (KeyOf(live), version) !in sv.history
    ensures Improved(live, container, image).Some? && Improved(live, container, image).value.Map?
    ensures Deliverable(sv, live, container, image, Restamped(Improved(live, container, image).value, version))
  {
    ImprovedKeeps(live, container, image);
    RestampedKeeps(Improved(live, container, image).value, version);
  }

  // ---------------------------------------------------------------- an example

  /** A Pod with one container. */
  function Pod(image: string): Object {
    Map(map["apiVersion" := Str("v1"), "kind" := Str("Pod"),
            "metadata" := Map(map["name" := Str("web"), "uid" := Str("u"), "resourceVersion" := Str("1")]),
            "spec" := Map(map["containers" := List([Map(map["name" := Str("app"), "image" := Str(image)])])])])
  }

  lemma PodTexts(image: string)
    ensures var o := Pod(image);
            && Text(o, API_VERSION) == "v1" && Text(o, KIND) == "Pod" && Text(o, NAME) == "web" && Text(o, NAMESPACE) == ""
            && Uid(o) == "u" && Version(o) == "1" && !Owned(o)
  {
    var o := Pod(image);
    LookupOne(o, "apiVersion");
    LookupOne(o, "kind");
    LookupTwo(o, META, "name");
    LookupTwo(o, META, "namespace");
    LookupTwo(o, META, "uid");
    LookupTwo(o, META, "resourceVersion");
    LookupTwo(o, META, "ownerReferences");
  }

  const POD_KEY := Key(GVK("", "v1", "Pod"), "", "web")

  lemma PodKey(image: string)
    ensures KeyOf(Pod(image)) == POD_KEY && Judgeable(Pod(image)) && ServedIdentity(Pod(image))
    ensures RegisteredPolicy(GVKOf(Pod(image))) == Some(PodImages)
  {
    PodTexts(image);
    assert Split("v1", '/') == ["v1"];
  }

  lemma PodImage(image: string, other: string)
    requires image != other
    ensures Improves(Pod(image), "app", other)
  {
    var o := Pod(image);
    PodKey(image);
    assert PATHS[0] == ["spec", "containers"];
    LookupTwo(o, "spec", "containers");
    var items := Lookup(o, PATHS[0]).items;
    assert Named(items[0], "app");
    assert Select(o, "app", PATHS) == Some(Target(PATHS[0], 0));
    LookupSelected(o, Target(PATHS[0], 0));
  }

  function Outcome(): Object
  {
    PodImage("old", "new");
    ImprovedKeeps(Pod("old"), "app", "new");
    Restamped(Improved(Pod("old"), "app", "new").value, "2")
  }

  lemma PodIsDeliverable(sv: Server)
    requires sv == StoreObject(EMPTY.server, POD_KEY, Pod("old"))
    ensures Deliverable(sv, Pod("old"), "app", "new", Outcome())
  {
    PodTexts("old");
    PodKey("old");
    PodImage("old", "new");
    OutcomeCanBeStored(sv, Pod("old"), "app", "new", "2");
  }

  /** What the source asks of a selection. */
  predicate WellFormed(container: string, image: string) {
    container != "" && image != "" && '\n' !in image && '\r' !in image
  }

  /** A target that can be improved, on a cluster without Mutations. */
  predicate Offers(s: State, live: Object, container: string, image: string, stored: Object) {
    && WorkerOf(s, 0).Idle? && s.server.mutations == map[] && s.server.births == map[] && s.server.revisions == map[]
    && s.server.commits == [] && Deliverable(s.server, live, container, image, stored) && WellFormed(container, image)
  }

  lemma ArrivalOffers(key: Key, live: Object, container: string, image: string, stored: Object) returns (run: seq<Action>)
    requires MayStore(EMPTY.server, key, live) && WellFormed(container, image)
    requires Deliverable(StoreObject(EMPTY.server, key, live), live, container, image, stored)
    ensures Offers(After(run), live, container, image, stored)
  {
    run := [StoreTarget(key, live)];
    assert run[..0] == [];
    assert After(run) == Step(EMPTY, run[0]);
  }

  lemma PodFits()
    ensures MayStore(EMPTY.server, POD_KEY, Pod("old")) && WellFormed("app", "new")
  {
    PodTexts("old");
    PodKey("old");
  }

  /** From the empty cluster: the Pod appears. */
  lemma {:induction false} SomeRunOffers()
    returns (run: seq<Action>, live: Object, container: string, image: string, stored: Object)
    ensures Offers(After(run), live, container, image, stored)
  {
    PodFits();
    PodIsDeliverable(StoreObject(EMPTY.server, POD_KEY, Pod("old")));
    run := ArrivalOffers(POD_KEY, Pod("old"), "app", "new", Outcome());
    live, container, image, stored := Pod("old"), "app", "new", Outcome();
  }

  /** Versions the server can hand out one after the other. */
  predicate Versions(a: string, b: string, c: string, d: string) {
    a != "" && b != "" && c != "" && d != "" && a != b && a != c && a != d && b != c && b != d && c != d
  }

  lemma SomeVersions() returns (a: string, b: string, c: string, d: string)
    ensures Versions(a, b, c, d)
  {
    a, b, c, d := "1", "2", "3", "4";
  }

  lemma VersionsAreFresh(sv: Server, name: string, uid: string, a: string, b: string, c: string, d: string)
    requires Versions(a, b, c, d) && sv.mutations == map[] && sv.births == map[] && sv.revisions == map[]
    ensures FreshNames(sv, name, uid, [a, b, c]) && FreshNames(sv, name, uid, [a, b, d])
  {
  }

  // ---------------------------------------------------------------- Completed

  predicate Completes(s: State, name: string) {
    name in s.server.mutations && s.server.mutations[name].phase.Completed?
  }

  lemma OfferCompletes(s: State, name: string, versions: seq<string>, live: Object, container: string, image: string, stored: Object)
    returns (more: seq<Action>)
    requires Offers(s, live, container, image, stored) && FreshNames(s.server, name, name, versions)
    ensures Completes(Steps(s, more), name)
  {
    var response := Response(None, Some((container, image)));
    UndisturbedAnswerIsCarriedOut(s, 0, name, name, versions, live, container, image, response, stored);
    more := Undisturbed(0, name, name, versions, live, response, stored);
  }

  /** From the empty cluster: a target appears, a finding about it is answered, and the answer is carried out. */
  lemma {:induction false} SomeRunCompletes()
    ensures exists run, name :: Completes(After(run), name)
  {
    var run, live, container, image, stored := SomeRunOffers();
    var a, b, c, d := SomeVersions();
    VersionsAreFresh(After(run).server, a, a, a, b, c, d);
    var more := OfferCompletes(After(run), a, [a, b, c], live, container, image, stored);
    AfterSteps(run, more);
    assert Completes(After(run + more), a);
  }

  // ---------------------------------------------------------------- Aborted after its commit, and committed after its end

  /** The answer of this Mutation is stored, nothing is applied yet, and a pass could apply it. */
  ghost predicate Waits(s: State, m: Mutation, j: Judgement, stored: Object, c: string, d: string) {
    && WorkerOf(s, 0).Idle? && Held(s.server.revisions, m) && Current(s.server, m) && s.server.commits == []
    && m.finalizers == [FINALIZER] && !m.deleting && !m.applied
    && FreshVersion(s.server, c) && FreshVersion(s.server, d) && c != d && CanApply(s.server, m, j, stored)
  }

  function AskingActions(name: string, uid: string, versions: seq<string>, live: Object, response: Response): seq<Action>
    requires |versions| == 3
  {
    [CreateMutation(name, uid, versions[0], KeyOf(live), Version(live)), Load(0, versions[0]), Prepare(0, versions[1]),
     Propose(0, response), Update(0, versions[1])]
  }

  lemma StillDeliverable(sv: Server, later: Server, live: Object, container: string, image: string, stored: Object)
    requires Deliverable(sv, live, container, image, stored) && later.targets == sv.targets && later.history == sv.history
    ensures Deliverable(later, live, container, image, stored)
  {
  }

  /** The state after the first pass on a store without Mutations. */
  lemma AskedWaits(s: State, name: string, uid: string, a: string, b: string, c: string, d: string, live: Object,
                   container: string, image: string, response: Response, stored: Object)
    requires WorkerOf(s, 0).Idle? && FreshNames(s.server, name, uid, [a, b, c]) && FreshNames(s.server, name, uid, [a, b, d])
    requires Deliverable(s.server, live, container, image, stored) && Answers(response, container, image)
    requires s.server.commits == [] && c != d
    ensures var q := Answered(live, container, image);
            var m := Asked(name, uid, a, live, q).(version := b);
            Waits(Steps(s, AskingActions(name, uid, [a, b, c], live, response)), m, Judged(m, live, q), stored, c, d)
  {
    var q := Answered(live, container, image);
    var actions := AskingActions(name, uid, [a, b, c], live, response);
    AnsweredMutation(name, uid, a, live, container, image, response);
    AskingPass(s, 0, name, uid, [a, b, c], live, q, response);
    AskingPass(s, 0, name, uid, [a, b, d], live, q, response);
    StepsFive(s, actions[0], actions[1], actions[2], actions[3], actions[4]);
    StillDeliverable(s.server, Steps(s, actions).server, live, container, image, stored);
    AnsweredCanApply(Steps(s, actions).server, Asked(name, uid, a, live, q).(version := b), live, container, image, stored);
  }

  lemma {:induction false} OfferWaits(run: seq<Action>, name: string, a: string, b: string, c: string, d: string, live: Object,
                                      container: string, image: string, stored: Object)
    returns (later: seq<Action>, m: Mutation, j: Judgement)
    requires Offers(After(run), live, container, image, stored) && Versions(a, b, c, d)
    ensures Waits(After(later), m, j, stored, c, d)
  {
    var response := Response(None, Some((container, image)));
    VersionsAreFresh(After(run).server, name, name, a, b, c, d);
    AskedWaits(After(run), name, name, a, b, c, d, live, container, image, response, stored);
    AfterSteps(run, AskingActions(name, name, [a, b, c], live, response));
    later := run + AskingActions(name, name, [a, b, c], live, response);
    m := Asked(name, name, a, live, Answered(live, container, image)).(version := b);
    j := Judged(m, live, Answered(live, container, image));
  }

  lemma {:induction false} SomeRunWaits() returns (run: seq<Action>, m: Mutation, j: Judgement, stored: Object, c: string, d: string)
    ensures Waits(After(run), m, j, stored, c, d)
  {
    var arrival, live, container, image, outcome := SomeRunOffers();
    var a, b, v, w := SomeVersions();
    run, m, j := OfferWaits(arrival, a, a, b, v, w, live, container, image, outcome);
    stored, c, d := outcome, v, w;
  }

  /** The pass up to the persistent patch. */
  lemma ValidatingSteps(s: State, m: Mutation, j: Judgement, stored: Object)
    requires WorkerOf(s, 0).Idle? && Held(s.server.revisions, m) && !m.deleting && CanApply(s.server, m, j, stored)
    ensures Reached(Steps(s, [Load(0, m.version), Prepare(0, ""), Judge(0, Version(j.live)), DryRun(0)]), s.server, 0, Validated(m, j))
  {
    var s1 := Step(s, Load(0, m.version));
    var s2 := Step(s1, Prepare(0, ""));
    ApplicablePatch(s.server, m, j, stored);
    LoadStep(s, s.server, 0, m);
    PrepareStep(s1, s.server, 0, m, "");
    JudgeStep(s2, s.server, 0, m, j.live, j.proposed);
    DryRunStep(Step(s2, Judge(0, Version(j.live))), s.server, 0, m, j);
    StepsFour(s, Load(0, m.version), Prepare(0, ""), Judge(0, Version(j.live)), DryRun(0));
  }

  lemma WaitingEndsAborted(s: State, m: Mutation, j: Judgement, stored: Object, c: string, d: string) returns (more: seq<Action>)
    requires Waits(s, m, j, stored, c, d)
    ensures AbortedDespiteItsCommit(Steps(s, more).server, m, j.live, stored)
  {
    var validating := [Load(0, m.version), Prepare(0, ""), Judge(0, Version(j.live)), DryRun(0)];
    ValidatingSteps(s, m, j, stored);
    LostReplyEndsAborted(Steps(s, validating), 0, m, j, stored, c);
    StepsAppend(s, validating, RetryAfterLostReply(0, m, stored, c));
    more := validating + RetryAfterLostReply(0, m, stored, c);
  }

  /** The Mutation of this name is Aborted and has made one persistent patch. */
  predicate AbortedAfterCommit(sv: Server, name: string) {
    name in sv.mutations && sv.mutations[name].phase.Aborted? && CommitCount(sv.commits, sv.mutations[name].uid) == 1
  }

  /** Aborted does not mean not applied: a run from the empty cluster. */
  lemma {:induction false} SomeRunAbortsAfterItsCommit()
    ensures exists run, name :: AbortedAfterCommit(After(run).server, name)
  {
    var run, m, j, stored, c, d := SomeRunWaits();
    var more := WaitingEndsAborted(After(run), m, j, stored, c, d);
    AfterSteps(run, more);
    AtMostOneCommitEach(run + more, m.uid);
    assert AbortedAfterCommit(After(run + more).server, m.name);
  }

  /** The Mutation with this UID is gone and has committed nothing. */
  predicate GoneUnapplied(sv: Server, uid: string) {
    uid in sv.births && sv.births[uid].name !in sv.mutations && CommitCount(sv.commits, uid) == 0
  }

  lemma DeletionStep(s: State, m: Mutation, version: string)
    requires WorkerOf(s, 0).Idle? && m.name in s.server.mutations && s.server.mutations[m.name] == m
    requires FreshVersion(s.server, version) && m.finalizers != []
    ensures var gone := m.(deleting := true, version := version);
            Reached(Step(s, RequestDeletion(m.name, version)), StoreMutation(s.server, gone), 0, Idle)
  {
  }

  lemma StepsThree(s: State, a: Action, b: Action, c: Action)
    ensures Steps(s, [a, b, c]) == Step(Step(Step(s, a), b), c)
  {
    assert [a, b, c] == [a] + ([b] + ([c] + []));
    StepsOne(s, a, [b] + ([c] + []));
    StepsOne(Step(s, a), b, [c] + []);
    StepsOne(Step(Step(s, a), b), c, []);
  }

  /** The revision the releasing pass goes on with. */
  function LastRevision(m: Mutation, version: string): Mutation {
    m.(deleting := true, finalizers := [], version := version)
  }

  /** The pass that removes the last finalizer, and with it the object. */
  lemma ReleasingSteps(s: State, m: Mutation, c: string, d: string)
    requires WorkerOf(s, 0).Idle? && m.name in s.server.mutations && s.server.mutations[m.name] == m
    requires FreshVersion(s.server, c) && FreshVersion(s.server, d) && c != d && m.finalizers == [FINALIZER]
    ensures var t := Steps(s, [RequestDeletion(m.name, c), Load(0, c), Prepare(0, d)]);
            && m.name !in t.server.mutations && WorkerOf(t, 0) == Ready(LastRevision(m, d))
            && t.server.targets == s.server.targets && t.server.history == s.server.history
            && t.server.commits == s.server.commits && t.server.births == s.server.births
  {
    var gone := m.(deleting := true, version := c);
    var s1 := Step(s, RequestDeletion(m.name, c));
    DeletionStep(s, m, c);
    LoadStep(s1, StoreMutation(s.server, gone), 0, gone);
    assert WithoutFinalizer([FINALIZER], FINALIZER) == [];
    PrepareDropStep(Step(s1, Load(0, c)), StoreMutation(s.server, gone), 0, gone, d);
    StepsThree(s, RequestDeletion(m.name, c), Load(0, c), Prepare(0, d));
  }

  /** The same pass then goes on to patch the target. */
  lemma ReleasedStillPatches(t: State, m: Mutation, j: Judgement, stored: Object)
    requires WorkerOf(t, 0) == Ready(m) && CanApply(t.server, m, j, stored)
    ensures CommitCount(Steps(t, [Judge(0, Version(j.live)), DryRun(0), Patch(0, stored, true)]).server.commits, m.uid) ==
            CommitCount(t.server.commits, m.uid) + 1
  {
    ApplySteps(t, t.server, 0, m, j, stored);
    StepsThree(t, Judge(0, Version(j.live)), DryRun(0), Patch(0, stored, true));
    OneMoreCommit(t.server, m, j, stored);
  }

  lemma ReleasedCanApply(sv: Server, later: Server, m: Mutation, d: string, j: Judgement, stored: Object)
    requires CanApply(sv, m, j, stored) && later.targets == sv.targets && later.history == sv.history
    ensures CanApply(later, LastRevision(m, d), j, stored)
  {
  }

  /** A run at whose end a Mutation is gone, with the pass that released it about to judge. */
  lemma {:induction false} SomeRunReleases() returns (run: seq<Action>, m: Mutation, j: Judgement, stored: Object)
    ensures GoneUnapplied(After(run).server, m.uid) && WorkerOf(After(run), 0) == Ready(m) && CanApply(After(run).server, m, j, stored)
  {
    var asked, m0, j0, o, c, d := SomeRunWaits();
    ReachableOk(asked);
    HeldIsCurrent(After(asked).server, m0);
    ReleasingSteps(After(asked), m0, c, d);
    var release := [RequestDeletion(m0.name, c), Load(0, c), Prepare(0, d)];
    AfterSteps(asked, release);
    run, m, j, stored := asked + release, LastRevision(m0, d), j0, o;
    ReleasedCanApply(After(asked).server, After(run).server, m0, d, j, stored);
  }

  /** The Mutation with this UID is gone and unapplied after the run, and commits in the continuation. */
  ghost predicate CommitsAfterItsEnd(run: seq<Action>, more: seq<Action>, uid: string) {
    GoneUnapplied(After(run).server, uid) && CommitCount(After(run + more).server.commits, uid) == 1
  }

  lemma {:induction false} ReleasedCommits(run: seq<Action>, m: Mutation, j: Judgement, stored: Object) returns (more: seq<Action>)
    requires GoneUnapplied(After(run).server, m.uid) && WorkerOf(After(run), 0) == Ready(m) && CanApply(After(run).server, m, j, stored)
    ensures CommitsAfterItsEnd(run, more, m.uid)
  {
    more := [Judge(0, Version(j.live)), DryRun(0), Patch(0, stored, true)];
    ReleasedStillPatches(After(run), m, j, stored);
    AfterSteps(run, more);
  }

  /** Deleting a Mutation does not stop it: a run from the empty cluster at whose end it is gone, and a continuation that commits. */
  lemma {:induction false} SomeRunCommitsAfterItsEnd()
    ensures exists run, more, uid :: CommitsAfterItsEnd(run, more, uid)
  {
    var run, m, j, stored := SomeRunReleases();
    var more := ReleasedCommits(run, m, j, stored);
  }
}
