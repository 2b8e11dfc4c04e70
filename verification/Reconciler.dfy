/**
 * One reconcile pass as the source runs it (mutation_controller.go, object_to_execution.go), against
 * an API server that others use between any two of its calls. Each call is shown to be one action of
 * the pipeline, and the run is shown to grow by those and by what the others do and by nothing else,
 * so every guarantee over runs holds of a pass.
 */
module Reconciler {
  import opened Strings
  import opened Pointer
  import opened Json
  import opened Diff
  import opened Gate
  import opened ImageProposal
  import opened Rollout
  import opened Pipeline
  import opened PipelineInvariant
  import opened PipelineSafety
  import opened PipelineTheorems
  import opened PipelineScenarios

  /** The pass an action belongs to, if any. */
  predicate ActsFor(a: Action, w: nat) {
    !ByThirdParty(a) && a.w == w
  }

  predicate Foreign(others: seq<Action>, w: nat) {
    forall i | 0 <= i < |others| :: !ActsFor(others[i], w)
  }

  lemma {:induction false} ThirdPartyStep(s: State, a: Action)
    requires ByThirdParty(a)
    ensures Step(s, a).workers == s.workers
  {
  }

  lemma {:induction false} OtherReadStep(s: State, a: Action, w: nat)
    requires a.Load? || a.Prepare? || a.Propose? || a.Observe? || a.Update? || a.Abandon?
    requires a.w != w
    ensures WorkerOf(Step(s, a), w) == WorkerOf(s, w)
  {
  }

  lemma {:induction false} OtherJudgeStep(s: State, a: Action, w: nat)
    requires (a.Judge? || a.DryRun?) && a.w != w && Enabled(s, a)
    ensures WorkerOf(Next(s, a), w) == WorkerOf(s, w)
  {
  }

  lemma {:induction false} OtherPatchStep(s: State, a: Action, w: nat)
    requires a.Patch? && a.w != w && Enabled(s, a)
    ensures WorkerOf(Next(s, a), w) == WorkerOf(s, w)
  {
  }

  lemma ForeignStep(s: State, a: Action, w: nat)
    requires !ActsFor(a, w)
    ensures WorkerOf(Step(s, a), w) == WorkerOf(s, w)
  {
    if ByThirdParty(a) {
      ThirdPartyStep(s, a);
    } else if a.Judge? || a.DryRun? {
      if Enabled(s, a) { OtherJudgeStep(s, a, w); }
    } else if a.Patch? {
      if Enabled(s, a) { OtherPatchStep(s, a, w); }
    } else {
      OtherReadStep(s, a, w);
    }
  }

  // ---------------------------------------------------------------- what a pass adds to the run

  /** What one call of a pass is. */
  datatype Kind = Loads | Prepares | Proposes | Judges | DryRuns | Patches | Observes | Updates | Abandons | Others

  function KindOf(a: Action): Kind {
    match a
    case Load(_, _) => Loads
    case Prepare(_, _) => Prepares
    case Propose(_, _) => Proposes
    case Judge(_, _) => Judges
    case DryRun(_) => DryRuns
    case Patch(_, _, _) => Patches
    case Observe(_, _, _) => Observes
    case Update(_, _) => Updates
    case Abandon(_) => Abandons
    case _ => Others
  }

  /** What a pass may do in each phase. */
  function KindsIn(p: Phase): set<Kind> {
    match p
    case NotStarted => {Proposes, Updates, Abandons}
    case InProgress => {Judges, DryRuns, Patches, Updates, Abandons}
    case Completed => {Observes, Updates, Abandons}
    case Pending => {Observes, Updates, Abandons}
    case _ => {Abandons}
  }

  /** The actions that are not of this pass, in order. */
  function ByOthers(run: seq<Action>, w: nat): seq<Action> {
    if run == [] then []
    else (if ActsFor(run[0], w) then [] else [run[0]]) + ByOthers(run[1..], w)
  }

  /** The pass did nothing but these kinds of things. */
  ghost predicate OwnOnly(run: seq<Action>, w: nat, own: set<Kind>) {
    forall a | a in run && ActsFor(a, w) :: KindOf(a) in own
  }

  /** The run grew by actions of the pass of these kinds and by exactly these actions of others. */
  ghost predicate Adds(before: seq<Action>, after: seq<Action>, w: nat, own: set<Kind>, others: seq<Action>) {
    && before <= after && OwnOnly(after[|before|..], w, own) && ByOthers(after[|before|..], w) == others
  }

  /** The same, with the others cut short when the pass ended early. */
  ghost predicate AddsUpTo(before: seq<Action>, after: seq<Action>, w: nat, own: set<Kind>, others: seq<Action>) {
    && before <= after && OwnOnly(after[|before|..], w, own) && ByOthers(after[|before|..], w) <= others
  }

  lemma {:induction false} ByOthersConcat(x: seq<Action>, y: seq<Action>, w: nat)
    ensures ByOthers(x + y, w) == ByOthers(x, w) + ByOthers(y, w)
  {
    if x == [] {
      assert [] + y == y;
    } else {
      assert (x + y)[0] == x[0] && (x + y)[1..] == x[1..] + y;
      ByOthersConcat(x[1..], y, w);
    }
  }

  lemma {:induction false} ForeignIsByOthers(others: seq<Action>, w: nat)
    requires Foreign(others, w)
    ensures ByOthers(others, w) == others
  {
    if others != [] {
      assert Foreign(others[1..], w);
      ForeignIsByOthers(others[1..], w);
    }
  }

  lemma AddsOwn(run: seq<Action>, a: Action, w: nat, own: set<Kind>)
    requires ActsFor(a, w) && KindOf(a) in own
    ensures Adds(run, run + [a], w, own, [])
  {
    assert (run + [a])[|run|..] == [a];
    assert ByOthers([a], w) == [] + ByOthers([a][1..], w);
  }

  lemma DryRunAdds(run: seq<Action>, ok: bool, w: nat)
    ensures Adds(run, run + [if ok then DryRun(w) else Abandon(w)], w, {DryRuns, Abandons}, [])
  {
    AddsOwn(run, if ok then DryRun(w) else Abandon(w), w, {DryRuns, Abandons});
  }

  lemma WriteAdds(run: seq<Action>, ok: bool, w: nat, version: string)
    ensures Adds(run, run + [if ok then Update(w, version) else Abandon(w)], w, {Updates, Abandons}, [])
  {
    AddsOwn(run, if ok then Update(w, version) else Abandon(w), w, {Updates, Abandons});
  }

  lemma PrepareAdds(run: seq<Action>, ok: bool, w: nat, version: string)
    ensures Adds(run, run + [if ok then Prepare(w, version) else Abandon(w)], w, {Prepares, Abandons}, [])
  {
    AddsOwn(run, if ok then Prepare(w, version) else Abandon(w), w, {Prepares, Abandons});
  }

  lemma PatchAdds(run: seq<Action>, ok: bool, w: nat, stored: Object, acknowledged: bool)
    ensures Adds(run, run + [if ok then Patch(w, stored, acknowledged) else Abandon(w)], w, {Patches, Abandons}, [])
  {
    AddsOwn(run, if ok then Patch(w, stored, acknowledged) else Abandon(w), w, {Patches, Abandons});
  }

  lemma AddsOthers(run: seq<Action>, others: seq<Action>, w: nat, own: set<Kind>)
    requires Foreign(others, w)
    ensures Adds(run, run + others, w, own, others)
  {
    assert (run + others)[|run|..] == others;
    ForeignIsByOthers(others, w);
  }

  lemma AddedConcat(a: seq<Action>, b: seq<Action>, c: seq<Action>, w: nat)
    requires a <= b <= c
    ensures a <= c && ByOthers(c[|a|..], w) == ByOthers(b[|a|..], w) + ByOthers(c[|b|..], w)
    ensures forall x | x in c[|a|..] :: x in b[|a|..] || x in c[|b|..]
  {
    assert c[..|b|] == b && c[..|a|] == b[..|a|];
    assert c[|a|..] == b[|a|..] + c[|b|..];
    ByOthersConcat(b[|a|..], c[|b|..], w);
  }

  lemma AddsBoth(a: seq<Action>, b: seq<Action>, c: seq<Action>, w: nat, own: set<Kind>, first: seq<Action>, second: seq<Action>)
    requires Adds(a, b, w, own, first) && Adds(b, c, w, own, second)
    ensures Adds(a, c, w, own, first + second)
  {
    AddedConcat(a, b, c, w);
  }

  lemma AddsThenUpTo(a: seq<Action>, b: seq<Action>, c: seq<Action>, w: nat, own: set<Kind>, first: seq<Action>, rest: seq<Action>)
    requires Adds(a, b, w, own, first) && AddsUpTo(b, c, w, own, rest)
    ensures AddsUpTo(a, c, w, own, first + rest)
  {
    AddedConcat(a, b, c, w);
  }

  lemma AddsWithin(a: seq<Action>, b: seq<Action>, w: nat, own: set<Kind>, heard: seq<Action>, more: set<Kind>, others: seq<Action>)
    requires Adds(a, b, w, own, heard) && own <= more && heard <= others
    ensures AddsUpTo(a, b, w, more, others)
  {
  }

  // ---------------------------------------------------------------- patching on the server

  /** The server accepts a patch that applies and either changes nothing or can be stored as `stored`. */
  predicate Accepts(sv: Server, key: Key, operations: seq<PatchOperation>, stored: Object) {
    && key in sv.targets && ApplyPatch(sv.targets[key], operations).Some?
    && var patched := ApplyPatch(sv.targets[key], operations).value;
    patched == sv.targets[key] || (patched.Map? && Stamped(patched, stored) && MayStore(sv, key, stored))
  }

  /** The server after an accepted patch, with the record of who patched which version. */
  function Accepted(sv: Server, operations: seq<PatchOperation>, c: Commit): Server
    requires Accepts(sv, c.key, operations, c.after)
  {
    if ApplyPatch(sv.targets[c.key], operations).value == sv.targets[c.key] then sv
    else StoreObject(sv, c.key, c.after).(commits := sv.commits + [c.(before := sv.targets[c.key])])
  }

  // ---------------------------------------------------------------- a run and the states it goes through

  ghost predicate Stepped(states: seq<State>, run: seq<Action>, i: nat)
    requires |states| == |run| + 1 && i < |run|
  {
    states[i + 1] == Step(states[i], run[i])
  }

  ghost predicate IsTrace(states: seq<State>, run: seq<Action>) {
    && |states| == |run| + 1 && states[0] == EMPTY
    && forall i: nat | i < |run| :: Stepped(states, run, i)
  }

  lemma TraceAppend(states: seq<State>, run: seq<Action>, t: State, a: Action)
    requires IsTrace(states, run) && t == Step(states[|run|], a)
    ensures IsTrace(states + [t], run + [a])
  {
    forall i: nat | i < |run| + 1 ensures Stepped(states + [t], run + [a], i) {
      if i < |run| { assert Stepped(states, run, i); }
    }
  }

  lemma TracePrefix(states: seq<State>, run: seq<Action>)
    requires IsTrace(states, run) && run != []
    ensures IsTrace(states[..|run|], run[..|run| - 1])
  {
    var n := |run| - 1;
    var before, first := states[..n + 1], run[..n];
    forall i: nat | i < n ensures Stepped(before, first, i) { assert Stepped(states, run, i); }
  }

  lemma {:induction false} TraceIsAfter(states: seq<State>, run: seq<Action>)
    requires IsTrace(states, run)
    ensures states[|run|] == After(run)
    decreases |run|
  {
    if run != [] {
      var n := |run| - 1;
      TracePrefix(states, run);
      TraceIsAfter(states[..n + 1], run[..n]);
      assert Stepped(states, run, n);
    }
  }

  lemma {:induction false} RunExtends(run: seq<Action>, later: seq<Action>)
    requires run <= later
    ensures Extends(After(run).server, After(later).server)
    decreases |later|
  {
    if |run| == |later| {
      assert run == later;
    } else {
      var before := later[..|later| - 1];
      assert run <= before;
      RunExtends(run, before);
      ReachableOk(before);
      StepOk(After(before), later[|later| - 1]);
      ExtendsTransitive(After(run).server, After(before).server, After(later).server);
    }
  }

  lemma CreationIsStep(s: State, name: string, uid: string, version: string, key: Key, read: string)
    requires name !in s.server.mutations && uid !in s.server.births && FreshVersion(s.server, version)
    requires (key, read) in s.server.history
    ensures var m := NewMutation(name, uid, version, s.server.history[(key, read)]);
            Step(s, CreateMutation(name, uid, version, key, read)) ==
            s.(server := StoreMutation(s.server.(births := s.server.births[uid := Birth(name, m.origin)]), m))
  {
  }

  class ApiServer {
    var server: Server
    var passes: map<nat, Worker>
    ghost var run: seq<Action>
    ghost var states: seq<State>

    function Now(): State
      reads this
    {
      State(server, passes)
    }

    /** The run led to this server and to the passes as they are. */
    ghost predicate LedTo(sv: Server)
      reads this
    {
      IsTrace(states, run) && states[|run|] == State(sv, passes)
    }

    /** Whatever happened to this server is a run of the pipeline. */
    ghost predicate Valid()
      reads this
    {
      LedTo(server)
    }

    lemma NowIsAfter()
      requires Valid()
      ensures Now() == After(run)
    {
      TraceIsAfter(states, run);
    }

    lemma NowIsOk()
      requires Valid()
      ensures Ok(Now())
    {
      NowIsAfter();
      ReachableOk(run);
    }

    lemma RevisionHasItsVersion(version: string)
      requires Valid() && version in server.revisions
      ensures server.revisions[version].version == version
    {
      NowIsOk();
    }

    lemma PhaseMeansNow(m: Mutation)
      requires Valid() && m.name in server.mutations && server.mutations[m.name] == m
      ensures PhaseMeans(server, m)
    {
      NowIsAfter();
      StoredPhasesMeanWhatTheySay(run, m.name);
    }

    /** What a read may return, it may still return later. */
    twostate lemma HistoryGrows()
      requires old(Valid()) && Valid() && old(run) <= run
      ensures Grown(old(server.history), server.history)
    {
      TraceIsAfter(old(states), old(run));
      NowIsAfter();
      RunExtends(old(run), run);
    }

    function At(w: nat): Worker
      reads this
    {
      WorkerOf(Now(), w)
    }

    constructor ()
      ensures Valid() && run == []
    {
      server, passes := EMPTY.server, EMPTY.workers;
      run, states := [], [EMPTY];
    }

    /** Books one action of pass `w` that made the server what it is now. */
    method Book(w: nat, k: Worker, ghost before: Server, ghost a: Action)
      requires LedTo(before) && Step(State(before, passes), a) == State(server, passes[w := k])
      modifies this`passes, this`run, this`states
      ensures Valid() && run == old(run) + [a] && At(w) == k
    {
      passes := passes[w := k];
      TraceAppend(states, run, Now(), a);
      run, states := run + [a], states + [Now()];
    }

    /** One action of somebody else. */
    method Follow(w: nat, a: Action)
      requires Valid() && !ActsFor(a, w)
      modifies this
      ensures Valid() && run == old(run) + [a] && At(w) == old(At(w))
    {
      ForeignStep(Now(), a, w);
      var later := Step(Now(), a);
      TraceAppend(states, run, later, a);
      server, passes := later.server, later.workers;
      run, states := run + [a], states + [later];
    }

    /** What everybody else does between two calls of pass `w`. */
    method Interfere(w: nat, others: seq<Action>)
      requires Valid() && Foreign(others, w)
      modifies this
      ensures Valid() && run == old(run) + others && At(w) == old(At(w))
    {
      for i := 0 to |others|
        invariant Valid() && run == old(run) + others[..i] && At(w) == old(At(w))
      {
        Follow(w, others[i]);
        assert others[..i + 1] == others[..i] + [others[i]];
      }
      assert others[..|others|] == others;
    }

    /** Get, from a cache that may hold any revision the server ever held. */
    method GetMutation(w: nat, version: string) returns (m: Option<Mutation>)
      requires Valid() && At(w).Idle?
      modifies this
      ensures Valid() && server == old(server) && (m.None? ==> unchanged(this))
      ensures m.Some? ==> run == old(run) + [Load(w, version)]
      ensures m == if version in server.revisions then Some(server.revisions[version]) else None
      ensures At(w) == if m.Some? then Loaded(m.value) else Idle
    {
      if version !in server.revisions {
        return None;
      }
      m := Some(server.revisions[version]);
      Book(w, Loaded(m.value), server, Load(w, version));
    }

    /** Get, from a cache that may hold any version the server ever held. */
    method GetTarget(key: Key, version: string) returns (o: Option<Object>)
      ensures o.Some? <==> (key, version) in server.history
      ensures o.Some? ==> o.value == server.history[(key, version)]
    {
      o := if (key, version) in server.history then Some(server.history[(key, version)]) else None;
    }

    /** Update: compare-and-swap on the Mutation's own resource version. */
    method Update(m: Mutation, version: string) returns (ok: bool)
      modifies this`server
      ensures ok == (Current(old(server), m) && FreshVersion(old(server), version))
      ensures server == if ok then UpdateMutation(old(server), old(server).mutations[m.name], m, version) else old(server)
    {
      ok := m.name in server.mutations && server.mutations[m.name].version == m.version && FreshVersion(server, version);
      if ok && m != server.mutations[m.name] {
        server := WriteMutation(server, m.(version := version));
      }
    }

    /** Create, of a Mutation for a version of a target that was read. */
    method CreateMutation(name: string, uid: string, version: string, key: Key, read: string) returns (ok: bool)
      requires Valid()
      modifies this
      ensures Valid()
      ensures ok == (name !in old(server).mutations && uid !in old(server).births && FreshVersion(old(server), version)
                     && (key, read) in old(server).history)
      ensures run == if ok then old(run) + [Action.CreateMutation(name, uid, version, key, read)] else old(run)
      ensures server.targets == old(server).targets && server.commits == old(server).commits && passes == old(passes)
      ensures server.mutations ==
              if ok then old(server).mutations[name := NewMutation(name, uid, version, old(server).history[(key, read)])]
              else old(server).mutations
      ensures server.history == old(server).history
    {
      ok := name !in server.mutations && uid !in server.births && FreshVersion(server, version) && (key, read) in server.history;
      if ok {
        ghost var now, create := Now(), Action.CreateMutation(name, uid, version, key, read);
        var m := NewMutation(name, uid, version, server.history[(key, read)]);
        server := StoreMutation(server.(births := server.births[uid := Birth(name, m.origin)]), m);
        CreationIsStep(now, name, uid, version, key, read);
        TraceAppend(states, run, Now(), create);
        run, states := run + [create], states + [Now()];
      }
    }

    /** Patch with DryRunAll: the server's own answer, and what admission says. */
    method TryPatch(key: Key, operations: seq<PatchOperation>, admitted: bool) returns (ok: bool)
      ensures ok == (admitted && key in server.targets && ApplyPatch(server.targets[key], operations).Some?)
    {
      ok := admitted && key in server.targets && ApplyPatch(server.targets[key], operations).Some?;
    }

    /** Patch: what the server stores, with the record of who patched which version. */
    method PatchTarget(operations: seq<PatchOperation>, c: Commit) returns (ok: bool)
      modifies this`server
      ensures ok == Accepts(old(server), c.key, operations, c.after)
      ensures server == if ok then Accepted(old(server), operations, c) else old(server)
    {
      if c.key !in server.targets {
        return false;
      }
      var before := server.targets[c.key];
      var patched := ApplyPatch(before, operations);
      if patched.None? {
        return false;
      }
      if patched.value == before {
        return true;
      }
      ok := patched.value.Map? && Stamped(patched.value, c.after) && MayStore(server, c.key, c.after);
      if ok {
        server := StoreObject(server, c.key, c.after).(commits := server.commits + [c.(before := before)]);
      }
    }
  }

  // ---------------------------------------------------------------- one pass

  /** How a pass ends. */
  datatype Outcome =
    | Gone
    | Retry
    | Waiting
    | Settled
    | Recorded(m: Mutation)

  /** What the rest of the world answers to the calls of one pass. */
  datatype Answers = Answers(
    revision: string,
    versions: (string, string),
    response: Option<Response>,
    read: string,
    admitted: bool,
    stored: Object,
    acknowledged: bool,
    reported: Option<bool>)

  /** The server now holds this revision. */
  predicate NowStored(sv: Server, m: Mutation) {
    m.name in sv.mutations && sv.mutations[m.name] == m
  }

  lemma WriterIsCurrent(s: State, w: nat, m: Mutation, next: Mutation)
    requires Ok(s) && WorkerOf(s, w) == Writing(m, next) && Current(s.server, next)
    ensures m.name == next.name && m.name in s.server.mutations && s.server.mutations[m.name] == m && !Released(next)
  {
    WritingIsOk(s, w, m, next);
    HeldIsCurrent(s.server, m);
  }

  lemma UpdateIsStep(s: State, w: nat, m: Mutation, next: Mutation, version: string)
    requires WorkerOf(s, w) == Writing(m, next) && Current(s.server, m) && FreshVersion(s.server, version)
    ensures Step(s, Pipeline.Update(w, version)) == WithWorker(s, UpdateMutation(s.server, m, next, version), w, Idle)
  {
  }

  /** The status write, or the end of the pass when the server refuses it. */
  lemma StatusIsStep(s: State, w: nat, m: Mutation, next: Mutation, version: string, accepted: bool)
    requires WorkerOf(s, w) == Writing(m, next) && (accepted ==> Current(s.server, m) && FreshVersion(s.server, version))
    ensures Step(s, if accepted then Pipeline.Update(w, version) else Abandon(w)) ==
            WithWorker(s, if accepted then UpdateMutation(s.server, m, next, version) else s.server, w, Idle)
  {
    if accepted { UpdateIsStep(s, w, m, next, version); }
  }

  lemma WriterIsCurrentNow(api: ApiServer, w: nat, m: Mutation, next: Mutation)
    requires api.Valid() && api.At(w) == Writing(m, next)
    ensures Current(api.server, next) ==>
              m.name == next.name && m.name in api.server.mutations && api.server.mutations[m.name] == m && !Released(next)
  {
    api.NowIsOk();
    if Current(api.server, next) { WriterIsCurrent(api.Now(), w, m, next); }
  }

  /** The status write at the end of a pass. */
  method WriteStatus(api: ApiServer, w: nat, m: Mutation, next: Mutation, version: string) returns (outcome: Outcome)
    requires api.Valid() && api.At(w) == Writing(m, next)
    modifies api
    ensures api.Valid() && Adds(old(api.run), api.run, w, {Updates, Abandons}, []) && api.At(w).Idle?
    ensures outcome == if Current(old(api.server), next) && FreshVersion(old(api.server), version)
                       then Recorded(Updated(m, next, version)) else Retry
    ensures outcome.Recorded? ==> NowStored(api.server, outcome.m)
  {
    ghost var before, start := api.server, api.run;
    WriterIsCurrentNow(api, w, m, next);
    var ok := api.Update(next, version);
    StatusIsStep(State(before, api.passes), w, m, next, version, ok);
    api.Book(w, Idle, before, if ok then Pipeline.Update(w, version) else Abandon(w));
    WriteAdds(start, ok, w, version);
    outcome := if ok then Recorded(Updated(m, next, version)) else Retry;
  }

  // ---------------------------------------------------------------- the finalizer block

  lemma {:induction false} WithoutFinalizerAppend(finalizers: seq<string>, f: string, target: string)
    ensures WithoutFinalizer(finalizers + [f], target) ==
            WithoutFinalizer(finalizers, target) + if f != target then [f] else []
  {
    if finalizers == [] {
      assert [] + [f] == [f];
    } else {
      assert (finalizers + [f])[0] == finalizers[0] && (finalizers + [f])[1..] == finalizers[1..] + [f];
      WithoutFinalizerAppend(finalizers[1..], f, target);
      Assoc(if finalizers[0] != target then [finalizers[0]] else [], WithoutFinalizer(finalizers[1..], target),
            if f != target then [f] else []);
    }
  }

  /** Every occurrence of the target goes, every other finalizer stays as often as it was. */
  lemma {:induction false} WithoutFinalizerKeepsOthers(finalizers: seq<string>, target: string, other: string)
    ensures multiset(WithoutFinalizer(finalizers, target))[other] ==
            if other == target then 0 else multiset(finalizers)[other]
  {
    if finalizers != [] {
      WithoutFinalizerKeepsOthers(finalizers[1..], target, other);
      assert finalizers == [finalizers[0]] + finalizers[1..];
    }
  }

  /** mutation_controller.go's removeFinalizer. */
  method RemoveFinalizer(finalizers: seq<string>, target: string) returns (filtered: seq<string>)
    ensures filtered == WithoutFinalizer(finalizers, target)
  {
    filtered := [];
    for n := 0 to |finalizers|
      invariant filtered == WithoutFinalizer(finalizers[..n], target)
    {
      assert finalizers[..n + 1] == finalizers[..n] + [finalizers[n]];
      WithoutFinalizerAppend(finalizers[..n], finalizers[n], target);
      if finalizers[n] != target {
        filtered := filtered + [finalizers[n]];
      }
    }
    assert finalizers[..|finalizers|] == finalizers;
  }

  lemma LoadedIsCurrent(s: State, w: nat, m: Mutation)
    requires Ok(s) && WorkerOf(s, w) == Loaded(m) && Current(s.server, m)
    ensures s.server.mutations[m.name] == m
  {
    assert WorkerOk(s.server, WorkerOf(s, w));
    HeldIsCurrent(s.server, m);
  }

  /** The release needs no write, or its write is accepted. */
  predicate CanRelease(sv: Server, m: Mutation, version: string) {
    MustDropFinalizer(m) ==> Current(sv, m) && FreshVersion(sv, version)
  }

  /** The revision the pass goes on with. */
  function AfterRelease(m: Mutation, version: string): Mutation {
    if MustDropFinalizer(m) then Updated(m, ReleasedBy(m), version) else m
  }

  /** The server after the release. */
  function ReleasedServer(sv: Server, m: Mutation, version: string): Server {
    if MustDropFinalizer(m) && CanRelease(sv, m, version) then UpdateMutation(sv, m, ReleasedBy(m), version) else sv
  }

  lemma ReleaseIsStep(s: State, w: nat, m: Mutation, version: string)
    requires WorkerOf(s, w) == Loaded(m)
    ensures var ok := CanRelease(s.server, m, version);
            Step(s, if ok then Prepare(w, version) else Abandon(w)) ==
            WithWorker(s, ReleasedServer(s.server, m, version), w, if ok then Ready(AfterRelease(m, version)) else Idle)
  {
  }

  lemma LoadedIsCurrentNow(api: ApiServer, w: nat, m: Mutation)
    requires api.Valid() && api.At(w) == Loaded(m)
    ensures Current(api.server, m) ==> api.server.mutations[m.name] == m
  {
    api.NowIsOk();
    if Current(api.server, m) { LoadedIsCurrent(api.Now(), w, m); }
  }

  /** Writes a Mutation that is being deleted back without its finalizer. */
  method DropFinalizer(api: ApiServer, w: nat, m: Mutation, version: string) returns (ok: bool, mutation: Mutation)
    requires api.Valid() && api.At(w) == Loaded(m) && MustDropFinalizer(m)
    modifies api`server
    ensures ok == CanRelease(old(api.server), m, version)
    ensures ok ==> mutation == AfterRelease(m, version)
    ensures api.server == ReleasedServer(old(api.server), m, version)
  {
    LoadedIsCurrentNow(api, w, m);
    var filtered := RemoveFinalizer(m.finalizers, FINALIZER);
    mutation := m.(finalizers := filtered);
    ok := api.Update(mutation, version);
    if ok && mutation != m {
      mutation := mutation.(version := version);
    }
  }

  /** Releases a Mutation that is being deleted; the pass then goes on with it, unless the write is refused. */
  method Release(api: ApiServer, w: nat, m: Mutation, version: string) returns (r: Option<Mutation>)
    requires api.Valid() && api.At(w) == Loaded(m)
    modifies api
    ensures api.Valid() && Adds(old(api.run), api.run, w, {Prepares, Abandons}, [])
    ensures api.At(w) == if r.Some? then Ready(r.value) else Idle
    ensures r == if CanRelease(old(api.server), m, version) then Some(AfterRelease(m, version)) else None
    ensures api.server == ReleasedServer(old(api.server), m, version)
  {
    ghost var before, start := api.server, api.run;
    var ok, mutation := true, m;
    if m.deleting && m.finalizers != [] {
      ok, mutation := DropFinalizer(api, w, m, version);
    }
    ReleaseIsStep(State(before, api.passes), w, m, version);
    api.Book(w, if ok then Ready(mutation) else Idle, before, if ok then Prepare(w, version) else Abandon(w));
    PrepareAdds(start, ok, w, version);
    r := if ok then Some(mutation) else None;
  }

  // ---------------------------------------------------------------- the phases

  /** What a method that finishes the pass guarantees. */
  twostate predicate Finished(api: ApiServer, w: nat, own: set<Kind>, others: seq<Action>, outcome: Outcome)
    reads api
  {
    && api.Valid() && AddsUpTo(old(api.run), api.run, w, own, others) && api.At(w).Idle?
    && (outcome.Recorded? ==> NowStored(api.server, outcome.m))
    && !outcome.Gone?
  }

  /** Takes the decided change to the server, with whatever happens before it arrives. */
  method Conclude(api: ApiServer, w: nat, m: Mutation, next: Mutation, ghost a: Action, others: seq<Action>, version: string)
    returns (outcome: Outcome)
    requires api.Valid() && Foreign(others, w) && ActsFor(a, w)
    requires Step(api.Now(), a) == WithWorker(api.Now(), api.server, w, Writing(m, next))
    modifies api
    ensures Finished(api, w, {KindOf(a), Updates, Abandons}, others, outcome)
    ensures outcome.Recorded? ==> outcome.m == Updated(m, next, version)
  {
    ghost var own, start := {KindOf(a), Updates, Abandons}, api.run;
    api.Book(w, Writing(m, next), api.server, a);
    ghost var booked := api.run;
    AddsOwn(start, a, w, own);
    AddsOthers(booked, others, w, own);
    api.Interfere(w, others);
    AddsBoth(start, booked, api.run, w, own, [], others);
    ghost var heard := api.run;
    outcome := WriteStatus(api, w, m, next, version);
    AddsWithin(heard, api.run, w, {Updates, Abandons}, [], own, []);
    AddsThenUpTo(start, heard, api.run, w, own, [] + others, []);
    assert ([] + others) + [] == others;
  }

  /** Ends the pass without a write; the object is seen again later. */
  method GiveUp(api: ApiServer, w: nat)
    requires api.Valid()
    modifies api
    ensures api.Valid() && api.At(w).Idle? && api.server == old(api.server)
    ensures api.run == old(api.run) + [Abandon(w)] && Adds(old(api.run), api.run, w, {Abandons}, [])
  {
    AddsOwn(api.run, Abandon(w), w, {Abandons});
    api.Book(w, Idle, api.server, Abandon(w));
  }

  /** The first phase: ask for a proposal and store it. */
  method Ask(api: ApiServer, w: nat, m: Mutation, answers: Answers, others: seq<Action>) returns (outcome: Outcome)
    requires api.Valid() && api.At(w) == Ready(m) && m.phase.NotStarted? && Foreign(others, w)
    modifies api
    ensures Finished(api, w, KindsIn(m.phase), others, outcome)
    ensures outcome.Recorded? ==>
              answers.response.Some? && outcome.m == ProposedBy(m, answers.response.value).(version := answers.versions.1)
    ensures outcome.Recorded? ==>
              match Proposal(m.origin, answers.response.value)
              case None =>
                outcome.m == m.(phase := Aborted, note := InvalidSelection, verdict := RejectedVerdict, version := answers.versions.1)
              case Some(p) =>
                outcome.m == m.(target := Some(p), phase := InProgress, note := InProgressNote, version := answers.versions.1)
  {
    if answers.response.None? {
      GiveUp(api, w);
      AddsWithin(old(api.run), api.run, w, {Abandons}, [], KindsIn(m.phase), others);
      return Waiting;
    }
    var mutation := m;
    var proposal := ImageSelectionProposal(m.origin, answers.response.value);
    if proposal.None? {
      mutation := mutation.(phase := Aborted, note := InvalidSelection, verdict := RejectedVerdict);
    } else {
      mutation := mutation.(target := Some(proposal.value), phase := InProgress, note := InProgressNote);
    }
    outcome := Conclude(api, w, m, mutation, Propose(w, answers.response.value), others, answers.versions.1);
  }

  /** The question was answered, and in this way. */
  predicate Answered(answer: Option<bool>, expected: bool) {
    answer.Some? && answer.value == expected
  }

  /** The revision doesResultExist writes, once it knows what it needs to know. */
  predicate ObservedAs(history: History, m: Mutation, answers: Answers, next: Mutation) {
    var ready := ReadyOn(history, m, answers.read);
    && ready.Some? && (ready.value ==> answers.reported.Some?)
    && next == Updated(m, ObservedBy(m, ready.value, Answered(answers.reported, true)), answers.versions.1)
  }

  /** Successful for a target that is ready and a finding that is gone, Pending otherwise, and nothing else changes. */
  predicate SaysWhatWasSeen(history: History, m: Mutation, answers: Answers, next: Mutation) {
    var ready := ReadyOn(history, m, answers.read) == Some(true);
    && next.phase == (if ready && answers.reported == Some(false) then Successful else Pending)
    && next.note == (if !ready then WaitingForRollout else if answers.reported == Some(true) then StillReported else Resolved)
    && next == m.(phase := next.phase, note := next.note, version := next.version)
  }

  lemma {:induction false} ObservedSays(history: History, m: Mutation, answers: Answers, next: Mutation)
    requires ObservedAs(history, m, answers, next)
    ensures SaysWhatWasSeen(history, m, answers, next)
  {
  }

  /** What doesResultExist makes of the target's rollout and the finding; none is an error. */
  method Observed(m: Mutation, ready: Option<bool>, reported: Option<bool>) returns (mutation: Option<Mutation>)
    ensures mutation.None? <==> ready.None? || (ready.value && reported.None?)
    ensures mutation.Some? ==> mutation.value == ObservedBy(m, ready.value, Answered(reported, true))
  {
    if ready.None? {
      return None;
    }
    if !ready.value {
      return Some(m.(phase := Pending, note := WaitingForRollout));
    }
    if reported.None? {
      return None;
    }
    if !reported.value {
      mutation := Some(m.(phase := Successful, note := Resolved));
    } else {
      mutation := Some(m.(phase := Pending, note := StillReported));
    }
  }

  lemma ObserveIsStep(s: State, w: nat, m: Mutation, read: string, reported: bool)
    requires WorkerOf(s, w) == Ready(m) && (m.phase.Completed? || m.phase.Pending?) && ReadyOn(s.server.history, m, read).Some?
    ensures Step(s, Observe(w, read, reported)) ==
            WithWorker(s, s.server, w, Writing(m, ObservedBy(m, ReadyOn(s.server.history, m, read).value, reported)))
  {
  }

  /** targetReady: only a Deployment is read and tested. */
  method TargetReady(api: ApiServer, m: Mutation, read: string) returns (ready: Option<bool>)
    ensures ready == ReadyOn(api.server.history, m, read)
  {
    var gvk := GVKOf(m.origin);
    if gvk.group != "apps" || gvk.version != "v1" || gvk.kind != "Deployment" {
      return Some(true);
    }
    var target := api.GetTarget(RefKey(m), read);
    if target.None? {
      return None;
    }
    ready := CheckDeployment(m.origin, target.value);
  }

  /** doesResultExist: Successful only for a ready target whose finding is gone, and Pending otherwise. */
  method DoesResultExist(api: ApiServer, w: nat, m: Mutation, answers: Answers, others: seq<Action>) returns (outcome: Outcome)
    requires api.Valid() && api.At(w) == Ready(m) && (m.phase.Completed? || m.phase.Pending?) && Foreign(others, w)
    modifies api
    ensures Finished(api, w, {Observes, Updates, Abandons}, others, outcome)
    ensures outcome.Recorded? ==> ObservedAs(old(api.server).history, m, answers, outcome.m)
    ensures outcome.Recorded? ==> SaysWhatWasSeen(old(api.server).history, m, answers, outcome.m)
  {
    var ready := TargetReady(api, m, answers.read);
    var mutation := Observed(m, ready, answers.reported);
    if mutation.None? {
      GiveUp(api, w);
      AddsWithin(old(api.run), api.run, w, {Abandons}, [], {Observes, Updates, Abandons}, others);
      return Retry;
    }
    ghost var seen := Observe(w, answers.read, Answered(answers.reported, true));
    ObserveIsStep(api.Now(), w, m, answers.read, Answered(answers.reported, true));
    outcome := Conclude(api, w, m, mutation.value, seen, others, answers.versions.1);
    if outcome.Recorded? { ObservedSays(old(api.server).history, m, answers, outcome.m); }
  }

  // ---------------------------------------------------------------- the executor

  lemma {:induction false} PathsAppend(changes: seq<Change>, c: Change)
    ensures PathsOf(changes + [c]) == PathsOf(changes) + [c.path]
  {
    if changes == [] {
      assert [] + [c] == [c];
    } else {
      assert (changes + [c])[1..] == changes[1..] + [c];
      PathsAppend(changes[1..], c);
    }
  }

  /** The paths of these changes, in their order. */
  predicate ListsPaths(paths: seq<string>, changes: seq<Change>) {
    |paths| == |changes| && forall i | 0 <= i < |changes| :: paths[i] == changes[i].path
  }

  /** object_to_execution.go's decisionPaths. */
  method DecisionPaths(changes: seq<Change>) returns (paths: seq<string>)
    ensures paths == PathsOf(changes) && ListsPaths(paths, changes)
  {
    paths := [];
    for n := 0 to |changes|
      invariant paths == PathsOf(changes[..n])
    {
      assert changes[..n + 1] == changes[..n] + [changes[n]];
      PathsAppend(changes[..n], changes[n]);
      paths := paths + [changes[n].path];
    }
    assert changes[..|changes|] == changes;
  }

  /** rejectMutation: the refused Mutation. */
  method RejectMutation(m: Mutation, decision: Decision) returns (mutation: Mutation)
    ensures mutation == RejectedBy(m, decision)
    ensures mutation == m.(phase := Aborted, note := mutation.note, verdict := RejectedVerdict, changedPaths := mutation.changedPaths)
    ensures decision.reasons != [] ==> mutation.note == PolicyRejected(decision.reasons[0])
    ensures ListsPaths(mutation.changedPaths, decision.changes)
  {
    mutation := m.(phase := Aborted);
    mutation := mutation.(note := if decision.reasons != [] then PolicyRejected(decision.reasons[0]) else InvalidSelection);
    mutation := mutation.(verdict := RejectedVerdict);
    var paths := DecisionPaths(decision.changes);
    mutation := mutation.(changedPaths := paths);
  }

  method CompleteMutation(m: Mutation, decision: Decision) returns (mutation: Mutation)
    ensures mutation == CompletedBy(m, decision)
    ensures mutation == m.(phase := Completed, note := PatchApplied, verdict := ApprovedVerdict, applied := true,
                           changedPaths := mutation.changedPaths)
    ensures ListsPaths(mutation.changedPaths, decision.changes)
  {
    mutation := m.(phase := Completed);
    mutation := mutation.(note := PatchApplied);
    mutation := mutation.(verdict := ApprovedVerdict);
    var paths := DecisionPaths(decision.changes);
    mutation := mutation.(changedPaths := paths, applied := true);
  }

  lemma JudgeIsStep(s: State, w: nat, m: Mutation, read: string, j: Judgement)
    requires WorkerOf(s, w) == Ready(m) && m.phase.InProgress? && ProposedFor(m) == Some(j.proposed)
    requires (KeyOf(j.proposed), read) in s.server.history && s.server.history[(KeyOf(j.proposed), read)] == j.live
    requires j.decision == DecisionOn(m, j.live, j.proposed)
    ensures Step(s, Judge(w, read)) ==
            WithWorker(s, s.server, w, if j.decision.allowed then Approved(m, j) else Writing(m, RejectedBy(m, j.decision)))
  {
    assert Enabled(s, Judge(w, read));
  }

  /** What the server does with the tested patch is what the pipeline says. */
  lemma ServerPersists(sv: Server, m: Mutation, j: Judgement, operations: seq<PatchOperation>, stored: Object)
    requires operations == TestedPatch(j.live, j.decision)
    ensures Accepts(sv, KeyOf(j.live), operations, stored) <==> CanPersist(sv, j, stored)
    ensures CanPersist(sv, j, stored) ==> Accepted(sv, operations, CommitOf(m, j, stored)) == Persisted(sv, m, j, stored)
  {
  }

  lemma PatchIsStep(s: State, w: nat, m: Mutation, j: Judgement, stored: Object, acknowledged: bool)
    requires WorkerOf(s, w) == Validated(m, j) && CanPersist(s.server, j, stored)
    ensures Step(s, Patch(w, stored, acknowledged)) ==
            WithWorker(s, Persisted(s.server, m, j, stored), w, if acknowledged then Writing(m, CompletedBy(m, j.decision)) else Idle)
  {
    assert Enabled(s, Patch(w, stored, acknowledged));
    PatchEffect(s, w, m, j, stored, acknowledged);
  }

  lemma ServerTakes(sv: Server, j: Judgement, operations: seq<PatchOperation>)
    requires operations == TestedPatch(j.live, j.decision)
    ensures ServerPatched(sv, j).Some? <==> KeyOf(j.live) in sv.targets && ApplyPatch(sv.targets[KeyOf(j.live)], operations).Some?
  {
  }

  /** The dry run, or the end of the pass when it fails. */
  lemma TryIsStep(s: State, w: nat, m: Mutation, j: Judgement, accepted: bool)
    requires WorkerOf(s, w) == Approved(m, j) && (accepted ==> ServerPatched(s.server, j).Some?)
    ensures Step(s, if accepted then DryRun(w) else Abandon(w)) ==
            WithWorker(s, s.server, w, if accepted then Validated(m, j) else Idle)
  {
    if accepted { DryRunStep(s, s.server, w, m, j); }
  }

  /** The call itself. */
  method AskServer(api: ApiServer, j: Judgement, operations: seq<PatchOperation>, admitted: bool) returns (ok: bool)
    requires operations == TestedPatch(j.live, j.decision)
    ensures ok == (admitted && ServerPatched(api.server, j).Some?)
  {
    ServerTakes(api.server, j, operations);
    ok := api.TryPatch(KeyOf(j.live), operations, admitted);
  }

  /** The dry run. */
  method TryFirst(api: ApiServer, w: nat, m: Mutation, j: Judgement, operations: seq<PatchOperation>, admitted: bool)
    returns (ok: bool)
    requires api.Valid() && api.At(w) == Approved(m, j) && operations == TestedPatch(j.live, j.decision)
    modifies api
    ensures api.Valid() && ok == (admitted && ServerPatched(old(api.server), j).Some?) && api.server == old(api.server)
    ensures api.run == old(api.run) + [if ok then DryRun(w) else Abandon(w)]
    ensures api.At(w) == if ok then Validated(m, j) else Idle
  {
    ok := AskServer(api, j, operations, admitted);
    TryIsStep(api.Now(), w, m, j, ok);
    api.Book(w, if ok then Validated(m, j) else Idle, api.server, if ok then DryRun(w) else Abandon(w));
  }

  /** What happens until the next call of the pass. */
  method Wait(api: ApiServer, w: nat, others: seq<Action>, ghost start: seq<Action>, ghost own: set<Kind>)
    requires api.Valid() && Foreign(others, w) && Adds(start, api.run, w, own, [])
    modifies api
    ensures api.Valid() && api.At(w) == old(api.At(w)) && Adds(start, api.run, w, own, others)
  {
    ghost var booked := api.run;
    AddsOthers(booked, others, w, own);
    api.Interfere(w, others);
    AddsBoth(start, booked, api.run, w, own, [], others);
    assert [] + others == others;
  }

  /** The dry run, and what happens before the patch. */
  method Validate(api: ApiServer, w: nat, m: Mutation, j: Judgement, operations: seq<PatchOperation>, admitted: bool,
                  others: seq<Action>) returns (ok: bool)
    requires api.Valid() && api.At(w) == Approved(m, j) && operations == TestedPatch(j.live, j.decision)
    requires Foreign(others, w)
    modifies api
    ensures api.Valid() && ok == (admitted && ServerPatched(old(api.server), j).Some?)
    ensures Adds(old(api.run), api.run, w, {DryRuns, Abandons}, if ok then others else [])
    ensures api.At(w) == (if ok then Validated(m, j) else Idle) && (!ok ==> api.server == old(api.server))
  {
    ghost var start := api.run;
    ok := TryFirst(api, w, m, j, operations, admitted);
    DryRunAdds(start, ok, w);
    if ok {
      Wait(api, w, others, start, {DryRuns, Abandons});
    }
  }

  /** The patch, or the end of the pass when the server refuses it. */
  lemma CommitIsStep(s: State, w: nat, m: Mutation, j: Judgement, stored: Object, acknowledged: bool, accepted: bool)
    requires WorkerOf(s, w) == Validated(m, j) && accepted == CanPersist(s.server, j, stored)
    ensures Step(s, if accepted then Patch(w, stored, acknowledged) else Abandon(w)) ==
            WithWorker(s, if accepted then Persisted(s.server, m, j, stored) else s.server, w,
                       if accepted && acknowledged then Writing(m, CompletedBy(m, j.decision)) else Idle)
  {
    if accepted { PatchIsStep(s, w, m, j, stored, acknowledged); }
  }

  /** The call itself. */
  method Persist(api: ApiServer, m: Mutation, j: Judgement, operations: seq<PatchOperation>, stored: Object) returns (ok: bool)
    requires operations == TestedPatch(j.live, j.decision)
    modifies api`server
    ensures ok == CanPersist(old(api.server), j, stored)
    ensures api.server == if ok then Persisted(old(api.server), m, j, stored) else old(api.server)
  {
    ServerPersists(api.server, m, j, operations, stored);
    ok := api.PatchTarget(operations, CommitOf(m, j, stored));
  }

  /** The persistent patch; the pass learns of it only when the reply arrives. */
  method Commit(api: ApiServer, w: nat, m: Mutation, j: Judgement, operations: seq<PatchOperation>, stored: Object,
                acknowledged: bool) returns (ok: bool, ghost accepted: bool)
    requires api.Valid() && api.At(w) == Validated(m, j) && operations == TestedPatch(j.live, j.decision)
    modifies api
    ensures api.Valid() && api.At(w) == if ok then Writing(m, CompletedBy(m, j.decision)) else Idle
    ensures accepted == CanPersist(old(api.server), j, stored) && ok == (accepted && acknowledged)
    ensures api.server == if accepted then Persisted(old(api.server), m, j, stored) else old(api.server)
    ensures api.run == old(api.run) + [if accepted then Patch(w, stored, acknowledged) else Abandon(w)]
  {
    ghost var before := api.server;
    ok := Persist(api, m, j, operations, stored);
    accepted := ok;
    CommitIsStep(State(before, api.passes), w, m, j, stored, acknowledged, ok);
    ok := ok && acknowledged;
    api.Book(w, if ok then Writing(m, CompletedBy(m, j.decision)) else Idle, before,
             if accepted then Patch(w, stored, acknowledged) else Abandon(w));
  }

  /** The record of an applied patch. */
  method Record(api: ApiServer, w: nat, m: Mutation, decision: Decision, others: seq<Action>, version: string)
    returns (outcome: Outcome)
    requires api.Valid() && api.At(w) == Writing(m, CompletedBy(m, decision)) && Foreign(others, w)
    modifies api
    ensures Finished(api, w, {Updates, Abandons}, others, outcome)
    ensures outcome.Recorded? ==> outcome.m == Updated(m, CompletedBy(m, decision), version)
  {
    ghost var own, start := {Updates, Abandons}, api.run;
    var mutation := CompleteMutation(m, decision);
    AddsOthers(start, others, w, own);
    api.Interfere(w, others);
    ghost var heard := api.run;
    outcome := WriteStatus(api, w, m, mutation, version);
    AddsBoth(start, heard, api.run, w, own, others, []);
    AddsWithin(start, api.run, w, own, others + [], own, others);
  }

  /** What the executor may do once the gate has approved. */
  const APPLYING: set<Kind> := {DryRuns, Patches, Updates, Abandons}

  lemma AddsMore(a: seq<Action>, b: seq<Action>, w: nat, own: set<Kind>, heard: seq<Action>, more: set<Kind>)
    requires Adds(a, b, w, own, heard) && own <= more
    ensures Adds(a, b, w, more, heard)
  {
  }

  lemma UpToMore(a: seq<Action>, b: seq<Action>, w: nat, own: set<Kind>, others: seq<Action>, more: set<Kind>, all: seq<Action>)
    requires AddsUpTo(a, b, w, own, others) && own <= more && others <= all
    ensures AddsUpTo(a, b, w, more, all)
  {
  }

  /** The dry run and the tested patch. */
  method PatchLive(api: ApiServer, w: nat, m: Mutation, j: Judgement, answers: Answers, others: seq<Action>) returns (ok: bool)
    requires api.Valid() && api.At(w) == Approved(m, j) && Foreign(others, w)
    modifies api
    ensures api.Valid() && api.At(w) == if ok then Writing(m, CompletedBy(m, j.decision)) else Idle
    ensures AddsUpTo(old(api.run), api.run, w, APPLYING, others)
    ensures ok ==> Adds(old(api.run), api.run, w, APPLYING, others)
  {
    ghost var start := api.run;
    var operations := [Test(Render(RESOURCE_VERSION), Str(Version(j.live)))] + j.decision.patch;
    ok := Validate(api, w, m, j, operations, answers.admitted, others);
    ghost var validated := api.run;
    if !ok {
      AddsWithin(start, validated, w, {DryRuns, Abandons}, [], APPLYING, others);
      return;
    }
    ghost var accepted;
    ok, accepted := Commit(api, w, m, j, operations, answers.stored, answers.acknowledged);
    PatchAdds(validated, accepted, w, answers.stored, answers.acknowledged);
    ValidateThenPatch(start, validated, api.run, w, others);
  }

  /** The patch is one more call of the pass, after the dry run and whatever happened. */
  lemma ValidateThenPatch(start: seq<Action>, validated: seq<Action>, patched: seq<Action>, w: nat, others: seq<Action>)
    requires Adds(start, validated, w, {DryRuns, Abandons}, others) && Adds(validated, patched, w, {Patches, Abandons}, [])
    ensures Adds(start, patched, w, APPLYING, others) && AddsUpTo(start, patched, w, APPLYING, others)
  {
    AddsMore(start, validated, w, {DryRuns, Abandons}, others, APPLYING);
    AddsMore(validated, patched, w, {Patches, Abandons}, [], APPLYING);
    AddsBoth(start, validated, patched, w, APPLYING, others, []);
    assert others + [] == others;
  }

  /** The patch and the record of it. */
  method Apply(api: ApiServer, w: nat, m: Mutation, j: Judgement, answers: Answers, others: seq<seq<Action>>)
    returns (outcome: Outcome)
    requires api.Valid() && api.At(w) == Approved(m, j)
    requires |others| == 2 && Foreign(others[0], w) && Foreign(others[1], w)
    modifies api
    ensures Finished(api, w, APPLYING, others[0] + others[1], outcome)
    ensures outcome.Recorded? ==> outcome.m == Updated(m, CompletedBy(m, j.decision), answers.versions.1)
  {
    ghost var start := api.run;
    var ok := PatchLive(api, w, m, j, answers, others[0]);
    if !ok {
      UpToMore(start, api.run, w, APPLYING, others[0], APPLYING, others[0] + others[1]);
      return Retry;
    }
    ghost var patched := api.run;
    outcome := Record(api, w, m, j.decision, others[1], answers.versions.1);
    UpToMore(patched, api.run, w, {Updates, Abandons}, others[1], APPLYING, others[1]);
    AddsThenUpTo(start, patched, api.run, w, APPLYING, others[0], others[1]);
  }

  /** The record the executor leaves. */
  function ExecutedBy(m: Mutation, decision: Decision): Mutation {
    if decision.allowed then CompletedBy(m, decision) else RejectedBy(m, decision)
  }

  /** An approved decision, with what happens before the dry run. */
  method CarryOut(api: ApiServer, w: nat, m: Mutation, j: Judgement, answers: Answers, others: seq<seq<Action>>)
    returns (outcome: Outcome)
    requires api.Valid() && api.At(w) == Approved(m, j)
    requires |others| == 3 && forall i | 0 <= i < 3 :: Foreign(others[i], w)
    modifies api
    ensures Finished(api, w, APPLYING, others[0] + (others[1] + others[2]), outcome)
    ensures outcome.Recorded? ==> outcome.m == Updated(m, CompletedBy(m, j.decision), answers.versions.1)
  {
    ghost var start := api.run;
    AddsOthers(start, others[0], w, APPLYING);
    api.Interfere(w, others[0]);
    ghost var heard := api.run;
    outcome := Apply(api, w, m, j, answers, others[1..]);
    AddsThenUpTo(start, heard, api.run, w, APPLYING, others[0], others[1] + others[2]);
  }

  /** One call of the pass, and then the rest of it. */
  lemma OwnThenUpTo(start: seq<Action>, a: Action, later: seq<Action>, w: nat, own: set<Kind>, others: seq<Action>, more: set<Kind>)
    requires ActsFor(a, w) && KindOf(a) in more && own <= more && AddsUpTo(start + [a], later, w, own, others)
    ensures AddsUpTo(start, later, w, more, others)
  {
    AddsOwn(start, a, w, more);
    UpToMore(start + [a], later, w, own, others, more, others);
    AddsThenUpTo(start, start + [a], later, w, more, [], others);
    assert [] + others == others;
  }

  /** A refused decision, recorded. */
  method Refuse(api: ApiServer, w: nat, m: Mutation, j: Judgement, read: string, others: seq<Action>, version: string,
                ghost all: seq<Action>)
    returns (outcome: Outcome)
    requires api.Valid() && Foreign(others, w) && others <= all
    requires Step(api.Now(), Judge(w, read)) == WithWorker(api.Now(), api.server, w, Writing(m, RejectedBy(m, j.decision)))
    modifies api
    ensures Finished(api, w, KindsIn(InProgress), all, outcome)
    ensures outcome.Recorded? ==> outcome.m == Updated(m, RejectedBy(m, j.decision), version)
  {
    var mutation := RejectMutation(m, j.decision);
    outcome := Conclude(api, w, m, mutation, Judge(w, read), others, version);
    UpToMore(old(api.run), api.run, w, {Judges, Updates, Abandons}, others, KindsIn(InProgress), all);
  }

  /** An approved decision, carried out. */
  method Approve(api: ApiServer, w: nat, m: Mutation, j: Judgement, answers: Answers, others: seq<seq<Action>>)
    returns (outcome: Outcome)
    requires api.Valid() && |others| == 3 && forall i | 0 <= i < 3 :: Foreign(others[i], w)
    requires Step(api.Now(), Judge(w, answers.read)) == WithWorker(api.Now(), api.server, w, Approved(m, j))
    modifies api
    ensures Finished(api, w, KindsIn(InProgress), others[0] + (others[1] + others[2]), outcome)
    ensures outcome.Recorded? ==> outcome.m == Updated(m, CompletedBy(m, j.decision), answers.versions.1)
  {
    ghost var start := api.run;
    api.Book(w, Approved(m, j), api.server, Judge(w, answers.read));
    outcome := CarryOut(api, w, m, j, answers, others);
    OwnThenUpTo(start, Judge(w, answers.read), api.run, w, APPLYING, others[0] + (others[1] + others[2]), KindsIn(InProgress));
  }

  /** What follows from the gate's answer. */
  method ActOn(api: ApiServer, w: nat, m: Mutation, j: Judgement, answers: Answers, others: seq<seq<Action>>)
    returns (outcome: Outcome)
    requires api.Valid() && api.At(w) == Ready(m) && m.phase.InProgress? && ProposedFor(m) == Some(j.proposed)
    requires (KeyOf(j.proposed), answers.read) in api.server.history
    requires api.server.history[(KeyOf(j.proposed), answers.read)] == j.live
    requires j.decision == DecisionOn(m, j.live, j.proposed)
    requires |others| == 3 && forall i | 0 <= i < 3 :: Foreign(others[i], w)
    modifies api
    ensures Finished(api, w, KindsIn(InProgress), others[0] + (others[1] + others[2]), outcome)
    ensures outcome.Recorded? ==> outcome.m == Updated(m, ExecutedBy(m, j.decision), answers.versions.1)
  {
    JudgeIsStep(api.Now(), w, m, answers.read, j);
    if j.decision.allowed {
      outcome := Approve(api, w, m, j, answers, others);
    } else {
      outcome := Refuse(api, w, m, j, answers.read, others[0], answers.versions.1, others[0] + (others[1] + others[2]));
    }
  }

  lemma HeardThenGaveUp(start: seq<Action>, heard: seq<Action>, later: seq<Action>, w: nat, own: set<Kind>,
                        others: seq<Action>, all: seq<Action>)
    requires Adds(start, heard, w, own, others) && Adds(heard, later, w, {Abandons}, []) && Abandons in own && others <= all
    ensures AddsUpTo(start, later, w, own, all)
  {
    AddsMore(heard, later, w, {Abandons}, [], own);
    AddsBoth(start, heard, later, w, own, others, []);
    assert others + [] == others;
  }

  /** The record of an execution on the version that was read. */
  predicate ExecutedAs(history: History, m: Mutation, proposed: Object, answers: Answers, next: Mutation) {
    && (KeyOf(proposed), answers.read) in history
    && next == Updated(m, ExecutedBy(m, DecisionOn(m, history[(KeyOf(proposed), answers.read)], proposed)), answers.versions.1)
  }

  /** object_to_execution.go's ResourceToExecution. */
  method Execute(api: ApiServer, w: nat, m: Mutation, proposed: Object, answers: Answers, others: seq<seq<Action>>)
    returns (outcome: Outcome)
    requires api.Valid() && api.At(w) == Ready(m) && m.phase.InProgress? && ProposedFor(m) == Some(proposed)
    requires |others| == 4 && forall i | 0 <= i < 4 :: Foreign(others[i], w)
    modifies api
    ensures Finished(api, w, KindsIn(InProgress), others[0] + (others[1] + (others[2] + others[3])), outcome)
    ensures outcome.Recorded? ==> ExecutedAs(api.server.history, m, proposed, answers, outcome.m)
  {
    ghost var start, own := api.run, KindsIn(InProgress);
    AddsOthers(start, others[0], w, own);
    api.Interfere(w, others[0]);
    ghost var heard := api.run;
    var live := api.GetTarget(KeyOf(proposed), answers.read);
    if live.None? {
      GiveUp(api, w);
      HeardThenGaveUp(start, heard, api.run, w, own, others[0], others[0] + (others[1] + (others[2] + others[3])));
      return Retry;
    }
    var decision := Evaluate(Some(m.origin), live, Some(proposed), 0);
    label Read:
    outcome := ActOn(api, w, m, Judgement(live.value, proposed, decision), answers, others[1..]);
    api.HistoryGrows@Read();
    AddsThenUpTo(start, heard, api.run, w, own, others[0], others[1] + (others[2] + others[3]));
  }

  /** The revision a pass over this one records, in every phase. */
  predicate RecordedAs(history: History, m: Mutation, answers: Answers, next: Mutation) {
    match m.phase
    case NotStarted => answers.response.Some? && next == ProposedBy(m, answers.response.value).(version := answers.versions.1)
    case InProgress => ProposedFor(m).Some? && ExecutedAs(history, m, ProposedFor(m).value, answers, next)
    case Completed => ObservedAs(history, m, answers, next)
    case Pending => ObservedAs(history, m, answers, next)
    case _ => false
  }

  /** The phase InProgress: the stored target configuration under the referenced name is executed. */
  method Progress(api: ApiServer, w: nat, m: Mutation, answers: Answers, others: seq<seq<Action>>) returns (outcome: Outcome)
    requires api.Valid() && api.At(w) == Ready(m) && m.phase.InProgress?
    requires |others| == 4 && forall i | 0 <= i < 4 :: Foreign(others[i], w)
    modifies api
    ensures Finished(api, w, KindsIn(InProgress), others[0] + (others[1] + (others[2] + others[3])), outcome)
    ensures outcome.Recorded? ==>
              ProposedFor(m).Some? && ExecutedAs(api.server.history, m, ProposedFor(m).value, answers, outcome.m)
  {
    ghost var start, all := api.run, others[0] + (others[1] + (others[2] + others[3]));
    if m.target.None? {
      GiveUp(api, w);
      AddsWithin(start, api.run, w, {Abandons}, [], KindsIn(InProgress), all);
      return Waiting;
    }
    if !m.target.value.Map? || Text(m.target.value, KIND) == "" {
      GiveUp(api, w);
      AddsWithin(start, api.run, w, {Abandons}, [], KindsIn(InProgress), all);
      return Retry;
    }
    outcome := Execute(api, w, m, FromConfig(m.target.value, m.refName, m.refNamespace), answers, others);
  }

  lemma ObservedStays(history: History, later: History, m: Mutation, answers: Answers, next: Mutation)
    requires ObservedAs(history, m, answers, next) && Grown(history, later)
    ensures ObservedAs(later, m, answers, next)
  {
  }

  /** The phase switch. */
  method Dispatch(api: ApiServer, w: nat, m: Mutation, answers: Answers, others: seq<seq<Action>>) returns (outcome: Outcome)
    requires api.Valid() && api.At(w) == Ready(m)
    requires |others| == 4 && forall i | 0 <= i < 4 :: Foreign(others[i], w)
    modifies api
    ensures Finished(api, w, KindsIn(m.phase), others[0] + (others[1] + (others[2] + others[3])), outcome)
    ensures outcome.Recorded? ==> RecordedAs(api.server.history, m, answers, outcome.m)
  {
    ghost var start, own, all := api.run, KindsIn(m.phase), others[0] + (others[1] + (others[2] + others[3]));
    ghost var history := api.server.history;
    match m.phase {
      case NotStarted =>
        outcome := Ask(api, w, m, answers, others[0]);
        UpToMore(start, api.run, w, own, others[0], own, all);
      case InProgress =>
        outcome := Progress(api, w, m, answers, others);
      case Completed =>
        outcome := DoesResultExist(api, w, m, answers, others[0]);
        UpToMore(start, api.run, w, {Observes, Updates, Abandons}, others[0], own, all);
        api.HistoryGrows();
        if outcome.Recorded? { ObservedStays(history, api.server.history, m, answers, outcome.m); }
      case Pending =>
        outcome := DoesResultExist(api, w, m, answers, others[0]);
        UpToMore(start, api.run, w, {Observes, Updates, Abandons}, others[0], own, all);
        api.HistoryGrows();
        if outcome.Recorded? { ObservedStays(history, api.server.history, m, answers, outcome.m); }
      case _ =>
        GiveUp(api, w);
        AddsWithin(start, api.run, w, {Abandons}, [], own, all);
        return Settled;
    }
  }

  /** This action of the run changed no target, or replaced one whose current version is its Mutation's snapshot. */
  ghost predicate RespectsOthers(run: seq<Action>, i: nat)
    requires i < |run|
  {
    var s, t := After(run[..i]), After(run[..i + 1]);
    SameTargets(s, t) || CommitsOnce(s, t)
  }

  lemma {:induction false} OwnActionsRespectOthers(run: seq<Action>, w: nat, i: nat)
    requires i < |run| && ActsFor(run[i], w)
    ensures RespectsOthers(run, i)
  {
    assert run[..i + 1][..i] == run[..i];
    ControllerStepsRespectOtherWriters(run[..i], run[i]);
  }

  /** The beginning of a pass that found its Mutation. */
  method Begin(api: ApiServer, w: nat, m: Mutation, version: string, others: seq<Action>) returns (r: Option<Mutation>)
    requires api.Valid() && api.At(w) == Loaded(m) && Foreign(others, w)
    modifies api
    ensures api.Valid() && Adds(old(api.run), api.run, w, {Prepares, Abandons}, others)
    ensures api.At(w) == if r.Some? then Ready(r.value) else Idle
    ensures r.Some? ==> r.value == AfterRelease(m, version)
  {
    ghost var start, own := api.run, {Prepares, Abandons};
    AddsOthers(start, others, w, own);
    api.Interfere(w, others);
    ghost var heard := api.run;
    r := Release(api, w, m, version);
    AddsBoth(start, heard, api.run, w, own, others, []);
    assert others + [] == others;
  }

  /** What a pass may do on a Mutation whose phase it finds to be this one. */
  function PassKinds(p: Phase): set<Kind> {
    {Loads, Prepares} + KindsIn(p)
  }

  /** All others of a pass, in order. */
  function All(others: seq<seq<Action>>): seq<Action>
    requires |others| == 5
  {
    others[0] + (others[1] + (others[2] + (others[3] + others[4])))
  }

  lemma PassAdds(start: seq<Action>, begun: seq<Action>, later: seq<Action>, w: nat, version: string, p: Phase,
                 first: seq<Action>, rest: seq<Action>)
    requires Adds(start + [Load(w, version)], begun, w, {Prepares, Abandons}, first)
    requires later == begun || AddsUpTo(begun, later, w, KindsIn(p), rest)
    ensures AddsUpTo(start, later, w, PassKinds(p), first + rest)
  {
    var own := PassKinds(p);
    AddsMore(start + [Load(w, version)], begun, w, {Prepares, Abandons}, first, own);
    if later == begun {
      AddsWithin(start + [Load(w, version)], begun, w, own, first, own, first + rest);
    } else {
      UpToMore(begun, later, w, KindsIn(p), rest, own, rest);
      AddsThenUpTo(start + [Load(w, version)], begun, later, w, own, first, rest);
    }
    OwnThenUpTo(start, Load(w, version), later, w, own, first + rest, own);
  }

  /** A whole pass over a revision that was read. */
  method Run(api: ApiServer, w: nat, m: Mutation, ghost start: seq<Action>, answers: Answers, others: seq<seq<Action>>)
    returns (outcome: Outcome)
    requires api.Valid() && api.At(w) == Loaded(m) && api.run == start + [Load(w, m.version)]
    requires |others| == 5 && forall i | 0 <= i < 5 :: Foreign(others[i], w)
    modifies api
    ensures api.Valid() && AddsUpTo(start, api.run, w, PassKinds(m.phase), All(others)) && api.At(w).Idle? && !outcome.Gone?
    ensures outcome.Recorded? ==> NowStored(api.server, outcome.m)
    ensures outcome.Recorded? ==> RecordedAs(api.server.history, AfterRelease(m, answers.versions.0), answers, outcome.m)
  {
    var mutation := Begin(api, w, m, answers.versions.0, others[0]);
    ghost var begun := api.run;
    if mutation.None? {
      outcome := Retry;
    } else {
      outcome := Dispatch(api, w, mutation.value, answers, others[1..]);
    }
    PassAdds(start, begun, api.run, w, m.version, m.phase, others[0], others[1] + (others[2] + (others[3] + others[4])));
  }

  /**
   * Reconcile. Between any two of its calls the others may act in any way. What it adds to the run is
   * what the others did, in order and no more than that, and calls of its own of the kinds its phase
   * has; each of its own calls respects other writers. It ends idle on a reachable state, and a
   * recorded outcome is the one its answers determine, is what the server holds, and means what its
   * phase says.
   */
  method Reconcile(api: ApiServer, w: nat, answers: Answers, others: seq<seq<Action>>) returns (outcome: Outcome)
    requires api.Valid() && api.At(w).Idle?
    requires |others| == 5 && forall i | 0 <= i < 5 :: Foreign(others[i], w)
    modifies api
    ensures answers.revision !in old(api.server).revisions ==> outcome.Gone? && unchanged(api)
    ensures answers.revision in old(api.server).revisions ==>
              var m := old(api.server).revisions[answers.revision];
              && Finished(api, w, PassKinds(m.phase), All(others), outcome)
              && (outcome.Recorded? ==>
                    RecordedAs(api.server.history, AfterRelease(m, answers.versions.0), answers, outcome.m)
                    && PhaseMeans(api.server, outcome.m))
    ensures forall i | |old(api.run)| <= i < |api.run| && ActsFor(api.run[i], w) :: RespectsOthers(api.run, i)
  {
    ghost var start := api.run;
    var m := api.GetMutation(w, answers.revision);
    if m.None? {
      return Gone;
    }
    api.RevisionHasItsVersion(answers.revision);
    outcome := Run(api, w, m.value, start, answers, others);
    if outcome.Recorded? {
      api.PhaseMeansNow(outcome.m);
    }
    forall i | |start| <= i < |api.run| && ActsFor(api.run[i], w) ensures RespectsOthers(api.run, i) {
      OwnActionsRespectOthers(api.run, w, i);
    }
  }
}
