/** Convergence of the stored findings over histories of whole and interrupted passes. */
module ResultsProofs {
  import opened Strings
  import opened Gvk
  import opened Results

  // ---------------------------------------------------------------- one key through a pass

  /** The key of a finding of this K8sGPT resource. */
  predicate Own(k: ObjectKey, findings: seq<Finding>, config: Config) {
    k.namespace == config.namespace && k.name in Mapped(findings, config)
  }

  /** The stored Result at a key of its own survives the clean-up. */
  lemma OwnKeyAnalysed(store: Store, findings: seq<Finding>, config: Config, k: ObjectKey)
    requires Own(k, findings, config)
    ensures k in Analysed(store, findings, config)
    ensures Analysed(store, findings, config)[k] == Upserted(Lookup(store, k), Mapped(findings, config)[k.name])
  {
    var raw := Mapped(findings, config);
    assert Lookup(store - StaleKeys(store, raw, config), k) == Lookup(store, k);
    assert ObjectKey(config.namespace, k.name) == k;
  }

  lemma OtherKeyAnalysed(store: Store, findings: seq<Finding>, config: Config, k: ObjectKey)
    requires !Own(k, findings, config)
    ensures k in Analysed(store, findings, config) <==> k in store && !Stale(k, store[k], Mapped(findings, config), config)
    ensures k in Analysed(store, findings, config) ==> Analysed(store, findings, config)[k] == store[k]
  {
  }

  lemma UpsertedIsSelected(existing: Option<Result>, findings: seq<Finding>, config: Config, name: string)
    requires name in Mapped(findings, config)
    ensures Selected(Upserted(existing, Mapped(findings, config)[name]), config)
  {
    MappedIsSelected(findings, config, name);
  }

  /** This Result carries the labels of a finding of this K8sGPT resource. */
  ghost predicate BelongsTo(r: Result, owner: Config) {
    exists f: Finding {:trigger LabelsOf(f, owner)} :: r.labels == LabelsOf(f, owner)
  }

  /** The selector picks the Results of the resource of that name and namespace, and those only. */
  lemma {:induction false} SelectedIff(r: Result, owner: Config, config: Config)
    requires BelongsTo(r, owner)
    ensures Selected(r, config) <==> owner.name == config.name && owner.namespace == config.namespace
  {
  }

  /** A pass leaves alone what belongs to another resource, unless a finding of its own has that very name. */
  lemma {:induction false} OtherResourcesStay(store: Store, findings: seq<Finding>, config: Config, k: ObjectKey, owner: Config)
    requires k in store && BelongsTo(store[k], owner) && (owner.name != config.name || owner.namespace != config.namespace)
    requires k.namespace != config.namespace || k.name !in Mapped(findings, config)
    ensures k in AfterPass(store, findings, config) && AfterPass(store, findings, config)[k] == store[k]
    ensures k !in SentBy(store, findings, config)
  {
    SelectedIff(store[k], owner, config);
    OtherKeyAnalysed(store, findings, config, k);
  }

  /** What a pass makes of the entry of a finding. */
  function Evolved(existing: Option<Result>, desired: Result, sink: Sink): Result {
    Notified(Upserted(existing, desired), sink)
  }

  lemma OwnKeyAfterPass(store: Store, findings: seq<Finding>, config: Config, k: ObjectKey)
    requires Own(k, findings, config)
    ensures var desired := Mapped(findings, config)[k.name];
            && k in AfterPass(store, findings, config)
            && AfterPass(store, findings, config)[k] == Evolved(Lookup(store, k), desired, config.sink)
            && (k in SentBy(store, findings, config) <==> Emits(Upserted(Lookup(store, k), desired), config.sink))
  {
    OwnKeyAnalysed(store, findings, config, k);
    UpsertedIsSelected(Lookup(store, k), findings, config, k.name);
  }

  // ---------------------------------------------------------------- one key through many passes

  function Times<T>(step: T -> T, start: T, n: nat): T
    decreases n
  {
    if n == 0 then start else Times(step, step(start), n - 1)
  }

  /** The store after `n` passes over the same findings with the same configuration. */
  function AfterPasses(store: Store, findings: seq<Finding>, config: Config, n: nat): Store {
    Times(s => AfterPass(s, findings, config), store, n)
  }

  /** The entry of a finding after `n` passes. */
  function EvolvedTimes(existing: Option<Result>, desired: Result, sink: Sink, n: nat): Option<Result> {
    Times(e => Some(Evolved(e, desired, sink)), existing, n)
  }

  lemma EntryAfterPass(store: Store, findings: seq<Finding>, config: Config, k: ObjectKey)
    requires Own(k, findings, config)
    ensures Lookup(AfterPass(store, findings, config), k) ==
            Some(Evolved(Lookup(store, k), Mapped(findings, config)[k.name], config.sink))
  {
    OwnKeyAfterPass(store, findings, config, k);
  }

  /** What any one pass makes of an entry, any number of passes make of it one after the other. */
  lemma {:induction false} Simulated(pass: Store -> Store, evolve: Option<Result> -> Option<Result>, store: Store, k: ObjectKey, n: nat)
    requires forall s: Store :: Lookup(pass(s), k) == evolve(Lookup(s, k))
    ensures Lookup(Times(pass, store, n), k) == Times(evolve, Lookup(store, k), n)
    decreases n
  {
    if n > 0 { Simulated(pass, evolve, pass(store), k, n - 1); }
  }

  lemma OwnKeyAfterPasses(store: Store, findings: seq<Finding>, config: Config, k: ObjectKey, n: nat)
    requires Own(k, findings, config)
    ensures Lookup(AfterPasses(store, findings, config, n), k) ==
            EvolvedTimes(Lookup(store, k), Mapped(findings, config)[k.name], config.sink, n)
  {
    var desired := Mapped(findings, config)[k.name];
    var pass := (s: Store) => AfterPass(s, findings, config);
    var evolve := (e: Option<Result>) => Some(Evolved(e, desired, config.sink));
    forall s: Store ensures Lookup(pass(s), k) == evolve(Lookup(s, k)) { EntryAfterPass(s, findings, config, k); }
    Simulated(pass, evolve, store, k, n);
  }

  // ---------------------------------------------------------------- what happens to a store

  /**
   * What happens to the stored Results: whole passes of any K8sGPT resource, passes that fail midway,
   * and deletions by anybody.
   */
  datatype Event =
    | Analyse(findings: seq<Finding>, config: Config)
    | Interrupt(findings: seq<Finding>, config: Config, how: Progress)
    | Remove(k: ObjectKey)

  function AfterEvent(store: Store, event: Event): Store {
    match event
    case Analyse(findings, config) => AfterPass(store, findings, config)
    case Interrupt(findings, config, how) => Interrupted(store, Mapped(findings, config), config, how)
    case Remove(k) => store - {k}
  }

  function AfterEvents(events: seq<Event>): Store
    decreases |events|
  {
    if events == [] then map[] else AfterEvent(AfterEvents(events[..|events| - 1]), events[|events| - 1])
  }

  /** The event tears the update of this entry: the new specification under the hash of other content. */
  predicate Tears(store: Store, event: Event, k: ObjectKey) {
    && event.Interrupt? && k.namespace == event.config.namespace
    && TornName(event.how, Mapped(event.findings, event.config), k.name)
    && k in store && !Unchanged(Some(store[k]), Mapped(event.findings, event.config)[k.name])
    && store[k].status.contentHash.Some?
    && store[k].status.contentHash.value != ContentOf(Mapped(event.findings, event.config)[k.name].spec)
  }

  // ---------------------------------------------------------------- entries whose hash lies

  /** The entry holds a hash of other content than its own. */
  predicate Dishonest(existing: Option<Result>) {
    && existing.Some? && existing.value.status.contentHash.Some?
    && existing.value.status.contentHash.value != ContentOf(existing.value.spec)
  }

  /** Neither the content of the specification nor the hash was written. */
  predicate Kept(before: Option<Result>, after: Option<Result>) {
    && before.Some? && after.Some? && ContentOf(before.value.spec) == ContentOf(after.value.spec)
    && before.value.status.contentHash == after.value.status.contentHash
  }

  /** A write of the hash is a write of the specification's own content, unless the update is torn. */
  predicate HonestWrite(before: Option<Result>, after: Option<Result>, tears: bool) {
    Dishonest(after) <==> tears || (Kept(before, after) && Dishonest(before))
  }

  lemma NotifiedIsHonest(r: Result, keys: bool, sink: Sink)
    ensures Kept(Some(r), Some(if keys then Notified(r, sink) else r))
  {
  }

  lemma UpsertIsHonest(existing: Option<Result>, desired: Result)
    requires desired.status == NO_STATUS
    ensures HonestWrite(existing, Some(Upserted(existing, desired)), false)
  {
  }

  lemma TornIsDishonestIff(existing: Result, desired: Result)
    requires !Unchanged(Some(existing), desired)
    ensures HonestWrite(Some(existing), Some(Torn(existing, desired)),
                        existing.status.contentHash.Some? && existing.status.contentHash.value != ContentOf(desired.spec))
  {
  }

  /** The entry of a key after a pass that failed midway, before its announcements. */
  function PartlyAnalysed(store: Store, raw: map<string, Result>, config: Config, how: Progress, k: ObjectKey): Option<Result> {
    if k.namespace == config.namespace && k.name in raw then
      if k.name in how.done then Some(Upserted(Lookup(store, k), raw[k.name]))
      else if TornName(how, raw, k.name) && k in store && !Unchanged(Some(store[k]), raw[k.name])
      then Some(Torn(store[k], raw[k.name]))
      else Lookup(store, k)
    else if k in how.removed && k in StaleKeys(store, raw, config) then None
    else Lookup(store, k)
  }

  lemma ProgressedAt(store: Store, raw: map<string, Result>, config: Config, how: Progress, k: ObjectKey)
    ensures Lookup(Progressed(store, raw, config, how), k) == PartlyAnalysed(store, raw, config, how, k)
  {
    var cleaned := store - (how.removed * StaleKeys(store, raw, config));
    var processed := Processed(cleaned, Only(raw, how.done), config.namespace);
    if k.namespace == config.namespace && k.name in raw {
      assert ObjectKey(config.namespace, k.name) == k;
      assert Lookup(cleaned, k) == Lookup(store, k);
    }
    assert Lookup(processed, k) ==
           if k.namespace == config.namespace && k.name in raw && k.name in how.done
           then Some(Upserted(Lookup(store, k), raw[k.name])) else Lookup(cleaned, k);
  }

  lemma InterruptedAt(store: Store, raw: map<string, Result>, config: Config, how: Progress, k: ObjectKey)
    ensures var before, after := PartlyAnalysed(store, raw, config, how, k), Lookup(Interrupted(store, raw, config, how), k);
            && (before.None? ==> after.None?)
            && (before.Some? ==> after == before || after == Some(Notified(before.value, config.sink)))
  {
    ProgressedAt(store, raw, config, how, k);
  }

  lemma HonestTransitive(a: Option<Result>, b: Option<Result>, c: Option<Result>, tears: bool)
    requires HonestWrite(a, b, tears) && ((b.None? && c.None?) || Kept(b, c))
    ensures HonestWrite(a, c, tears)
  {
  }

  lemma InterruptIsHonest(store: Store, event: Event, k: ObjectKey)
    requires event.Interrupt?
    ensures HonestWrite(Lookup(store, k), Lookup(AfterEvent(store, event), k), Tears(store, event, k))
  {
    var raw, config, how := Mapped(event.findings, event.config), event.config, event.how;
    var partly := PartlyAnalysed(store, raw, config, how, k);
    InterruptedAt(store, raw, config, how, k);
    if k.namespace == config.namespace && k.name in raw {
      MappedIsSelected(event.findings, config, k.name);
      UpsertIsHonest(Lookup(store, k), raw[k.name]);
      if k in store && !Unchanged(Some(store[k]), raw[k.name]) { TornIsDishonestIff(store[k], raw[k.name]); }
    }
    assert HonestWrite(Lookup(store, k), partly, Tears(store, event, k));
    if partly.Some? { NotifiedIsHonest(partly.value, true, config.sink); }
    HonestTransitive(Lookup(store, k), partly, Lookup(AfterEvent(store, event), k), Tears(store, event, k));
  }

  lemma AnalyseIsHonest(store: Store, findings: seq<Finding>, config: Config, k: ObjectKey)
    ensures HonestWrite(Lookup(store, k), Lookup(AfterPass(store, findings, config), k), false)
  {
    if Own(k, findings, config) {
      OwnKeyAfterPass(store, findings, config, k);
      MappedIsSelected(findings, config, k.name);
      UpsertIsHonest(Lookup(store, k), Mapped(findings, config)[k.name]);
    } else {
      OtherKeyAnalysed(store, findings, config, k);
    }
  }

  /** Only a torn update leaves an entry under the hash of other content, and only until it is written again. */
  lemma EventIsHonest(store: Store, event: Event, k: ObjectKey)
    ensures HonestWrite(Lookup(store, k), Lookup(AfterEvent(store, event), k), Tears(store, event, k))
  {
    match event
    case Analyse(findings, config) => AnalyseIsHonest(store, findings, config, k);
    case Interrupt(_, _, _) => InterruptIsHonest(store, event, k);
    case Remove(_) =>
  }

  // ---------------------------------------------------------------- histories

  function EntryAfter(events: seq<Event>, n: nat, k: ObjectKey): Option<Result>
    requires n <= |events|
  {
    Lookup(AfterEvents(events[..n]), k)
  }

  /** Event `j` wrote neither the content nor the hash of this entry. */
  predicate KeptAt(events: seq<Event>, j: nat, k: ObjectKey)
    requires j < |events|
  {
    Kept(EntryAfter(events, j, k), EntryAfter(events, j + 1, k))
  }

  /** Event `i` tore the update of this entry, and nothing since has written or deleted it. */
  ghost predicate TornSince(events: seq<Event>, k: ObjectKey, i: nat) {
    && i < |events| && Tears(AfterEvents(events[..i]), events[i], k)
    && forall j: nat | i < j < |events| :: KeptAt(events, j, k)
  }

  lemma EntryBefore(events: seq<Event>, last: Event, n: nat, k: ObjectKey)
    requires n <= |events|
    ensures (events + [last])[..n] == events[..n]
    ensures EntryAfter(events + [last], n, k) == EntryAfter(events, n, k)
  {
    assert (events + [last])[..n] == events[..n];
  }

  lemma KeptBefore(events: seq<Event>, last: Event, j: nat, k: ObjectKey)
    requires j < |events|
    ensures KeptAt(events + [last], j, k) <==> KeptAt(events, j, k)
  {
    EntryBefore(events, last, j, k);
    EntryBefore(events, last, j + 1, k);
  }

  lemma TornSinceAppend(events: seq<Event>, last: Event, k: ObjectKey, i: nat)
    requires i < |events|
    ensures TornSince(events + [last], k, i) <==> TornSince(events, k, i) && KeptAt(events + [last], |events|, k)
  {
    EntryBefore(events, last, i, k);
    assert (events + [last])[i] == events[i];
    forall j: nat | j < |events| ensures KeptAt(events + [last], j, k) <==> KeptAt(events, j, k) {
      KeptBefore(events, last, j, k);
    }
  }

  lemma LastEntry(events: seq<Event>, last: Event, k: ObjectKey)
    ensures EntryAfter(events + [last], |events|, k) == Lookup(AfterEvents(events), k)
    ensures EntryAfter(events + [last], |events| + 1, k) == Lookup(AfterEvents(events + [last]), k)
  {
    assert (events + [last])[..|events|] == events;
    assert (events + [last])[..|events| + 1] == events + [last];
  }

  lemma LastEvent(events: seq<Event>, last: Event)
    ensures AfterEvents(events + [last]) == AfterEvent(AfterEvents(events), last)
  {
    assert (events + [last])[..|events|] == events;
  }

  lemma KeptByLast(events: seq<Event>, last: Event, k: ObjectKey)
    ensures KeptAt(events + [last], |events|, k) <==>
            Kept(Lookup(AfterEvents(events), k), Lookup(AfterEvents(events + [last]), k))
  {
    LastEntry(events, last, k);
  }

  /** After any history, an entry holds the hash of other content exactly when its last write was a torn one. */
  lemma {:induction false} DishonestIffTorn(events: seq<Event>, k: ObjectKey)
    ensures Dishonest(Lookup(AfterEvents(events), k)) <==> exists i :: TornSince(events, k, i)
    decreases |events|
  {
    if events != [] {
      var n := |events| - 1;
      var before, last := events[..n], events[n];
      assert events == before + [last];
      DishonestIffTorn(before, k);
      LastEvent(before, last);
      KeptByLast(before, last, k);
      EventIsHonest(AfterEvents(before), last, k);
      forall i: nat | i < n ensures TornSince(events, k, i) <==> TornSince(before, k, i) && KeptAt(events, n, k) {
        TornSinceAppend(before, last, k, i);
      }
      TornByLast(before, last, k);
    }
  }

  lemma TornByLast(events: seq<Event>, last: Event, k: ObjectKey)
    ensures TornSince(events + [last], k, |events|) <==> Tears(AfterEvents(events), last, k)
  {
    assert (events + [last])[..|events|] == events;
  }

  // ---------------------------------------------------------------- convergence

  /** The stored Result says what the analysis says, in everything the hash and the labels cover. */
  predicate Agrees(stored: Result, desired: Result) {
    ContentOf(stored.spec) == ContentOf(desired.spec) && stored.labels == desired.labels
  }

  /** Create or update reaches agreement exactly when it is not misled by a hash of other content. */
  lemma UpsertAgreesIff(existing: Option<Result>, desired: Result)
    ensures Agrees(Upserted(existing, desired), desired) <==> !(Unchanged(existing, desired) && Dishonest(existing))
  {
  }

  /** The names of the Results selected by this K8sGPT resource. */
  function SelectedNames(store: Store, config: Config): set<string> {
    set k | k in store && Selected(store[k], config) :: k.name
  }

  lemma NotifiedKeeps(r: Result, sink: Sink)
    ensures Notified(r, sink).spec == r.spec && Notified(r, sink).labels == r.labels
  {
  }

  lemma NamesAfterPass(store: Store, findings: seq<Finding>, config: Config)
    ensures SelectedNames(AfterPass(store, findings, config), config) == Mapped(findings, config).Keys
  {
    var raw, later := Mapped(findings, config), AfterPass(store, findings, config);
    forall name | name in raw ensures name in SelectedNames(later, config) {
      var k := ObjectKey(config.namespace, name);
      OwnKeyAfterPass(store, findings, config, k);
      UpsertedIsSelected(Lookup(store, k), findings, config, name);
      assert k in later && Selected(later[k], config) && k.name == name;
    }
    forall k | k in later && Selected(later[k], config) ensures k.name in raw {
      if !Own(k, findings, config) { OtherKeyAnalysed(store, findings, config, k); }
    }
  }

  /** Results that are neither selected nor a finding's own. */
  predicate Unrelated(store: Store, findings: seq<Finding>, config: Config, k: ObjectKey) {
    k in store && !Selected(store[k], config) && !Own(k, findings, config)
  }

  lemma UnrelatedIsUntouched(store: Store, findings: seq<Finding>, config: Config, k: ObjectKey)
    requires Unrelated(store, findings, config, k)
    ensures k in AfterPass(store, findings, config) && AfterPass(store, findings, config)[k] == store[k]
  {
    OtherKeyAnalysed(store, findings, config, k);
  }

  /** The entry is taken for unchanged although its update was torn and never made good. */
  ghost predicate Misled(events: seq<Event>, k: ObjectKey, desired: Result) {
    Unchanged(Lookup(AfterEvents(events), k), desired) && exists i :: TornSince(events, k, i)
  }

  /** One finding after a pass, agreed on unless the pass was misled. */
  lemma OwnKeyConvergesIff(events: seq<Event>, findings: seq<Finding>, config: Config, name: string)
    requires name in Mapped(findings, config)
    ensures var k, later := ObjectKey(config.namespace, name), AfterPass(AfterEvents(events), findings, config);
            k in later && (Agrees(later[k], Mapped(findings, config)[name]) <==>
                           !Misled(events, k, Mapped(findings, config)[name]))
  {
    var k, desired, store := ObjectKey(config.namespace, name), Mapped(findings, config)[name], AfterEvents(events);
    OwnKeyAfterPass(store, findings, config, k);
    UpsertAgreesIff(Lookup(store, k), desired);
    NotifiedKeeps(Upserted(Lookup(store, k), desired), config.sink);
    DishonestIffTorn(events, k);
  }

  /**
   * Convergence, exactly. After any history of whole passes, passes that failed midway and deletions, by
   * however many K8sGPT resources, a successful pass leaves exactly the names the analysis gives and
   * touches nothing unrelated; and a finding's Result agrees with it exactly when its last write was not
   * a torn one whose hash the analysis has come back to.
   */
  lemma PassConvergesIff(events: seq<Event>, findings: seq<Finding>, config: Config)
    ensures var raw, store := Mapped(findings, config), AfterEvents(events);
            var later := AfterPass(store, findings, config);
            && SelectedNames(later, config) == raw.Keys
            && (forall name | name in raw ::
                  var k := ObjectKey(config.namespace, name);
                  k in later && (Agrees(later[k], raw[name]) <==> !Misled(events, k, raw[name])))
            && (forall k | Unrelated(store, findings, config, k) :: k in later && later[k] == store[k])
  {
    NamesAfterPass(AfterEvents(events), findings, config);
    forall name | name in Mapped(findings, config)
      ensures var k, later := ObjectKey(config.namespace, name), AfterPass(AfterEvents(events), findings, config);
              k in later && (Agrees(later[k], Mapped(findings, config)[name]) <==>
                             !Misled(events, k, Mapped(findings, config)[name]))
    {
      OwnKeyConvergesIff(events, findings, config, name);
    }
    forall k | Unrelated(AfterEvents(events), findings, config, k)
      ensures k in AfterPass(AfterEvents(events), findings, config)
      ensures AfterPass(AfterEvents(events), findings, config)[k] == AfterEvents(events)[k]
    {
      UnrelatedIsUntouched(AfterEvents(events), findings, config, k);
    }
  }

  /** No pass of the history stopped between the two writes of an update. */
  predicate NothingTorn(events: seq<Event>) {
    forall i | 0 <= i < |events| && events[i].Interrupt? :: events[i].how.torn.None?
  }

  /** So passes that fail anywhere else are made good by the next successful one. */
  lemma UntornHistoryConverges(events: seq<Event>, findings: seq<Finding>, config: Config, name: string)
    requires NothingTorn(events) && name in Mapped(findings, config)
    ensures var k, later := ObjectKey(config.namespace, name), AfterPass(AfterEvents(events), findings, config);
            k in later && Agrees(later[k], Mapped(findings, config)[name])
  {
    OwnKeyConvergesIff(events, findings, config, name);
  }

  // ---------------------------------------------------------------- what is never repaired

  /** The entry holds the hash and the labels of this Result over other content. */
  predicate Misleads(existing: Option<Result>, desired: Result) {
    Unchanged(existing, desired) && Dishonest(existing)
  }

  lemma MisleadsAgain(existing: Option<Result>, desired: Result, sink: Sink)
    requires Misleads(existing, desired)
    ensures Misleads(Some(Evolved(existing, desired, sink)), desired)
  {
    NotifiedKeeps(Upserted(existing, desired), sink);
  }

  lemma {:induction false} MisleadsTimes(existing: Option<Result>, desired: Result, sink: Sink, n: nat)
    requires Misleads(existing, desired)
    ensures Misleads(EvolvedTimes(existing, desired, sink, n), desired)
    decreases n
  {
    if n > 0 {
      MisleadsAgain(existing, desired, sink);
      MisleadsTimes(Some(Evolved(existing, desired, sink)), desired, sink, n - 1);
    }
  }

  /** An entry that misleads one pass misleads every later pass over the same findings. */
  lemma MisledForEver(store: Store, findings: seq<Finding>, config: Config, k: ObjectKey, n: nat)
    requires Own(k, findings, config)
    requires Misleads(Lookup(store, k), Mapped(findings, config)[k.name])
    ensures Misleads(Lookup(AfterPasses(store, findings, config, n), k), Mapped(findings, config)[k.name])
  {
    OwnKeyAfterPasses(store, findings, config, k, n);
    MisleadsTimes(Lookup(store, k), Mapped(findings, config)[k.name], config.sink, n);
  }

  /** A finding is created and settled, and then something happens. */
  function SettledThen(f: Finding, config: Config, last: Event): seq<Event> {
    [Analyse([f], config), Analyse([f], config), last]
  }

  /** The history that tears the update from one finding to another of the same name, once the first is settled. */
  function TornHistory(f: Finding, g: Finding, config: Config): seq<Event> {
    SettledThen(f, config, Interrupt([g], config, Progress({}, {}, Some(NameOf(g.spec)), {})))
  }

  lemma MappedOne(f: Finding, config: Config)
    ensures Mapped([f], config) == map[NameOf(f.spec) := Desired(f, config)]
  {
    assert [f][..0] == [];
    assert Mapped([], config) == map[];
  }

  lemma TwoAnalyses(f: Finding, config: Config)
    ensures var k := ObjectKey(config.namespace, NameOf(f.spec));
            Unchanged(Lookup(AfterPasses(map[], [f], config, 2), k), Desired(f, config))
  {
    MappedOne(f, config);
    var k := ObjectKey(config.namespace, NameOf(f.spec));
    OwnKeyAfterPasses(map[], [f], config, k, 2);
    UnchangedAfterTwo(Desired(f, config), config.sink);
  }

  lemma UnchangedAfterTwo(desired: Result, sink: Sink)
    requires desired.status == NO_STATUS
    ensures Unchanged(EvolvedTimes(None, desired, sink, 2), desired)
  {
    var first := Evolved(None, desired, sink);
    assert EvolvedTimes(None, desired, sink, 2) == EvolvedTimes(Some(first), desired, sink, 1);
    assert EvolvedTimes(Some(first), desired, sink, 1) == Some(Evolved(Some(first), desired, sink));
    NotifiedKeeps(desired, sink);
    NotifiedKeeps(Upserted(Some(first), desired), sink);
  }

  lemma TornMisleads(settled: Result, desired: Result, other: Result)
    requires Unchanged(Some(settled), desired) && other.labels == desired.labels && ContentOf(other.spec) != ContentOf(desired.spec)
    ensures !Unchanged(Some(settled), other) && Misleads(Some(Torn(settled, other)), desired)
  {
  }

  lemma TornHistoryMisleads(f: Finding, g: Finding, config: Config)
    requires NameOf(f.spec) == NameOf(g.spec) && f.backstage == g.backstage && ContentOf(f.spec) != ContentOf(g.spec)
    ensures var k := ObjectKey(config.namespace, NameOf(f.spec));
            Misleads(Lookup(AfterEvents(TornHistory(f, g, config)), k), Desired(f, config))
  {
    var k, history := ObjectKey(config.namespace, NameOf(f.spec)), TornHistory(f, g, config);
    var settled := AfterPasses(map[], [f], config, 2);
    MappedOne(g, config);
    AfterSettledThen(f, config, history[2]);
    TwoAnalyses(f, config);
    InterruptedAt(settled, Mapped([g], config), config, history[2].how, k);
    TornMisleads(settled[k], Desired(f, config), Desired(g, config));
  }

  /**
   * From the empty store, without anybody's hand: a finding is settled, changes its content under its
   * name, the update is torn, and the finding changes back. No successful pass ever repairs the entry.
   */
  lemma TornUpdateIsNeverRepaired(f: Finding, g: Finding, config: Config, n: nat)
    requires NameOf(f.spec) == NameOf(g.spec) && f.backstage == g.backstage && ContentOf(f.spec) != ContentOf(g.spec)
    ensures var k, store := ObjectKey(config.namespace, NameOf(f.spec)), AfterEvents(TornHistory(f, g, config));
            && k in AfterPasses(store, [f], config, n)
            && !Agrees(AfterPasses(store, [f], config, n)[k], Mapped([f], config)[k.name])
  {
    var k, history := ObjectKey(config.namespace, NameOf(f.spec)), TornHistory(f, g, config);
    MappedOne(f, config);
    TornHistoryMisleads(f, g, config);
    MisledForEver(AfterEvents(history), [f], config, k, n);
  }

  lemma AfterSettledThen(f: Finding, config: Config, last: Event)
    ensures AfterEvents(SettledThen(f, config, last)) == AfterEvent(AfterPasses(map[], [f], config, 2), last)
    ensures AfterEvents(SettledThen(f, config, last)[..2]) == AfterPasses(map[], [f], config, 2)
  {
    var history := SettledThen(f, config, last);
    var one, two := [history[0]], [history[0], history[1]];
    assert history == two + [last] && two == one + [history[1]] && one == [] + [history[0]];
    assert history[..2] == two;
    LastEvent(two, last);
    LastEvent(one, history[1]);
    LastEvent([], history[0]);
    TwoPasses([f], config);
  }

  lemma TwoPasses(findings: seq<Finding>, config: Config)
    ensures AfterPasses(map[], findings, config, 2) == AfterPass(AfterPass(map[], findings, config), findings, config)
  {
    assert AfterPasses(map[], findings, config, 2) == AfterPasses(AfterPass(map[], findings, config), findings, config, 1);
  }

  /** An edited specification under an intact status is not repaired either. */
  lemma EditedSpecIsNotRepaired(settled: Result, desired: Result, edited: Spec)
    requires Unchanged(Some(settled), desired) && ContentOf(edited) != ContentOf(desired.spec)
    ensures !Agrees(Upserted(Some(settled.(spec := edited)), desired), desired)
  {
    UpsertAgreesIff(Some(settled.(spec := edited)), desired);
  }
}
