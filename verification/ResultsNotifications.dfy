/**
 * When a finding is sent to the sink: exactly, over error-free passes from any store, and over histories
 * with passes that fail midway.
 */
module ResultsNotifications {
  import opened Strings
  import opened Gvk
  import opened Results
  import opened ResultsProofs

  // ---------------------------------------------------------------- error-free passes

  /** Whether pass number `n`, counted from zero, sends the finding at this key. */
  predicate SentInPass(store: Store, findings: seq<Finding>, config: Config, k: ObjectKey, n: nat) {
    k in SentBy(AfterPasses(store, findings, config, n), findings, config)
  }

  /** The entry has the hash of the desired content, the desired labels, and an endpoint. */
  predicate Remembered(existing: Option<Result>, desired: Result) {
    Unchanged(existing, desired) && existing.value.status.webhook != ""
  }

  /** A finding is sent exactly when a sink is enabled and the entry does not remember it. */
  lemma SentIffForgotten(existing: Option<Result>, desired: Result, sink: Sink)
    requires desired.status == NO_STATUS
    ensures Emits(Upserted(existing, desired), sink) <==> sink.Enabled? && !Remembered(existing, desired)
  {
  }

  /** What one pass makes of the memory of an entry. */
  lemma RememberedAfterPass(existing: Option<Result>, desired: Result, sink: Sink)
    requires sink.Enabled? && desired.status == NO_STATUS
    ensures Remembered(Some(Evolved(existing, desired, sink)), desired) <==>
            if sink.endpoint == "" then Remembered(existing, desired) else existing.Some?
  {
  }

  /** The memory of an entry before pass number `n`, told from the entry before the first pass. */
  lemma {:induction false} RememberedAfterTimes(existing: Option<Result>, desired: Result, sink: Sink, n: nat)
    requires sink.Enabled? && desired.status == NO_STATUS
    ensures Remembered(EvolvedTimes(existing, desired, sink, n), desired) <==>
            if sink.endpoint == "" || n == 0 then Remembered(existing, desired) else n >= 2 || existing.Some?
    decreases n
  {
    if n >= 1 {
      RememberedAfterPass(existing, desired, sink);
      RememberedAfterTimes(Some(Evolved(existing, desired, sink)), desired, sink, n - 1);
    }
  }

  /**
   * Notifications, exactly. Over error-free passes with the same findings and configuration, from any
   * store: with an endpoint, a finding is sent in the first pass unless its entry remembers it, in the
   * second pass if it had no entry at first, because the status written at creation is lost, and never
   * again. With a sink known by its secret alone it is sent in every pass, unless its entry remembers
   * an earlier endpoint.
   */
  lemma SentInPassIff(store: Store, findings: seq<Finding>, config: Config, k: ObjectKey, n: nat)
    requires Own(k, findings, config)
    ensures var e, desired := Lookup(store, k), Mapped(findings, config)[k.name];
            SentInPass(store, findings, config, k, n) <==>
            && config.sink.Enabled?
            && if config.sink.endpoint == "" then !Remembered(e, desired)
               else (n == 0 && !Remembered(e, desired)) || (n == 1 && e.None?)
  {
    var e, desired, before := Lookup(store, k), Mapped(findings, config)[k.name], AfterPasses(store, findings, config, n);
    MappedIsSelected(findings, config, k.name);
    OwnKeyAfterPass(before, findings, config, k);
    SentIffForgotten(Lookup(before, k), desired, config.sink);
    if config.sink.Enabled? {
      OwnKeyAfterPasses(store, findings, config, k, n);
      RememberedAfterTimes(e, desired, config.sink, n);
    }
  }

  /** A successful pass sends every finding whose hashed content or labels differ from its stored entry. */
  lemma ChangeIsAlwaysSent(store: Store, findings: seq<Finding>, config: Config, k: ObjectKey)
    requires Own(k, findings, config) && config.sink.Enabled?
    requires !Unchanged(Lookup(store, k), Mapped(findings, config)[k.name])
    ensures k in SentBy(store, findings, config)
  {
    MappedIsSelected(findings, config, k.name);
    OwnKeyAfterPass(store, findings, config, k);
    SentIffForgotten(Lookup(store, k), Mapped(findings, config)[k.name], config.sink);
  }

  /** With an endpoint, some pass sends the finding exactly when its entry does not remember it. */
  lemma SentBySomePassIff(store: Store, findings: seq<Finding>, config: Config, k: ObjectKey)
    requires Own(k, findings, config) && config.sink.Enabled? && config.sink.endpoint != ""
    ensures (exists n :: SentInPass(store, findings, config, k, n)) <==> !Remembered(Lookup(store, k), Mapped(findings, config)[k.name])
  {
    forall n { SentInPassIff(store, findings, config, k, n); }
    SentInPassIff(store, findings, config, k, 0);
  }

  // ---------------------------------------------------------------- what one event tells the sink

  /** The store of an event before its announcements. */
  function Halfway(store: Store, event: Event): Store {
    match event
    case Analyse(findings, config) => Analysed(store, findings, config)
    case Interrupt(findings, config, how) => Progressed(store, Mapped(findings, config), config, how)
    case Remove(k) => store - {k}
  }

  /** The event gets to this Result with its announcements. */
  predicate Announces(store: Store, event: Event, k: ObjectKey) {
    && !event.Remove? && k in Halfway(store, event) && Selected(Halfway(store, event)[k], event.config)
    && (event.Interrupt? ==> k in event.how.announced)
  }

  /** The event sends this Result and writes that down. */
  predicate Sends(store: Store, event: Event, k: ObjectKey) {
    Announces(store, event, k) && Emits(Halfway(store, event)[k], event.config.sink)
  }

  lemma AnnouncedEntry(store: Store, event: Event, k: ObjectKey)
    ensures Lookup(AfterEvent(store, event), k) ==
            if Announces(store, event, k) then Some(Notified(Halfway(store, event)[k], event.config.sink))
            else Lookup(Halfway(store, event), k)
  {
  }

  /** The entry carries an endpoint, so an equal finding is taken for sent. */
  predicate Noted(e: Option<Result>) {
    e.Some? && e.value.status.webhook != ""
  }

  /** The same hash and labels, which is all that a later pass compares. */
  predicate SameMark(a: Result, b: Result) {
    a.status.contentHash == b.status.contentHash && a.labels == b.labels
  }

  predicate Remains(before: Option<Result>, after: Option<Result>) {
    Noted(before) && Noted(after) && SameMark(before.value, after.value)
  }

  /** The event sends the content that the noted entry has the hash of. */
  predicate Tells(store: Store, event: Event, k: ObjectKey) {
    Sends(store, event, k) && Noted(Lookup(AfterEvent(store, event), k)) && !Dishonest(Lookup(AfterEvent(store, event), k))
  }

  /**
   * The event leaves a noted entry without having sent the content it has the hash of: it died between
   * the update of an entry that carried an endpoint and the announcement, or it sent an entry whose
   * update was torn.
   */
  predicate Slips(store: Store, event: Event, k: ObjectKey) {
    var before, after := Lookup(store, k), Lookup(AfterEvent(store, event), k);
    && Noted(after)
    && if Sends(store, event, k) then Dishonest(after)
       else event.Interrupt? && Noted(before) && !SameMark(before.value, after.value)
  }

  predicate News(store: Store, event: Event, k: ObjectKey) {
    Tells(store, event, k) || Slips(store, event, k)
  }

  /** What a pass makes of an entry before its announcements. */
  predicate Rewritten(before: Option<Result>, half: Option<Result>) {
    || half == before || half.None?
    || (before.None? && half.value.status == NO_STATUS)
    || (before.Some? && half.value.status.webhook == before.value.status.webhook
        && (SameMark(before.value, half.value) || half.value.status.lifeCycle == before.value.status.lifeCycle
            || half.value.status.lifeCycle == UpdatedResult))
  }

  lemma UpsertRewrites(before: Option<Result>, desired: Result)
    requires desired.status == NO_STATUS
    ensures Rewritten(before, Some(Upserted(before, desired)))
    ensures before.Some? && !SameMark(before.value, Upserted(before, desired)) ==>
              Upserted(before, desired).status.lifeCycle == UpdatedResult
  {
  }

  lemma InterruptRewrites(store: Store, event: Event, k: ObjectKey)
    requires event.Interrupt?
    ensures Rewritten(Lookup(store, k), Lookup(Halfway(store, event), k))
  {
    var raw := Mapped(event.findings, event.config);
    ProgressedAt(store, raw, event.config, event.how, k);
    if k.namespace == event.config.namespace && k.name in raw {
      MappedIsSelected(event.findings, event.config, k.name);
      UpsertRewrites(Lookup(store, k), raw[k.name]);
    }
  }

  /** A whole pass announces every entry it updates. */
  lemma AnalyseRewrites(store: Store, event: Event, k: ObjectKey)
    requires event.Analyse?
    ensures Rewritten(Lookup(store, k), Lookup(Halfway(store, event), k))
    ensures k in store && k in Halfway(store, event) && !SameMark(store[k], Halfway(store, event)[k]) ==>
              Announces(store, event, k) && Halfway(store, event)[k].status.lifeCycle == UpdatedResult
  {
    var findings, config := event.findings, event.config;
    if Own(k, findings, config) {
      MappedIsSelected(findings, config, k.name);
      OwnKeyAnalysed(store, findings, config, k);
      UpsertRewrites(Lookup(store, k), Mapped(findings, config)[k.name]);
      UpsertedIsSelected(Lookup(store, k), findings, config, k.name);
    } else {
      OtherKeyAnalysed(store, findings, config, k);
    }
  }

  lemma Rewrites(store: Store, event: Event, k: ObjectKey)
    ensures Rewritten(Lookup(store, k), Lookup(Halfway(store, event), k))
    ensures !event.Interrupt? && k in store && k in Halfway(store, event) && !SameMark(store[k], Halfway(store, event)[k]) ==>
              Announces(store, event, k) && Halfway(store, event)[k].status.lifeCycle == UpdatedResult
  {
    match event
    case Analyse(_, _) => AnalyseRewrites(store, event, k);
    case Interrupt(_, _, _) => InterruptRewrites(store, event, k);
    case Remove(_) =>
  }

  /** An announcement that sends nothing leaves the entry alone or takes its endpoint away. */
  lemma SilentAnnouncement(r: Result, sink: Sink)
    requires !Emits(r, sink)
    ensures Noted(Some(Notified(r, sink))) ==> Notified(r, sink) == r && sink.Enabled?
  {
  }

  /** A noted entry has news of it, or is as it was. */
  lemma NewsOrRemains(store: Store, event: Event, k: ObjectKey)
    ensures Noted(Lookup(AfterEvent(store, event), k)) <==>
            News(store, event, k) || Remains(Lookup(store, k), Lookup(AfterEvent(store, event), k))
  {
    AnnouncedEntry(store, event, k);
    Rewrites(store, event, k);
    if Announces(store, event, k) && !Sends(store, event, k) { SilentAnnouncement(Halfway(store, event)[k], event.config.sink); }
  }

  // ---------------------------------------------------------------- histories

  /** Event `j` left the entry as it was and brought no news of it. */
  predicate QuietAt(events: seq<Event>, j: nat, k: ObjectKey)
    requires j < |events|
  {
    Remains(EntryAfter(events, j, k), EntryAfter(events, j + 1, k)) && !News(AfterEvents(events[..j]), events[j], k)
  }

  /** Event `i` brought the last news of this entry. */
  ghost predicate LastNews(events: seq<Event>, k: ObjectKey, i: nat) {
    && i < |events| && News(AfterEvents(events[..i]), events[i], k)
    && forall j: nat | i < j < |events| :: QuietAt(events, j, k)
  }

  ghost predicate ToldAt(events: seq<Event>, k: ObjectKey, i: nat) {
    LastNews(events, k, i) && Tells(AfterEvents(events[..i]), events[i], k)
  }

  ghost predicate SlippedAt(events: seq<Event>, k: ObjectKey, i: nat) {
    LastNews(events, k, i) && Slips(AfterEvents(events[..i]), events[i], k)
  }

  /** The last news of the entry was sent to the sink. */
  ghost predicate Told(events: seq<Event>, k: ObjectKey) {
    exists i: nat :: ToldAt(events, k, i)
  }

  /** The last news of the entry never reached the sink, as far as the store knows. */
  ghost predicate Slipped(events: seq<Event>, k: ObjectKey) {
    exists i: nat :: SlippedAt(events, k, i)
  }

  lemma QuietBefore(events: seq<Event>, last: Event, j: nat, k: ObjectKey)
    requires j < |events|
    ensures QuietAt(events + [last], j, k) <==> QuietAt(events, j, k)
  {
    EntryBefore(events, last, j, k);
    EntryBefore(events, last, j + 1, k);
    assert (events + [last])[j] == events[j];
  }

  lemma LastNewsAppend(events: seq<Event>, last: Event, k: ObjectKey, i: nat)
    requires i < |events|
    ensures LastNews(events + [last], k, i) <==> LastNews(events, k, i) && QuietAt(events + [last], |events|, k)
  {
    EntryBefore(events, last, i, k);
    assert (events + [last])[i] == events[i];
    forall j: nat | j < |events| ensures QuietAt(events + [last], j, k) <==> QuietAt(events, j, k) {
      QuietBefore(events, last, j, k);
    }
  }

  lemma NewsByLast(events: seq<Event>, last: Event, k: ObjectKey)
    ensures LastNews(events + [last], k, |events|) <==> News(AfterEvents(events), last, k)
  {
    assert (events + [last])[..|events|] == events;
  }

  lemma QuietByLast(events: seq<Event>, last: Event, k: ObjectKey)
    ensures QuietAt(events + [last], |events|, k) <==>
            Remains(Lookup(AfterEvents(events), k), Lookup(AfterEvents(events + [last]), k)) && !News(AfterEvents(events), last, k)
  {
    LastEntry(events, last, k);
    assert (events + [last])[..|events|] == events;
  }

  /** After any history, an entry is noted exactly when there was news of it that still holds. */
  lemma {:induction false} NotedIffNews(events: seq<Event>, k: ObjectKey)
    ensures Noted(Lookup(AfterEvents(events), k)) <==> exists i: nat :: LastNews(events, k, i)
    decreases |events|
  {
    if events != [] {
      var n := |events| - 1;
      var before, last := events[..n], events[n];
      assert events == before + [last];
      NotedIffNews(before, k);
      LastEvent(before, last);
      NewsOrRemains(AfterEvents(before), last, k);
      NewsByLast(before, last, k);
      QuietByLast(before, last, k);
      forall i: nat | i < n ensures LastNews(events, k, i) <==> LastNews(before, k, i) && QuietAt(events, n, k) {
        LastNewsAppend(before, last, k, i);
      }
    }
  }

  lemma OneLastNews(events: seq<Event>, k: ObjectKey, i: nat, j: nat)
    requires LastNews(events, k, i) && LastNews(events, k, j)
    ensures i == j
  {
    assert i < j ==> QuietAt(events, j, k);
    assert j < i ==> QuietAt(events, i, k);
  }

  /** Both entries are there and have the same mark. */
  predicate StillMarked(before: Option<Result>, after: Option<Result>) {
    before.Some? && after.Some? && SameMark(before.value, after.value)
  }

  /** The entries of a key through a history. */
  function Entries(events: seq<Event>, k: ObjectKey): seq<Option<Result>> {
    seq(|events| + 1, n requires 0 <= n <= |events| => EntryAfter(events, n, k))
  }

  lemma {:induction false} MarkStays(entries: seq<Option<Result>>, i: nat, n: nat)
    requires i <= n < |entries| && entries[i].Some?
    requires forall j | i <= j < |entries| - 1 :: Remains(entries[j], entries[j + 1])
    ensures StillMarked(entries[i], entries[n])
    decreases n
  {
    if n > i {
      MarkStays(entries, i, n - 1);
      assert Remains(entries[n - 1], entries[n - 1 + 1]);
    }
  }

  lemma EntriesAt(events: seq<Event>, k: ObjectKey, n: nat)
    requires n <= |events|
    ensures |Entries(events, k)| == |events| + 1 && Entries(events, k)[n] == EntryAfter(events, n, k)
  {
  }

  lemma QuietRemains(events: seq<Event>, k: ObjectKey, j: nat)
    requires j < |events| && QuietAt(events, j, k)
    ensures |Entries(events, k)| == |events| + 1 && Remains(Entries(events, k)[j], Entries(events, k)[j + 1])
  {
    EntriesAt(events, k, j);
    EntriesAt(events, k, j + 1);
  }

  /** The mark of an entry is still that of its last news. */
  lemma MarkSince(events: seq<Event>, k: ObjectKey, i: nat, entries: seq<Option<Result>>)
    requires i < |events| && entries == Entries(events, k) && |entries| == |events| + 1 && entries[i + 1].Some?
    requires forall j: nat | i < j < |events| :: QuietAt(events, j, k)
    ensures StillMarked(entries[i + 1], entries[|events|])
  {
    forall j | i + 1 <= j < |entries| - 1 ensures Remains(entries[j], entries[j + 1]) { QuietRemains(events, k, j); }
    MarkStays(entries, i + 1, |events|);
  }

  lemma NewsNotes(store: Store, event: Event, k: ObjectKey)
    requires News(store, event, k)
    ensures Noted(Lookup(AfterEvent(store, event), k))
  {
  }

  lemma EntryAfterEvent(events: seq<Event>, k: ObjectKey, i: nat)
    requires i < |events|
    ensures EntryAfter(events, i + 1, k) == Lookup(AfterEvent(AfterEvents(events[..i]), events[i]), k)
  {
    assert events[..i + 1] == events[..i] + [events[i]];
    LastEvent(events[..i], events[i]);
  }

  lemma NewsIsNoted(events: seq<Event>, k: ObjectKey, i: nat)
    requires i < |events| && News(AfterEvents(events[..i]), events[i], k)
    ensures Noted(EntryAfter(events, i + 1, k)) && EntryAfter(events, i + 1, k) == Lookup(AfterEvent(AfterEvents(events[..i]), events[i]), k)
  {
    NewsNotes(AfterEvents(events[..i]), events[i], k);
    EntryAfterEvent(events, k, i);
  }

  /** Event `i` sent this very content with these labels. */
  ghost predicate SentAt(events: seq<Event>, k: ObjectKey, i: nat, desired: Result) {
    && i < |events| && Sends(AfterEvents(events[..i]), events[i], k)
    && EntryAfter(events, i + 1, k).Some? && Agrees(EntryAfter(events, i + 1, k).value, desired)
  }

  lemma HonestAgrees(sent: Option<Result>, now: Option<Result>, desired: Result)
    requires StillMarked(sent, now) && Unchanged(now, desired) && !Dishonest(sent)
    ensures Agrees(sent.value, desired)
  {
  }

  lemma ToldAtAgrees(events: seq<Event>, k: ObjectKey, i: nat, desired: Result)
    requires ToldAt(events, k, i) && Unchanged(EntryAfter(events, |events|, k), desired)
    ensures SentAt(events, k, i, desired)
  {
    NewsIsNoted(events, k, i);
    EntriesAt(events, k, i + 1);
    EntriesAt(events, k, |events|);
    MarkSince(events, k, i, Entries(events, k));
    HonestAgrees(EntryAfter(events, i + 1, k), EntryAfter(events, |events|, k), desired);
  }

  /** What was told of an entry that is taken for unchanged is the very finding. */
  lemma ToldAgrees(events: seq<Event>, k: ObjectKey, desired: Result)
    requires Told(events, k) && Unchanged(Lookup(AfterEvents(events), k), desired)
    ensures exists i: nat :: SentAt(events, k, i, desired)
  {
    var i: nat :| ToldAt(events, k, i);
    assert events[..|events|] == events;
    ToldAtAgrees(events, k, i, desired);
  }

  lemma ToldOrSlipped(events: seq<Event>, k: ObjectKey)
    ensures (exists i: nat :: LastNews(events, k, i)) <==> Told(events, k) || Slipped(events, k)
    ensures !(Told(events, k) && Slipped(events, k))
  {
    if i: nat :| LastNews(events, k, i) { assert ToldAt(events, k, i) || SlippedAt(events, k, i); }
    if i: nat, j: nat :| ToldAt(events, k, i) && SlippedAt(events, k, j) {
      OneLastNews(events, k, i, j);
      TellsOrSlips(AfterEvents(events[..i]), events[i], k);
    }
  }

  lemma TellsOrSlips(store: Store, event: Event, k: ObjectKey)
    ensures !(Tells(store, event, k) && Slips(store, event, k))
  {
  }

  /**
   * Notifications over any history, exactly. After whole passes, passes that failed midway and
   * deletions by any number of K8sGPT resources, a finding is sent by some later successful pass
   * unless its entry is taken for unchanged and there was news of the entry; and of that news the sink
   * was either told, with the very content and labels, or it slipped, never both.
   */
  lemma NotificationsIff(events: seq<Event>, findings: seq<Finding>, config: Config, k: ObjectKey)
    requires Own(k, findings, config) && config.sink.Enabled? && config.sink.endpoint != ""
    ensures (exists n :: SentInPass(AfterEvents(events), findings, config, k, n)) <==>
            !(Unchanged(Lookup(AfterEvents(events), k), Mapped(findings, config)[k.name]) && (Told(events, k) || Slipped(events, k)))
    ensures !(Told(events, k) && Slipped(events, k))
  {
    SentBySomePassIff(AfterEvents(events), findings, config, k);
    NotedIffNews(events, k);
    ToldOrSlipped(events, k);
  }

  /** No pass of the history failed. */
  predicate NothingInterrupted(events: seq<Event>) {
    forall i | 0 <= i < |events| :: !events[i].Interrupt?
  }

  /** Without failing passes nothing slips. */
  lemma UninterruptedTells(events: seq<Event>, k: ObjectKey)
    requires NothingInterrupted(events)
    ensures !Slipped(events, k)
  {
    if i: nat :| SlippedAt(events, k, i) {
      NewsIsNoted(events, k, i);
      NothingTornYet(events[..i + 1], k);
    }
  }

  lemma NothingTornYet(events: seq<Event>, k: ObjectKey)
    requires NothingInterrupted(events)
    ensures !Dishonest(Lookup(AfterEvents(events), k))
  {
    DishonestIffTorn(events, k);
  }

  // ---------------------------------------------------------------- a change that is never sent

  /** The history in which the update to another finding of the same name is done and its pass dies before the announcements. */
  function SilentHistory(f: Finding, g: Finding, config: Config): seq<Event> {
    SettledThen(f, config, Interrupt([g], config, Progress({}, {NameOf(g.spec)}, None, {})))
  }

  lemma NotedAfterTwo(desired: Result, sink: Sink)
    requires desired.status == NO_STATUS && sink.Enabled? && sink.endpoint != ""
    ensures Remembered(EvolvedTimes(None, desired, sink, 2), desired)
  {
    RememberedAfterTimes(None, desired, sink, 2);
  }

  lemma SettledIsNoted(f: Finding, config: Config)
    requires config.sink.Enabled? && config.sink.endpoint != ""
    ensures var k := ObjectKey(config.namespace, NameOf(f.spec));
            Remembered(Lookup(AfterPasses(map[], [f], config, 2), k), Desired(f, config))
  {
    MappedOne(f, config);
    OwnKeyAfterPasses(map[], [f], config, ObjectKey(config.namespace, NameOf(f.spec)), 2);
    NotedAfterTwo(Desired(f, config), config.sink);
  }

  lemma SilentUpdate(before: Result, f: Result, g: Result)
    requires Remembered(Some(before), f) && ContentOf(f.spec) != ContentOf(g.spec)
    ensures Remembered(Some(Upserted(Some(before), g)), g) && !SameMark(before, Upserted(Some(before), g))
  {
  }

  lemma SilentEvent(store: Store, f: Finding, g: Finding, config: Config)
    requires NameOf(f.spec) == NameOf(g.spec) && ContentOf(f.spec) != ContentOf(g.spec)
    requires Remembered(Lookup(store, ObjectKey(config.namespace, NameOf(g.spec))), Desired(f, config))
    ensures var k, event := ObjectKey(config.namespace, NameOf(g.spec)), SilentHistory(f, g, config)[2];
            Remembered(Lookup(AfterEvent(store, event), k), Desired(g, config)) && Slips(store, event, k)
  {
    var k, event := ObjectKey(config.namespace, NameOf(g.spec)), SilentHistory(f, g, config)[2];
    MappedOne(g, config);
    ProgressedAt(store, Mapped([g], config), config, event.how, k);
    AnnouncedEntry(store, event, k);
    SilentUpdate(store[k], Desired(f, config), Desired(g, config));
  }

  /**
   * From the empty store: a finding is settled and sent, changes its content under its name, and the pass
   * that updates the entry dies before its announcements. No later pass ever sends the change, and no
   * earlier one did.
   */
  lemma SilentChangeIsNeverSent(f: Finding, g: Finding, config: Config, n: nat)
    requires NameOf(f.spec) == NameOf(g.spec) && ContentOf(f.spec) != ContentOf(g.spec)
    requires config.sink.Enabled? && config.sink.endpoint != ""
    ensures var k, history := ObjectKey(config.namespace, NameOf(g.spec)), SilentHistory(f, g, config);
            !SentInPass(AfterEvents(history), [g], config, k, n) && Slipped(history, k) && !Told(history, k)
  {
    var k, history := ObjectKey(config.namespace, NameOf(g.spec)), SilentHistory(f, g, config);
    AfterSettledThen(f, config, history[2]);
    SettledIsNoted(f, config);
    SilentEvent(AfterPasses(map[], [f], config, 2), f, g, config);
    assert SlippedAt(history, k, 2);
    MappedOne(g, config);
    SentInPassIff(AfterEvents(history), [g], config, k, n);
    NotificationsIff(history, [g], config, k);
  }
}
