/**
 * The store of findings and its notifications: pkg/resources/results.go, analysis_step.go and
 * resultStatus_step.go. One pass maps the analysis to desired Results, deletes stale ones, creates or
 * updates the rest, and notifies the sink.
 */
module Results {
  import opened Strings
  import opened Gvk

  // ---------------------------------------------------------------- findings and stored Results

  datatype TargetReference = TargetReference(
    apiVersion: string, kind: string, namespace: string, name: string, uid: string, resourceVersion: string)

  datatype Failure = Failure(text: string, sensitive: seq<(string, string)>)

  datatype Spec = Spec(
    backend: string,
    kind: string,
    name: string,
    parent: string,
    target: Option<TargetReference>,
    errors: seq<Failure>,
    details: string)

  /** What a content hash is taken of; the hash itself is taken to be injective. */
  datatype Content = Content(kind: string, name: string, parent: string, target: Option<TargetReference>, texts: seq<string>)

  function Texts(errors: seq<Failure>): seq<string> {
    if errors == [] then [] else [errors[0].text] + Texts(errors[1..])
  }

  function ContentOf(spec: Spec): Content {
    Content(spec.kind, spec.name, spec.parent, spec.target, Texts(spec.errors))
  }

  datatype LifeCycle = Unset | UpdatedResult | NoOpResult

  datatype Status = Status(lifeCycle: LifeCycle, webhook: string, contentHash: Option<Content>)

  /** A Result whose status was never written. */
  const NO_STATUS := Status(Unset, "", None)

  datatype Result = Result(spec: Spec, labels: map<string, string>, status: Status)

  /** The K8sGPT resource, as far as the analysis reads it. */
  datatype Config = Config(name: string, namespace: string, backend: string, backstage: bool, sink: Sink)

  datatype Sink = Disabled | Enabled(endpoint: string)

  /** One analysed finding, with the Backstage label its object carries. */
  datatype Finding = Finding(spec: Spec, backstage: Option<string>)

  const NAME_LABEL := "k8sgpts.k8sgpt.ai/name"
  const NAMESPACE_LABEL := "k8sgpts.k8sgpt.ai/namespace"
  const BACKEND_LABEL := "k8sgpts.k8sgpt.ai/backend"
  const BACKSTAGE_LABEL := "backstage.io/kubernetes-id"

  type Store = map<ObjectKey, Result>

  /** The label selector of this K8sGPT resource. */
  predicate Selected(r: Result, config: Config) {
    && NAME_LABEL in r.labels && r.labels[NAME_LABEL] == config.name
    && NAMESPACE_LABEL in r.labels && r.labels[NAMESPACE_LABEL] == config.namespace
  }

  // ---------------------------------------------------------------- the desired Results

  /** The name of the Result for a finding: its dashes and slashes are dropped. */
  function NameOf(spec: Spec): string {
    ReplaceAll(ReplaceAll(spec.name, '-', ""), '/', "")
  }

  function LabelsOf(f: Finding, config: Config): map<string, string> {
    var labels := map[NAME_LABEL := config.name, NAMESPACE_LABEL := config.namespace, BACKEND_LABEL := config.backend];
    if config.backstage && f.backstage.Some? then labels[BACKSTAGE_LABEL := f.backstage.value] else labels
  }

  /** GetResult with the labels of MapResults. */
  function Desired(f: Finding, config: Config): Result {
    Result(f.spec.(backend := config.backend), LabelsOf(f, config), NO_STATUS)
  }

  /** The desired Results by name; of several findings with one name the last wins. */
  function Mapped(findings: seq<Finding>, config: Config): map<string, Result> {
    if findings == [] then map[]
    else
      var last := findings[|findings| - 1];
      Mapped(findings[..|findings| - 1], config)[NameOf(last.spec) := Desired(last, config)]
  }

  /** results.go's MapResults. */
  method MapResults(findings: seq<Finding>, config: Config) returns (raw: map<string, Result>)
    ensures raw == Mapped(findings, config)
  {
    raw := map[];
    for n := 0 to |findings|
      invariant raw == Mapped(findings[..n], config)
    {
      var finding := findings[n];
      var labels := map[NAME_LABEL := config.name, NAMESPACE_LABEL := config.namespace, BACKEND_LABEL := config.backend];
      if config.backstage && finding.backstage.Some? {
        labels := labels[BACKSTAGE_LABEL := finding.backstage.value];
      }
      raw := raw[NameOf(finding.spec) := Result(finding.spec.(backend := config.backend), labels, NO_STATUS)];
      assert findings[..n + 1][..n] == findings[..n];
    }
    assert findings[..|findings|] == findings;
  }

  /** The last finding with this name, if there is one, decides. */
  lemma {:induction false} MappedIsLast(findings: seq<Finding>, config: Config, name: string)
    ensures name in Mapped(findings, config) <==> exists i | 0 <= i < |findings| :: NameOf(findings[i].spec) == name
    ensures name in Mapped(findings, config) ==>
              exists i | 0 <= i < |findings| ::
                && NameOf(findings[i].spec) == name && Mapped(findings, config)[name] == Desired(findings[i], config)
                && forall j | i < j < |findings| :: NameOf(findings[j].spec) != name
  {
    if findings != [] {
      var n := |findings| - 1;
      MappedIsLast(findings[..n], config, name);
      assert forall i | 0 <= i < n :: findings[..n][i] == findings[i];
      if NameOf(findings[n].spec) == name {
        assert Mapped(findings, config)[name] == Desired(findings[n], config);
      } else if name in Mapped(findings[..n], config) {
        var i :| 0 <= i < n && NameOf(findings[..n][i].spec) == name
                 && Mapped(findings[..n], config)[name] == Desired(findings[..n][i], config)
                 && forall j | i < j < n :: NameOf(findings[..n][j].spec) != name;
        assert NameOf(findings[i].spec) == name;
        forall j | i < j < |findings| ensures NameOf(findings[j].spec) != name {
          if j < n { assert findings[..n][j] == findings[j]; }
        }
      }
    }
  }

  lemma MappedIsSelected(findings: seq<Finding>, config: Config, name: string)
    requires name in Mapped(findings, config)
    ensures Selected(Mapped(findings, config)[name], config) && Mapped(findings, config)[name].status == NO_STATUS
  {
    MappedIsLast(findings, config, name);
  }

  /** Names are not injective: a dash in place of a slash names another object and the same Result. */
  lemma NamesCollide(a: string, b: string, f: Spec, g: Spec)
    requires f.name == a + (['/'] + b) && g.name == a + (['-'] + b)
    ensures f.name != g.name && NameOf(f) == NameOf(g)
  {
    assert f.name[|a|] == '/' && g.name[|a|] == '-';
    var x, y := ReplaceAll(a, '-', ""), ReplaceAll(b, '-', "");
    ReplaceAllAround(a, '/', b, '-');
    ReplaceAllAround(a, '-', b, '-');
    ReplaceAllAround(x, '/', y, '/');
    ReplaceAllConcat(x, y, '/', "");
  }

  /** Removing a character from both sides of one character. */
  lemma ReplaceAllAround(a: string, c: char, b: string, d: char)
    ensures ReplaceAll(a + ([c] + b), d, "") ==
            if c == d then ReplaceAll(a, d, "") + ReplaceAll(b, d, "") else ReplaceAll(a, d, "") + ([c] + ReplaceAll(b, d, ""))
  {
    ReplaceAllConcat(a, [c] + b, d, "");
    Tail(c, b);
    assert "" + ReplaceAll(b, d, "") == ReplaceAll(b, d, "");
  }

  // ---------------------------------------------------------------- told on the fields

  /** Everything of a name but its dashes and slashes. */
  function Kept(name: string): string {
    if name == "" then "" else (if name[0] == '-' || name[0] == '/' then "" else [name[0]]) + Kept(name[1..])
  }

  lemma {:induction false} DroppedTwice(s: string)
    ensures ReplaceAll(ReplaceAll(s, '-', ""), '/', "") == Kept(s)
  {
    if s != "" {
      DroppedTwice(s[1..]);
      var head := if s[0] == '-' then "" else [s[0]];
      assert ReplaceAll(s, '-', "") == head + ReplaceAll(s[1..], '-', "");
      ReplaceAllConcat(head, ReplaceAll(s[1..], '-', ""), '/', "");
      if s[0] == '-' { assert "" + Kept(s[1..]) == Kept(s[1..]); } else { assert [s[0]][1..] == ""; }
    }
  }

  /** The hash covers kind, name, parent, target and the texts of the errors, and nothing else. */
  lemma {:induction false} SameContentIff(a: Spec, b: Spec)
    ensures ContentOf(a) == ContentOf(b) <==>
            && a.kind == b.kind && a.name == b.name && a.parent == b.parent && a.target == b.target
            && |a.errors| == |b.errors| && forall i | 0 <= i < |a.errors| :: a.errors[i].text == b.errors[i].text
  {
    TextsAt(a.errors);
    TextsAt(b.errors);
    if ContentOf(a) == ContentOf(b) {
      forall i | 0 <= i < |a.errors| ensures a.errors[i].text == b.errors[i].text {
        assert Texts(a.errors)[i] == Texts(b.errors)[i];
      }
    }
  }

  lemma {:induction false} TextsAt(errors: seq<Failure>)
    ensures |Texts(errors)| == |errors| && forall i | 0 <= i < |errors| :: Texts(errors)[i] == errors[i].text
  {
    if errors != [] { TextsAt(errors[1..]); }
  }

  /** The Result of a finding: its specification under this backend, and these labels. */
  predicate ResultOf(r: Result, f: Finding, config: Config) {
    && r.spec == f.spec.(backend := config.backend) && r.status == Status(Unset, "", None)
    && r.labels.Keys == {NAME_LABEL, NAMESPACE_LABEL, BACKEND_LABEL} +
                        (if config.backstage && f.backstage.Some? then {BACKSTAGE_LABEL} else {})
    && r.labels[NAME_LABEL] == config.name && r.labels[NAMESPACE_LABEL] == config.namespace
    && r.labels[BACKEND_LABEL] == config.backend
    && (config.backstage && f.backstage.Some? ==> r.labels[BACKSTAGE_LABEL] == f.backstage.value)
  }

  lemma {:induction false} LabelsDiffer()
    ensures NAME_LABEL != NAMESPACE_LABEL && NAME_LABEL != BACKEND_LABEL && NAME_LABEL != BACKSTAGE_LABEL
    ensures NAMESPACE_LABEL != BACKEND_LABEL && NAMESPACE_LABEL != BACKSTAGE_LABEL && BACKEND_LABEL != BACKSTAGE_LABEL
  {
    assert NAME_LABEL[|NAME_LABEL| - 1] == 'e' && NAMESPACE_LABEL[|NAMESPACE_LABEL| - 1] == 'e';
    assert |NAME_LABEL| != |NAMESPACE_LABEL|;
    assert BACKEND_LABEL[|BACKEND_LABEL| - 1] == 'd' && BACKSTAGE_LABEL[0] == 'b' && BACKEND_LABEL[0] == 'k';
    assert NAME_LABEL[0] == 'k' && NAMESPACE_LABEL[0] == 'k';
  }

  lemma {:induction false} DesiredIs(f: Finding, config: Config)
    ensures ResultOf(Desired(f, config), f, config)
  {
    LabelsDiffer();
  }

  /** Every desired Result is that of the last finding whose name, without dashes and slashes, it bears. */
  lemma {:induction false} MappedAre(findings: seq<Finding>, config: Config, name: string)
    ensures name in Mapped(findings, config) ==>
              exists i | 0 <= i < |findings| ::
                && Kept(findings[i].spec.name) == name && ResultOf(Mapped(findings, config)[name], findings[i], config)
                && forall j | i < j < |findings| :: Kept(findings[j].spec.name) != name
    ensures forall i | 0 <= i < |findings| :: Kept(findings[i].spec.name) in Mapped(findings, config)
  {
    MappedIsLast(findings, config, name);
    forall f: Finding { DroppedTwice(f.spec.name); }
    if name in Mapped(findings, config) {
      var i :| 0 <= i < |findings| && NameOf(findings[i].spec) == name
               && Mapped(findings, config)[name] == Desired(findings[i], config)
               && forall j | i < j < |findings| :: NameOf(findings[j].spec) != name;
      DesiredIs(findings[i], config);
    }
    forall i | 0 <= i < |findings| ensures Kept(findings[i].spec.name) in Mapped(findings, config) {
      MappedIsLast(findings, config, Kept(findings[i].spec.name));
    }
  }

  // ---------------------------------------------------------------- create or update

  /** The stored entry, if any, already has the desired content and labels. */
  predicate Unchanged(existing: Option<Result>, desired: Result) {
    && existing.Some? && existing.value.status.contentHash == Some(ContentOf(desired.spec))
    && existing.value.labels == desired.labels
  }

  /** CreateOrUpdateResult on one entry. A create drops the status, which is a subresource. */
  function Upserted(existing: Option<Result>, desired: Result): Result {
    match existing
    case None => desired.(status := NO_STATUS)
    case Some(e) =>
      if Unchanged(existing, desired) then e.(status := e.status.(lifeCycle := NoOpResult))
      else Result(desired.spec, desired.labels, Status(UpdatedResult, e.status.webhook, Some(ContentOf(desired.spec))))
  }

  /** How many writes CreateOrUpdateResult makes: an update writes the specification, then the status. */
  function WritesOf(existing: Option<Result>, desired: Result): nat {
    if existing.None? || Unchanged(existing, desired) then 1 else 2
  }

  /** An entry whose specification and labels were written and whose status was not. */
  function Torn(existing: Result, desired: Result): Result {
    Result(desired.spec, desired.labels, existing.status)
  }

  /** The entry when the server takes only the first `writes` writes. */
  function Written(existing: Option<Result>, desired: Result, writes: nat): Option<Result> {
    if writes >= WritesOf(existing, desired) then Some(Upserted(existing, desired))
    else if writes == 1 then Some(Torn(existing.value, desired))
    else existing
  }

  function Lookup(store: Store, k: ObjectKey): Option<Result> {
    if k in store then Some(store[k]) else None
  }

  // ---------------------------------------------------------------- notification

  /** Whether processLatestResults emits this Result. */
  predicate Emits(r: Result, sink: Sink) {
    sink.Enabled? && (r.status.lifeCycle != NoOpResult || r.status.webhook == "")
  }

  /** The Result after processLatestResults. */
  function Notified(r: Result, sink: Sink): Result {
    if sink.Disabled? then r.(status := r.status.(webhook := ""))
    else if Emits(r, sink) then r.(status := r.status.(webhook := sink.endpoint))
    else r
  }

  // ---------------------------------------------------------------- one pass on the store

  /** Stale: selected by this resource, under a name the analysis no longer gives. */
  predicate Stale(k: ObjectKey, r: Result, raw: map<string, Result>, config: Config) {
    Selected(r, config) && k.name !in raw
  }

  function StaleKeys(store: Store, raw: map<string, Result>, config: Config): set<ObjectKey> {
    set k | k in store && Stale(k, store[k], raw, config)
  }

  function SelectedKeys(store: Store, config: Config): set<ObjectKey> {
    set k | k in store && Selected(store[k], config)
  }

  function Keys(namespace: string, names: set<string>): set<ObjectKey> {
    set n | n in names :: ObjectKey(namespace, n)
  }

  /** The desired Results under some of their names. */
  function Only(raw: map<string, Result>, names: set<string>): map<string, Result> {
    map n | n in raw && n in names :: raw[n]
  }

  function Processed(store: Store, raw: map<string, Result>, namespace: string): Store {
    map k | k in store.Keys + Keys(namespace, raw.Keys) ::
      if k.namespace == namespace && k.name in raw then Upserted(Lookup(store, k), raw[k.name]) else store[k]
  }

  /** The store after a torn update of one entry, if an update of it is due at all. */
  function WithTorn(store: Store, k: ObjectKey, desired: Result): Store {
    if k in store && !Unchanged(Some(store[k]), desired) then store[k := Torn(store[k], desired)] else store
  }

  function Announced(store: Store, keys: set<ObjectKey>, sink: Sink): Store {
    map k | k in store :: if k in keys then Notified(store[k], sink) else store[k]
  }

  /** The Results a notification round sends. */
  function Emitted(store: Store, config: Config): set<ObjectKey> {
    set k | k in store && Selected(store[k], config) && Emits(store[k], config.sink)
  }

  // ---------------------------------------------------------------- whole and interrupted passes

  function Analysed(store: Store, findings: seq<Finding>, config: Config): Store {
    var raw := Mapped(findings, config);
    Processed(store - StaleKeys(store, raw, config), raw, config.namespace)
  }

  function AfterPass(store: Store, findings: seq<Finding>, config: Config): Store {
    var analysed := Analysed(store, findings, config);
    Announced(analysed, SelectedKeys(analysed, config), config.sink)
  }

  function SentBy(store: Store, findings: seq<Finding>, config: Config): set<ObjectKey> {
    Emitted(Analysed(store, findings, config), config)
  }

  /**
   * How far a pass came before a call failed or the process died: the stale Results it had deleted, the
   * names it had created or updated, the name whose update was torn, if any, and the Results it had
   * announced.
   */
  datatype Progress = Progress(removed: set<ObjectKey>, done: set<string>, torn: Option<string>, announced: set<ObjectKey>)

  /** The name whose update was torn is one of the analysis and was not done. */
  predicate TornName(how: Progress, raw: map<string, Result>, name: string) {
    how.torn == Some(name) && name in raw && name !in how.done
  }

  /** The store of an unfinished pass before its announcements. */
  function Progressed(store: Store, raw: map<string, Result>, config: Config, how: Progress): Store {
    var cleaned := store - (how.removed * StaleKeys(store, raw, config));
    var processed := Processed(cleaned, Only(raw, how.done), config.namespace);
    if how.torn.Some? && TornName(how, raw, how.torn.value)
    then WithTorn(processed, ObjectKey(config.namespace, how.torn.value), raw[how.torn.value]) else processed
  }

  function Interrupted(store: Store, raw: map<string, Result>, config: Config, how: Progress): Store {
    var progressed := Progressed(store, raw, config, how);
    Announced(progressed, how.announced * SelectedKeys(progressed, config), config.sink)
  }

  /** What processLatestResults does to one Result before it writes its status. */
  method Notify(result: Result, sink: Sink) returns (res: Result, emit: bool)
    ensures emit == Emits(result, sink) && res == Notified(result, sink)
    ensures emit <==> sink.Enabled? && (result.status.lifeCycle != NoOpResult || result.status.webhook == "")
    ensures res == result.(status := result.status.(webhook := res.status.webhook))
    ensures res.status.webhook == if sink.Disabled? then "" else if emit then sink.endpoint else result.status.webhook
  {
    res, emit := result, false;
    if sink.Enabled? {
      if res.status.lifeCycle != NoOpResult || res.status.webhook == "" {
        emit := true;
        res := res.(status := res.status.(webhook := sink.endpoint));
      }
    } else {
      res := res.(status := res.status.(webhook := ""));
    }
  }

  class ResultStore {
    var results: Store

    constructor (results: Store)
      ensures this.results == results
    {
      this.results := results;
    }

    /** List with the labels of this K8sGPT resource. */
    method List(config: Config) returns (keys: set<ObjectKey>)
      ensures keys == set k | k in results && Selected(results[k], config)
    {
      keys := set k | k in results && Selected(results[k], config);
    }

    /** analysis_step.go's cleanUpStaleResults, while the server takes writes. */
    method CleanUpStaleResults(raw: map<string, Result>, config: Config, writes: nat)
      returns (ok: bool, left: nat, ghost removed: set<ObjectKey>)
      modifies this
      ensures results == old(results) - removed && removed <= StaleKeys(old(results), raw, config)
      ensures ok ==> removed == StaleKeys(old(results), raw, config)
      ensures writes >= |SelectedKeys(old(results), config)| ==> ok && left >= writes - |SelectedKeys(old(results), config)|
    {
      var items := List(config);
      ghost var all, stale := items, StaleKeys(results, raw, config);
      left, removed := writes, {};
      while items != {}
        invariant items <= all && removed == stale - items && results == old(results) - removed
        invariant writes >= |all| ==> left >= |items| + (writes - |all|)
        decreases |items|
      {
        var item :| item in items;
        StaleOneMore(old(results), raw, config, items, item);
        if item.name !in raw {
          if left == 0 {
            return false, 0, removed;
          }
          DropOneMore(old(results), removed, item);
          results := results - {item};
          left, removed := left - 1, removed + {item};
        }
        items := items - {item};
      }
      ok := true;
    }

    /** results.go's CreateOrUpdateResult without a concurrent writer, while the server takes writes. */
    method CreateOrUpdateResult(k: ObjectKey, desired: Result, writes: nat) returns (ok: bool, left: nat)
      modifies this
      ensures Lookup(results, k) == Written(Lookup(old(results), k), desired, writes)
      ensures results - {k} == old(results) - {k}
      ensures ok == (writes >= WritesOf(Lookup(old(results), k), desired))
      ensures left == if ok then writes - WritesOf(Lookup(old(results), k), desired) else 0
    {
      if writes == 0 {
        return false, 0;
      }
      if k !in results {
        results := results[k := desired.(status := NO_STATUS)];
        return true, writes - 1;
      }
      var existing := results[k];
      if existing.status.contentHash == Some(ContentOf(desired.spec)) && desired.labels == existing.labels {
        results := results[k := existing.(status := existing.status.(lifeCycle := NoOpResult))];
        return true, writes - 1;
      }
      existing := existing.(spec := desired.spec, labels := desired.labels);
      results := results[k := existing];
      if writes == 1 {
        return false, 0;
      }
      existing := existing.(status := existing.status.(lifeCycle := UpdatedResult, contentHash := Some(ContentOf(desired.spec))));
      results := results[k := existing];
      return true, writes - 2;
    }

    /** analysis_step.go's processRawResults, in whatever order the map is iterated, until a write fails. */
    method ProcessRawResults(raw: map<string, Result>, namespace: string, writes: nat)
      returns (ok: bool, left: nat, ghost done: set<string>, ghost torn: Option<string>)
      modifies this
      ensures done <= raw.Keys && (torn.Some? ==> torn.value in raw.Keys - done)
      ensures var processed := Processed(old(results), Only(raw, done), namespace);
              results == if torn.None? then processed
                         else WithTorn(processed, ObjectKey(namespace, torn.value), raw[torn.value])
      ensures ok ==> done == raw.Keys && torn.None?
      ensures writes >= 2 * |raw.Keys| ==> ok
    {
      var names := raw.Keys;
      ok, left, done, torn := true, writes, {}, None;
      ProcessedNothing(results, raw, namespace);
      while names != {}
        invariant names <= raw.Keys && done == raw.Keys - names && torn.None?
        invariant writes >= 2 * |raw.Keys| ==> left >= 2 * |names|
        invariant results == Processed(old(results), Only(raw, done), namespace)
        decreases |names|
      {
        var name :| name in names;
        ghost var before, had := results, left;
        ok, left := CreateOrUpdateResult(ObjectKey(namespace, name), raw[name], left);
        if !ok {
          OneWritten(before, results, ObjectKey(namespace, name), raw[name], had);
          torn := if had == 1 then Some(name) else None;
          return;
        }
        OneWritten(before, results, ObjectKey(namespace, name), raw[name], had);
        ProcessedOneMore(old(results), raw, done, namespace, name);
        names, done := names - {name}, done + {name};
      }
      assert Only(raw, done) == raw;
      ok := true;
    }

    /**
     * Emits one listed Result if it is due and writes its status; false when a call fails, before or
     * after the emission.
     */
    method Announce(item: ObjectKey, sink: Sink, calls: nat) returns (ok: bool, emitted: bool, left: nat)
      requires item in results
      modifies this
      ensures emitted ==> Emits(old(results)[item], sink)
      ensures ok ==> (emitted <==> Emits(old(results)[item], sink))
      ensures results == if ok then old(results)[item := Notified(old(results)[item], sink)] else old(results)
      ensures (calls >= 2 ==> ok) && (ok ==> left >= calls - 2)
    {
      var res, emit := Notify(results[item], sink);
      emitted, left := false, calls;
      if emit {
        if left == 0 {
          return false, false, 0;
        }
        emitted, left := true, left - 1;
      }
      if left == 0 {
        return false, emitted, 0;
      }
      results := results[item := res];
      ok, left := true, left - 1;
    }

    /**
     * resultStatus_step.go's processLatestResults, until an emission or a status write fails; `sent` is
     * what the sink received.
     */
    method ProcessLatestResults(config: Config, calls: nat)
      returns (ok: bool, sent: set<ObjectKey>, ghost announced: set<ObjectKey>)
      modifies this
      ensures announced <= SelectedKeys(old(results), config) && sent <= Emitted(old(results), config)
      ensures results == Announced(old(results), announced, config.sink)
      ensures ok ==> announced == SelectedKeys(old(results), config) && sent == Emitted(old(results), config)
      ensures calls >= 2 * |SelectedKeys(old(results), config)| ==> ok
    {
      var items := List(config);
      ghost var was, all := results, items;
      var left: nat := calls;
      sent, announced := {}, {};
      while items != {}
        invariant items <= all && Announcing(was, results, config, items, sent)
        invariant calls >= 2 * |all| ==> left >= 2 * |items|
        decreases |items|
      {
        var item :| item in items;
        AnnounceStep(was, results, config, items, sent, item);
        var emitted;
        ok, emitted, left := Announce(item, config.sink, left);
        if emitted {
          sent := sent + {item};
        }
        if !ok {
          announced := all - items;
          return;
        }
        items := items - {item};
      }
      ok, announced := true, all;
    }

    /**
     * One pass of the analysis and result steps. When no call fails it is the whole pass; otherwise the
     * store is left at some point of its progress.
     */
    method Pass(findings: seq<Finding>, config: Config, writes: nat, calls: nat)
      returns (ok: bool, sent: set<ObjectKey>, ghost how: Progress)
      modifies this
      ensures ok ==> results == AfterPass(old(results), findings, config) && sent == SentBy(old(results), findings, config)
      ensures !ok ==> results == Interrupted(old(results), Mapped(findings, config), config, how)
      ensures Enough(old(results), findings, config, writes, calls) ==> ok
    {
      var raw := MapResults(findings, config);
      var left;
      ghost var removed, done, torn, announced;
      ok, left, removed := CleanUpStaleResults(raw, config, writes);
      sent, how := {}, Progress(removed, {}, None, {});
      if !ok {
        ProcessedNothing(results, raw, config.namespace);
        AnnouncedNothing(results, config.sink);
        StaleOnly(removed, StaleKeys(old(results), raw, config));
        return;
      }
      ok, left, done, torn := ProcessRawResults(raw, config.namespace, left);
      how := Progress(removed, done, torn, {});
      StaleOnly(removed, StaleKeys(old(results), raw, config));
      if !ok {
        AnnouncedNothing(results, config.sink);
        return;
      }
      assert Only(raw, done) == raw;
      ghost var analysed := results;
      ok, sent, announced := ProcessLatestResults(config, calls);
      how := Progress(removed, done, torn, announced);
      StaleOnly(announced, SelectedKeys(analysed, config));
    }
  }

  lemma StaleOnly(some: set<ObjectKey>, all: set<ObjectKey>)
    requires some <= all
    ensures some * all == some
  {
  }

  /** Calls the server takes in a pass that does not fail. */
  predicate Enough(store: Store, findings: seq<Finding>, config: Config, writes: nat, calls: nat) {
    && writes >= |SelectedKeys(store, config)| + 2 * |Mapped(findings, config).Keys|
    && calls >= 2 * |SelectedKeys(Analysed(store, findings, config), config)|
  }

  lemma StaleOneMore(store: Store, raw: map<string, Result>, config: Config, items: set<ObjectKey>, item: ObjectKey)
    requires items <= SelectedKeys(store, config) && item in items
    ensures StaleKeys(store, raw, config) - (items - {item}) ==
            (StaleKeys(store, raw, config) - items) + if item.name in raw then {} else {item}
  {
  }

  /** The notification round with these Results still to come. */
  ghost predicate Announcing(was: Store, now: Store, config: Config, items: set<ObjectKey>, sent: set<ObjectKey>) {
    && items <= SelectedKeys(was, config)
    && now == Announced(was, SelectedKeys(was, config) - items, config.sink)
    && sent == Emitted(was, config) - items
  }

  lemma AnnounceStep(was: Store, now: Store, config: Config, items: set<ObjectKey>, sent: set<ObjectKey>, item: ObjectKey)
    requires Announcing(was, now, config, items, sent) && item in items
    ensures item in now && now[item] == was[item]
    ensures Announcing(was, now[item := Notified(was[item], config.sink)], config, items - {item},
                       sent + if Emits(was[item], config.sink) then {item} else {})
  {
    var all := SelectedKeys(was, config);
    AnnouncedOneMore(was, all - items, item, config.sink);
    assert all - (items - {item}) == (all - items) + {item};
  }

  lemma ProcessedNothing(store: Store, raw: map<string, Result>, namespace: string)
    ensures Processed(store, Only(raw, {}), namespace) == store
  {
    assert Only(raw, {}) == map[];
  }

  lemma AnnouncedNothing(store: Store, sink: Sink)
    ensures forall keys :: Announced(store, {} * keys, sink) == store
  {
  }

  /** What CreateOrUpdateResult leaves at its key is all that changed. */
  lemma OneWritten(before: Store, after: Store, k: ObjectKey, desired: Result, writes: nat)
    requires Lookup(after, k) == Written(Lookup(before, k), desired, writes) && after - {k} == before - {k}
    ensures writes >= WritesOf(Lookup(before, k), desired) ==> after == before[k := Upserted(Lookup(before, k), desired)]
    ensures writes < WritesOf(Lookup(before, k), desired) ==>
              after == if writes == 1 then WithTorn(before, k, desired) else before
  {
    assert forall j | j != k :: (j in after <==> j in after - {k}) && (j in before <==> j in before - {k});
    assert forall j | j != k && j in after :: after[j] == (after - {k})[j];
    assert forall j | j != k && j in before :: before[j] == (before - {k})[j];
  }

  lemma OnlyOneMore(raw: map<string, Result>, done: set<string>, namespace: string, name: string)
    requires name in raw && name !in done
    ensures Only(raw, done + {name}) == Only(raw, done)[name := raw[name]] && name !in Only(raw, done)
    ensures Keys(namespace, Only(raw, done + {name}).Keys) == Keys(namespace, Only(raw, done).Keys) + {ObjectKey(namespace, name)}
  {
    assert Only(raw, done + {name}) == Only(raw, done)[name := raw[name]];
    assert Only(raw, done + {name}).Keys == Only(raw, done).Keys + {name};
  }

  lemma ProcessedWithOneMore(store: Store, some: map<string, Result>, namespace: string, name: string, desired: Result)
    requires name !in some
    requires Keys(namespace, some[name := desired].Keys) == Keys(namespace, some.Keys) + {ObjectKey(namespace, name)}
    ensures var k := ObjectKey(namespace, name);
            Processed(store, some, namespace)[k := Upserted(Lookup(store, k), desired)] ==
            Processed(store, some[name := desired], namespace)
  {
  }

  lemma ProcessedOneMore(store: Store, raw: map<string, Result>, done: set<string>, namespace: string, name: string)
    requires name in raw && name !in done
    ensures var k := ObjectKey(namespace, name);
            var before := Processed(store, Only(raw, done), namespace);
            before[k := Upserted(Lookup(before, k), raw[name])] == Processed(store, Only(raw, done + {name}), namespace)
  {
    var k := ObjectKey(namespace, name);
    OnlyOneMore(raw, done, namespace, name);
    assert Lookup(Processed(store, Only(raw, done), namespace), k) == Lookup(store, k);
    ProcessedWithOneMore(store, Only(raw, done), namespace, name, raw[name]);
  }

  lemma DropOneMore(store: Store, removed: set<ObjectKey>, k: ObjectKey)
    ensures store - removed - {k} == store - (removed + {k})
  {
  }

  lemma AnnouncedOneMore(store: Store, announced: set<ObjectKey>, k: ObjectKey, sink: Sink)
    requires k in store && k !in announced
    ensures Announced(store, announced, sink)[k] == store[k]
    ensures Announced(store, announced, sink)[k := Notified(store[k], sink)] == Announced(store, announced + {k}, sink)
  {
  }
}
