/**
 CollectAndNotifyIncidents: the paged incident stream, one run over it, and the flat
 reading of that run.
 */
module IncidentRun {
  import opened Wrappers
  import opened Keys
  import opened Severities
  import opened Repositories

  datatype Incident = Incident(record: Record, severity: Severity)

  /** A page as served; an item that is not a JSON object is None. */
  type IncidentPage = seq<Option<Incident>>

  function Objects(items: seq<Option<Incident>>): seq<Incident> {
    if items == [] then [] else (if items[0].Some? then [items[0].value] else []) + Objects(items[1..])
  }

  lemma {:induction false} ObjectsAppend(a: seq<Option<Incident>>, b: seq<Option<Incident>>)
    ensures Objects(a + b) == Objects(a) + Objects(b)
  {
    if a == [] {
      assert a + b == b;
    } else {
      ConsAppend(a, b);
      ObjectsAppend(a[1..], b);
      Assoc(if a[0].Some? then [a[0].value] else [], Objects(a[1..]), Objects(b));
    }
  }

  /** Exactly the items that are objects are kept: item i as the one after all those before it. */
  lemma ObjectsExactly(items: seq<Option<Incident>>, i: nat)
    requires i < |items|
    ensures var k := |Objects(items[..i])|;
            && |Objects(items[..i + 1])| == (if items[i] == None then k else k + 1)
            && (items[i] != None ==> k < |Objects(items)| && Objects(items)[k] == items[i].value)
  {
    assert items[..i + 1] == items[..i] + [items[i]] && [items[i]][1..] == [];
    ObjectsAppend(items[..i], [items[i]]);
    assert items == items[..i + 1] + items[i + 1..];
    ObjectsAppend(items[..i + 1], items[i + 1..]);
  }

  // ------------------------------------------------------------- the stream

  /** The generator iter_incidents: the pages still to fetch and what is left of the current one. */
  class IncidentStream {
    var pages: seq<IncidentPage>
    var current: IncidentPage
    ghost var raised: nat

    constructor (pages: seq<IncidentPage>)
      ensures Remaining() == Objects(Flatten(pages)) && raised == 0
    {
      this.pages, current, raised := pages, [], 0;
      new;
      assert current + Flatten(pages) == Flatten(pages);
    }

    /** All incidents still to come, page boundaries forgotten. */
    ghost function Remaining(): seq<Incident>
      reads this
    {
      Objects(current + Flatten(pages))
    }

    method Next() returns (ok: bool, incident: Option<Incident>)
      modifies this
      ensures raised == Counting(old(raised), ok)
      ensures ok && incident.None? ==> old(Remaining()) == []
      ensures ok && incident.Some? ==> old(Remaining()) == [incident.value] + Remaining()
    {
      ok, incident := true, None;
      while true
        invariant ok && incident == None && Remaining() == old(Remaining()) && raised == old(raised)
        decreases |pages|, |current|
      {
        if current != [] {
          var item := current[0];
          ConsAppend(current, Flatten(pages));
          current := current[1..];
          if item.Some? {
            incident := item;
            return;
          }
        } else if pages != [] {
          ok := *;
          raised := Counting(raised, ok);
          if !ok { return; }
          current, pages := pages[0], pages[1..];
          assert [] + (current + Flatten(pages)) == current + Flatten(pages);
        } else {
          return;
        }
      }
    }
  }

  // ---------------------------------------------------------------- one run

  datatype Policy = Policy(limit: int, minSeverity: Severity, destination: string)

  datatype Totals = Totals(collected: int, notified: int, duplicates: int, observed: set<string>,
                           sent: seq<Notification>)

  const NONE_YET := Totals(0, 0, 0, {}, [])

  function Note(policy: Policy, i: Incident): Notification {
    NoteOf(IncidentKind, policy.destination, i.record)
  }

  /** The loop body, up to its test of the limit. */
  function Visit(policy: Policy, delivered: set<Key>, t: Totals, i: Incident): Totals {
    var t := t.(collected := t.collected + 1, observed := t.observed + i.record.Keys);
    if !i.severity.MeetsThreshold(policy.minSeverity) then t
    else if Note(policy, i).key in delivered + KeysOf(t.sent) then t.(duplicates := t.duplicates + 1)
    else t.(notified := t.notified + 1, sent := t.sent + [Note(policy, i)])
  }

  function Collect(policy: Policy, delivered: set<Key>, t: Totals, stream: seq<Incident>): Totals
    decreases |stream|
  {
    if stream == [] then t
    else
      var t' := Visit(policy, delivered, t, stream[0]);
      if t'.collected >= policy.limit then t' else Collect(policy, delivered, t', stream[1..])
  }

  function ResultOf(t: Totals): CollectionResult {
    CollectionResult(t.collected, t.notified, t.duplicates, 0, Max(t.collected - t.notified - 0 - t.duplicates, 0),
                     t.observed)
  }

  // ----------------------------------------------------------- the flat reading

  function Notifiable(policy: Policy, incidents: seq<Incident>): seq<Notification> {
    if incidents == [] then []
    else (if incidents[0].severity.MeetsThreshold(policy.minSeverity) then [Note(policy, incidents[0])] else [])
         + Notifiable(policy, incidents[1..])
  }

  function Below(policy: Policy, incidents: seq<Incident>): nat {
    if incidents == [] then 0
    else (if incidents[0].severity.MeetsThreshold(policy.minSeverity) then 0 else 1) + Below(policy, incidents[1..])
  }

  /** What a run reads from the stream when it has read `already` before. */
  function ReadFrom(policy: Policy, already: int, stream: seq<Incident>): seq<Incident> {
    Upto(stream, Max(policy.limit - already, 1))
  }

  lemma {:induction false} CollectReads(policy: Policy, delivered: set<Key>, t: Totals, stream: seq<Incident>)
    ensures var r := Collect(policy, delivered, t, stream);
            var read := ReadFrom(policy, t.collected, stream);
            && r.sent == t.sent + FirstOccurrences(delivered + KeysOf(t.sent), Notifiable(policy, read))
            && r.collected == t.collected + |read|
            && r.notified - t.notified == |r.sent| - |t.sent|
            && (r.notified - t.notified) + (r.duplicates - t.duplicates) == |Notifiable(policy, read)| ==
               |read| - Below(policy, read)
    decreases |stream|
  {
    if stream != [] {
      var head, tail := stream[0], stream[1..];
      var m := Visit(policy, delivered, t, head);
      var read := ReadFrom(policy, t.collected, stream);
      if m.collected >= policy.limit {
        assert read == [head] && read[1..] == [];
        VisitReads(policy, delivered, t, head, []);
      } else {
        CollectReads(policy, delivered, m, tail);
        var rest := ReadFrom(policy, m.collected, tail);
        assert read == [head] + rest && read[1..] == rest;
        VisitReads(policy, delivered, t, head, Notifiable(policy, rest));
      }
    }
  }

  lemma VisitReads(policy: Policy, delivered: set<Key>, t: Totals, i: Incident, rest: seq<Notification>)
    ensures var m := Visit(policy, delivered, t, i);
            var notes := (if i.severity.MeetsThreshold(policy.minSeverity) then [Note(policy, i)] else []) + rest;
            t.sent + FirstOccurrences(delivered + KeysOf(t.sent), notes) ==
            m.sent + FirstOccurrences(delivered + KeysOf(m.sent), rest)
  {
    var n := Note(policy, i);
    if i.severity.MeetsThreshold(policy.minSeverity) {
      assert ([n] + rest)[1..] == rest;
      KeysOfAppend(t.sent, [n]);
      assert delivered + KeysOf(t.sent + [n]) == delivered + KeysOf(t.sent) + {n.key};
      Assoc(t.sent, [n], FirstOccurrences(delivered + KeysOf(t.sent) + {n.key}, rest));
    } else {
      assert [] + rest == rest;
    }
  }

  lemma {:induction false} FewerBelow(policy: Policy, incidents: seq<Incident>)
    ensures Below(policy, incidents) <= |incidents|
  {
    if incidents != [] {
      FewerBelow(policy, incidents[1..]);
    }
  }

  /**
   One run reads exactly the first min(max(limit, 1), length) incidents of the stream, sends
   the first occurrence of each undelivered key meeting the threshold among them, and
   reports as skipped the number below the threshold: its max(..., 0) never acts.
   */
  lemma OneIncidentRun(policy: Policy, delivered: set<Key>, stream: seq<Incident>)
    ensures var r := Collect(policy, delivered, NONE_YET, stream);
            var read := Upto(stream, Max(policy.limit, 1));
            && r.collected == |read| == Min(Max(policy.limit, 1), |stream|)
            && r.sent == FirstOccurrences(delivered, Notifiable(policy, read))
            && r.notified == |r.sent|
            && ResultOf(r).skipped == Below(policy, read) == r.collected - r.notified - r.duplicates
  {
    CollectReads(policy, delivered, NONE_YET, stream);
    assert delivered + KeysOf(NONE_YET.sent) == delivered;
    FewerBelow(policy, Upto(stream, Max(policy.limit, 1)));
  }

  function FieldsOf(incidents: seq<Incident>): set<string> {
    if incidents == [] then {} else incidents[0].record.Keys + FieldsOf(incidents[1..])
  }

  lemma {:induction false} ObservedFields(policy: Policy, delivered: set<Key>, t: Totals, stream: seq<Incident>)
    ensures Collect(policy, delivered, t, stream).observed ==
            t.observed + FieldsOf(ReadFrom(policy, t.collected, stream))
    decreases |stream|
  {
    if stream != [] {
      var m := Visit(policy, delivered, t, stream[0]);
      var read := ReadFrom(policy, t.collected, stream);
      if m.collected >= policy.limit {
        assert read == [stream[0]] && read[1..] == [];
      } else {
        ObservedFields(policy, delivered, m, stream[1..]);
        assert read == [stream[0]] + ReadFrom(policy, m.collected, stream[1..]);
        assert read[1..] == ReadFrom(policy, m.collected, stream[1..]);
      }
    }
  }

  /** The note is the one of an incident in the list that meets the threshold. */
  ghost predicate MadeOf(policy: Policy, incidents: seq<Incident>, note: Notification) {
    exists i ::
      && i in incidents && i.severity.MeetsThreshold(policy.minSeverity)
      && note.record == i.record && note.key == KeyOf(IncidentKind, policy.destination, i.record)
  }

  lemma {:induction false} NotifiableMade(policy: Policy, incidents: seq<Incident>, note: Notification)
    requires note in Notifiable(policy, incidents)
    ensures MadeOf(policy, incidents, note)
  {
    if note in Notifiable(policy, incidents[1..]) {
      NotifiableMade(policy, incidents[1..], note);
      var i :| && i in incidents[1..] && i.severity.MeetsThreshold(policy.minSeverity)
               && note.record == i.record && note.key == KeyOf(IncidentKind, policy.destination, i.record);
      assert i in incidents;
    } else {
      assert incidents[0] in incidents;
    }
  }

  lemma {:induction false} KeptAreInput(seen: set<Key>, notes: seq<Notification>, note: Notification)
    requires note in FirstOccurrences(seen, notes)
    ensures note in notes
    decreases |notes|
  {
    if notes[0].key in seen {
      KeptAreInput(seen, notes[1..], note);
    } else if note in FirstOccurrences(seen + {notes[0].key}, notes[1..]) {
      KeptAreInput(seen + {notes[0].key}, notes[1..], note);
    }
  }

  /**
   What a run reports, and what it sends is made of: each count of the result, in terms of the
   incidents read; and every notification shows the record of one of them that meets the
   threshold, under the incident key of that record.
   */
  lemma ReportsWhatItRead(policy: Policy, delivered: set<Key>, stream: seq<Incident>)
    ensures var r := Collect(policy, delivered, NONE_YET, stream);
            var read, result := Upto(stream, Max(policy.limit, 1)), ResultOf(r);
            && result.collected == |read| && result.notified == |r.sent|
            && result.duplicates == |read| - Below(policy, read) - |r.sent|
            && result.skipped == Below(policy, read) && result.pending == 0 && result.observed == FieldsOf(read)
            && forall note :: note in r.sent ==> MadeOf(policy, read, note)
  {
    var r := Collect(policy, delivered, NONE_YET, stream);
    var read := Upto(stream, Max(policy.limit, 1));
    OneIncidentRun(policy, delivered, stream);
    ObservedFields(policy, delivered, NONE_YET, stream);
    forall note | note in r.sent
      ensures MadeOf(policy, read, note)
    {
      KeptAreInput(delivered, Notifiable(policy, read), note);
      NotifiableMade(policy, read, note);
    }
  }

  // ------------------------------------------------------------ the use case

  datatype Error = CallRaised

  /** collection_runs: a succeeded row with its counts, or a failed one (None). */
  class CollectionRunRepository {
    var log: seq<Option<CollectionResult>>
    ghost var raised: nat

    constructor ()
      ensures log == [] && raised == 0
    {
      log, raised := [], 0;
    }

    method SaveSuccess(result: CollectionResult) returns (ok: bool)
      modifies this
      ensures log == old(log) + [Some(result)] || (!ok && log == old(log))
      ensures raised == Counting(old(raised), ok)
    {
      var took;
      ok, took := Attempt();
      raised := Counting(raised, ok);
      if took { log := log + [Some(result)]; }
    }

    method SaveFailure() returns (ok: bool)
      modifies this
      ensures log == old(log) + [None] || (!ok && log == old(log))
      ensures raised == Counting(old(raised), ok)
    {
      var took;
      ok, took := Attempt();
      raised := Counting(raised, ok);
      if took { log := log + [None]; }
    }
  }

  /** What the three tables hold at some moment. */
  datatype Tables = Tables(sent: seq<Notification>, keys: set<Key>, log: seq<Option<CollectionResult>>)

  /** What was sent before, and every key marked before, plus what the totals say. */
  ghost predicate Done(before: Tables, now: Tables, t: Totals) {
    now == before.(sent := before.sent + t.sent, keys := before.keys + KeysOf(t.sent))
  }

  /** The whole plan is done, and a success row closes it. */
  ghost predicate Completed(before: Tables, now: Tables, plan: Totals) {
    now == Tables(before.sent + plan.sent, before.keys + KeysOf(plan.sent), before.log + [Some(ResultOf(plan))])
  }

  /** A run that raised sent a prefix of its plan and marked all of it, or all but the last. */
  ghost predicate StoppedShort(before: Tables, now: Tables, plan: Totals) {
    && CutShort(before.sent, now.sent, plan.sent)
    && MarkedSo(before.keys, now.keys, plan.sent, |now.sent| - |before.sent|)
    && now.log == before.log
  }

  /** A run that raised stopped short of its plan, or raised after its success row was written. */
  ghost predicate Ended(before: Tables, now: Tables, plan: Totals) {
    StoppedShort(before, now, plan) || Completed(before, now, plan)
  }

  /** The same, followed by a failure row. */
  ghost predicate EndedAndLogged(before: Tables, now: Tables, plan: Totals) {
    && now.log != [] && now.log[|now.log| - 1] == None
    && Ended(before, now.(log := now.log[..|now.log| - 1]), plan)
  }

  lemma FailureLogged(before: Tables, was: Tables, plan: Totals)
    requires Ended(before, was, plan)
    ensures EndedAndLogged(before, was.(log := was.log + [None]), plan)
  {
    assert (was.log + [None])[..|was.log|] == was.log;
    assert was.(log := was.log + [None]).(log := was.log) == was;
  }

  lemma PrefixDone(before: Tables, now: Tables, t: Totals, plan: Totals)
    requires Done(before, now, t) && t.sent <= plan.sent
    ensures StoppedShort(before, now, plan)
  {
    assert t.sent == plan.sent[..|t.sent|];
  }

  lemma NoteDelivered(before: Tables, now: Tables, t: Totals, note: Notification)
    requires Done(before, now, t)
    ensures Done(before, now.(sent := now.sent + [note], keys := now.keys + {note.key}), t.(sent := t.sent + [note]))
  {
    KeysOfAppend(t.sent, [note]);
    Assoc(before.sent, t.sent, [note]);
  }

  class CollectAndNotifyIncidents {
    const runs: CollectionRunRepository
    const deliveries: NotificationRepository
    const notifier: Notifier
    const minSeverity: Severity
    const destination: string

    constructor (runs: CollectionRunRepository, deliveries: NotificationRepository, notifier: Notifier,
                 minSeverity: Severity, destination: string)
      ensures this.runs == runs && this.deliveries == deliveries && this.notifier == notifier
      ensures this.minSeverity == minSeverity && this.destination == destination
    {
      this.runs, this.deliveries, this.notifier := runs, deliveries, notifier;
      this.minSeverity, this.destination := minSeverity, destination;
    }

    ghost function Plan(limit: int, incidents: seq<Incident>): Totals
      reads deliveries
    {
      Collect(Policy(limit, minSeverity, destination), deliveries.deliveries.Keys, NONE_YET, incidents)
    }

    ghost function Now(): Tables
      reads notifier, deliveries, runs
    {
      Tables(notifier.sent, deliveries.deliveries.Keys, runs.log)
    }

    /** How many calls have raised. */
    ghost function Raised(stream: IncidentStream): nat
      reads runs, deliveries, notifier, stream
    {
      stream.raised + runs.raised + DeliveriesRaised(deliveries, notifier)
    }

    /**
     A run fails exactly when a call raises. A run that does not raise does its whole plan and
     logs it; one that raises does so at any point of it, and logs a failure if that does not
     raise too.
     */
    method Execute(limit: int, stream: IncidentStream) returns (r: Result<CollectionResult, Error>, ghost plan: Totals)
      modifies runs, deliveries, notifier, stream
      ensures plan == old(Plan(limit, stream.Remaining()))
      ensures r.Success? <==> Raised(stream) == old(Raised(stream))
      ensures r.Success? ==> r.value == ResultOf(plan) && Completed(old(Now()), Now(), plan)
      ensures r.Failure? ==> Ended(old(Now()), Now(), plan) || EndedAndLogged(old(Now()), Now(), plan)
      ensures Raised(stream) == old(Raised(stream)) + 1 ==> EndedAndLogged(old(Now()), Now(), plan)
    {
      r, plan := Run(limit, stream);
      if r.Failure? {
        FailureLogged(old(Now()), Now(), plan);
        var _ := runs.SaveFailure();
      }
    }

    method Run(limit: int, stream: IncidentStream) returns (r: Result<CollectionResult, Error>, ghost plan: Totals)
      modifies runs, deliveries, notifier, stream
      ensures plan == old(Plan(limit, stream.Remaining()))
      ensures Raised(stream) == Counting(old(Raised(stream)), r.Success?)
      ensures r.Success? ==> r.value == ResultOf(plan) && Completed(old(Now()), Now(), plan)
      ensures r.Failure? ==> Ended(old(Now()), Now(), plan)
    {
      ghost var before := Now();
      var ok, t;
      ok, t, plan := Loop(Policy(limit, minSeverity, destination), stream);
      if !ok { r := Failure(CallRaised); return; }
      PrefixDone(before, Now(), t, t);
      ok := runs.SaveSuccess(ResultOf(t));
      r := if ok then Success(ResultOf(t)) else Failure(CallRaised);
    }

    method Loop(policy: Policy, stream: IncidentStream) returns (ok: bool, t: Totals, ghost plan: Totals)
      requires policy.destination == destination
      modifies deliveries, notifier, stream
      ensures plan == old(Collect(policy, deliveries.deliveries.Keys, NONE_YET, stream.Remaining()))
      ensures Raised(stream) == Counting(old(Raised(stream)), ok)
      ensures ok ==> t == plan && Done(old(Now()), Now(), plan)
      ensures !ok ==> StoppedShort(old(Now()), Now(), plan)
    {
      t, ok := NONE_YET, true;
      ghost var before := Now();
      plan := Collect(policy, before.keys, t, stream.Remaining());
      ghost var remaining := stream.Remaining();
      assert before.sent + [] == before.sent && before.keys + KeysOf([]) == before.keys;
      while true
        invariant ok && Done(before, Now(), t) && Raised(stream) == old(Raised(stream))
        invariant remaining == stream.Remaining() && Collect(policy, before.keys, t, remaining) == plan
        decreases |remaining|
      {
        CollectGrows(policy, before.keys, t, remaining);
        PrefixDone(before, Now(), t, plan);
        var incident;
        ok, incident := stream.Next();
        if !ok || incident.None? { return; }
        assert remaining[1..] == stream.Remaining();
        remaining := stream.Remaining();
        ghost var visited := Visit(policy, before.keys, t, incident.value);
        if visited.collected < policy.limit {
          CollectGrows(policy, before.keys, visited, remaining);
        }
        ok, t := HandleIncident(policy, t, incident.value, before, plan);
        if !ok || t.collected >= policy.limit { return; }
      }
    }

    method HandleIncident(policy: Policy, t0: Totals, i: Incident, ghost before: Tables, ghost plan: Totals)
      returns (ok: bool, t: Totals)
      requires policy.destination == destination && Done(before, Now(), t0)
      requires t0.sent <= plan.sent && Visit(policy, before.keys, t0, i).sent <= plan.sent
      modifies deliveries, notifier
      ensures DeliveriesRaised(deliveries, notifier) == Counting(old(DeliveriesRaised(deliveries, notifier)), ok)
      ensures ok ==> t == Visit(policy, before.keys, t0, i) && Done(before, Now(), t)
      ensures !ok ==> StoppedShort(before, Now(), plan)
    {
      ok := true;
      t := t0.(collected := t0.collected + 1, observed := t0.observed + i.record.Keys);
      if !i.severity.MeetsThreshold(policy.minSeverity) { return; }
      var note := Note(policy, i);
      NoteDelivered(before, Now(), t, note);
      var outcome := Deliver(deliveries, notifier, note, destination);
      match outcome
      case Raised =>
        RaisedMidway(before.sent, notifier.sent, before.keys, deliveries.deliveries.Keys, plan.sent, t.sent, note);
        ok := false;
      case Duplicate =>
        t := t.(duplicates := t.duplicates + 1);
      case Notified =>
        t := t.(notified := t.notified + 1, sent := t.sent + [note]);
    }
  }

  lemma {:induction false} CollectGrows(policy: Policy, delivered: set<Key>, t: Totals, stream: seq<Incident>)
    ensures t.sent <= Collect(policy, delivered, t, stream).sent
    decreases |stream|
  {
    if stream != [] {
      CollectGrows(policy, delivered, Visit(policy, delivered, t, stream[0]), stream[1..]);
    }
  }
}
