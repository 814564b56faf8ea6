/**
 CollectAndNotifyDetections.execute as the imperative program it is: nested loops over
 local counters and the shared tables, any of whose calls may raise.
 */
module CollectDetections {
  import opened Wrappers
  import opened Keys
  import opened Severities
  import opened Repositories
  import opened DetectionRun
  import opened Readings
  import P = Progress

  datatype Error = CallRaised

  /** What the three tables hold at some moment. */
  datatype Tables = Tables(sent: seq<Notification>, keys: set<Key>, log: seq<RunRow>)

  /** The tables hold what the tally sent and stored, on top of what they held before. */
  ghost predicate Aligned(before: Tables, now: Tables, t: Tally) {
    && now.sent == before.sent + t.sent
    && now.keys == before.keys + KeysOf(t.sent)
    && now.log == before.log + CursorRows(t.cursors)
  }

  /** The success row of a run that did its whole plan. */
  function SuccessRow(before: Tables, plan: Tally): RunRow {
    Succeeded(ResultOf(plan), LastToken(plan, LatestToken(before.log)))
  }

  /** The whole plan is done, and a success row closes it. */
  ghost predicate Completed(before: Tables, now: Tables, plan: Tally) {
    now == Tables(before.sent + plan.sent, before.keys + KeysOf(plan.sent),
                  before.log + CursorRows(plan.cursors) + [SuccessRow(before, plan)])
  }

  /**
   What a run that raised has done before its success row: it sent a prefix of the plan's
   notifications, marked all of them or all but the last, and stored a prefix of the tokens.
   */
  ghost predicate StoppedShort(before: Tables, now: Tables, plan: Tally) {
    && CutShort(before.sent, now.sent, plan.sent)
    && MarkedSo(before.keys, now.keys, plan.sent, |now.sent| - |before.sent|)
    && CutShort(before.log, now.log, CursorRows(plan.cursors))
  }

  /** A run that raised stopped short, or raised after its success row was written. */
  ghost predicate Ended(before: Tables, now: Tables, plan: Tally) {
    StoppedShort(before, now, plan) || Completed(before, now, plan)
  }

  /** The same, followed by a failure row. */
  ghost predicate EndedAndLogged(before: Tables, now: Tables, plan: Tally) {
    && now.log != [] && now.log[|now.log| - 1] == Failed
    && Ended(before, now.(log := now.log[..|now.log| - 1]), plan)
  }

  /** Between two calls that may raise, what was done is a prefix of the plan. */
  lemma PrefixDone(before: Tables, now: Tables, t: Tally, plan: Tally)
    requires Aligned(before, now, t) && t.sent <= plan.sent && t.cursors <= plan.cursors
    ensures StoppedShort(before, now, plan)
  {
    assert t.sent == plan.sent[..|t.sent|];
    assert CursorRows(t.cursors) == CursorRows(plan.cursors)[..|t.cursors|];
  }

  lemma EndedShort(before: Tables, now: Tables, plan: Tally)
    requires Completed(before, now, plan) || Ended(before, now, plan)
    ensures CutShort(before.sent, now.sent, plan.sent)
  {
    assert plan.sent[..|plan.sent|] == plan.sent;
  }

  /** A run that does not raise takes the tables where RunOnce says. */
  lemma CompletedIsRunOnce(before: Tables, now: Tables, policy: Policy, cutoff: int, source: Source)
    requires Completed(before, now, Collect(policy, cutoff, before.keys, source, LatestToken(before.log)))
    ensures P.Tables(now.log, now.keys) == P.RunOnce(policy, cutoff, source, P.Tables(before.log, before.keys))
  {
  }

  lemma FailureLogged(before: Tables, was: Tables, plan: Tally)
    requires Ended(before, was, plan)
    ensures EndedAndLogged(before, was.(log := was.log + [Failed]), plan)
  {
    assert (was.log + [Failed])[..|was.log|] == was.log;
    assert was.(log := was.log + [Failed]).(log := was.log) == was;
  }

  lemma NothingDone(before: Tables)
    ensures Aligned(before, before, ZERO)
  {
    assert before.sent + [] == before.sent && before.log + CursorRows([]) == before.log;
  }

  lemma CursorSaved(before: Tables, now: Tables, t: Tally, page: Page)
    requires Aligned(before, now, t) && !t.cut && page.next.Some?
    ensures Aligned(before, now.(log := now.log + [Running(page.next)]), Turned(t, page))
  {
    assert CursorRows(t.cursors + [page.next.value]) == CursorRows(t.cursors) + [Running(page.next)];
    Assoc(before.log, CursorRows(t.cursors), [Running(page.next)]);
  }

  lemma NoteDelivered(before: Tables, now: Tables, t: Tally, note: Notification)
    requires Aligned(before, now, t)
    ensures Aligned(before, now.(sent := now.sent + [note], keys := now.keys + {note.key}), AsNotified(t, note))
  {
    KeysOfAppend(t.sent, [note]);
    Assoc(before.sent, t.sent, [note]);
  }

  /** A delivery that raised after the tally t. */
  lemma DeliveryRaised(before: Tables, now: Tables, t: Tally, note: Notification, plan: Tally)
    requires t.sent <= plan.sent && t.cursors <= plan.cursors && now.log == before.log + CursorRows(t.cursors)
    requires || Aligned(before, now, t)
             || (t.sent + [note] <= plan.sent && now.sent == before.sent + t.sent + [note]
                 && (now.keys == before.keys + KeysOf(t.sent) || now.keys == before.keys + KeysOf(t.sent) + {note.key}))
    ensures StoppedShort(before, now, plan)
  {
    RaisedMidway(before.sent, now.sent, before.keys, now.keys, plan.sent, t.sent, note);
    assert CursorRows(t.cursors) == CursorRows(plan.cursors)[..|t.cursors|];
  }

  /** The detections API: it answers the page of a token, or raises. */
  class DetectionSource {
    const pages: Source
    ghost var raised: nat

    constructor (pages: Source)
      ensures this.pages == pages && raised == 0
    {
      this.pages, raised := pages, 0;
    }

    method Fetch(token: Option<Token>) returns (ok: bool, page: Page)
      modifies `raised
      ensures raised == Counting(old(raised), ok)
      ensures ok ==> page == pages(token)
    {
      ok, page := *, *;
      if ok { page := pages(token); }
      raised := Counting(raised, ok);
    }
  }

  class CollectAndNotifyDetections {
    const source: DetectionSource
    const runs: DetectionRunRepository
    const deliveries: NotificationRepository
    const notifier: Notifier
    const minSeverity: Severity
    const destination: string

    constructor (source: DetectionSource, runs: DetectionRunRepository, deliveries: NotificationRepository,
                 notifier: Notifier, minSeverity: Severity, destination: string)
      ensures this.source == source && this.runs == runs && this.deliveries == deliveries && this.notifier == notifier
      ensures this.minSeverity == minSeverity && this.destination == destination
    {
      this.source, this.runs, this.deliveries, this.notifier := source, runs, deliveries, notifier;
      this.minSeverity, this.destination := minSeverity, destination;
    }

    /** What this run would do if no call raised. */
    ghost function Plan(limit: int, maxPages: int, cutoff: int): Tally
      reads runs, deliveries
    {
      var policy := Policy(limit, maxPages, minSeverity, destination);
      Collect(policy, cutoff, deliveries.deliveries.Keys, source.pages, LatestToken(runs.log))
    }

    ghost function Now(): Tables
      reads notifier, deliveries, runs
    {
      Tables(notifier.sent, deliveries.deliveries.Keys, runs.log)
    }

    /** How many calls have raised. */
    ghost function Raised(): nat
      reads source, runs, deliveries, notifier
    {
      source.raised + runs.raised + DeliveriesRaised(deliveries, notifier)
    }

    /**
     A run fails exactly when a call raises. One that does not fail does exactly what the plan
     says; one that fails does so at any point of it, and leaves a failure row last if that does
     not raise too. Either way it sends only what is made of detections of the pages it fetched
     that are not older than the window and meet the threshold; and what it reports is what it
     read.
     */
    method Execute(limit: int, maxPages: int, now: int, window: int)
      returns (r: Result<CollectionResult, Error>, ghost plan: Tally)
      modifies source, runs, deliveries, notifier
      ensures plan == old(Plan(limit, maxPages, now - window))
      ensures r.Success? <==> Raised() == old(Raised())
      ensures r.Success? ==> r.value == ResultOf(plan) && Completed(old(Now()), Now(), plan)
      ensures r.Failure? ==> Ended(old(Now()), Now(), plan) || EndedAndLogged(old(Now()), Now(), plan)
      ensures Raised() == old(Raised()) + 1 ==> EndedAndLogged(old(Now()), Now(), plan)
      ensures var policy := Policy(limit, maxPages, minSeverity, destination);
              var start := old(LatestToken(runs.log));
              && OnlyRecent(policy, now - window, source.pages, start, plan.fetched, old(notifier.sent), notifier.sent)
              && var chain := Chain(source.pages, start, Max(maxPages, 0));
              Reports(policy, now - window, plan, Detections(chain[..plan.fetched]))
    {
      hide OnlyRecent, Reports, Completed, Ended, EndedAndLogged;
      r, plan := Run(limit, maxPages, now, window);
      EndedShort(old(Now()), Now(), plan);
      ghost var policy := Policy(limit, maxPages, minSeverity, destination);
      ghost var keys, start := old(deliveries.deliveries.Keys), old(LatestToken(runs.log));
      CutShortOnlyRecent(policy, now - window, keys, source.pages, start, old(notifier.sent), notifier.sent);
      ReportsWhatItRead(policy, now - window, keys, source.pages, start);
      if r.Failure? {
        FailureLogged(old(Now()), Now(), plan);
        var _ := runs.SaveFailure();
      }
    }

    method Run(limit: int, maxPages: int, now: int, window: int)
      returns (r: Result<CollectionResult, Error>, ghost plan: Tally)
      modifies source, runs, deliveries, notifier
      ensures plan == old(Plan(limit, maxPages, now - window))
      ensures Raised() == Counting(old(Raised()), r.Success?)
      ensures r.Success? ==> r.value == ResultOf(plan) && Completed(old(Now()), Now(), plan)
      ensures r.Failure? ==> Ended(old(Now()), Now(), plan)
    {
      var policy := Policy(limit, maxPages, minSeverity, destination);
      ghost var before := Now();
      plan := Plan(limit, maxPages, now - window);
      NothingDone(before);
      ScanPagesGrows(policy, now - window, before.keys, source.pages, ZERO, LatestToken(runs.log));
      PrefixDone(before, Now(), ZERO, plan);

      var ok, token := runs.Latest();
      if !ok { r := Failure(CallRaised); return; }
      var t, lastToken;
      ok, t, lastToken := ReadPages(policy, now - window, token, before, plan);
      if !ok { r := Failure(CallRaised); return; }
      PrefixDone(before, Now(), t, plan);
      var result := ResultOf(t);
      ok := runs.SaveSuccess(result, lastToken);
      r := if ok then Success(result) else Failure(CallRaised);
    }

    /** The outer loop. */
    method ReadPages(policy: Policy, cutoff: int, start: Option<Token>, ghost before: Tables, ghost plan: Tally)
      returns (ok: bool, t: Tally, lastToken: Option<Token>)
      requires policy.destination == destination
      requires ScanPages(policy, cutoff, before.keys, source.pages, ZERO, start) == plan && Aligned(before, Now(), ZERO)
      modifies source, deliveries, notifier, runs
      ensures Raised() == Counting(old(Raised()), ok)
      ensures ok ==> t == plan && Aligned(before, Now(), t) && lastToken == LastToken(t, start)
      ensures !ok ==> StoppedShort(before, Now(), plan)
    {
      t, ok := ZERO, true;
      var currentToken := start;
      lastToken := start;
      while t.fetched < Max(policy.maxPages, 0)
        invariant ok && !t.cut && ScanPages(policy, cutoff, before.keys, source.pages, t, currentToken) == plan
        invariant lastToken == LastToken(t, start) && Aligned(before, Now(), t) && Raised() == old(Raised())
        decreases Max(policy.maxPages, 0) - t.fetched
      {
        var page;
        ok, t, page := HandlePage(policy, cutoff, t, currentToken, before, plan);
        if !ok { return; }
        if !t.cut && page.next.Some? {
          currentToken := page.next;
          lastToken := currentToken;
        } else if page.next.None? {
          break;
        }
        if t.cut || t.processed >= policy.limit {
          break;
        }
      }
    }

    /** One turn of the outer loop up to and including save_cursor. */
    method HandlePage(policy: Policy, cutoff: int, t0: Tally, token: Option<Token>, ghost before: Tables,
                      ghost plan: Tally)
      returns (ok: bool, t: Tally, page: Page)
      requires !t0.cut && policy.destination == destination && t0.fetched < Max(policy.maxPages, 0)
      requires ScanPages(policy, cutoff, before.keys, source.pages, t0, token) == plan && Aligned(before, Now(), t0)
      modifies source, deliveries, notifier, runs
      ensures Raised() == Counting(old(Raised()), ok)
      ensures !ok ==> StoppedShort(before, Now(), plan)
      ensures ok ==>
                && page == source.pages(token) && Aligned(before, Now(), t)
                && t == PageScan(policy, cutoff, before.keys, t0, page)
                && (if GoesOn(policy, t, page)
                    then ScanPages(policy, cutoff, before.keys, source.pages, t, page.next) == plan else t == plan)
    {
      hide StoppedShort, ScanPage, ScanPages, GoesOn, DeliveriesRaised;
      t := t0;
      PlanStep(policy, cutoff, before.keys, source.pages, t, token, plan);
      PrefixDone(before, Now(), t, plan);
      ok, page := source.Fetch(token);
      if !ok { return; }
      ok, t := ScanOnePage(policy, cutoff, t.(fetched := t.fetched + 1), page, before, plan);
      if !ok { return; }
      ok, t := StoreCursor(t, page, before, plan);
    }

    /** save_cursor, when the page was completed and has a next token. */
    method StoreCursor(t0: Tally, page: Page, ghost before: Tables, ghost plan: Tally) returns (ok: bool, t: Tally)
      requires Aligned(before, Now(), t0)
      requires t0.sent <= plan.sent && t0.cursors <= plan.cursors && Turned(t0, page).cursors <= plan.cursors
      modifies runs
      ensures Raised() == Counting(old(Raised()), ok)
      ensures ok ==> t == Turned(t0, page) && Aligned(before, Now(), t)
      ensures !ok ==> StoppedShort(before, Now(), plan)
    {
      t, ok := t0, true;
      if !t.cut && page.next.Some? {
        PrefixDone(before, Now(), t, plan);
        CursorSaved(before, Now(), t, page);
        PrefixDone(before, Now().(log := runs.log + [Running(page.next)]), Turned(t, page), plan);
        ok := runs.SaveCursor(page.next);
        if !ok { return; }
        t := t.(cursors := t.cursors + [page.next.value]);
      }
    }

    /** The inner loop. The tally holds the method's local counters. */
    method ScanOnePage(policy: Policy, cutoff: int, t0: Tally, page: Page, ghost before: Tables, ghost plan: Tally)
      returns (ok: bool, t: Tally)
      requires !t0.cut && policy.destination == destination && Aligned(before, Now(), t0)
      requires ScanPage(policy, cutoff, before.keys, t0, page.detections).sent <= plan.sent
               && t0.cursors <= plan.cursors
      modifies deliveries, notifier
      ensures Raised() == Counting(old(Raised()), ok)
      ensures ok ==> t == ScanPage(policy, cutoff, before.keys, t0, page.detections) && Aligned(before, Now(), t)
      ensures !ok ==> StoppedShort(before, Now(), plan)
    {
      t, ok := t0, true;
      ghost var end := ScanPage(policy, cutoff, before.keys, t0, page.detections);
      var i := 0;
      while i < |page.detections| && !t.cut
        invariant 0 <= i <= |page.detections| && ok
        invariant ScanPage(policy, cutoff, before.keys, t, page.detections[i..]) == end
        invariant Aligned(before, Now(), t) && t.cursors <= plan.cursors && Raised() == old(Raised())
        decreases |page.detections| - i
      {
        var d := page.detections[i];
        assert page.detections[i..][0] == d && page.detections[i..][1..] == page.detections[i + 1..];
        ScanPageGrows(policy, cutoff, before.keys, Visit(policy, cutoff, before.keys, t, d), page.detections[i + 1..]);
        ok, t := HandleDetection(policy, cutoff, t, d, before, plan);
        if !ok { return; }
        i := i + 1;
      }
    }

    /** The body of the inner loop. */
    method HandleDetection(policy: Policy, cutoff: int, t0: Tally, d: Detection, ghost before: Tables,
                           ghost plan: Tally)
      returns (ok: bool, t: Tally)
      requires !t0.cut && policy.destination == destination && Aligned(before, Now(), t0)
      requires Visit(policy, cutoff, before.keys, t0, d).sent <= plan.sent && t0.cursors <= plan.cursors
      modifies deliveries, notifier
      ensures Raised() == Counting(old(Raised()), ok)
      ensures ok ==>
                t == Visit(policy, cutoff, before.keys, t0, d) && Aligned(before, Now(), t) && t.cursors == t0.cursors
      ensures !ok ==> StoppedShort(before, Now(), plan)
      ensures d.occurredAt != None && d.occurredAt.value < cutoff ==>
                && ok && notifier.sent == old(notifier.sent)
                && t == t0.(collected := t0.collected + 1, skipped := t0.skipped + 1,
                            observed := t0.observed + d.record.Keys)
    {
      hide StoppedShort, DeliveriesRaised, KeyOf;
      ok := true;
      t := t0.(collected := t0.collected + 1, observed := t0.observed + d.record.Keys);
      if !InWindow(cutoff, d) {
        t := t.(skipped := t.skipped + 1);
        return;
      }
      if t.processed >= policy.limit {
        t := t.(cut := true);
        return;
      }
      t := t.(processed := t.processed + 1);
      if !d.severity.MeetsThreshold(policy.minSeverity) {
        t := t.(skipped := t.skipped + 1);
        return;
      }
      var note := Note(destination, d);
      NoteDelivered(before, Now(), t, note);
      var outcome := Deliver(deliveries, notifier, note, destination);
      match outcome
      case Raised =>
        DeliveryRaised(before, Now(), t, note, plan);
        ok := false;
      case Duplicate =>
        t := t.(duplicates := t.duplicates + 1);
      case Notified =>
        t := t.(notified := t.notified + 1, sent := t.sent + [note]);
    }
  }
}
