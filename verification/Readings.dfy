/**
 What one detection run reads, sends and reports, in terms of the detections alone: the window
 and the counts are written out here, apart from the tests the run itself makes.
 */
module Readings {
  import opened Wrappers
  import opened Keys
  import opened Repositories
  import opened DetectionRun
  import opened OneRun

  // ------------------------------------------------------------ what was sent

  /** The note is the one of a detection in the list that is not older than the cutoff. */
  ghost predicate MadeOf(policy: Policy, cutoff: int, ds: seq<Detection>, note: Notification) {
    exists d ::
      && d in ds && (d.occurredAt == None || cutoff <= d.occurredAt.value)
      && d.severity.MeetsThreshold(policy.minSeverity)
      && note.record == d.record && note.key == KeyOf(DetectionKind, policy.destination, d.record)
  }

  lemma MadeOfMore(policy: Policy, cutoff: int, ds: seq<Detection>, more: seq<Detection>, note: Notification)
    requires MadeOf(policy, cutoff, ds, note) && forall d :: d in ds ==> d in more
    ensures MadeOf(policy, cutoff, more, note)
  {
  }

  lemma {:induction false} PageSends(policy: Policy, cutoff: int, delivered: set<Key>, t: Tally, ds: seq<Detection>,
                                     note: Notification)
    requires note in ScanPage(policy, cutoff, delivered, t, ds).sent && note !in t.sent
    ensures MadeOf(policy, cutoff, ds, note)
    decreases |ds|
  {
    if ds != [] && !t.cut {
      var m := Visit(policy, cutoff, delivered, t, ds[0]);
      if note in m.sent {
        assert ds[0] in ds;
      } else {
        PageSends(policy, cutoff, delivered, m, ds[1..], note);
        MadeOfMore(policy, cutoff, ds[1..], ds, note);
      }
    }
  }

  /** Some page of the list has the detection the note is made of. */
  ghost predicate MadeFrom(policy: Policy, cutoff: int, pages: seq<Page>, note: Notification) {
    exists page :: page in pages && MadeOf(policy, cutoff, page.detections, note)
  }

  lemma {:induction false} PagesSend(policy: Policy, cutoff: int, delivered: set<Key>, source: Source, t: Tally,
                                     token: Option<Token>, note: Notification)
    requires t.fetched <= Max(policy.maxPages, 0)
    requires note in ScanPages(policy, cutoff, delivered, source, t, token).sent && note !in t.sent
    ensures var r := ScanPages(policy, cutoff, delivered, source, t, token);
            var chain := Chain(source, token, Max(policy.maxPages, 0) - t.fetched);
            t.fetched <= r.fetched && r.fetched - t.fetched <= |chain|
            && MadeFrom(policy, cutoff, chain[..r.fetched - t.fetched], note)
    decreases Max(policy.maxPages, 0) - t.fetched
  {
    hide MadeFrom, ScanPage;
    var page := source(token);
    var m := PageScan(policy, cutoff, delivered, t, page);
    var n := Max(policy.maxPages, 0) - t.fetched;
    var r := ScanPages(policy, cutoff, delivered, source, t, token);
    FetchedPages(policy, cutoff, delivered, source, t, token);
    if note in m.sent {
      PageSends(policy, cutoff, delivered, t.(fetched := t.fetched + 1), page.detections, note);
      MadeFromFirst(policy, cutoff, source, token, n, r.fetched - t.fetched, note);
    } else {
      PagesSend(policy, cutoff, delivered, source, m, page.next, note);
      MadeFromLater(policy, cutoff, source, token, n, r.fetched - t.fetched, note);
    }
  }

  lemma MadeFromFirst(policy: Policy, cutoff: int, source: Source, token: Option<Token>, n: nat, f: nat,
                      note: Notification)
    requires 0 < f <= |Chain(source, token, n)| && MadeOf(policy, cutoff, source(token).detections, note)
    ensures MadeFrom(policy, cutoff, Chain(source, token, n)[..f], note)
  {
    assert Chain(source, token, n)[..f][0] == source(token);
  }

  lemma MadeFromLater(policy: Policy, cutoff: int, source: Source, token: Option<Token>, n: nat, f: nat,
                      note: Notification)
    requires 0 < f <= |Chain(source, token, n)| && source(token).next.Some? && n > 0
    requires f - 1 <= |Chain(source, source(token).next, n - 1)|
    requires MadeFrom(policy, cutoff, Chain(source, source(token).next, n - 1)[..f - 1], note)
    ensures MadeFrom(policy, cutoff, Chain(source, token, n)[..f], note)
  {
    var later := Chain(source, source(token).next, n - 1)[..f - 1];
    assert Chain(source, token, n)[..f] == [source(token)] + later;
    var page :| page in later && MadeOf(policy, cutoff, page.detections, note);
  }

  /** At least one page is fetched if any may be, and no more than the source has. */
  lemma {:induction false} FetchedPages(policy: Policy, cutoff: int, delivered: set<Key>, source: Source, t: Tally,
                                        token: Option<Token>)
    requires t.fetched <= Max(policy.maxPages, 0)
    ensures var r := ScanPages(policy, cutoff, delivered, source, t, token);
            var n := Max(policy.maxPages, 0) - t.fetched;
            && 0 <= r.fetched - t.fetched <= |Chain(source, token, n)| && (n > 0 ==> r.fetched > t.fetched)
    decreases Max(policy.maxPages, 0) - t.fetched
  {
    if t.fetched < Max(policy.maxPages, 0) {
      var page := source(token);
      var m := PageScan(policy, cutoff, delivered, t, page);
      if GoesOn(policy, m, page) {
        FetchedPages(policy, cutoff, delivered, source, m, page.next);
      }
    }
  }

  /**
   Every notification of a run is made of a detection of a page it fetched that has no time or
   a time not before the cutoff, and that meets the threshold; it shows that detection's
   record, under the detection key of that record.
   */
  lemma SendsOnlyRecent(policy: Policy, cutoff: int, delivered: set<Key>, source: Source, token: Option<Token>,
                        note: Notification)
    requires note in Collect(policy, cutoff, delivered, source, token).sent
    ensures var r := Collect(policy, cutoff, delivered, source, token);
            var chain := Chain(source, token, Max(policy.maxPages, 0));
            0 <= r.fetched <= |chain| && MadeFrom(policy, cutoff, chain[..r.fetched], note)
  {
    PagesSend(policy, cutoff, delivered, source, ZERO, token, note);
  }

  /** What was sent on top of `before` is made from the first `fetched` pages of the source from `start` on. */
  ghost predicate OnlyRecent(policy: Policy, cutoff: int, source: Source, start: Option<Token>, fetched: int,
                             before: seq<Notification>, now: seq<Notification>) {
    var chain := Chain(source, start, Max(policy.maxPages, 0));
    && 0 <= fetched <= |chain| && before <= now
    && forall note :: note in now[|before|..] ==> MadeFrom(policy, cutoff, chain[..fetched], note)
  }

  lemma CutShortOnlyRecent(policy: Policy, cutoff: int, delivered: set<Key>, source: Source, start: Option<Token>,
                           before: seq<Notification>, now: seq<Notification>)
    requires CutShort(before, now, Collect(policy, cutoff, delivered, source, start).sent)
    ensures var fetched := Collect(policy, cutoff, delivered, source, start).fetched;
            OnlyRecent(policy, cutoff, source, start, fetched, before, now)
  {
    var r := Collect(policy, cutoff, delivered, source, start);
    FetchedPages(policy, cutoff, delivered, source, ZERO, start);
    assert now[|before|..] == r.sent[..|now| - |before|];
    forall note | note in now[|before|..]
      ensures MadeFrom(policy, cutoff, Chain(source, start, Max(policy.maxPages, 0))[..r.fetched], note)
    {
      SendsOnlyRecent(policy, cutoff, delivered, source, start, note);
    }
  }

  // ------------------------------------------------------------ what was counted

  /** How many are older than the cutoff or below the threshold. */
  function PassedOver(policy: Policy, cutoff: int, ds: seq<Detection>): nat {
    if ds == [] then 0
    else PassedOver(policy, cutoff, ds[1..])
         + (if ds[0].occurredAt != None && ds[0].occurredAt.value < cutoff then 1
            else if ds[0].severity.MeetsThreshold(policy.minSeverity) then 0
            else 1)
  }

  function FieldsOf(ds: seq<Detection>): set<string> {
    if ds == [] then {} else ds[0].record.Keys + FieldsOf(ds[1..])
  }

  lemma {:induction false} CountsAppend(policy: Policy, cutoff: int, a: seq<Detection>, b: seq<Detection>)
    ensures RecentCount(cutoff, a + b) == RecentCount(cutoff, a) + RecentCount(cutoff, b)
    ensures PassedOver(policy, cutoff, a + b) == PassedOver(policy, cutoff, a) + PassedOver(policy, cutoff, b)
    ensures FieldsOf(a + b) == FieldsOf(a) + FieldsOf(b)
  {
    if a == [] {
      assert a + b == b;
    } else {
      ConsAppend(a, b);
      CountsAppend(policy, cutoff, a[1..], b);
    }
  }

  /**
   The run read the first detections of ds, as many as it collected, and took up all of them,
   except that the one on which it was cut only shows that there was one more.
   */
  ghost predicate Read(policy: Policy, cutoff: int, t: Tally, r: Tally, ds: seq<Detection>) {
    var n := r.collected - t.collected;
    var taken := if r.cut then n - 1 else n;
    && 0 <= taken <= n <= |ds| && (!r.cut ==> n == |ds|)
    && r.processed - t.processed == RecentCount(cutoff, ds[..taken])
    && r.skipped - t.skipped == PassedOver(policy, cutoff, ds[..taken])
    && r.observed == t.observed + FieldsOf(ds[..n])
    && (r.cut ==>
          r.processed == Max(policy.limit, 0) && RecentCount(cutoff, ds[..n]) == RecentCount(cutoff, ds[..taken]) + 1)
  }

  lemma ReadNothing(policy: Policy, cutoff: int, t: Tally, r: Tally)
    requires !r.cut && r.collected == t.collected && r.processed == t.processed && r.skipped == t.skipped
             && r.observed == t.observed
    ensures Read(policy, cutoff, t, r, [])
  {
  }

  /** Two stretches in a row, the first of which was not cut. */
  lemma ReadBoth(policy: Policy, cutoff: int, t: Tally, m: Tally, r: Tally, a: seq<Detection>, b: seq<Detection>)
    requires !m.cut && Read(policy, cutoff, t, m, a) && Read(policy, cutoff, m, r, b)
    ensures Read(policy, cutoff, t, r, a + b)
  {
    var n := r.collected - m.collected;
    CountsUpTo(policy, cutoff, a, b, n);
    CountsUpTo(policy, cutoff, a, b, if r.cut then n - 1 else n);
    assert a[..|a|] == a;
  }

  lemma CountsUpTo(policy: Policy, cutoff: int, a: seq<Detection>, b: seq<Detection>, k: int)
    requires 0 <= k <= |b|
    ensures var both := (a + b)[..|a| + k];
            && RecentCount(cutoff, both) == RecentCount(cutoff, a) + RecentCount(cutoff, b[..k])
            && PassedOver(policy, cutoff, both) == PassedOver(policy, cutoff, a) + PassedOver(policy, cutoff, b[..k])
            && FieldsOf(both) == FieldsOf(a) + FieldsOf(b[..k])
  {
    assert (a + b)[..|a| + k] == a + b[..k];
    CountsAppend(policy, cutoff, a, b[..k]);
  }

  lemma VisitReads(policy: Policy, cutoff: int, delivered: set<Key>, t: Tally, d: Detection)
    requires Open(policy, t)
    ensures Read(policy, cutoff, t, Visit(policy, cutoff, delivered, t, d), [d])
  {
    assert [d][..1] == [d] && [d][..0] == [] && [d][1..] == [];
  }

  lemma {:induction false} PageReads(policy: Policy, cutoff: int, delivered: set<Key>, t: Tally, ds: seq<Detection>)
    requires Open(policy, t)
    ensures Read(policy, cutoff, t, ScanPage(policy, cutoff, delivered, t, ds), ds)
    decreases |ds|
  {
    if ds == [] {
      ReadNothing(policy, cutoff, t, t);
    } else {
      var m := Visit(policy, cutoff, delivered, t, ds[0]);
      VisitReads(policy, cutoff, delivered, t, ds[0]);
      VisitExtends(policy, cutoff, delivered, t, ds[0]);
      if m.cut {
        CutInside(policy, cutoff, t, m, [ds[0]], ds[1..]);
      } else {
        PageReads(policy, cutoff, delivered, m, ds[1..]);
        ReadBoth(policy, cutoff, t, m, ScanPage(policy, cutoff, delivered, m, ds[1..]), [ds[0]], ds[1..]);
      }
      assert [ds[0]] + ds[1..] == ds;
    }
  }

  /** Once cut, nothing further on is read. */
  lemma CutInside(policy: Policy, cutoff: int, t: Tally, r: Tally, a: seq<Detection>, b: seq<Detection>)
    requires r.cut && Read(policy, cutoff, t, r, a)
    ensures Read(policy, cutoff, t, r, a + b)
  {
    var n := r.collected - t.collected;
    assert (a + b)[..n] == a[..n] && (a + b)[..n - 1] == a[..n - 1];
  }

  /** The detections of fetched pages: those of the first, and those of the others. */
  lemma FirstFetched(source: Source, token: Option<Token>, n: nat, f: nat)
    requires 0 < f <= |Chain(source, token, n)|
    ensures var page := source(token);
            var later := if page.next.None? then [] else Chain(source, page.next, n - 1);
            && f - 1 <= |later|
            && Detections(Chain(source, token, n)[..f]) == page.detections + Detections(later[..f - 1])
  {
    var page := source(token);
    var later := if page.next.None? then [] else Chain(source, page.next, n - 1);
    assert Chain(source, token, n)[..f] == [page] + later[..f - 1];
    Uncons(Chain(source, token, n)[..f], page, later[..f - 1]);
  }

  lemma OnePageReads(policy: Policy, cutoff: int, delivered: set<Key>, t: Tally, page: Page)
    requires Open(policy, t)
    ensures Read(policy, cutoff, t, PageScan(policy, cutoff, delivered, t, page), page.detections)
  {
    PageReads(policy, cutoff, delivered, t.(fetched := t.fetched + 1), page.detections);
  }

  lemma {:induction false} PagesRead(policy: Policy, cutoff: int, delivered: set<Key>, source: Source, t: Tally,
                                     token: Option<Token>)
    requires Open(policy, t) && t.fetched <= Max(policy.maxPages, 0)
    ensures var r := ScanPages(policy, cutoff, delivered, source, t, token);
            var chain := Chain(source, token, Max(policy.maxPages, 0) - t.fetched);
            && 0 <= r.fetched - t.fetched <= |chain|
            && Read(policy, cutoff, t, r, Detections(chain[..r.fetched - t.fetched]))
    decreases Max(policy.maxPages, 0) - t.fetched
  {
    hide Read, Extends, ScanPage;
    var r := ScanPages(policy, cutoff, delivered, source, t, token);
    FetchedPages(policy, cutoff, delivered, source, t, token);
    if t.fetched == Max(policy.maxPages, 0) {
      ReadNothing(policy, cutoff, t, t);
    } else {
      var page := source(token);
      var m := PageScan(policy, cutoff, delivered, t, page);
      OnePageReads(policy, cutoff, delivered, t, page);
      PageExtends(policy, cutoff, delivered, t, page);
      FirstFetched(source, token, Max(policy.maxPages, 0) - t.fetched, r.fetched - t.fetched);
      if GoesOn(policy, m, page) {
        var later := Chain(source, page.next, Max(policy.maxPages, 0) - m.fetched);
        PagesRead(policy, cutoff, delivered, source, m, page.next);
        ReadBoth(policy, cutoff, t, m, r, page.detections, Detections(later[..r.fetched - m.fetched]));
      } else {
        assert page.detections + [] == page.detections;
      }
    }
  }

  /** The result of a run that fetched pages with these detections. */
  ghost predicate Reports(policy: Policy, cutoff: int, r: Tally, all: seq<Detection>) {
    var result := ResultOf(r);
    && 0 <= result.collected <= |all| && (!r.cut ==> result.collected == |all|) && (r.cut ==> result.collected > 0)
    && var taken := all[..if r.cut then result.collected - 1 else result.collected];
    && r.processed == RecentCount(cutoff, taken) <= Max(policy.limit, 0)
    && (r.cut ==> r.processed == Max(policy.limit, 0) && RecentCount(cutoff, all[..result.collected]) > r.processed)
    && result.skipped == PassedOver(policy, cutoff, taken)
    && result.notified == |r.sent|
    && result.duplicates == |taken| - result.skipped - |r.sent|
    && result.pending == 0
    && result.observed == FieldsOf(all[..result.collected])
  }

  lemma ReadReports(policy: Policy, cutoff: int, r: Tally, all: seq<Detection>)
    requires Read(policy, cutoff, ZERO, r, all) && 0 <= r.processed <= Max(policy.limit, 0)
    requires r.notified == |r.sent| && r.collected == r.notified + r.duplicates + r.skipped + (if r.cut then 1 else 0)
    ensures Reports(policy, cutoff, r, all)
  {
  }

  /**
   The result a run reports: it collected the detections it read, one by one; skipped those
   older than the cutoff or below the threshold; notified what it sent; and the rest of what it
   took up were duplicates. The limit counts the recent detections taken up, and nothing else.
   */
  lemma ReportsWhatItRead(policy: Policy, cutoff: int, delivered: set<Key>, source: Source, token: Option<Token>)
    ensures var r := Collect(policy, cutoff, delivered, source, token);
            var chain := Chain(source, token, Max(policy.maxPages, 0));
            0 <= r.fetched <= |chain| && Reports(policy, cutoff, r, Detections(chain[..r.fetched]))
  {
    hide Read, Reports;
    var r := Collect(policy, cutoff, delivered, source, token);
    PagesRead(policy, cutoff, delivered, source, ZERO, token);
    Accounted(policy, cutoff, delivered, source, token);
    ReadReports(policy, cutoff, r, Detections(Chain(source, token, Max(policy.maxPages, 0))[..r.fetched]));
  }

  lemma Accounted(policy: Policy, cutoff: int, delivered: set<Key>, source: Source, token: Option<Token>)
    ensures var r := Collect(policy, cutoff, delivered, source, token);
            && 0 <= r.processed <= Max(policy.limit, 0) && r.notified == |r.sent|
            && r.collected == r.notified + r.duplicates + r.skipped + (if r.cut then 1 else 0)
  {
    WithinLimit(policy, cutoff, delivered, source, token);
    OneRunReads(policy, cutoff, delivered, source, token);
    OneRunSends(policy, cutoff, delivered, source, token);
  }

  lemma WithinLimit(policy: Policy, cutoff: int, delivered: set<Key>, source: Source, token: Option<Token>)
    ensures 0 <= Collect(policy, cutoff, delivered, source, token).processed <= Max(policy.limit, 0)
  {
    ScanPagesReads(policy, cutoff, delivered, source, ZERO, token);
  }
}
