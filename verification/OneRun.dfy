/**
 The nested page loop of one detection run equals the flat one-pass reading: lemmas OneRunSends
 and OneRunReads. The proof composes the effect of stretches of detections (Extends).
 */
module OneRun {
  import opened Wrappers
  import opened Keys
  import opened Repositories
  import opened DetectionRun

  function Room(policy: Policy, t: Tally): int {
    Max(policy.limit, 0) - t.processed
  }

  /** The run is inside its limit and has not been cut. */
  predicate Open(policy: Policy, t: Tally) {
    !t.cut && 0 <= t.processed <= Max(policy.limit, 0)
  }

  /** The in-window detections of ds that still fit the limit. */
  function Taken(policy: Policy, cutoff: int, t: Tally, ds: seq<Detection>): seq<Detection>
    requires Open(policy, t)
  {
    Upto(Windowed(cutoff, ds), Room(policy, t))
  }

  /** Going through ds took the tally from t to r, read flatly. */
  ghost predicate Extends(policy: Policy, cutoff: int, delivered: set<Key>, t: Tally, r: Tally, ds: seq<Detection>)
    requires Open(policy, t)
  {
    var notes := Notifiable(policy, Taken(policy, cutoff, t, ds));
    && (r.cut <==> |Windowed(cutoff, ds)| > Room(policy, t))
    && r.processed == t.processed + |Taken(policy, cutoff, t, ds)|
    && r.sent == t.sent + FirstOccurrences(delivered + KeysOf(t.sent), notes)
    && r.notified - t.notified == |r.sent| - |t.sent|
    && (r.notified - t.notified) + (r.duplicates - t.duplicates) == |notes|
    && r.collected - t.collected ==
         (r.notified - t.notified) + (r.duplicates - t.duplicates) + (r.skipped - t.skipped) + (if r.cut then 1 else 0)
  }

  lemma {:induction false} WindowedAppend(cutoff: int, a: seq<Detection>, b: seq<Detection>)
    ensures Windowed(cutoff, a + b) == Windowed(cutoff, a) + Windowed(cutoff, b)
  {
    if a == [] {
      assert a + b == b;
    } else {
      WindowedAppend(cutoff, a[1..], b);
      ConsAppend(a, b);
      Assoc(if InWindow(cutoff, a[0]) then [a[0]] else [], Windowed(cutoff, a[1..]), Windowed(cutoff, b));
    }
  }

  lemma {:induction false} NotifiableAppend(policy: Policy, a: seq<Detection>, b: seq<Detection>)
    ensures Notifiable(policy, a + b) == Notifiable(policy, a) + Notifiable(policy, b)
  {
    if a == [] {
      assert a + b == b;
    } else {
      NotifiableAppend(policy, a[1..], b);
      ConsAppend(a, b);
      Assoc(if a[0].severity.MeetsThreshold(policy.minSeverity) then [Note(policy.destination, a[0])] else [],
            Notifiable(policy, a[1..]), Notifiable(policy, b));
    }
  }

  lemma {:induction false} FirstOccurrencesAppend(seen: set<Key>, a: seq<Notification>, b: seq<Notification>)
    ensures FirstOccurrences(seen, a + b) ==
            FirstOccurrences(seen, a) + FirstOccurrences(seen + KeysOf(FirstOccurrences(seen, a)), b)
    decreases |a|
  {
    if a == [] {
      assert a + b == b;
      assert seen + KeysOf([]) == seen;
    } else {
      ConsAppend(a, b);
      if a[0].key in seen {
        FirstOccurrencesAppend(seen, a[1..], b);
      } else {
        var seen' := seen + {a[0].key};
        var rest := FirstOccurrences(seen', a[1..]);
        FirstOccurrencesAppend(seen', a[1..], b);
        assert ([a[0]] + rest)[1..] == rest;
        assert seen' + KeysOf(rest) == seen + KeysOf([a[0]] + rest);
        Assoc([a[0]], rest, FirstOccurrences(seen' + KeysOf(rest), b));
      }
    }
  }

  /** Two stretches in a row, the first of which left the run open. */
  lemma ExtendsCompose(policy: Policy, cutoff: int, delivered: set<Key>, t: Tally, m: Tally, r: Tally,
                       a: seq<Detection>, b: seq<Detection>)
    requires Open(policy, t) && Open(policy, m)
    requires Extends(policy, cutoff, delivered, t, m, a) && Extends(policy, cutoff, delivered, m, r, b)
    ensures Extends(policy, cutoff, delivered, t, r, a + b)
  {
    var ta, tb := Taken(policy, cutoff, t, a), Taken(policy, cutoff, m, b);
    var na, nb := Notifiable(policy, ta), Notifiable(policy, tb);
    var seen := delivered + KeysOf(t.sent);
    var sa := FirstOccurrences(seen, na);
    WindowedAppend(cutoff, a, b);
    UptoAppend(Windowed(cutoff, a), Windowed(cutoff, b), Room(policy, t));
    assert Taken(policy, cutoff, t, a + b) == ta + tb;
    NotifiableAppend(policy, ta, tb);
    FirstOccurrencesAppend(seen, na, nb);
    KeysOfAppend(t.sent, sa);
    assert delivered + KeysOf(m.sent) == seen + KeysOf(sa);
    Assoc(t.sent, sa, FirstOccurrences(seen + KeysOf(sa), nb));
  }

  /** Once the limit is used up, what lies further on does not matter. */
  lemma ExtendsFull(policy: Policy, cutoff: int, delivered: set<Key>, t: Tally, r: Tally, a: seq<Detection>,
                    b: seq<Detection>)
    requires Open(policy, t) && Extends(policy, cutoff, delivered, t, r, a)
    requires r.cut || (|Windowed(cutoff, a)| == Room(policy, t) && Windowed(cutoff, b) == [])
    ensures Extends(policy, cutoff, delivered, t, r, a + b)
  {
    WindowedAppend(cutoff, a, b);
    assert Taken(policy, cutoff, t, a + b) == Taken(policy, cutoff, t, a);
  }

  lemma VisitExtends(policy: Policy, cutoff: int, delivered: set<Key>, t: Tally, d: Detection)
    requires Open(policy, t)
    ensures var r := Visit(policy, cutoff, delivered, t, d);
            Extends(policy, cutoff, delivered, t, r, [d]) && (r.cut || Open(policy, r))
  {
    assert [d][1..] == [];
    if InWindow(cutoff, d) {
      assert Windowed(cutoff, [d]) == [d];
    } else {
      assert Windowed(cutoff, [d]) == [];
    }
    assert Notifiable(policy, []) == [];
    var n := Note(policy.destination, d);
    assert [n][1..] == [];
    assert FirstOccurrences(delivered + KeysOf(t.sent), [n]) ==
           if n.key in delivered + KeysOf(t.sent) then [] else [n];
  }

  lemma {:induction false} ScanPageExtends(policy: Policy, cutoff: int, delivered: set<Key>, t: Tally,
                                           ds: seq<Detection>)
    requires Open(policy, t)
    ensures var r := ScanPage(policy, cutoff, delivered, t, ds);
            Extends(policy, cutoff, delivered, t, r, ds) && (r.cut || Open(policy, r))
    decreases |ds|
  {
    if ds != [] {
      var m := Visit(policy, cutoff, delivered, t, ds[0]);
      VisitExtends(policy, cutoff, delivered, t, ds[0]);
      assert ds == [ds[0]] + ds[1..];
      if m.cut {
        ExtendsFull(policy, cutoff, delivered, t, m, [ds[0]], ds[1..]);
      } else {
        ScanPageExtends(policy, cutoff, delivered, m, ds[1..]);
        ExtendsCompose(policy, cutoff, delivered, t, m, ScanPage(policy, cutoff, delivered, t, ds), [ds[0]], ds[1..]);
      }
    }
  }

  // ---------------------------------------------------------------- whole pages

  function WindowCount(cutoff: int, pages: seq<Page>): nat {
    |Windowed(cutoff, Detections(pages))|
  }

  /**
   The loops fetched the first pages of `pages`, as many as the limit asks for, took in
   their detections, and stored the next tokens of those that were not cut.
   */
  ghost predicate ReadsPages(policy: Policy, cutoff: int, delivered: set<Key>, t: Tally, r: Tally, pages: seq<Page>)
    requires Open(policy, t)
  {
    var f := r.fetched - t.fetched;
    && 0 <= f <= |pages|
    && (f == 0 ==> pages == [])
    && (forall j :: 0 < j < |pages| ==> (j < f <==> WindowCount(cutoff, pages[..j]) < Room(policy, t)))
    && Extends(policy, cutoff, delivered, t, r, Detections(pages[..f]))
    && (r.cut ==> f > 0)
    && r.cursors == t.cursors + NextTokens(if r.cut then pages[..f - 1] else pages[..f])
  }

  lemma FirstPages(cutoff: int, page: Page, rest: seq<Page>, j: nat)
    requires 0 < j <= |rest| + 1
    ensures ([page] + rest)[..j] == [page] + rest[..j - 1]
    ensures Detections(([page] + rest)[..j]) == page.detections + Detections(rest[..j - 1])
    ensures WindowCount(cutoff, ([page] + rest)[..j]) == |Windowed(cutoff, page.detections)|
            + WindowCount(cutoff, rest[..j - 1])
    ensures NextTokens(([page] + rest)[..j]) == (if page.next.Some? then [page.next.value] else [])
            + NextTokens(rest[..j - 1])
  {
    assert ([page] + rest)[..j] == [page] + rest[..j - 1];
    ConsAppend([page], rest[..j - 1]);
    WindowedAppend(cutoff, page.detections, Detections(rest[..j - 1]));
  }

  /** The loop stops after its first page: it was cut, it was the last, or it filled the limit. */
  lemma StopsAtFirst(policy: Policy, cutoff: int, delivered: set<Key>, t: Tally, r: Tally, page: Page, rest: seq<Page>)
    requires Open(policy, t) && Extends(policy, cutoff, delivered, t, r, page.detections)
    requires r.fetched == t.fetched + 1
    requires r.cut || rest == [] || |Windowed(cutoff, page.detections)| == Room(policy, t)
    requires r.cursors == t.cursors + (if r.cut || page.next.None? then [] else [page.next.value])
    ensures ReadsPages(policy, cutoff, delivered, t, r, [page] + rest)
  {
    var pages := [page] + rest;
    forall j | 0 < j <= |pages|
      ensures WindowCount(cutoff, pages[..j]) == |Windowed(cutoff, page.detections)|
              + WindowCount(cutoff, rest[..j - 1])
    {
      FirstPages(cutoff, page, rest, j);
    }
    FirstPages(cutoff, page, rest, 1);
    assert page.detections + [] == page.detections;
    assert pages[..0] == [];
  }

  lemma {:induction false} ScanPagesReads(policy: Policy, cutoff: int, delivered: set<Key>, source: Source, t: Tally,
                                          token: Option<Token>)
    requires Open(policy, t) && t.fetched <= Max(policy.maxPages, 0)
    ensures ReadsPages(policy, cutoff, delivered, t, ScanPages(policy, cutoff, delivered, source, t, token),
                       Chain(source, token, Max(policy.maxPages, 0) - t.fetched))
    decreases Max(policy.maxPages, 0) - t.fetched
  {
    hide Extends, ReadsPages;
    var n := Max(policy.maxPages, 0) - t.fetched;
    if n == 0 {
      NothingRead(policy, cutoff, delivered, t);
    } else {
      var page := source(token);
      var m := PageScan(policy, cutoff, delivered, t, page);
      PageExtends(policy, cutoff, delivered, t, page);
      var rest := if page.next.None? then [] else Chain(source, page.next, n - 1);
      assert Chain(source, token, n) == [page] + rest;
      if GoesOn(policy, m, page) {
        ScanPagesReads(policy, cutoff, delivered, source, m, page.next);
        TwoStretches(policy, cutoff, delivered, t, m, ScanPages(policy, cutoff, delivered, source, m, page.next),
                     page, rest);
      } else {
        StopsAtFirst(policy, cutoff, delivered, t, m, page, rest);
      }
    }
  }

  lemma PageExtends(policy: Policy, cutoff: int, delivered: set<Key>, t: Tally, page: Page)
    requires Open(policy, t)
    ensures var m := PageScan(policy, cutoff, delivered, t, page);
            && Extends(policy, cutoff, delivered, t, m, page.detections)
            && (m.cut || (Open(policy, m) && |Windowed(cutoff, page.detections)| == Room(policy, t) - Room(policy, m)))
            && m.fetched == t.fetched + 1
            && m.cursors == t.cursors + (if m.cut || page.next.None? then [] else [page.next.value])
  {
    ScanPageExtends(policy, cutoff, delivered, t.(fetched := t.fetched + 1), page.detections);
  }

  lemma NothingRead(policy: Policy, cutoff: int, delivered: set<Key>, t: Tally)
    requires Open(policy, t)
    ensures ReadsPages(policy, cutoff, delivered, t, t, [])
  {
    assert t.sent + [] == t.sent && t.cursors + [] == t.cursors;
  }

  /** The loop goes on after its first page. */
  lemma TwoStretches(policy: Policy, cutoff: int, delivered: set<Key>, t: Tally, m: Tally, r: Tally, page: Page,
                     rest: seq<Page>)
    requires Open(policy, t) && Open(policy, m) && page.next.Some?
    requires Extends(policy, cutoff, delivered, t, m, page.detections) && 0 < Room(policy, m)
    requires m.fetched == t.fetched + 1 && m.cursors == t.cursors + [page.next.value]
    requires ReadsPages(policy, cutoff, delivered, m, r, rest)
    ensures ReadsPages(policy, cutoff, delivered, t, r, [page] + rest)
  {
    var pages, f' := [page] + rest, r.fetched - m.fetched;
    UptoAppend(Windowed(cutoff, page.detections), [], Room(policy, t));
    assert Room(policy, m) == Room(policy, t) - |Windowed(cutoff, page.detections)|;
    forall j | 0 < j < |pages|
      ensures j < f' + 1 <==> WindowCount(cutoff, pages[..j]) < Room(policy, t)
    {
      FirstPages(cutoff, page, rest, j);
      if j == 1 {
        assert rest[..0] == [];
      }
    }
    FirstPages(cutoff, page, rest, f' + 1);
    ExtendsCompose(policy, cutoff, delivered, t, m, r, page.detections, Detections(rest[..f']));
    if r.cut {
      FirstPages(cutoff, page, rest, f');
    }
    Assoc(t.cursors, [page.next.value], NextTokens(if r.cut then rest[..f' - 1] else rest[..f']));
  }

  /** The window holds all detections without a time or with a time not before the cutoff, and no other. */
  lemma {:induction false} WindowedRecent(cutoff: int, ds: seq<Detection>)
    ensures |Windowed(cutoff, ds)| == RecentCount(cutoff, ds)
    ensures forall d :: d in Windowed(cutoff, ds) ==> d.occurredAt == None || cutoff <= d.occurredAt.value
  {
    if ds != [] {
      WindowedRecent(cutoff, ds[1..]);
    }
  }

  predicate AreRecent(cutoff: int, ds: seq<Detection>) {
    forall d :: d in ds ==> d.occurredAt == None || cutoff <= d.occurredAt.value
  }

  lemma ConsideredRecent(policy: Policy, cutoff: int, ds: seq<Detection>)
    ensures AreRecent(cutoff, Considered(policy, cutoff, ds))
    ensures |Considered(policy, cutoff, ds)| == Min(Max(policy.limit, 0), RecentCount(cutoff, ds))
  {
    WindowedRecent(cutoff, ds);
  }

  /**
   What one whole run sends: exactly the first occurrences of undelivered keys meeting the
   threshold among the first `limit` in-window detections of the pages it may fetch.
   */
  lemma OneRunSends(policy: Policy, cutoff: int, delivered: set<Key>, source: Source, token: Option<Token>)
    ensures var r := Collect(policy, cutoff, delivered, source, token);
            var all := Detections(Chain(source, token, Max(policy.maxPages, 0)));
            var considered := Considered(policy, cutoff, all);
            && AreRecent(cutoff, considered)
            && |considered| == Min(Max(policy.limit, 0), RecentCount(cutoff, all))
            && r.sent == FirstOccurrences(delivered, Notifiable(policy, considered))
            && r.notified == |r.sent| <= Max(policy.limit, 0)
            && r.notified + r.duplicates == |Notifiable(policy, considered)|
  {
    var chain := Chain(source, token, Max(policy.maxPages, 0));
    var f := Collect(policy, cutoff, delivered, source, token).fetched;
    ScanPagesReads(policy, cutoff, delivered, source, ZERO, token);
    LimitFilled(policy, cutoff, chain, f);
    var considered := Considered(policy, cutoff, Detections(chain));
    assert Taken(policy, cutoff, ZERO, Detections(chain[..f])) == considered;
    assert delivered + KeysOf(ZERO.sent) == delivered;
    ConsideredRecent(policy, cutoff, Detections(chain));
    FewerNotifiable(policy, considered);
    FewerOccurrences(delivered, Notifiable(policy, considered));
  }

  /**
   How far one whole run reads: it fetches no more pages than its cap, and a page exactly
   when the pages before hold fewer in-window detections than the limit; it is cut exactly
   when the fetched pages hold more than the limit; it stores the next tokens of the pages
   it completed, in order; and every detection it read is accounted for.
   */
  lemma OneRunReads(policy: Policy, cutoff: int, delivered: set<Key>, source: Source, token: Option<Token>)
    ensures var r := Collect(policy, cutoff, delivered, source, token);
            var chain := Chain(source, token, Max(policy.maxPages, 0));
            && 0 <= r.fetched <= |chain| <= Max(policy.maxPages, 0) && (r.fetched == 0 <==> policy.maxPages <= 0)
            && (forall j :: 0 < j < |chain| ==> (j < r.fetched <==> WindowCount(cutoff, chain[..j]) < policy.limit))
            && (r.cut <==> WindowCount(cutoff, chain[..r.fetched]) > Max(policy.limit, 0))
            && (r.cut ==> r.fetched > 0)
            && r.cursors == NextTokens(if r.cut then chain[..r.fetched - 1] else chain[..r.fetched])
            && r.collected == r.notified + r.duplicates + r.skipped + (if r.cut then 1 else 0)
  {
    ScanPagesReads(policy, cutoff, delivered, source, ZERO, token);
    ChainLength(source, token, Max(policy.maxPages, 0));
  }

  lemma {:induction false} ChainLength(source: Source, token: Option<Token>, n: nat)
    ensures |Chain(source, token, n)| <= n
    decreases n
  {
    if n > 0 && source(token).next.Some? {
      ChainLength(source, source(token).next, n - 1);
    }
  }

  lemma LimitFilled(policy: Policy, cutoff: int, chain: seq<Page>, f: nat)
    requires f <= |chain|
    requires f < |chain| ==> WindowCount(cutoff, chain[..f]) >= Max(policy.limit, 0)
    ensures Considered(policy, cutoff, Detections(chain[..f])) == Considered(policy, cutoff, Detections(chain))
  {
    assert chain == chain[..f] + chain[f..];
    DetectionsAppend(chain[..f], chain[f..]);
    WindowedAppend(cutoff, Detections(chain[..f]), Detections(chain[f..]));
    if f == |chain| {
      assert chain[f..] == [];
      assert Detections(chain[f..]) == [];
    }
  }

  lemma {:induction false} DetectionsAppend(a: seq<Page>, b: seq<Page>)
    ensures Detections(a + b) == Detections(a) + Detections(b)
  {
    if a == [] {
      assert a + b == b;
    } else {
      DetectionsAppend(a[1..], b);
      ConsAppend(a, b);
      Assoc(a[0].detections, Detections(a[1..]), Detections(b));
    }
  }

  lemma FewerNotifiable(policy: Policy, ds: seq<Detection>)
    ensures |Notifiable(policy, ds)| <= |ds|
  {
  }

  lemma FewerOccurrences(seen: set<Key>, notes: seq<Notification>)
    ensures |FirstOccurrences(seen, notes)| <= |notes|
    decreases |notes|
  {
    if notes != [] {
      FewerOccurrences(seen, notes[1..]);
      FewerOccurrences(seen + {notes[0].key}, notes[1..]);
    }
  }
}
