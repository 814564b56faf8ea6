/**
 Runs one after the other over a finite paged source: when they reach everything, and
 when they are stuck for good.
 */
module Progress {
  import opened Wrappers
  import opened Keys
  import opened Severities
  import opened Repositories
  import opened DetectionRun
  import opened OneRun

  // ----------------------------------------------------------- a finite source

  /** No token asks for page 0; token i asks for page i. */
  function Index(token: Option<Token>): nat {
    if token.None? then 0 else token.value
  }

  function PageAt(pages: seq<seq<Detection>>, i: nat): Page {
    if i < |pages| then Page(pages[i], if i + 1 < |pages| then Some(i + 1) else None) else Page([], None)
  }

  function Paged(pages: seq<seq<Detection>>): Source {
    token => PageAt(pages, Index(token))
  }

  // ------------------------------------------------------------------ safety

  predicate Eligible(minSeverity: Severity, cutoff: int, d: Detection) {
    InWindow(cutoff, d) && d.severity.MeetsThreshold(minSeverity)
  }

  /** Every detection is older than the cutoff, below the threshold, or delivered. */
  predicate Safe(policy: Policy, cutoff: int, delivered: set<Key>, ds: seq<Detection>) {
    forall d :: d in ds && Eligible(policy.minSeverity, cutoff, d) ==> DetectionKey(policy.destination, d) in delivered
  }

  /** Every page before page i is safe. */
  predicate SafeBefore(policy: Policy, cutoff: int, delivered: set<Key>, pages: seq<seq<Detection>>, i: int) {
    forall k :: 0 <= k < i && k < |pages| ==> Safe(policy, cutoff, delivered, pages[k])
  }

  lemma {:induction false} ScanPageSafe(policy: Policy, cutoff: int, delivered: set<Key>, t: Tally, ds: seq<Detection>)
    requires !ScanPage(policy, cutoff, delivered, t, ds).cut
    ensures Safe(policy, cutoff, delivered + KeysOf(ScanPage(policy, cutoff, delivered, t, ds).sent), ds)
    decreases |ds|
  {
    if ds != [] {
      var m := Visit(policy, cutoff, delivered, t, ds[0]);
      ScanPageSafe(policy, cutoff, delivered, m, ds[1..]);
      ScanPageGrows(policy, cutoff, delivered, m, ds[1..]);
      KeysGrow(m.sent, ScanPage(policy, cutoff, delivered, m, ds[1..]).sent);
      KeysOfAppend(t.sent, [Note(policy.destination, ds[0])]);
    }
  }

  lemma KeysGrow(a: seq<Notification>, b: seq<Notification>)
    requires a <= b
    ensures KeysOf(a) <= KeysOf(b)
  {
    assert b == a + b[|a|..];
    KeysOfAppend(a, b[|a|..]);
  }

  /**
   The outer loop from page Index(token) on: the cursor it ends with is not smaller, every
   page passed is safe and held no more in-window detections than the limit, and the
   first page is passed or, if it is the last one, safe when it fits.
   */
  lemma {:induction false} ScanPagesPasses(policy: Policy, cutoff: int, delivered: set<Key>,
                                           pages: seq<seq<Detection>>, t: Tally, token: Option<Token>,
                                           start: Option<Token>)
    requires Open(policy, t) && t.fetched <= Max(policy.maxPages, 0)
    requires Index(token) < |pages| && LastToken(t, start) == token
    ensures var r := ScanPages(policy, cutoff, delivered, Paged(pages), t, token);
            var c, e := Index(token), Index(LastToken(r, start));
            && c <= e < |pages|
            && (forall k :: c <= k < e ==> Safe(policy, cutoff, delivered + KeysOf(r.sent), pages[k]))
            && (forall k :: c <= k < e ==> |Windowed(cutoff, pages[k])| <= Max(policy.limit, 0))
            && (t.fetched < Max(policy.maxPages, 0) && |Windowed(cutoff, pages[c])| <= Room(policy, t) ==>
                  e > c || (c == |pages| - 1 && Safe(policy, cutoff, delivered + KeysOf(r.sent), pages[c])))
    decreases Max(policy.maxPages, 0) - t.fetched
  {
    hide Extends, ScanPage;
    if t.fetched < Max(policy.maxPages, 0) {
      var page := Paged(pages)(token);
      var t1 := t.(fetched := t.fetched + 1);
      var m := PageScan(policy, cutoff, delivered, t, page);
      PageExtends(policy, cutoff, delivered, t, page);
      if !m.cut {
        ScanPageSafe(policy, cutoff, delivered, t1, page.detections);
      }
      if GoesOn(policy, m, page) {
        var r := ScanPages(policy, cutoff, delivered, Paged(pages), m, page.next);
        ScanPagesPasses(policy, cutoff, delivered, pages, m, page.next, start);
        ScanPagesGrows(policy, cutoff, delivered, Paged(pages), m, page.next);
        KeysGrow(m.sent, r.sent);
      }
    }
  }

  // --------------------------------------------------------- runs in a row

  /** The tables a run starts from. */
  datatype Tables = Tables(log: seq<RunRow>, delivered: set<Key>)

  /** What a run without exceptions leaves, as CollectDetections proves of Execute. */
  function RunOnce(policy: Policy, cutoff: int, source: Source, db: Tables): Tables {
    var start := LatestToken(db.log);
    var r := Collect(policy, cutoff, db.delivered, source, start);
    Tables(db.log + CursorRows(r.cursors) + [Succeeded(ResultOf(r), LastToken(r, start))],
           db.delivered + KeysOf(r.sent))
  }

  /** Non-overlapping runs with the given cutoffs. */
  function RunAll(policy: Policy, cutoffs: seq<int>, source: Source, db: Tables): Tables {
    if cutoffs == [] then db else RunAll(policy, cutoffs[1..], source, RunOnce(policy, cutoffs[0], source, db))
  }

  /** The clock does not go backwards. */
  predicate Rising(cutoffs: seq<int>) {
    forall i, j :: 0 <= i < j < |cutoffs| ==> cutoffs[i] <= cutoffs[j]
  }

  lemma SafeStays(policy: Policy, cutoff: int, cutoff': int, delivered: set<Key>, delivered': set<Key>,
                  pages: seq<seq<Detection>>, i: int)
    requires SafeBefore(policy, cutoff, delivered, pages, i) && cutoff <= cutoff' && delivered <= delivered'
    ensures SafeBefore(policy, cutoff', delivered', pages, i)
  {
    forall k | 0 <= k < i && k < |pages|
      ensures Safe(policy, cutoff', delivered', pages[k])
    {
      assert Safe(policy, cutoff, delivered, pages[k]);
    }
  }

  /** One run from a safe cursor. */
  lemma RunOncePasses(policy: Policy, cutoff: int, pages: seq<seq<Detection>>, db: Tables)
    requires Index(LatestToken(db.log)) < |pages|
    requires SafeBefore(policy, cutoff, db.delivered, pages, Index(LatestToken(db.log)))
    ensures var db' := RunOnce(policy, cutoff, Paged(pages), db);
            var c, e := Index(LatestToken(db.log)), Index(LatestToken(db'.log));
            && c <= e < |pages| && db.delivered <= db'.delivered
            && SafeBefore(policy, cutoff, db'.delivered, pages, e)
            && (forall k :: c <= k < e ==> |Windowed(cutoff, pages[k])| <= Max(policy.limit, 0))
            && (policy.maxPages >= 1 && |Windowed(cutoff, pages[c])| <= policy.limit ==>
                  e > c || SafeBefore(policy, cutoff, db'.delivered, pages, |pages|))
  {
    hide ScanPages, Windowed, Safe;
    var start := LatestToken(db.log);
    ScanPagesPasses(policy, cutoff, db.delivered, pages, ZERO, start, start);
    var db' := RunOnce(policy, cutoff, Paged(pages), db);
    SafeStays(policy, cutoff, cutoff, db.delivered, db'.delivered, pages, Index(start));
  }

  /**
   Progress. If no page holds more in-window detections than the limit and a run may fetch
   a page at all, then as many runs as there are pages, from any safe cursor, deliver
   every key that is still eligible when the last one starts.
   */
  lemma EverythingIsDelivered(policy: Policy, cutoffs: seq<int>, pages: seq<seq<Detection>>, db: Tables)
    requires policy.maxPages >= 1 && |cutoffs| >= |pages| > 0 && Rising(cutoffs)
    requires forall ds :: ds in pages ==> |Windowed(cutoffs[0], ds)| <= policy.limit
    requires Index(LatestToken(db.log)) < |pages|
    requires SafeBefore(policy, cutoffs[0], db.delivered, pages, Index(LatestToken(db.log)))
    ensures SafeBefore(policy, cutoffs[|cutoffs| - 1], RunAll(policy, cutoffs, Paged(pages), db).delivered, pages,
                       |pages|)
  {
    RunAllPasses(policy, cutoffs, pages, db, cutoffs[0]);
  }

  lemma {:induction false} NarrowerWindow(cutoff: int, cutoff': int, ds: seq<Detection>)
    requires cutoff <= cutoff'
    ensures |Windowed(cutoff', ds)| <= |Windowed(cutoff, ds)|
  {
    if ds != [] {
      NarrowerWindow(cutoff, cutoff', ds[1..]);
    }
  }

  lemma {:induction false} RunAllPasses(policy: Policy, cutoffs: seq<int>, pages: seq<seq<Detection>>, db: Tables,
                                        cutoff: int)
    requires policy.maxPages >= 1 && Rising(cutoffs) && (cutoffs != [] ==> cutoff <= cutoffs[0])
    requires forall ds :: ds in pages ==> |Windowed(cutoff, ds)| <= policy.limit
    requires Index(LatestToken(db.log)) < |pages|
    requires SafeBefore(policy, cutoff, db.delivered, pages, Index(LatestToken(db.log)))
             || SafeBefore(policy, cutoff, db.delivered, pages, |pages|)
    ensures var db' := RunAll(policy, cutoffs, Paged(pages), db);
            var last := if cutoffs == [] then cutoff else cutoffs[|cutoffs| - 1];
            && Index(LatestToken(db'.log)) < |pages|
            && (SafeBefore(policy, cutoff, db.delivered, pages, |pages|) ==>
                  SafeBefore(policy, last, db'.delivered, pages, |pages|))
            && (|| SafeBefore(policy, last, db'.delivered, pages, |pages|)
                || (Index(LatestToken(db'.log)) >= Index(LatestToken(db.log)) + |cutoffs|
                    && SafeBefore(policy, last, db'.delivered, pages, Index(LatestToken(db'.log)))))
    decreases |cutoffs|
  {
    if cutoffs != [] {
      var c := Index(LatestToken(db.log));
      var next := cutoffs[0];
      forall ds | ds in pages
        ensures |Windowed(next, ds)| <= policy.limit
      {
        NarrowerWindow(cutoff, next, ds);
      }
      var all := SafeBefore(policy, cutoff, db.delivered, pages, |pages|);
      SafeStays(policy, cutoff, next, db.delivered, db.delivered, pages, if all then |pages| else c);
      var db' := RunOnce(policy, next, Paged(pages), db);
      RunOncePasses(policy, next, pages, db);
      if all {
        SafeStays(policy, next, next, db.delivered, db'.delivered, pages, |pages|);
      }
      assert |cutoffs| > 1 ==> cutoffs[1..][|cutoffs| - 2] == cutoffs[|cutoffs| - 1];
      RunAllPasses(policy, cutoffs[1..], pages, db', next);
    }
  }

  /**
   The hypothesis on page sizes is what decides: runs never get past a page that holds
   more in-window detections than the limit at each of their cutoffs.
   */
  lemma {:induction false} NeverPastAFullPage(policy: Policy, cutoffs: seq<int>, pages: seq<seq<Detection>>,
                                              db: Tables, full: nat)
    requires Index(LatestToken(db.log)) <= full < |pages|
    requires forall k :: 0 <= k < |cutoffs| ==> |Windowed(cutoffs[k], pages[full])| > Max(policy.limit, 0)
    ensures Index(LatestToken(RunAll(policy, cutoffs, Paged(pages), db).log)) <= full
    decreases |cutoffs|
  {
    if cutoffs != [] {
      var start := LatestToken(db.log);
      ScanPagesPasses(policy, cutoffs[0], db.delivered, pages, ZERO, start, start);
      assert |Windowed(cutoffs[0], pages[full])| > Max(policy.limit, 0);
      NeverPastAFullPage(policy, cutoffs[1..], pages, RunOnce(policy, cutoffs[0], Paged(pages), db), full);
    }
  }

  /** One run passes the page it starts from, if that page fits the limit and is not the last one. */
  lemma RunOnceAdvances(policy: Policy, cutoff: int, pages: seq<seq<Detection>>, db: Tables)
    requires policy.maxPages >= 1 && Index(LatestToken(db.log)) + 1 < |pages|
    requires |Windowed(cutoff, pages[Index(LatestToken(db.log))])| <= policy.limit
    ensures Index(LatestToken(RunOnce(policy, cutoff, Paged(pages), db).log)) > Index(LatestToken(db.log))
  {
    var start := LatestToken(db.log);
    ScanPagesPasses(policy, cutoff, db.delivered, pages, ZERO, start, start);
  }

  /** While the pages before page `full` fit, every run passes at least one of them, safely. */
  lemma {:induction false} RunsAdvance(policy: Policy, cutoffs: seq<int>, pages: seq<seq<Detection>>, db: Tables,
                                       cutoff: int, full: nat)
    requires policy.maxPages >= 1 && Rising(cutoffs) && (cutoffs != [] ==> cutoff <= cutoffs[0])
    requires full < |pages| && forall k :: 0 <= k < full ==> |Windowed(cutoff, pages[k])| <= policy.limit
    requires Index(LatestToken(db.log)) < |pages|
    requires SafeBefore(policy, cutoff, db.delivered, pages, Index(LatestToken(db.log)))
    ensures var db' := RunAll(policy, cutoffs, Paged(pages), db);
            var c, e := Index(LatestToken(db.log)), Index(LatestToken(db'.log));
            && c <= e < |pages| && e >= Min(full, c + |cutoffs|)
            && SafeBefore(policy, if cutoffs == [] then cutoff else cutoffs[|cutoffs| - 1], db'.delivered, pages, e)
    decreases |cutoffs|
  {
    if cutoffs != [] {
      var c, next := Index(LatestToken(db.log)), cutoffs[0];
      forall k | 0 <= k < full
        ensures |Windowed(next, pages[k])| <= policy.limit
      {
        NarrowerWindow(cutoff, next, pages[k]);
      }
      SafeStays(policy, cutoff, next, db.delivered, db.delivered, pages, c);
      RunOncePasses(policy, next, pages, db);
      if c < full {
        RunOnceAdvances(policy, next, pages, db);
      }
      assert |cutoffs| > 1 ==> cutoffs[1..][|cutoffs| - 2] == cutoffs[|cutoffs| - 1];
      RunsAdvance(policy, cutoffs[1..], pages, RunOnce(policy, next, Paged(pages), db), next, full);
    }
  }

  /**
   Where runs end up. If the pages before page `full` fit the limit and page `full` holds
   more at every cutoff, then as many runs as there are pages in between leave the cursor
   exactly at page `full`, and everything before it is safe.
   */
  lemma StopsAtFullPage(policy: Policy, cutoffs: seq<int>, pages: seq<seq<Detection>>, db: Tables, full: nat)
    requires policy.maxPages >= 1 && Rising(cutoffs) && cutoffs != []
    requires Index(LatestToken(db.log)) <= full < |pages| && |cutoffs| >= full - Index(LatestToken(db.log))
    requires SafeBefore(policy, cutoffs[0], db.delivered, pages, Index(LatestToken(db.log)))
    requires forall k :: 0 <= k < full ==> |Windowed(cutoffs[0], pages[k])| <= policy.limit
    requires forall k :: 0 <= k < |cutoffs| ==> |Windowed(cutoffs[k], pages[full])| > Max(policy.limit, 0)
    ensures var db' := RunAll(policy, cutoffs, Paged(pages), db);
            && Index(LatestToken(db'.log)) == full
            && SafeBefore(policy, cutoffs[|cutoffs| - 1], db'.delivered, pages, full)
  {
    RunsAdvance(policy, cutoffs, pages, db, cutoffs[0], full);
    NeverPastAFullPage(policy, cutoffs, pages, db, full);
  }

  /** Of any source: the first page a run reads is passed exactly when it fits the limit. */
  lemma FirstPageDecides(policy: Policy, cutoff: int, source: Source, db: Tables)
    requires policy.maxPages >= 1 && source(LatestToken(db.log)).next.Some?
    ensures Collect(policy, cutoff, db.delivered, source, LatestToken(db.log)).cursors == []
       <==> |Windowed(cutoff, source(LatestToken(db.log)).detections)| > Max(policy.limit, 0)
  {
    var start := LatestToken(db.log);
    var page := source(start);
    PageExtends(policy, cutoff, db.delivered, ZERO, page);
    var m := PageScan(policy, cutoff, db.delivered, ZERO, page);
    if GoesOn(policy, m, page) {
      ScanPagesGrows(policy, cutoff, db.delivered, source, m, page.next);
    }
  }

  /**
   Stuck. If the first page read holds more in-window detections than the limit, the run
   leaves the cursor where it was, and any number of further identical runs send nothing
   and leave the cursor there too.
   */
  lemma FullFirstPageIsStuck(policy: Policy, cutoff: int, source: Source, db: Tables, n: nat)
    requires policy.maxPages >= 1
    requires |Windowed(cutoff, source(LatestToken(db.log)).detections)| > Max(policy.limit, 0)
    ensures var db' := RunOnce(policy, cutoff, source, db);
            var db'' := RunAll(policy, seq(n, _ => cutoff), source, db');
            && LatestToken(db'.log) == LatestToken(db''.log) == LatestToken(db.log)
            && db''.delivered == db'.delivered
            && Collect(policy, cutoff, db''.delivered, source, LatestToken(db''.log)).sent == []
  {
    var token := LatestToken(db.log);
    var db' := RunOnce(policy, cutoff, source, db);
    CutAtOnce(policy, cutoff, db.delivered, source, token);
    CutAtOnce(policy, cutoff, db'.delivered, source, token);
    var taken := Notifiable(policy, Upto(Windowed(cutoff, source(token).detections), Max(policy.limit, 0)));
    FirstOccurrencesKeys(db.delivered, taken);
    NothingNew(db'.delivered, taken);
    StaysStuck(policy, cutoff, source, db', n);
  }

  /** A run that is cut in its first page. */
  lemma CutAtOnce(policy: Policy, cutoff: int, delivered: set<Key>, source: Source, token: Option<Token>)
    requires policy.maxPages >= 1
    requires |Windowed(cutoff, source(token).detections)| > Max(policy.limit, 0)
    ensures var r := Collect(policy, cutoff, delivered, source, token);
            && r.cursors == [] && LastToken(r, token) == token
            && r.sent ==
               FirstOccurrences(delivered,
                                Notifiable(policy,
                                           Upto(Windowed(cutoff, source(token).detections), Max(policy.limit, 0))))
  {
    PageExtends(policy, cutoff, delivered, ZERO, source(token));
    assert delivered + KeysOf(ZERO.sent) == delivered;
  }

  lemma {:induction false} NothingNew(seen: set<Key>, notes: seq<Notification>)
    requires KeysOf(notes) <= seen
    ensures FirstOccurrences(seen, notes) == []
    decreases |notes|
  {
    if notes != [] {
      NothingNew(seen, notes[1..]);
    }
  }

  lemma {:induction false} StaysStuck(policy: Policy, cutoff: int, source: Source, db: Tables, n: nat)
    requires var r := Collect(policy, cutoff, db.delivered, source, LatestToken(db.log));
             r.sent == [] && r.cursors == []
    ensures var db' := RunAll(policy, seq(n, _ => cutoff), source, db);
            && LatestToken(db'.log) == LatestToken(db.log) && db'.delivered == db.delivered
            && Collect(policy, cutoff, db'.delivered, source, LatestToken(db'.log)).sent == []
    decreases n
  {
    if n > 0 {
      var db' := RunOnce(policy, cutoff, source, db);
      assert db'.delivered == db.delivered;
      assert seq(n, _ => cutoff)[1..] == seq(n - 1, _ => cutoff);
      StaysStuck(policy, cutoff, source, db', n - 1);
    }
  }
}
