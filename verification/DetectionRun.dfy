/**
 One run of CollectAndNotifyDetections as a function: the nested loops over pages and
 detections (ScanPage, ScanPages), and the flat one-pass reading they are proved equal to.
 */
module DetectionRun {
  import opened Wrappers
  import opened Keys
  import opened Severities
  import opened Repositories

  /** A raw detection with its parsed occurTime (None when absent or unreadable) and severity. */
  datatype Detection = Detection(record: Record, occurredAt: Option<int>, severity: Severity)

  datatype Page = Page(detections: seq<Detection>, next: Option<Token>)

  type Source = Option<Token> -> Page

  datatype Policy = Policy(limit: int, maxPages: int, minSeverity: Severity, destination: string)

  predicate InWindow(cutoff: int, d: Detection) {
    d.occurredAt.None? || cutoff <= d.occurredAt.value
  }

  function DetectionKey(destination: string, d: Detection): Key {
    KeyOf(DetectionKind, destination, d.record)
  }

  function Note(destination: string, d: Detection): Notification {
    NoteOf(DetectionKind, destination, d.record)
  }

  // ------------------------------------------------------------------ the loops

  /** What the loop body decides about one detection before it touches a table. */
  datatype Verdict = Old | Cut | Below | Candidate

  function Judge(policy: Policy, cutoff: int, processed: int, d: Detection): Verdict {
    if !InWindow(cutoff, d) then Old
    else if processed >= policy.limit then Cut
    else if !d.severity.MeetsThreshold(policy.minSeverity) then Below
    else Candidate
  }

  /** The local variables of the loops, with what was sent and stored so far. */
  datatype Tally = Tally(
    collected: int,
    notified: int,
    duplicates: int,
    skipped: int,
    processed: int,
    fetched: int,
    observed: set<string>,
    sent: seq<Notification>,
    cursors: seq<Token>,
    cut: bool)

  const ZERO := Tally(0, 0, 0, 0, 0, 0, {}, [], [], false)

  predicate Known(policy: Policy, delivered: set<Key>, t: Tally, d: Detection) {
    DetectionKey(policy.destination, d) in delivered + KeysOf(t.sent)
  }

  /** The counters that change before the verdict. */
  function Met(t: Tally, d: Detection): Tally {
    t.(collected := t.collected + 1, observed := t.observed + d.record.Keys)
  }

  function AsDuplicate(t: Tally): Tally {
    t.(duplicates := t.duplicates + 1)
  }

  function AsNotified(t: Tally, note: Notification): Tally {
    t.(notified := t.notified + 1, sent := t.sent + [note])
  }

  /** The counters after the verdict; for a candidate, before its delivery. */
  function Counted(policy: Policy, cutoff: int, t: Tally, d: Detection): Tally {
    var t := Met(t, d);
    match Judge(policy, cutoff, t.processed, d)
    case Old => t.(skipped := t.skipped + 1)
    case Cut => t.(cut := true)
    case Below => t.(processed := t.processed + 1, skipped := t.skipped + 1)
    case Candidate => t.(processed := t.processed + 1)
  }

  /** One iteration of the inner loop. */
  function Visit(policy: Policy, cutoff: int, delivered: set<Key>, t: Tally, d: Detection): Tally {
    var t' := Counted(policy, cutoff, t, d);
    if !Judge(policy, cutoff, t.processed, d).Candidate? then t'
    else if Known(policy, delivered, t, d) then AsDuplicate(t')
    else AsNotified(t', Note(policy.destination, d))
  }

  function ScanPage(policy: Policy, cutoff: int, delivered: set<Key>, t: Tally, ds: seq<Detection>): (r: Tally)
    ensures r.fetched == t.fetched && r.cursors == t.cursors
    decreases |ds|
  {
    if ds == [] || t.cut then t
    else ScanPage(policy, cutoff, delivered, Visit(policy, cutoff, delivered, t, ds[0]), ds[1..])
  }

  /** A completed page with a next token: save_cursor. */
  function Turned(t: Tally, page: Page): Tally {
    if !t.cut && page.next.Some? then t.(cursors := t.cursors + [page.next.value]) else t
  }

  /** Fetch a page, go through it, and store its next token when it was completed. */
  function PageScan(policy: Policy, cutoff: int, delivered: set<Key>, t: Tally, page: Page): (r: Tally)
    ensures r.fetched == t.fetched + 1
  {
    Turned(ScanPage(policy, cutoff, delivered, t.(fetched := t.fetched + 1), page.detections), page)
  }

  predicate GoesOn(policy: Policy, t: Tally, page: Page) {
    !t.cut && page.next.Some? && t.processed < policy.limit
  }

  /** The outer loop from a page token on. */
  function ScanPages(policy: Policy, cutoff: int, delivered: set<Key>, source: Source, t: Tally,
                     token: Option<Token>): Tally
    decreases Max(policy.maxPages, 0) - t.fetched
  {
    if t.fetched >= Max(policy.maxPages, 0) then t
    else
      var page := source(token);
      var m := PageScan(policy, cutoff, delivered, t, page);
      if GoesOn(policy, m, page) then ScanPages(policy, cutoff, delivered, source, m, page.next) else m
  }

  lemma {:induction false} ScanPageGrows(policy: Policy, cutoff: int, delivered: set<Key>, t: Tally, ds: seq<Detection>)
    ensures t.sent <= ScanPage(policy, cutoff, delivered, t, ds).sent
    decreases |ds|
  {
    if ds != [] && !t.cut {
      ScanPageGrows(policy, cutoff, delivered, Visit(policy, cutoff, delivered, t, ds[0]), ds[1..]);
    }
  }

  lemma {:induction false} ScanPagesGrows(policy: Policy, cutoff: int, delivered: set<Key>, source: Source, t: Tally,
                                          token: Option<Token>)
    ensures var r := ScanPages(policy, cutoff, delivered, source, t, token); t.sent <= r.sent && t.cursors <= r.cursors
    decreases Max(policy.maxPages, 0) - t.fetched
  {
    if t.fetched < Max(policy.maxPages, 0) {
      var page := source(token);
      ScanPageGrows(policy, cutoff, delivered, t.(fetched := t.fetched + 1), page.detections);
      var m := PageScan(policy, cutoff, delivered, t, page);
      if GoesOn(policy, m, page) {
        ScanPagesGrows(policy, cutoff, delivered, source, m, page.next);
      }
    }
  }

  /** One turn of the outer loop, seen from the plan the loop is heading for. */
  lemma PlanStep(policy: Policy, cutoff: int, delivered: set<Key>, source: Source, t: Tally, token: Option<Token>,
                 plan: Tally)
    requires t.fetched < Max(policy.maxPages, 0) && ScanPages(policy, cutoff, delivered, source, t, token) == plan
    ensures var page := source(token);
            var m := PageScan(policy, cutoff, delivered, t, page);
            && t.sent <= m.sent <= plan.sent && t.cursors <= m.cursors <= plan.cursors
            && (if GoesOn(policy, m, page) then ScanPages(policy, cutoff, delivered, source, m, page.next) == plan
                else m == plan)
  {
    var page := source(token);
    var m := PageScan(policy, cutoff, delivered, t, page);
    ScanPageGrows(policy, cutoff, delivered, t.(fetched := t.fetched + 1), page.detections);
    if GoesOn(policy, m, page) {
      ScanPagesGrows(policy, cutoff, delivered, source, m, page.next);
    }
  }

  function Collect(policy: Policy, cutoff: int, delivered: set<Key>, source: Source, token: Option<Token>): Tally {
    ScanPages(policy, cutoff, delivered, source, ZERO, token)
  }

  /** The token save_success stores: the last one saved, or the starting one. */
  function LastToken(t: Tally, start: Option<Token>): Option<Token> {
    if t.cursors == [] then start else Some(t.cursors[|t.cursors| - 1])
  }

  function CursorRows(cursors: seq<Token>): seq<RunRow> {
    seq(|cursors|, i requires 0 <= i < |cursors| => Running(Some(cursors[i])))
  }

  function ResultOf(t: Tally): CollectionResult {
    CollectionResult(t.collected, t.notified, t.duplicates, 0, t.skipped, t.observed)
  }

  // ------------------------------------------------------------ the flat reading

  /** The pages the source can hand out from a token, at most n of them. */
  function Chain(source: Source, token: Option<Token>, n: nat): seq<Page>
    decreases n
  {
    if n == 0 then []
    else if source(token).next.None? then [source(token)]
    else [source(token)] + Chain(source, source(token).next, n - 1)
  }

  function Detections(pages: seq<Page>): seq<Detection> {
    if pages == [] then [] else pages[0].detections + Detections(pages[1..])
  }

  function Windowed(cutoff: int, ds: seq<Detection>): seq<Detection> {
    if ds == [] then []
    else (if InWindow(cutoff, ds[0]) then [ds[0]] else []) + Windowed(cutoff, ds[1..])
  }

  function Notifiable(policy: Policy, ds: seq<Detection>): seq<Notification> {
    if ds == [] then []
    else (if ds[0].severity.MeetsThreshold(policy.minSeverity) then [Note(policy.destination, ds[0])] else [])
         + Notifiable(policy, ds[1..])
  }

  /** The in-window detections a run with this limit takes up. */
  function Considered(policy: Policy, cutoff: int, ds: seq<Detection>): seq<Detection> {
    Upto(Windowed(cutoff, ds), Max(policy.limit, 0))
  }

  /** How many have no time or a time not before the cutoff. */
  function RecentCount(cutoff: int, ds: seq<Detection>): nat {
    if ds == [] then 0
    else RecentCount(cutoff, ds[1..])
         + (if ds[0].occurredAt == None || cutoff <= ds[0].occurredAt.value then 1 else 0)
  }

  /** The next tokens of the given pages. */
  function NextTokens(pages: seq<Page>): seq<Token> {
    if pages == [] then []
    else (if pages[0].next.Some? then [pages[0].next.value] else []) + NextTokens(pages[1..])
  }
}
