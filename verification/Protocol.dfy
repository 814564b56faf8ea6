/**
 All pipelines together, as a state machine: any number of detection runs, incident runs,
 reviews and backfill scripts share the run log, the delivery keys and the approval
 tables. Each await of the program is one atomic step; between two steps of one process
 anything may happen, a process may raise at any step, and it may vanish at any step.
 A history is a sequence of actions; Exec is total, an action that makes no sense in the
 state it meets changes nothing.
 */
module Protocol {
  import opened Wrappers
  import opened Keys
  import opened Severities
  import opened Repositories
  import opened Approvals
  import opened DetectionRun
  import opened Progress
  import IR = IncidentRun

  /** What stays fixed over a history. The backfill script always sends to "discord". */
  datatype World = World(pages: seq<seq<Detection>>, window: int, minSeverity: Severity, destination: string)

  const BACKFILL_DESTINATION := "discord"

  datatype RowId = RowId(kind: Kind, id: nat)

  // -------------------------------------------------------------- processes

  datatype Phase = Begin | Fetch | Scan(i: nat) | Store | Finish | Saved

  datatype BackfillPhase =
    | List
    | Todo(rest: seq<(nat, Record)>)
    | Close(id: nat, payload: Record, rest: seq<(nat, Record)>)

  /** What a process is doing besides delivering a notification. */
  datatype Work =
    | Detecting(limit: int, maxPages: int, cutoff: int, token: Option<Token>, t: Tally, phase: Phase)
    | Incidents(limit: int, stream: seq<IR.Incident>, collected: int)
    | Approving(row: RowId, read: Option<Record>)  // None: get_pending is next; Some: mark_reviewed is next
    | Rejecting(row: RowId, found: bool)
    | Backfilling(listLimit: nat, step: BackfillPhase)

  /** A process at rest between awaits, in one of the three awaits of a delivery, in the
      exception handler of `execute`, or gone. `origin` is the approval row, if any. */
  datatype Proc =
    | Idle(w: Work)
    | Looking(w: Work, note: Notification, origin: Option<RowId>)
    | Sending(w: Work, note: Notification, origin: Option<RowId>)
    | Marking(w: Work, note: Notification, origin: Option<RowId>)
    | Failing(w: Work)
    | Stopped

  /** What is recorded: the steps of deliveries, payloads read for review, rows reviewed. */
  datatype Event =
    | Looked(key: Key)
    | Sent(key: Key, origin: Option<RowId>)
    | Marked(key: Key)
    | Read(row: RowId, payload: Record)
    | Closed(row: RowId, status: Status, note: Notification)

  datatype Table = Table(rows: Rows, nextId: nat)

  datatype State = State(
    clock: int,
    log: seq<RunRow>,
    delivered: set<Key>,
    detections: Table,
    incidents: Table,
    procs: map<nat, Proc>,
    trace: seq<Event>)

  datatype Job =
    | CollectDetections(limit: int, maxPages: int)
    | CollectIncidents(limit: int, stream: seq<IR.Incident>)
    | Approve(row: RowId)
    | Reject(row: RowId)
    | Backfill(listLimit: nat)

  datatype Action =
    | Tick(seconds: nat)
    | Spawn(pid: nat, job: Job)
    | SavePending(kind: Kind, externalId: string, severity: string, payload: Record)
    | Go(pid: nat, listing: seq<nat>)  // listing: what list_pending answers, when that is the step
    | Raise(pid: nat, late: bool)  // late: mark_delivered took effect before it raised
    | Vanish(pid: nat)

  // ------------------------------------------------------------------ helpers

  function TableOf(s: State, kind: Kind): Table {
    match kind
    case DetectionKind => s.detections
    case IncidentKind => s.incidents
  }

  function WithTable(s: State, kind: Kind, table: Table): State {
    match kind
    case DetectionKind => s.(detections := table)
    case IncidentKind => s.(incidents := table)
  }

  function Become(s: State, pid: nat, p: Proc): State {
    s.(procs := s.procs[pid := p])
  }

  function Log(s: State, e: Event): State {
    s.(trace := s.trace + [e])
  }

  function PolicyOf(world: World, limit: int, maxPages: int): Policy {
    Policy(limit, maxPages, world.minSeverity, world.destination)
  }

  function Start(job: Job): Work {
    match job
    case CollectDetections(limit, maxPages) => Detecting(limit, maxPages, 0, None, ZERO, Begin)
    case CollectIncidents(limit, stream) => Incidents(limit, stream, 0)
    case Approve(row) => Approving(row, None)
    case Reject(row) => Rejecting(row, false)
    case Backfill(limit) => Backfilling(limit, List)
  }

  function AfterDuplicate(w: Work): Work {
    if w.Detecting? then w.(t := AsDuplicate(w.t)) else w
  }

  function AfterNotified(w: Work, note: Notification): Work {
    if w.Detecting? then w.(t := AsNotified(w.t, note)) else w
  }

  /** mark_reviewed, recorded when it changes the row. */
  function MarkRow(s: State, row: RowId, status: Status, note: Notification): State {
    var table := TableOf(s, row.kind);
    var s' := WithTable(s, row.kind, table.(rows := MarkReviewed(table.rows, row.id, status, s.clock)));
    if GetPending(table.rows, row.id).Some? then Log(s', Closed(row, status, note)) else s'
  }

  // ------------------------------------------------------------------- steps

  /** The step of a detection run between deliveries. */
  function DetectingStep(world: World, s: State, pid: nat, w: Work): State
    requires w.Detecting?
  {
    var policy := PolicyOf(world, w.limit, w.maxPages);
    var page := PageAt(world.pages, Index(w.token));
    match w.phase
    case Begin => Become(s, pid,
                         Idle(w.(cutoff := s.clock - world.window, token := LatestToken(s.log), phase := Fetch)))
    case Fetch =>
      if w.t.fetched >= Max(w.maxPages, 0) then Become(s, pid, Idle(w.(phase := Finish)))
      else Become(s, pid, Idle(w.(t := w.t.(fetched := w.t.fetched + 1), phase := Scan(0))))
    case Scan(i) =>
      if i >= |page.detections| then Become(s, pid, Idle(w.(phase := if page.next.Some? then Store else Finish)))
      else
        var d := page.detections[i];
        var w' := w.(t := Counted(policy, w.cutoff, w.t, d), phase := Scan(i + 1));
        (match Judge(policy, w.cutoff, w.t.processed, d)
         case Cut => Become(s, pid, Idle(w'.(phase := Finish)))
         case Candidate => Become(s, pid, Looking(w', Note(world.destination, d), None))
         case _ => Become(s, pid, Idle(w')))
    case Store =>
      if page.next.None? then s
      else
        var s' := s.(log := s.log + [Running(page.next)]);
        Become(s', pid, Idle(w.(token := page.next, t := w.t.(cursors := w.t.cursors + [page.next.value]),
                                phase := if w.t.processed >= w.limit then Finish else Fetch)))
    case Finish => Become(s.(log := s.log + [Succeeded(ResultOf(w.t), w.token)]), pid, Idle(w.(phase := Saved)))
    case Saved => Become(s, pid, Stopped)
  }

  function IncidentsStep(world: World, s: State, pid: nat, w: Work): State
    requires w.Incidents?
  {
    if w.stream == [] then Become(s, pid, Stopped)
    else
      var incident, collected := w.stream[0], w.collected + 1;
      var w' := w.(collected := collected, stream := if collected >= w.limit then [] else w.stream[1..]);
      if !incident.severity.MeetsThreshold(world.minSeverity) then Become(s, pid, Idle(w'))
      else Become(s, pid, Looking(w', NoteOf(IncidentKind, world.destination, incident.record), None))
  }

  function ReviewStep(world: World, s: State, pid: nat, w: Work): State
    requires w.Approving? || w.Rejecting?
  {
    var found := GetPending(TableOf(s, w.row.kind).rows, w.row.id);
    match w
    case Approving(row, None) =>
      if found.None? then Become(s, pid, Stopped)
      else Become(Log(s, Read(row, found.value.payload)), pid,
                  Looking(Approving(row, Some(found.value.payload)),
                          NoteOf(row.kind, world.destination, found.value.payload), Some(row)))
    case Approving(row, Some(payload)) =>
      Become(MarkRow(s, row, Approved, NoteOf(row.kind, world.destination, payload)), pid, Stopped)
    case Rejecting(row, false) => Become(s, pid, if found.None? then Stopped else Idle(Rejecting(row, true)))
    case Rejecting(row, true) => Become(MarkRow(s, row, Rejected, Notification("", map[])), pid, Stopped)
  }

  function Snapshot(rows: Rows, ids: seq<nat>): seq<(nat, Record)>
    requires forall i :: 0 <= i < |ids| ==> ids[i] in rows
  {
    seq(|ids|, i requires 0 <= i < |ids| => (ids[i], rows[ids[i]].payload))
  }

  function ReadEvents(listed: seq<(nat, Record)>): seq<Event> {
    seq(|listed|, i requires 0 <= i < |listed| => Read(RowId(DetectionKind, listed[i].0), listed[i].1))
  }

  ghost function BackfillStep(s: State, pid: nat, w: Work, listing: seq<nat>): State
    requires w.Backfilling?
  {
    match w.step
    case List =>
      if !IsListing(s.detections.rows, w.listLimit, listing) then s
      else
        var listed := Snapshot(s.detections.rows, listing);
        Become(s.(trace := s.trace + ReadEvents(listed)), pid, Idle(w.(step := Todo(listed))))
    case Todo(rest) =>
      if rest == [] then Become(s, pid, Stopped)
      else
        var (id, payload) := rest[0];
        Become(s, pid, Looking(w.(step := Close(id, payload, rest[1..])),
                               NoteOf(DetectionKind, BACKFILL_DESTINATION, payload), Some(RowId(DetectionKind, id))))
    case Close(id, payload, rest) =>
      Become(MarkRow(s, RowId(DetectionKind, id), Approved, NoteOf(DetectionKind, BACKFILL_DESTINATION, payload)), pid,
             Idle(w.(step := Todo(rest))))
  }

  // The three awaits of a delivery: was_delivered, send, mark_delivered.

  function LookStep(s: State, pid: nat, w: Work, note: Notification, origin: Option<RowId>): State {
    Become(Log(s, Looked(note.key)), pid,
           if note.key in s.delivered then Idle(AfterDuplicate(w)) else Sending(w, note, origin))
  }

  function SendStep(s: State, pid: nat, w: Work, note: Notification, origin: Option<RowId>): State {
    Become(Log(s, Sent(note.key, origin)), pid, Marking(w, note, origin))
  }

  function MarkStep(s: State, pid: nat, w: Work, note: Notification): State {
    Become(Log(s.(delivered := s.delivered + {note.key}), Marked(note.key)), pid, Idle(AfterNotified(w, note)))
  }

  ghost function GoStep(world: World, s: State, pid: nat, listing: seq<nat>): State
    requires pid in s.procs
  {
    match s.procs[pid]
    case Looking(w, note, origin) => LookStep(s, pid, w, note, origin)
    case Sending(w, note, origin) => SendStep(s, pid, w, note, origin)
    case Marking(w, note, _) => MarkStep(s, pid, w, note)
    case Failing(w) =>
      Become(if w.Detecting? then s.(log := s.log + [Failed]) else s, pid, Stopped)
    case Stopped => s
    case Idle(w) =>
      match w
      case Detecting(_, _, _, _, _, _) => DetectingStep(world, s, pid, w)
      case Incidents(_, _, _) => IncidentsStep(world, s, pid, w)
      case Approving(_, _) => ReviewStep(world, s, pid, w)
      case Rejecting(_, _) => ReviewStep(world, s, pid, w)
      case Backfilling(_, _) => BackfillStep(s, pid, w, listing)
  }

  /**
   An await raises: the collectors go to their handler, a review or a script ends, but the
   script swallows what its send or its mark raises, even one that took effect, and goes on
   with the next approval.
   */
  function RaisedTo(p: Proc, late: bool): Proc {
    if p.Failing? || p.Stopped? then Stopped
    else if p.w.Detecting? || p.w.Incidents? then Failing(p.w)
    else if p.w.Backfilling? && p.w.step.Close? && (p.Sending? || p.Marking? || (p.Idle? && late)) then
      Idle(p.w.(step := Todo(p.w.step.rest)))
    else Stopped
  }

  ghost function Step(world: World, s: State, a: Action): State {
    match a
    case Tick(seconds) => s.(clock := s.clock + seconds)
    case Spawn(pid, job) => if pid in s.procs then s else Become(s, pid, Idle(Start(job)))
    case SavePending(kind, externalId, severity, payload) =>
      var table := TableOf(s, kind);
      WithTable(s, kind,
                Table(Upsert(table.rows, table.nextId, externalId, severity, payload, s.clock), table.nextId + 1))
    case Go(pid, listing) => if pid in s.procs then GoStep(world, s, pid, listing) else s
    case Raise(pid, late) => if pid in s.procs then Become(s, pid, RaisedTo(s.procs[pid], late)) else s
    case Vanish(pid) => if pid in s.procs then Become(s, pid, Stopped) else s
  }

  ghost function Exec(world: World, s: State, actions: seq<Action>): State
    decreases |actions|
  {
    if actions == [] then s else Exec(world, Step(world, s, actions[0]), actions[1..])
  }

  lemma {:induction false} ExecAppend(world: World, s: State, a: seq<Action>, b: seq<Action>)
    ensures Exec(world, s, a + b) == Exec(world, Exec(world, s, a), b)
    decreases |a|
  {
    if a == [] {
      assert a + b == b;
    } else {
      ConsAppend(a, b);
      ExecAppend(world, Step(world, s, a[0]), a[1..], b);
    }
  }

  lemma ExecSnoc(world: World, s: State, actions: seq<Action>, a: Action)
    ensures Exec(world, s, actions + [a]) == Step(world, Exec(world, s, actions), a)
  {
    ExecAppend(world, s, actions, [a]);
    assert [a][1..] == [];
  }

  /** No process has started and nothing has been recorded; the tables hold anything. */
  predicate Quiet(s: State) {
    s.procs == map[] && s.trace == []
  }
}
