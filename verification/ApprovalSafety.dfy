/**
 The approval tables over every history: one row per external id, a reviewed status is
 final, and an approval implies a delivered key.
 */
module ApprovalSafety {
  import opened Keys
  import opened Repositories
  import opened Approvals
  import opened Protocol

  // ------------------------------------------------------- rows and statuses

  predicate Good(t: Table) {
    UniqueExternalIds(t.rows) && IdsBelow(t.rows, t.nextId)
  }

  predicate GoodTables(s: State) {
    Good(s.detections) && Good(s.incidents)
  }

  /** No row disappears or changes its external id, and a reviewed status is final. */
  predicate Continues(t: Table, t': Table) {
    forall id :: id in t.rows ==>
      && id in t'.rows && t'.rows[id].externalId == t.rows[id].externalId
      && (!t.rows[id].status.Pending? ==> t'.rows[id].status == t.rows[id].status)
  }

  predicate TablesContinue(s: State, s': State) {
    GoodTables(s') && Continues(s.detections, s'.detections) && Continues(s.incidents, s'.incidents)
  }

  lemma MarkRowContinues(s: State, row: RowId, status: Status, note: Notification)
    requires GoodTables(s)
    ensures TablesContinue(s, MarkRow(s, row, status, note))
  {
    var table := TableOf(s, row.kind);
    MarkKeeps(table.rows, table.nextId, row.id, status, s.clock);
  }

  lemma ReviewContinues(world: World, s: State, pid: nat, w: Work)
    requires GoodTables(s) && (w.Approving? || w.Rejecting?)
    ensures TablesContinue(s, ReviewStep(world, s, pid, w))
  {
    match w
    case Approving(row, read) =>
      if read.Some? {
        MarkRowContinues(s, row, Approved, NoteOf(row.kind, world.destination, read.value));
      }
    case Rejecting(row, found) => MarkRowContinues(s, row, Rejected, Notification("", map[]));
  }

  lemma BackfillContinues(s: State, pid: nat, w: Work, listing: seq<nat>)
    requires GoodTables(s) && w.Backfilling?
    ensures TablesContinue(s, BackfillStep(s, pid, w, listing))
  {
    if w.step.Close? {
      MarkRowContinues(s, RowId(DetectionKind, w.step.id), Approved,
                       NoteOf(DetectionKind, BACKFILL_DESTINATION, w.step.payload));
    }
  }

  lemma SaveContinues(world: World, s: State, a: Action)
    requires GoodTables(s) && a.SavePending?
    ensures TablesContinue(s, Step(world, s, a))
  {
    var table := TableOf(s, a.kind);
    UpsertKeeps(table.rows, table.nextId, a.externalId, a.severity, a.payload, s.clock);
  }

  lemma TablesAlone(s: State, s': State)
    requires GoodTables(s) && s'.detections == s.detections && s'.incidents == s.incidents
    ensures TablesContinue(s, s')
  {
  }

  lemma GoContinues(world: World, s: State, pid: nat, listing: seq<nat>)
    requires GoodTables(s) && pid in s.procs
    ensures TablesContinue(s, GoStep(world, s, pid, listing))
  {
    match s.procs[pid]
    case Looking(w, note, origin) => TablesAlone(s, LookStep(s, pid, w, note, origin));
    case Sending(w, note, origin) => TablesAlone(s, SendStep(s, pid, w, note, origin));
    case Marking(w, note, _) => TablesAlone(s, MarkStep(s, pid, w, note));
    case Failing(_) => TablesAlone(s, GoStep(world, s, pid, listing));
    case Stopped => TablesAlone(s, s);
    case Idle(w) =>
      match w
      case Detecting(_, _, _, _, _, _) => TablesAlone(s, DetectingStep(world, s, pid, w));
      case Incidents(_, _, _) => TablesAlone(s, IncidentsStep(world, s, pid, w));
      case Approving(_, _) => ReviewContinues(world, s, pid, w);
      case Rejecting(_, _) => ReviewContinues(world, s, pid, w);
      case Backfilling(_, _) => BackfillContinues(s, pid, w, listing);
  }

  lemma StepContinues(world: World, s: State, a: Action)
    requires GoodTables(s)
    ensures TablesContinue(s, Step(world, s, a))
  {
    if a.SavePending? {
      SaveContinues(world, s, a);
    } else if a.Go? && a.pid in s.procs {
      GoContinues(world, s, a.pid, a.listing);
    } else {
      TablesAlone(s, Step(world, s, a));
    }
  }

  lemma {:induction false} ExecContinues(world: World, s: State, actions: seq<Action>)
    requires GoodTables(s)
    ensures TablesContinue(s, Exec(world, s, actions))
    decreases |actions|
  {
    if actions != [] {
      StepContinues(world, s, actions[0]);
      ExecContinues(world, Step(world, s, actions[0]), actions[1..]);
    }
  }

  /**
   Over every history, at most one row exists per external id, and a reviewed status never
   changes, even when a save replaces the payload of the row.
   */
  lemma ReviewedIsFinal(world: World, s: State, actions: seq<Action>, row: RowId)
    requires GoodTables(s) && row.id in TableOf(s, row.kind).rows && !TableOf(s, row.kind).rows[row.id].status.Pending?
    ensures var s' := Exec(world, s, actions);
            && UniqueExternalIds(s'.detections.rows) && UniqueExternalIds(s'.incidents.rows)
            && row.id in TableOf(s', row.kind).rows
            && TableOf(s', row.kind).rows[row.id].status == TableOf(s, row.kind).rows[row.id].status
  {
    ExecContinues(world, s, actions);
  }

  // ------------------------------------------- an approval implies a delivered key

  /** The payload was read from the row, the note is made of it, and its key is the one of a review. */
  predicate Sound(world: World, s: State, row: RowId, note: Notification) {
    && Read(row, note.record) in s.trace
    && (note == NoteOf(row.kind, world.destination, note.record)
        || note == NoteOf(row.kind, BACKFILL_DESTINATION, note.record))
  }

  predicate ListSound(s: State, rest: seq<(nat, Record)>) {
    forall i :: 0 <= i < |rest| ==> Read(RowId(DetectionKind, rest[i].0), rest[i].1) in s.trace
  }

  predicate WorkSound(world: World, s: State, w: Work) {
    match w
    case Approving(row, Some(payload)) =>
      var note := NoteOf(row.kind, world.destination, payload); Sound(world, s, row, note) && note.key in s.delivered
    case Backfilling(_, Todo(rest)) => ListSound(s, rest)
    case Backfilling(_, Close(id, payload, rest)) =>
      var note := NoteOf(DetectionKind, BACKFILL_DESTINATION, payload);
      ListSound(s, rest) && Sound(world, s, RowId(DetectionKind, id), note) && note.key in s.delivered
    case _ => true
  }

  /** While it delivers, a review delivers the payload it read. */
  predicate DeliverySound(world: World, s: State, w: Work, note: Notification) {
    match w
    case Approving(row, Some(payload)) => note == NoteOf(row.kind, world.destination, payload)
      && Sound(world, s, row, note)
    case Backfilling(_, Close(id, payload, rest)) =>
      ListSound(s, rest) && note == NoteOf(DetectionKind, BACKFILL_DESTINATION, payload)
        && Sound(world, s, RowId(DetectionKind, id), note)
    case Detecting(_, _, _, _, _, _) => true
    case Incidents(_, _, _) => true
    case _ => false
  }

  predicate ProcSound(world: World, s: State, p: Proc) {
    match p
    case Idle(w) => WorkSound(world, s, w)
    case Looking(w, note, _) => DeliverySound(world, s, w, note)
    case Sending(w, note, _) => DeliverySound(world, s, w, note)
    case Marking(w, note, _) => DeliverySound(world, s, w, note)
    case Failing(_) => true
    case Stopped => true
  }

  predicate ClosedSound(world: World, s: State) {
    forall e :: e in s.trace && e.Closed? && e.status.Approved? ==>
        Sound(world, s, e.row, e.note) && e.note.key in s.delivered
  }

  predicate IsApproved(s: State, row: RowId) {
    row.id in TableOf(s, row.kind).rows && TableOf(s, row.kind).rows[row.id].status.Approved?
  }

  /** Every approved row was approved before the history, or by a recorded review. */
  ghost predicate Recorded(s: State, before: set<RowId>) {
    forall row :: IsApproved(s, row) && row !in before ==>
      exists e :: e in s.trace && e.Closed? && e.status.Approved? && e.row == row
  }

  ghost predicate ReviewInv(world: World, s: State, before: set<RowId>) {
    && ClosedSound(world, s) && Recorded(s, before)
    && forall pid :: pid in s.procs ==> ProcSound(world, s, s.procs[pid])
  }

  /** Keys and events are only added. */
  predicate Grows(s: State, s': State) {
    s.delivered <= s'.delivered && forall e :: e in s.trace ==> e in s'.trace
  }

  lemma SoundStays(world: World, s: State, s': State, p: Proc)
    requires Grows(s, s') && ProcSound(world, s, p)
    ensures ProcSound(world, s', p)
  {
  }

  /** A step of one process or none that adds no review. */
  lemma QuietStep(world: World, s: State, s': State, pid: nat, before: set<RowId>)
    requires ReviewInv(world, s, before) && Grows(s, s')
    requires forall e :: e in s'.trace && e.Closed? ==> e in s.trace
    requires forall row :: IsApproved(s', row) ==> IsApproved(s, row)
    requires forall q :: q in s'.procs && q != pid ==> q in s.procs && s'.procs[q] == s.procs[q]
    requires pid in s'.procs ==> ProcSound(world, s', s'.procs[pid])
    ensures ReviewInv(world, s', before)
  {
    forall q | q in s'.procs
      ensures ProcSound(world, s', s'.procs[q])
    {
      if q != pid {
        SoundStays(world, s, s', s.procs[q]);
      }
    }
    forall row | IsApproved(s', row) && row !in before
      ensures exists e :: e in s'.trace && e.Closed? && e.status.Approved? && e.row == row
    {
      var e :| e in s.trace && e.Closed? && e.status.Approved? && e.row == row;
      assert e in s'.trace;
    }
  }

  /** A step that touches neither the tables nor the trace. */
  lemma PlainStep(world: World, s: State, s': State, pid: nat, before: set<RowId>)
    requires ReviewInv(world, s, before) && s.delivered <= s'.delivered
    requires s'.detections == s.detections && s'.incidents == s.incidents && s'.trace == s.trace
    requires forall q :: q in s'.procs && q != pid ==> q in s.procs && s'.procs[q] == s.procs[q]
    requires pid in s'.procs ==> ProcSound(world, s', s'.procs[pid])
    ensures ReviewInv(world, s', before)
  {
    QuietStep(world, s, s', pid, before);
  }

  /** mark_reviewed of a sound review, which then goes on as p. */
  lemma MarkStepSound(world: World, s: State, pid: nat, row: RowId, status: Status, note: Notification, p: Proc,
                      before: set<RowId>)
    requires ReviewInv(world, s, before) && pid in s.procs
    requires status.Approved? ==> Sound(world, s, row, note) && note.key in s.delivered
    requires status != Pending && ProcSound(world, s, p)
    ensures ReviewInv(world, Become(MarkRow(s, row, status, note), pid, p), before)
  {
    var s' := Become(MarkRow(s, row, status, note), pid, p);
    assert Grows(s, s');
    forall q | q in s'.procs
      ensures ProcSound(world, s', s'.procs[q])
    {
      SoundStays(world, s, s', if q == pid then p else s.procs[q]);
    }
    forall r | IsApproved(s', r) && r !in before
      ensures exists e :: e in s'.trace && e.Closed? && e.status.Approved? && e.row == r
    {
      if r == row && GetPending(TableOf(s, row.kind).rows, row.id).Some? {
        assert Closed(row, status, note) in s'.trace;
      } else {
        assert IsApproved(s, r);
        var e :| e in s.trace && e.Closed? && e.status.Approved? && e.row == r;
        assert e in s'.trace;
      }
    }
  }

  lemma ReviewStepSound(world: World, s: State, pid: nat, w: Work, before: set<RowId>)
    requires ReviewInv(world, s, before) && pid in s.procs && s.procs[pid] == Idle(w) && (w.Approving? || w.Rejecting?)
    ensures ReviewInv(world, ReviewStep(world, s, pid, w), before)
  {
    match w
    case Approving(row, Some(payload)) =>
      MarkStepSound(world, s, pid, row, Approved, NoteOf(row.kind, world.destination, payload), Stopped, before);
    case Rejecting(row, true) => MarkStepSound(world, s, pid, row, Rejected, Notification("", map[]), Stopped, before);
    case Approving(row, None) => QuietStep(world, s, ReviewStep(world, s, pid, w), pid, before);
    case Rejecting(row, false) => QuietStep(world, s, ReviewStep(world, s, pid, w), pid, before);
  }

  lemma BackfillStepSound(world: World, s: State, pid: nat, w: Work, listing: seq<nat>, before: set<RowId>)
    requires ReviewInv(world, s, before) && pid in s.procs && s.procs[pid] == Idle(w) && w.Backfilling?
    ensures ReviewInv(world, BackfillStep(s, pid, w, listing), before)
  {
    var s' := BackfillStep(s, pid, w, listing);
    match w.step
    case Close(id, payload, rest) =>
      MarkStepSound(world, s, pid, RowId(DetectionKind, id), Approved,
                    NoteOf(DetectionKind, BACKFILL_DESTINATION, payload),
                    Idle(w.(step := Todo(rest))), before);
    case Todo(rest) =>
      if rest != [] {
        assert Read(RowId(DetectionKind, rest[0].0), rest[0].1) in s.trace;
        assert ListSound(s', rest[1..]);
      }
      QuietStep(world, s, s', pid, before);
    case List =>
      if s' != s {
        var listed := Snapshot(s.detections.rows, listing);
        forall i | 0 <= i < |listed|
          ensures Read(RowId(DetectionKind, listed[i].0), listed[i].1) in s'.trace
        {
          assert ReadEvents(listed)[i] in ReadEvents(listed);
        }
        QuietStep(world, s, s', pid, before);
      }
  }

  lemma GoSound(world: World, s: State, pid: nat, listing: seq<nat>, before: set<RowId>)
    requires ReviewInv(world, s, before) && pid in s.procs
    ensures ReviewInv(world, GoStep(world, s, pid, listing), before)
  {
    var p := s.procs[pid];
    if p.Idle? && (p.w.Approving? || p.w.Rejecting?) {
      ReviewStepSound(world, s, pid, p.w, before);
    } else if p.Idle? && p.w.Backfilling? {
      BackfillStepSound(world, s, pid, p.w, listing, before);
    } else if p.Idle? && p.w.Detecting? {
      DetectingStepSound(world, s, pid, p.w, before);
    } else if p.Looking? {
      DeliveryStepSound(world, s, pid, LookStep(s, pid, p.w, p.note, p.origin), before);
    } else if p.Sending? {
      DeliveryStepSound(world, s, pid, SendStep(s, pid, p.w, p.note, p.origin), before);
    } else if p.Marking? {
      DeliveryStepSound(world, s, pid, MarkStep(s, pid, p.w, p.note), before);
    } else {
      QuietStep(world, s, GoStep(world, s, pid, listing), pid, before);
    }
  }

  lemma DetectingStepSound(world: World, s: State, pid: nat, w: Work, before: set<RowId>)
    requires ReviewInv(world, s, before) && pid in s.procs && s.procs[pid] == Idle(w) && w.Detecting?
    ensures ReviewInv(world, DetectingStep(world, s, pid, w), before)
  {
    PlainStep(world, s, DetectingStep(world, s, pid, w), pid, before);
  }

  lemma DeliveryStepSound(world: World, s: State, pid: nat, s': State, before: set<RowId>)
    requires ReviewInv(world, s, before) && pid in s.procs
    requires var p := s.procs[pid];
             || (p.Looking? && s' == LookStep(s, pid, p.w, p.note, p.origin))
             || (p.Sending? && s' == SendStep(s, pid, p.w, p.note, p.origin))
             || (p.Marking? && s' == MarkStep(s, pid, p.w, p.note))
    ensures ReviewInv(world, s', before)
  {
    SoundStays(world, s, s', s.procs[pid]);
    QuietStep(world, s, s', pid, before);
  }

  lemma SaveSound(world: World, s: State, kind: Kind, externalId: string, severity: string, payload: Record,
                  before: set<RowId>)
    requires ReviewInv(world, s, before) && GoodTables(s)
    ensures ReviewInv(world, Step(world, s, SavePending(kind, externalId, severity, payload)), before)
  {
    var table := TableOf(s, kind);
    UpsertKeeps(table.rows, table.nextId, externalId, severity, payload, s.clock);
    var s' := Step(world, s, SavePending(kind, externalId, severity, payload));
    QuietStep(world, s, s', 0, before) by {
      forall q | q in s.procs
        ensures ProcSound(world, s', s.procs[q])
      {
        SoundStays(world, s, s', s.procs[q]);
      }
    }
  }

  lemma EnvironmentSound(world: World, s: State, a: Action, before: set<RowId>)
    requires ReviewInv(world, s, before) && !a.Go? && !a.SavePending?
    ensures ReviewInv(world, Step(world, s, a), before)
  {
    var s' := Step(world, s, a);
    match a {
      case Tick(_) =>
        forall q | q in s.procs
          ensures ProcSound(world, s', s.procs[q])
        {
          SoundStays(world, s, s', s.procs[q]);
        }
        PlainStep(world, s, s', 0, before);
      case Spawn(pid, _) => if pid !in s.procs { PlainStep(world, s, s', pid, before); }
      case Raise(pid, _) => if pid in s.procs { RaiseSound(world, s, a, before); }
      case Vanish(pid) => if pid in s.procs { PlainStep(world, s, s', pid, before); }
    }
  }

  lemma RaiseSound(world: World, s: State, a: Action, before: set<RowId>)
    requires ReviewInv(world, s, before) && a.Raise? && a.pid in s.procs
    ensures ReviewInv(world, Step(world, s, a), before)
  {
    assert ProcSound(world, s, s.procs[a.pid]);
    PlainStep(world, s, Step(world, s, a), a.pid, before);
  }

  lemma StepSound(world: World, s: State, a: Action, before: set<RowId>)
    requires ReviewInv(world, s, before) && GoodTables(s)
    ensures ReviewInv(world, Step(world, s, a), before)
  {
    if a.Go? {
      if a.pid in s.procs {
        GoSound(world, s, a.pid, a.listing, before);
      }
    } else if a.SavePending? {
      SaveSound(world, s, a.kind, a.externalId, a.severity, a.payload, before);
    } else {
      EnvironmentSound(world, s, a, before);
    }
  }

  lemma {:induction false} ExecSound(world: World, s: State, actions: seq<Action>, before: set<RowId>)
    requires ReviewInv(world, s, before) && GoodTables(s)
    ensures ReviewInv(world, Exec(world, s, actions), before)
    decreases |actions|
  {
    if actions != [] {
      StepSound(world, s, actions[0], before);
      StepContinues(world, s, actions[0]);
      ExecSound(world, Step(world, s, actions[0]), actions[1..], before);
    }
  }

  ghost function ApprovedRows(s: State): (rows: set<RowId>)
    ensures forall row :: row in rows <==> IsApproved(s, row)
  {
    (set id | id in s.detections.rows && s.detections.rows[id].status.Approved? :: RowId(DetectionKind, id))
    + (set id | id in s.incidents.rows && s.incidents.rows[id].status.Approved? :: RowId(IncidentKind, id))
  }

  /**
   Over every history: a row that has turned approved was approved by a recorded review
   whose payload was read from that row and whose key is delivered.
   */
  lemma ApprovedOnlyWhenDelivered(world: World, s: State, actions: seq<Action>, row: RowId) returns (note: Notification)
    requires Quiet(s) && GoodTables(s)
    requires !IsApproved(s, row) && IsApproved(Exec(world, s, actions), row)
    ensures var s' := Exec(world, s, actions);
            && Closed(row, Approved, note) in s'.trace && Read(row, note.record) in s'.trace
            && note.key in s'.delivered
            && (note.key == KeyOf(row.kind, world.destination, note.record)
                || note.key == KeyOf(row.kind, BACKFILL_DESTINATION, note.record))
  {
    var before := ApprovedRows(s);
    ExecSound(world, s, actions, before);
    var e :| e in Exec(world, s, actions).trace && e.Closed? && e.status.Approved? && e.row == row;
    note := e.note;
  }
}
