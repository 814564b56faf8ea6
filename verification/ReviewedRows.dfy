/**
 When a row that has been reviewed can still be sent: exactly when some process is on its way
 to sending it.
 */
module ReviewedRows {
  import opened Wrappers
  import opened Keys
  import opened Repositories
  import opened Approvals
  import opened Protocol
  import opened ApprovalSafety

  predicate IsReviewed(s: State, row: RowId) {
    row.id in TableOf(s, row.kind).rows && !TableOf(s, row.kind).rows[row.id].status.Pending?
  }

  /** Something was sent for the row after s. */
  ghost predicate SentSince(s: State, s': State, row: RowId) {
    exists i :: |s.trace| <= i < |s'.trace| && s'.trace[i].Sent? && s'.trace[i].origin == Some(row)
  }

  ghost predicate NotSent(s: State, s': State, row: RowId) {
    s.trace <= s'.trace && !SentSince(s, s', row)
  }

  // ------------------------------------------------------ who may still send a row

  /** The approvals a script has listed and not taken up yet. */
  function RestOf(w: Work): seq<(nat, Record)> {
    if !w.Backfilling? || w.step.List? then [] else w.step.rest
  }

  /** The row is among them, with a payload whose key is not delivered. */
  predicate Due(delivered: set<Key>, rest: seq<(nat, Record)>, row: RowId) {
    && row.kind.DetectionKind?
    && exists i ::
         0 <= i < |rest| && rest[i].0 == row.id && KeyOf(DetectionKind, BACKFILL_DESTINATION, rest[i].1) !in delivered
  }

  /** The process is about to send the row, or to look it up in vain, or has yet to take it up. */
  predicate Sender(delivered: set<Key>, p: Proc, row: RowId) {
    match p
    case Idle(w) => Due(delivered, RestOf(w), row)
    case Looking(w, note, origin) => Due(delivered, RestOf(w), row) || (origin == Some(row) && note.key !in delivered)
    case Sending(w, _, origin) => Due(delivered, RestOf(w), row) || origin == Some(row)
    case Marking(w, _, _) => Due(delivered, RestOf(w), row)
    case Failing(_) => false
    case Stopped => false
  }

  predicate NoSenderOf(s: State, row: RowId) {
    forall pid :: pid in s.procs ==> !Sender(s.delivered, s.procs[pid], row)
  }

  // ------------------------------------------------------------ nobody, so never

  lemma SenderFades(delivered: set<Key>, delivered': set<Key>, p: Proc, row: RowId)
    requires delivered <= delivered' && Sender(delivered', p, row)
    ensures Sender(delivered, p, row)
  {
  }

  /** A step in which only one process moves, and becomes no sender. */
  lemma OthersFade(s: State, s': State, pid: nat, row: RowId)
    requires NoSenderOf(s, row) && s.delivered <= s'.delivered
    requires forall q :: q in s'.procs && q != pid ==> q in s.procs && s'.procs[q] == s.procs[q]
    requires pid in s'.procs ==> !Sender(s'.delivered, s'.procs[pid], row)
    ensures NoSenderOf(s', row)
  {
    forall q | q in s'.procs
      ensures !Sender(s'.delivered, s'.procs[q], row)
    {
      if q != pid && Sender(s'.delivered, s.procs[q], row) {
        SenderFades(s.delivered, s'.delivered, s.procs[q], row);
      }
    }
  }

  lemma NothingSent(s: State, s': State, more: seq<Event>, row: RowId)
    requires s'.trace == s.trace + more && forall e :: e in more ==> !(e.Sent? && e.origin == Some(row))
    ensures NotSent(s, s', row)
  {
    forall i | |s.trace| <= i < |s'.trace|
      ensures !(s'.trace[i].Sent? && s'.trace[i].origin == Some(row))
    {
      assert s'.trace[i] == more[i - |s.trace|];
    }
  }

  /** A step in which one process moves, becomes no sender, and sends nothing. */
  lemma LetsBe(s: State, s': State, pid: nat, more: seq<Event>, row: RowId)
    requires NoSenderOf(s, row) && pid in s.procs && s.delivered <= s'.delivered
    requires s'.trace == s.trace + more && forall e :: e in more ==> !(e.Sent? && e.origin == Some(row))
    requires s'.procs.Keys == s.procs.Keys && forall q :: q in s.procs && q != pid ==> s'.procs[q] == s.procs[q]
    requires !Sender(s'.delivered, s'.procs[pid], row)
    ensures NoSenderOf(s', row) && NotSent(s, s', row)
  {
    OthersFade(s, s', pid, row);
    NothingSent(s, s', more, row);
  }

  lemma MarkRowLetsBe(s: State, pid: nat, marked: RowId, status: Status, note: Notification, p: Proc, row: RowId)
    requires NoSenderOf(s, row) && pid in s.procs && !Sender(s.delivered, p, row)
    ensures var s' := Become(MarkRow(s, marked, status, note), pid, p); NoSenderOf(s', row) && NotSent(s, s', row)
  {
    var s' := Become(MarkRow(s, marked, status, note), pid, p);
    var closes := GetPending(TableOf(s, marked.kind).rows, marked.id).Some?;
    LetsBe(s, s', pid, if closes then [Closed(marked, status, note)] else [], row);
  }

  lemma ReviewLetsBe(world: World, s: State, pid: nat, w: Work, row: RowId)
    requires IsReviewed(s, row) && NoSenderOf(s, row) && pid in s.procs && s.procs[pid] == Idle(w)
    requires w.Approving? || w.Rejecting?
    ensures var s' := ReviewStep(world, s, pid, w); NoSenderOf(s', row) && NotSent(s, s', row)
  {
    var s' := ReviewStep(world, s, pid, w);
    match w
    case Approving(r, Some(payload)) =>
      MarkRowLetsBe(s, pid, r, Approved, NoteOf(r.kind, world.destination, payload), Stopped, row);
    case Rejecting(r, true) => MarkRowLetsBe(s, pid, r, Rejected, Notification("", map[]), Stopped, row);
    case Rejecting(_, false) => LetsBe(s, s', pid, [], row);
    case Approving(r, None) =>
      var found := GetPending(TableOf(s, r.kind).rows, r.id);
      LetsBe(s, s', pid, if found.None? then [] else [Read(r, found.value.payload)], row);
  }

  lemma DetectingLetsBe(world: World, s: State, pid: nat, w: Work, row: RowId)
    requires NoSenderOf(s, row) && pid in s.procs && s.procs[pid] == Idle(w) && w.Detecting?
    ensures var s' := DetectingStep(world, s, pid, w); NoSenderOf(s', row) && NotSent(s, s', row)
  {
    LetsBe(s, DetectingStep(world, s, pid, w), pid, [], row);
  }

  lemma IncidentsLetBe(world: World, s: State, pid: nat, w: Work, row: RowId)
    requires NoSenderOf(s, row) && pid in s.procs && s.procs[pid] == Idle(w) && w.Incidents?
    ensures var s' := IncidentsStep(world, s, pid, w); NoSenderOf(s', row) && NotSent(s, s', row)
  {
    LetsBe(s, IncidentsStep(world, s, pid, w), pid, [], row);
  }

  lemma ListingNotDue(s: State, limit: nat, listing: seq<nat>, row: RowId)
    requires IsReviewed(s, row) && IsListing(s.detections.rows, limit, listing)
    ensures !Due(s.delivered, Snapshot(s.detections.rows, listing), row)
  {
    if row.kind.DetectionKind? {
      forall i | 0 <= i < |listing|
        ensures listing[i] != row.id
      {
        assert listing[i] in PendingIds(s.detections.rows);
      }
    }
  }

  lemma TailDue(delivered: set<Key>, rest: seq<(nat, Record)>, row: RowId)
    requires rest != []
    ensures Due(delivered, rest[1..], row) ==> Due(delivered, rest, row)
  {
    forall i | 0 <= i < |rest[1..]|
      ensures rest[1..][i] == rest[i + 1]
    {
    }
  }

  lemma BackfillLetsBe(s: State, pid: nat, w: Work, listing: seq<nat>, row: RowId)
    requires IsReviewed(s, row) && NoSenderOf(s, row) && pid in s.procs && s.procs[pid] == Idle(w) && w.Backfilling?
    ensures var s' := BackfillStep(s, pid, w, listing); NoSenderOf(s', row) && NotSent(s, s', row)
  {
    var s' := BackfillStep(s, pid, w, listing);
    assert !Sender(s.delivered, s.procs[pid], row);
    match w.step
    case List =>
      if IsListing(s.detections.rows, w.listLimit, listing) {
        ListingNotDue(s, w.listLimit, listing, row);
        LetsBe(s, s', pid, ReadEvents(Snapshot(s.detections.rows, listing)), row);
      } else {
        LetsBe(s, s', pid, [], row);
      }
    case Todo(rest) =>
      if rest != [] {
        TailDue(s.delivered, rest, row);
      }
      LetsBe(s, s', pid, [], row);
    case Close(id, payload, rest) =>
      MarkRowLetsBe(s, pid, RowId(DetectionKind, id), Approved, NoteOf(DetectionKind, BACKFILL_DESTINATION, payload),
                    Idle(w.(step := Todo(rest))), row);
  }

  lemma RestKept(w: Work, note: Notification)
    ensures RestOf(AfterDuplicate(w)) == RestOf(w) && RestOf(AfterNotified(w, note)) == RestOf(w)
  {
  }

  lemma DeliveryLetsBe(s: State, s': State, pid: nat, row: RowId)
    requires NoSenderOf(s, row) && pid in s.procs
    requires var p := s.procs[pid];
             || (p.Looking? && s' == LookStep(s, pid, p.w, p.note, p.origin))
             || (p.Sending? && s' == SendStep(s, pid, p.w, p.note, p.origin))
             || (p.Marking? && s' == MarkStep(s, pid, p.w, p.note))
    ensures NoSenderOf(s', row) && NotSent(s, s', row)
  {
    var p := s.procs[pid];
    RestKept(p.w, p.note);
    assert !Sender(s.delivered, p, row);
    LetsBe(s, s', pid, [s'.trace[|s.trace|]], row);
  }

  lemma GoLetsBe(world: World, s: State, pid: nat, listing: seq<nat>, row: RowId)
    requires IsReviewed(s, row) && NoSenderOf(s, row) && pid in s.procs
    ensures var s' := GoStep(world, s, pid, listing); NoSenderOf(s', row) && NotSent(s, s', row)
  {
    var p := s.procs[pid];
    match p
    case Looking(w, note, origin) => DeliveryLetsBe(s, LookStep(s, pid, w, note, origin), pid, row);
    case Sending(w, note, origin) => DeliveryLetsBe(s, SendStep(s, pid, w, note, origin), pid, row);
    case Marking(w, note, _) => DeliveryLetsBe(s, MarkStep(s, pid, w, note), pid, row);
    case Failing(_) => LetsBe(s, GoStep(world, s, pid, listing), pid, [], row);
    case Stopped => LetsBe(s, s, pid, [], row);
    case Idle(w) =>
      match w
      case Detecting(_, _, _, _, _, _) => DetectingLetsBe(world, s, pid, w, row);
      case Incidents(_, _, _) => IncidentsLetBe(world, s, pid, w, row);
      case Approving(_, _) => ReviewLetsBe(world, s, pid, w, row);
      case Rejecting(_, _) => ReviewLetsBe(world, s, pid, w, row);
      case Backfilling(_, _) => BackfillLetsBe(s, pid, w, listing, row);
  }

  lemma EnvironmentLetsBe(world: World, s: State, a: Action, row: RowId)
    requires NoSenderOf(s, row) && !(a.Go? && a.pid in s.procs)
    ensures var s' := Step(world, s, a); NoSenderOf(s', row) && NotSent(s, s', row)
  {
    var s' := Step(world, s, a);
    NothingSent(s, s', [], row);
    if a.Raise? && a.pid in s.procs {
      assert !Sender(s.delivered, s.procs[a.pid], row);
      OthersFade(s, s', a.pid, row);
    }
  }

  lemma StepLetsBe(world: World, s: State, a: Action, row: RowId)
    requires GoodTables(s) && IsReviewed(s, row) && NoSenderOf(s, row)
    ensures var s' := Step(world, s, a);
            GoodTables(s') && IsReviewed(s', row) && NoSenderOf(s', row) && NotSent(s, s', row)
  {
    StepContinues(world, s, a);
    if a.Go? && a.pid in s.procs {
      GoLetsBe(world, s, a.pid, a.listing, row);
    } else {
      EnvironmentLetsBe(world, s, a, row);
    }
  }

  lemma NotSentThen(s: State, m: State, r: State, row: RowId)
    requires NotSent(s, m, row) && NotSent(m, r, row)
    ensures NotSent(s, r, row)
  {
    forall i | |s.trace| <= i < |r.trace|
      ensures !(r.trace[i].Sent? && r.trace[i].origin == Some(row))
    {
      assert i < |m.trace| ==> r.trace[i] == m.trace[i];
    }
  }

  /**
   Once a row is reviewed, rejected for one, and no process is on its way to sending it, no
   later review and no backfill pass ever sends it, whatever the history.
   */
  lemma {:induction false} ReviewedIsNeverSent(world: World, s: State, actions: seq<Action>, row: RowId)
    requires GoodTables(s) && IsReviewed(s, row) && NoSenderOf(s, row)
    ensures NotSent(s, Exec(world, s, actions), row)
    decreases |actions|
  {
    if actions != [] {
      var m := Step(world, s, actions[0]);
      StepLetsBe(world, s, actions[0], row);
      ReviewedIsNeverSent(world, m, actions[1..], row);
      NotSentThen(s, m, Exec(world, m, actions[1..]), row);
    }
  }

  // --------------------------------------------------- somebody, so it can be sent

  /** A script delivers only what it is about to close. */
  predicate WellFormed(p: Proc) {
    (p.Looking? || p.Sending? || p.Marking?) && p.w.Backfilling? ==> p.w.step.Close?
  }

  ghost predicate AllWellFormed(s: State) {
    forall pid :: pid in s.procs ==> WellFormed(s.procs[pid])
  }

  lemma IdleWellFormed(world: World, s: State, pid: nat, listing: seq<nat>)
    requires pid in s.procs && s.procs[pid].Idle?
    ensures var s' := GoStep(world, s, pid, listing);
            && pid in s'.procs && WellFormed(s'.procs[pid])
            && forall q :: q in s'.procs && q != pid ==> q in s.procs && s'.procs[q] == s.procs[q]
  {
    var w := s.procs[pid].w;
    match w
    case Detecting(_, _, _, _, _, _) => assert GoStep(world, s, pid, listing) == DetectingStep(world, s, pid, w);
    case Incidents(_, _, _) =>
    case Approving(_, _) =>
    case Rejecting(_, _) =>
    case Backfilling(_, _) =>
  }

  lemma StepWellFormed(world: World, s: State, a: Action)
    requires AllWellFormed(s)
    ensures AllWellFormed(Step(world, s, a))
  {
    if a.Go? && a.pid in s.procs && s.procs[a.pid].Idle? {
      IdleWellFormed(world, s, a.pid, a.listing);
    }
  }

  lemma {:induction false} ExecWellFormed(world: World, s: State, actions: seq<Action>)
    requires AllWellFormed(s)
    ensures AllWellFormed(Exec(world, s, actions))
    decreases |actions|
  {
    if actions != [] {
      StepWellFormed(world, s, actions[0]);
      ExecWellFormed(world, Step(world, s, actions[0]), actions[1..]);
    }
  }

  /** After some preparation that adds to the trace and delivers nothing, the row is sent. */
  lemma SentAfter(world: World, s: State, before: seq<Action>, more: seq<Action>, row: RowId)
    requires |s.trace| <= |Exec(world, s, before).trace|
    requires SentSince(Exec(world, s, before), Exec(world, Exec(world, s, before), more), row)
    ensures SentSince(s, Exec(world, s, before + more), row)
  {
    ExecAppend(world, s, before, more);
  }

  lemma SendingSends(world: World, s: State, pid: nat, row: RowId)
    requires pid in s.procs && s.procs[pid].Sending? && s.procs[pid].origin == Some(row)
    ensures SentSince(s, Exec(world, s, [Go(pid, [])]), row)
  {
    var s' := Step(world, s, Go(pid, []));
    assert [Go(pid, [])][1..] == [] && Exec(world, s, [Go(pid, [])]) == Exec(world, s', []);
    assert s'.trace[|s.trace|].Sent?;
  }

  lemma LookingSends(world: World, s: State, pid: nat, row: RowId)
    requires pid in s.procs && s.procs[pid].Looking? && s.procs[pid].origin == Some(row)
             && s.procs[pid].note.key !in s.delivered
    ensures SentSince(s, Exec(world, s, [Go(pid, [])] + [Go(pid, [])]), row)
  {
    assert [Go(pid, [])][1..] == [] && Exec(world, s, [Go(pid, [])]) == Exec(world, Step(world, s, Go(pid, [])), []);
    SendingSends(world, Step(world, s, Go(pid, [])), pid, row);
    SentAfter(world, s, [Go(pid, [])], [Go(pid, [])], row);
  }

  /** A script passes over the first approval on its list: it looks it up, and the delivery raises. */
  lemma PassOver(world: World, s: State, pid: nat, limit: nat, rest: seq<(nat, Record)>) returns (actions: seq<Action>)
    requires pid in s.procs && rest != [] && s.procs[pid] == Idle(Backfilling(limit, Todo(rest)))
    ensures var s' := Exec(world, s, actions);
            && s'.procs == s.procs[pid := Idle(Backfilling(limit, Todo(rest[1..])))]
            && s'.delivered == s.delivered && |s.trace| <= |s'.trace|
  {
    var (id, payload) := rest[0];
    var w := Backfilling(limit, Close(id, payload, rest[1..]));
    var note := NoteOf(DetectionKind, BACKFILL_DESTINATION, payload);
    var looking := Step(world, s, Go(pid, []));
    assert looking == s.(procs := s.procs[pid := Looking(w, note, Some(RowId(DetectionKind, id)))]);
    var looked := Step(world, looking, Go(pid, []));
    actions := [Go(pid, [])] + [Go(pid, [])] + [Raise(pid, true)];
    assert [Go(pid, [])][1..] == [] && Exec(world, s, [Go(pid, [])]) == Exec(world, looking, []);
    ExecSnoc(world, s, [Go(pid, [])], Go(pid, []));
    ExecSnoc(world, s, [Go(pid, [])] + [Go(pid, [])], Raise(pid, true));
    assert Step(world, looked, Raise(pid, true)).procs == s.procs[pid := Idle(Backfilling(limit, Todo(rest[1..])))];
  }

  lemma {:induction false} TodoSends(world: World, s: State, pid: nat, limit: nat, rest: seq<(nat, Record)>, row: RowId)
    returns (actions: seq<Action>)
    requires pid in s.procs && s.procs[pid] == Idle(Backfilling(limit, Todo(rest))) && Due(s.delivered, rest, row)
    ensures SentSince(s, Exec(world, s, actions), row)
    decreases |rest|
  {
    if rest[0].0 == row.id && KeyOf(DetectionKind, BACKFILL_DESTINATION, rest[0].1) !in s.delivered {
      assert [Go(pid, [])][1..] == [] && Exec(world, s, [Go(pid, [])]) == Exec(world, Step(world, s, Go(pid, [])), []);
      LookingSends(world, Step(world, s, Go(pid, [])), pid, row);
      SentAfter(world, s, [Go(pid, [])], [Go(pid, [])] + [Go(pid, [])], row);
      actions := [Go(pid, [])] + ([Go(pid, [])] + [Go(pid, [])]);
    } else {
      var i :| 0 <= i < |rest| && rest[i].0 == row.id
        && KeyOf(DetectionKind, BACKFILL_DESTINATION, rest[i].1) !in s.delivered;
      assert rest[1..][i - 1] == rest[i];
      var before := PassOver(world, s, pid, limit, rest);
      var more := TodoSends(world, Exec(world, s, before), pid, limit, rest[1..], row);
      SentAfter(world, s, before, more, row);
      actions := before + more;
    }
  }

  /** A script that has listed the row, wherever it is, can be brought back to its list. */
  lemma BackToList(world: World, s: State, pid: nat) returns (actions: seq<Action>)
    requires pid in s.procs && WellFormed(s.procs[pid])
    requires var p := s.procs[pid]; !p.Failing? && !p.Stopped? && p.w.Backfilling? && !p.w.step.List?
    ensures var w, s' := s.procs[pid].w, Exec(world, s, actions);
            && s'.procs == s.procs[pid := Idle(Backfilling(w.listLimit, Todo(w.step.rest)))]
            && s'.delivered == s.delivered && |s.trace| <= |s'.trace|
  {
    var p := s.procs[pid];
    if p.Idle? && p.w.step.Todo? {
      actions := [];
      assert s.procs == s.procs[pid := p];
    } else if p.Looking? {
      actions := [Go(pid, [])] + [Raise(pid, true)];
      assert [Go(pid, [])][1..] == [] && Exec(world, s, [Go(pid, [])]) == Exec(world, Step(world, s, Go(pid, [])), []);
      ExecSnoc(world, s, [Go(pid, [])], Raise(pid, true));
    } else {
      actions := [Raise(pid, true)];
      assert actions[1..] == [] && Exec(world, s, actions) == Exec(world, Step(world, s, Raise(pid, true)), []);
    }
  }

  lemma SenderSends(world: World, s: State, pid: nat, row: RowId) returns (actions: seq<Action>)
    requires pid in s.procs && WellFormed(s.procs[pid]) && Sender(s.delivered, s.procs[pid], row)
    ensures SentSince(s, Exec(world, s, actions), row)
  {
    var p := s.procs[pid];
    if p.Sending? && p.origin == Some(row) {
      SendingSends(world, s, pid, row);
      actions := [Go(pid, [])];
    } else if p.Looking? && p.origin == Some(row) && p.note.key !in s.delivered {
      LookingSends(world, s, pid, row);
      actions := [Go(pid, [])] + [Go(pid, [])];
    } else {
      var before := BackToList(world, s, pid);
      var more := TodoSends(world, Exec(world, s, before), pid, p.w.listLimit, p.w.step.rest, row);
      SentAfter(world, s, before, more, row);
      actions := before + more;
    }
  }

  ghost predicate NeverSent(world: World, s: State, row: RowId) {
    forall actions :: NotSent(s, Exec(world, s, actions), row)
  }

  /**
   Exactly. After any history, a reviewed row will never be sent again if and only if no
   process is on its way to sending it.
   */
  lemma NeverSentExactly(world: World, start: State, history: seq<Action>, row: RowId)
    requires Quiet(start) && GoodTables(start) && IsReviewed(Exec(world, start, history), row)
    ensures var s := Exec(world, start, history);
            NeverSent(world, s, row) <==> NoSenderOf(s, row)
  {
    var s := Exec(world, start, history);
    ExecContinues(world, start, history);
    ExecWellFormed(world, start, history);
    if NoSenderOf(s, row) {
      forall actions: seq<Action>
        ensures NotSent(s, Exec(world, s, actions), row)
      {
        ReviewedIsNeverSent(world, s, actions, row);
      }
      assert NeverSent(world, s, row);
    } else {
      var pid :| pid in s.procs && Sender(s.delivered, s.procs[pid], row);
      var actions := SenderSends(world, s, pid, row);
      assert !NotSent(s, Exec(world, s, actions), row);
    }
  }

  lemma ThreeSteps(world: World, s: State, a: Action, b: Action, c: Action)
    ensures Exec(world, s, [a, b, c]) == Step(world, Step(world, Step(world, s, a), b), c)
  {
    assert [a, b, c] == [a] + [b] + [c] && [a][1..] == [];
    assert Exec(world, s, [a]) == Exec(world, Step(world, s, a), []);
    ExecSnoc(world, s, [a], b);
    ExecSnoc(world, s, [a] + [b], c);
  }

  /** An approval up to its send. */
  function Approval(pid: nat, row: RowId): seq<Action> {
    [Spawn(pid, Approve(row)), Go(pid, []), Go(pid, [])]
  }

  lemma ApprovalLooks(world: World, s: State, pid: nat, row: RowId)
    requires pid !in s.procs && GetPending(TableOf(s, row.kind).rows, row.id).Some?
    requires KeyOf(row.kind, world.destination, TableOf(s, row.kind).rows[row.id].payload) !in s.delivered
    ensures var s' := Exec(world, s, Approval(pid, row));
            && s'.procs.Keys == s.procs.Keys + {pid} && s'.procs[pid].Sending? && s'.procs[pid].origin == Some(row)
            && TableOf(s', row.kind) == TableOf(s, row.kind)
  {
    var payload := TableOf(s, row.kind).rows[row.id].payload;
    var s2 := Step(world, Step(world, s, Spawn(pid, Approve(row))), Go(pid, []));
    assert s2.procs[pid] ==
           Looking(Approving(row, Some(payload)), NoteOf(row.kind, world.destination, payload), Some(row));
    ThreeSteps(world, s, Spawn(pid, Approve(row)), Go(pid, []), Go(pid, []));
  }

  /** A whole rejection. */
  function Rejection(pid: nat, row: RowId): seq<Action> {
    [Spawn(pid, Reject(row)), Go(pid, []), Go(pid, [])]
  }

  lemma RejectionRejects(world: World, s: State, pid: nat, row: RowId)
    requires pid !in s.procs && GetPending(TableOf(s, row.kind).rows, row.id).Some?
    ensures var s' := Exec(world, s, Rejection(pid, row));
            && row.id in TableOf(s', row.kind).rows && TableOf(s', row.kind).rows[row.id].status == Rejected
            && forall q :: q in s.procs ==> q in s'.procs && s'.procs[q] == s.procs[q]
  {
    var s2 := Step(world, Step(world, s, Spawn(pid, Reject(row))), Go(pid, []));
    assert s2.procs[pid] == Idle(Rejecting(row, true)) && TableOf(s2, row.kind) == TableOf(s, row.kind);
    ThreeSteps(world, s, Spawn(pid, Reject(row)), Go(pid, []), Go(pid, []));
  }

  /**
   Overlapping reviews do it: from every state without processes, a reviewer who has looked
   an undelivered payload up sends it after another has rejected the row, and nothing raises.
   */
  lemma OverlappingRejectIsSent(world: World, s: State, row: RowId) returns (before: seq<Action>, after: seq<Action>)
    requires s.procs == map[] && GetPending(TableOf(s, row.kind).rows, row.id).Some?
    requires KeyOf(row.kind, world.destination, TableOf(s, row.kind).rows[row.id].payload) !in s.delivered
    ensures var rejected := Exec(world, s, before);
            && row.id in TableOf(rejected, row.kind).rows && TableOf(rejected, row.kind).rows[row.id].status == Rejected
            && IsReviewed(rejected, row) && !NotSent(rejected, Exec(world, s, before + after), row)
    ensures forall a :: a in before + after ==> a.Spawn? || a.Go?
  {
    ApprovalLooks(world, s, 1, row);
    var looked := Exec(world, s, Approval(1, row));
    RejectionRejects(world, looked, 2, row);
    before, after := Approval(1, row) + Rejection(2, row), [Go(1, [])];
    ExecAppend(world, s, Approval(1, row), Rejection(2, row));
    SendingSends(world, Exec(world, s, before), 1, row);
    ExecAppend(world, s, before, after);
  }
}
