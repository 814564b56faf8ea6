/** The backfill script, left alone: the machine goes through the listing as the loop of Review does. */
module SoloBackfill {
  import opened Wrappers
  import opened Keys
  import opened Repositories
  import opened Approvals
  import DetectionRun
  import opened Protocol
  import opened SoloRun
  import Review

  /** One listed approval taken up: looked up, and sent and marked unless delivered before. */
  lemma TakenUpAlone(world: World, s: State, pid: nat, limit: nat, rest: seq<(nat, Record)>)
    returns (actions: seq<Action>, s': State)
    requires rest != [] && pid in s.procs && s.procs[pid] == Idle(Backfilling(limit, Todo(rest)))
    ensures var key := KeyOf(DetectionKind, "discord", rest[0].1);
            && Reaches(world, s, actions, pid, s')
            && s' == s.(procs := s.procs[pid := Idle(Backfilling(limit, Close(rest[0].0, rest[0].1, rest[1..])))],
                        delivered := s.delivered + {key}, trace := s'.trace)
            && SentKeys(s'.trace) == SentKeys(s.trace) + (if key in s.delivered then [] else [key])
  {
    hide KeyOf, SentKeys;
    var o, row := Origin(s, pid), RowId(DetectionKind, rest[0].0);
    var note := NoteOf(DetectionKind, BACKFILL_DESTINATION, rest[0].1);
    var w := Backfilling(limit, Close(rest[0].0, rest[0].1, rest[1..]));
    var s1 := GoStep(world, s, pid, []);
    actions := OneGo(world, s, pid);
    LookingAt(o, s1, w, note, row);
    var delivery;
    delivery, s' := DeliverSolo(world, o, s1, w, note, Some(row), DetectionRun.ZERO);
    AndThen(world, s, actions, delivery, pid, s1, s');
    AfterDelivery(o, s', w, note);
    actions := actions + delivery;
  }

  /** ... and closed. */
  lemma ApprovalAlone(world: World, s: State, pid: nat, limit: nat, rest: seq<(nat, Record)>)
    returns (actions: seq<Action>, s': State)
    requires rest != [] && pid in s.procs && s.procs[pid] == Idle(Backfilling(limit, Todo(rest)))
    ensures var key := KeyOf(DetectionKind, "discord", rest[0].1);
            && Reaches(world, s, actions, pid, s')
            && s'.procs == s.procs[pid := Idle(Backfilling(limit, Todo(rest[1..])))]
            && s'.clock == s.clock && s'.log == s.log && s'.incidents == s.incidents
            && s'.detections == s.detections.(rows := MarkReviewed(s.detections.rows, rest[0].0, Approved, s.clock))
            && s'.delivered == s.delivered + {key}
            && SentKeys(s'.trace) == SentKeys(s.trace) + (if key in s.delivered then [] else [key])
  {
    hide KeyOf, SentKeys, Reaches;
    var row := RowId(DetectionKind, rest[0].0);
    var note := NoteOf(DetectionKind, BACKFILL_DESTINATION, rest[0].1);
    var m;
    actions, m := TakenUpAlone(world, s, pid, limit, rest);
    var last := OneGo(world, m, pid);
    s' := GoStep(world, m, pid, []);
    assert s' == Become(MarkRow(m, row, Approved, note), pid, Idle(Backfilling(limit, Todo(rest[1..]))));
    MarkRowAlone(m, row, Approved, note);
    AndThen(world, s, actions, last, pid, m, s');
    actions := actions + last;
  }

  lemma LookingAt(o: Origin, s: State, w: Work, note: Notification, row: RowId)
    requires s == Become(o.s, o.pid, Looking(w, note, Some(row)))
    ensures At(o, s, Looking(w, note, Some(row)), DetectionRun.ZERO)
  {
    assert o.s.log + DetectionRun.CursorRows([]) == o.s.log && o.s.delivered + KeysOf([]) == o.s.delivered;
    assert SentKeys(o.s.trace) + NoteKeys([]) == SentKeys(o.s.trace);
  }

  /** The first k rows of the listing are approved, and no other row has changed. */
  ghost predicate ApprovedUpTo(before: Rows, rows: Rows, ids: seq<nat>, k: nat, now: int)
    requires k <= |ids|
  {
    && rows.Keys == before.Keys
    && forall id :: id in before ==>
         rows[id] == if id in ids[..k] then before[id].(status := Approved, updatedAt := now) else before[id]
  }

  /** The script has gone through the first k approvals of the listing. */
  ghost predicate Through(s: State, s': State, pid: nat, limit: nat, ids: seq<nat>, k: nat)
    requires k <= |ids| && forall i :: 0 <= i < |ids| ==> ids[i] in s.detections.rows
  {
    var notes := Review.Notes(s.detections.rows, ids, k);
    && s'.procs == s.procs[pid := Idle(Backfilling(limit, Todo(Snapshot(s.detections.rows, ids)[k..])))]
    && s'.clock == s.clock && s'.log == s.log && s'.incidents == s.incidents
    && s'.detections.nextId == s.detections.nextId
    && ApprovedUpTo(s.detections.rows, s'.detections.rows, ids, k, s.clock)
    && SentUpTo(s, s', notes)
  }

  /** The keys of the notes are delivered, and those not delivered before have been sent. */
  ghost predicate SentUpTo(s: State, s': State, notes: seq<Notification>) {
    && s'.delivered == s.delivered + KeysOf(notes)
    && SentKeys(s'.trace) == SentKeys(s.trace) + NoteKeys(FirstOccurrences(s.delivered, notes))
  }

  lemma ApprovedNext(before: Rows, rows: Rows, ids: seq<nat>, k: nat, now: int)
    requires k < |ids| && ApprovedUpTo(before, rows, ids, k, now) && Review.AllPending(before, ids)
    ensures ApprovedUpTo(before, MarkReviewed(rows, ids[k], Approved, now), ids, k + 1, now)
  {
    assert ids[..k + 1] == ids[..k] + [ids[k]];
    assert ids[k] !in ids[..k] && ids[k] in before;
  }

  lemma SentNext(s: State, m: State, s': State, notes: seq<Notification>, note: Notification)
    requires SentUpTo(s, m, notes) && s'.delivered == m.delivered + {note.key}
    requires SentKeys(s'.trace) == SentKeys(m.trace) + (if note.key in m.delivered then [] else [note.key])
    ensures SentUpTo(s, s', notes + [note])
  {
    var kept := FirstOccurrences(s.delivered, notes);
    KeysOfAppend(notes, [note]);
    assert [note][1..] == [] && KeysOf([note]) == {note.key};
    Review.FirstOccurrencesSnoc(s.delivered, notes, note);
    if note.key in m.delivered {
      assert kept + [] == kept;
    } else {
      NoteSnoc(kept, note);
      Assoc(SentKeys(s.trace), NoteKeys(kept), [note.key]);
    }
  }

  /** One more approval of the listing. */
  lemma ThroughNext(world: World, s: State, m: State, pid: nat, limit: nat, ids: seq<nat>, k: nat)
    returns (actions: seq<Action>, s': State)
    requires Review.AllPending(s.detections.rows, ids) && k < |ids| && Through(s, m, pid, limit, ids, k)
    ensures Reaches(world, m, actions, pid, s') && Through(s, s', pid, limit, ids, k + 1)
  {
    hide Reaches, SentUpTo, ApprovedUpTo, MarkReviewed, SentKeys, KeyOf;
    var listed, notes := Snapshot(s.detections.rows, ids), Review.Notes(s.detections.rows, ids, k);
    assert listed[k..][0] == listed[k] && listed[k..][1..] == listed[k + 1..];
    actions, s' := ApprovalAlone(world, m, pid, limit, listed[k..]);
    ApprovedNext(s.detections.rows, m.detections.rows, ids, k, s.clock);
    SentNext(s, m, s', notes, NoteOf(DetectionKind, "discord", listed[k].1));
  }

  /** The rest of the listing, and the end of the script. */
  lemma {:induction false} RestAlone(world: World, s: State, m: State, pid: nat, limit: nat, ids: seq<nat>, k: nat)
    returns (actions: seq<Action>, s': State)
    requires Review.AllPending(s.detections.rows, ids) && k <= |ids| && Through(s, m, pid, limit, ids, k)
    ensures Reaches(world, m, actions, pid, Become(s', pid, Stopped)) && Through(s, s', pid, limit, ids, |ids|)
    decreases |ids| - k
  {
    if k == |ids| {
      s' := m;
      actions := OneGo(world, m, pid);
    } else {
      var first, next := ThroughNext(world, s, m, pid, limit, ids, k);
      var more;
      more, s' := RestAlone(world, s, next, pid, limit, ids, k + 1);
      AndThen(world, m, first, more, pid, next, Become(s', pid, Stopped));
      actions := first + more;
    }
  }

  lemma {:induction false} ReadsSendNothing(trace: seq<Event>, events: seq<Event>)
    requires forall e :: e in events ==> e.Read?
    ensures SentKeys(trace + events) == SentKeys(trace)
    decreases |events|
  {
    if events == [] {
      assert trace + events == trace;
    } else {
      var first, last := events[..|events| - 1], events[|events| - 1];
      ReadsSendNothing(trace, first);
      SentSnoc(trace + first, last);
      assert last in events && trace + first + [last] == trace + events;
      assert SentKeys(trace + first) + [] == SentKeys(trace);
    }
  }

  /** list_pending. */
  lemma ListAlone(world: World, s: State, pid: nat, limit: nat, ids: seq<nat>)
    requires pid in s.procs && s.procs[pid] == Idle(Start(Backfill(limit))) && IsListing(s.detections.rows, limit, ids)
    ensures Review.AllPending(s.detections.rows, ids)
    ensures Through(s, GoStep(world, s, pid, ids), pid, limit, ids, 0)
  {
    forall i | 0 <= i < |ids|
      ensures ids[i] in s.detections.rows && s.detections.rows[ids[i]].status.Pending?
    {
      assert ids[i] in PendingIds(s.detections.rows);
    }
    var listed := Snapshot(s.detections.rows, ids);
    assert listed[0..] == listed;
    ReadsSendNothing(s.trace, ReadEvents(listed));
    assert s.delivered + KeysOf([]) == s.delivered && SentKeys(s.trace) + NoteKeys([]) == SentKeys(s.trace);
  }

  /**
   The script left alone, whatever listing the table answers: every listed row turns approved
   at the time of the pass and no other row changes; the keys of the listed payloads are
   delivered; and those not delivered before are sent, each once, in the order of the listing.
   */
  lemma BackfillAlone(world: World, s: State, pid: nat, limit: nat, ids: seq<nat>) returns (actions: seq<Action>)
    requires pid in s.procs && s.procs[pid] == Idle(Start(Backfill(limit))) && IsListing(s.detections.rows, limit, ids)
    ensures forall i :: 0 <= i < |ids| ==> ids[i] in s.detections.rows
    ensures var rows, notes := s.detections.rows, Review.Notes(s.detections.rows, ids, |ids|);
            var s' := Exec(world, s, [Go(pid, ids)] + actions);
            && OnlyGoes(actions, pid) && s'.procs == s.procs[pid := Stopped]
            && s'.clock == s.clock && s'.log == s.log && s'.incidents == s.incidents
            && s'.detections.nextId == s.detections.nextId && s'.detections.rows.Keys == rows.Keys
            && (forall id :: id in rows ==>
                  s'.detections.rows[id] ==
                  if id in ids then rows[id].(status := Approved, updatedAt := s.clock) else rows[id])
            && s'.delivered == s.delivered + KeysOf(notes)
            && SentKeys(s'.trace) == SentKeys(s.trace) + NoteKeys(FirstOccurrences(s.delivered, notes))
  {
    hide IsListing, SentKeys, NoteKeys, KeysOf, FirstOccurrences, Snapshot;
    ListAlone(world, s, pid, limit, ids);
    var m := GoStep(world, s, pid, ids);
    var s';
    actions, s' := RestAlone(world, s, m, pid, limit, ids, 0);
    ExecAppend(world, s, [Go(pid, ids)], actions);
    assert [Go(pid, ids)][1..] == [] && Exec(world, s, [Go(pid, ids)]) == Exec(world, m, []);
    assert ids[..|ids|] == ids;
  }

  // ----------------------------------------------------------- when a delivery raises

  function Gos(pid: nat, n: nat): seq<Action> {
    if n == 0 then [] else Gos(pid, n - 1) + [Go(pid, [])]
  }

  /**
   The script takes up an approval and awaits something as many times, the last of which raises:
   its send (2), its mark (3), or its mark after it took effect (4).
   */
  function FailedDelivery(pid: nat, awaits: nat): seq<Action> {
    Gos(pid, awaits) + [Raise(pid, true)]
  }

  lemma DeliveryFails(world: World, s: State, pid: nat, limit: nat, rest: seq<(nat, Record)>, awaits: nat)
    requires 2 <= awaits <= 4 && rest != [] && pid in s.procs
    requires s.procs[pid] == Idle(Backfilling(limit, Todo(rest)))
    requires KeyOf(DetectionKind, "discord", rest[0].1) !in s.delivered
    ensures var s' := Exec(world, s, FailedDelivery(pid, awaits));
            && s'.procs == s.procs[pid := Idle(Backfilling(limit, Todo(rest[1..])))]
            && s'.detections == s.detections && s'.delivered >= s.delivered && s'.clock == s.clock
  {
    hide KeyOf;
    var s1 := Step(world, s, Go(pid, []));
    var s2 := Step(world, s1, Go(pid, []));
    var s3 := Step(world, s2, Go(pid, []));
    assert s2.procs[pid].Sending? && s3.procs[pid].Marking?;
    assert Gos(pid, 0) == [];
    ExecSnoc(world, s, Gos(pid, 0), Go(pid, []));
    ExecSnoc(world, s, Gos(pid, 1), Go(pid, []));
    ExecSnoc(world, s, Gos(pid, 2), Go(pid, []));
    ExecSnoc(world, s, Gos(pid, 3), Go(pid, []));
    ExecSnoc(world, s, Gos(pid, awaits), Raise(pid, true));
    assert s.procs[pid := Idle(Backfilling(limit, Todo(rest[1..])))] ==
           Step(world, Exec(world, s, Gos(pid, awaits)), Raise(pid, true)).procs;
  }

  lemma RestOfListing(s: State, pid: nat, limit: nat, ids: seq<nat>)
    requires Review.AllPending(s.detections.rows, ids) && ids != [] && pid in s.procs
    requires s.procs[pid] == Idle(Backfilling(limit, Todo(Snapshot(s.detections.rows, ids)[1..])))
    ensures Review.AllPending(s.detections.rows, ids[1..]) && Through(s, s, pid, limit, ids[1..], 0)
  {
    var rest := Snapshot(s.detections.rows, ids[1..]);
    assert Snapshot(s.detections.rows, ids)[1..] == rest == rest[0..];
    assert s.procs[pid := s.procs[pid]] == s.procs;
    assert s.delivered + KeysOf([]) == s.delivered && SentKeys(s.trace) + NoteKeys([]) == SentKeys(s.trace);
  }

  /**
   A delivery that raises is passed over: the row it was for stays pending, and left alone the
   script still approves all the others of its listing, and ends.
   */
  lemma FailedDeliveryIsPassedOver(world: World, s: State, pid: nat, limit: nat, ids: seq<nat>, awaits: nat)
    returns (actions: seq<Action>)
    requires 2 <= awaits <= 4 && Review.AllPending(s.detections.rows, ids) && ids != [] && pid in s.procs
    requires s.procs[pid] == Idle(Backfilling(limit, Todo(Snapshot(s.detections.rows, ids))))
    requires KeyOf(DetectionKind, "discord", s.detections.rows[ids[0]].payload) !in s.delivered
    ensures var rows, s' := s.detections.rows, Exec(world, s, FailedDelivery(pid, awaits) + actions);
            && OnlyGoes(actions, pid) && s'.procs == s.procs[pid := Stopped]
            && s'.detections.rows.Keys == rows.Keys
            && forall id :: id in rows ==>
                 s'.detections.rows[id] ==
                 if id in ids[1..] then rows[id].(status := Approved, updatedAt := s.clock) else rows[id]
    ensures ids[0] !in ids[1..]
  {
    hide FailedDelivery, Exec;
    var m := Exec(world, s, FailedDelivery(pid, awaits));
    DeliveryFails(world, s, pid, limit, Snapshot(s.detections.rows, ids), awaits);
    RestOfListing(m, pid, limit, ids);
    var s';
    actions, s' := RestAlone(world, m, m, pid, limit, ids[1..], 0);
    ExecAppend(world, s, FailedDelivery(pid, awaits), actions);
    assert ids[1..][..|ids| - 1] == ids[1..];
  }

  /** A lookup that raises, or the change of a status, ends the script where it is. */
  lemma RaisedElsewhereEnds(world: World, s: State, pid: nat)
    requires pid in s.procs && (s.procs[pid].Looking? || s.procs[pid].Idle?) && s.procs[pid].w.Backfilling?
    ensures Exec(world, s, [Raise(pid, false)]) == s.(procs := s.procs[pid := Stopped])
  {
    assert [Raise(pid, false)][1..] == [];
    assert Exec(world, s, [Raise(pid, false)]) == Exec(world, Step(world, s, Raise(pid, false)), []);
  }
}
