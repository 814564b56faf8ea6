/**
 The state machine and the sequential programs agree: a process that is left alone does,
 step by step, what they compute. A detection run leaves the tables RunOnce describes.
 */
module SoloRun {
  import opened Wrappers
  import opened Keys
  import opened Repositories
  import opened Approvals
  import opened DetectionRun
  import opened Progress
  import opened Protocol
  import IR = IncidentRun

  /** The keys sent, in order. */
  function SentKeys(trace: seq<Event>): seq<Key> {
    if trace == [] then []
    else
      var last := trace[|trace| - 1];
      SentKeys(trace[..|trace| - 1]) + (if last.Sent? then [last.key] else [])
  }

  function NoteKeys(notes: seq<Notification>): seq<Key> {
    if notes == [] then [] else NoteKeys(notes[..|notes| - 1]) + [notes[|notes| - 1].key]
  }

  lemma SentSnoc(trace: seq<Event>, e: Event)
    ensures SentKeys(trace + [e]) == SentKeys(trace) + (if e.Sent? then [e.key] else [])
  {
    assert (trace + [e])[..|trace|] == trace;
  }

  lemma NoteSnoc(notes: seq<Notification>, n: Notification)
    ensures NoteKeys(notes + [n]) == NoteKeys(notes) + [n.key]
  {
    assert (notes + [n])[..|notes|] == notes;
  }

  /** Where the run started from: the state, its process, and the token it read. */
  datatype Origin = Origin(s: State, pid: nat)

  /**
   The machine is where the tally says: from the origin, only this process has moved; it is
   p now, and the run log, the delivered keys and the keys sent are the ones of the tally.
   */
  predicate At(o: Origin, s: State, p: Proc, t: Tally) {
    && s == o.s.(procs := o.s.procs[o.pid := p], log := o.s.log + CursorRows(t.cursors),
                 delivered := o.s.delivered + KeysOf(t.sent), trace := s.trace)
    && SentKeys(s.trace) == SentKeys(o.s.trace) + NoteKeys(t.sent)
  }

  predicate OnlyGoes(actions: seq<Action>, pid: nat) {
    forall a :: a in actions ==> a == Go(pid, [])
  }

  ghost predicate Reaches(world: World, s: State, actions: seq<Action>, pid: nat, s': State) {
    OnlyGoes(actions, pid) && Exec(world, s, actions) == s'
  }

  lemma OneGo(world: World, s: State, pid: nat) returns (actions: seq<Action>)
    requires pid in s.procs
    ensures Reaches(world, s, actions, pid, GoStep(world, s, pid, []))
  {
    actions := [Go(pid, [])];
    assert actions[1..] == [];
  }

  lemma AndThen(world: World, s: State, a: seq<Action>, b: seq<Action>, pid: nat, m: State, r: State)
    requires Reaches(world, s, a, pid, m) && Reaches(world, m, b, pid, r)
    ensures Reaches(world, s, a + b, pid, r)
  {
    ExecAppend(world, s, a, b);
  }

  /** A process about to send, sending and marking. */
  lemma SendAndMark(world: World, s: State, pid: nat, w: Work, note: Notification, origin: Option<RowId>)
    returns (actions: seq<Action>)
    requires pid in s.procs && s.procs[pid] == Sending(w, note, origin)
    ensures Reaches(world, s, actions, pid, MarkStep(SendStep(s, pid, w, note, origin), pid, w, note))
  {
    var s' := SendStep(s, pid, w, note, origin);
    var first := OneGo(world, s, pid);
    var second := OneGo(world, s', pid);
    AndThen(world, s, first, second, pid, s', MarkStep(s', pid, w, note));
    actions := first + second;
  }

  lemma SentAndMarkedAt(o: Origin, s: State, w: Work, note: Notification, origin: Option<RowId>, t: Tally)
    requires At(o, s, Sending(w, note, origin), t)
    ensures At(o, MarkStep(SendStep(s, o.pid, w, note, origin), o.pid, w, note), Idle(AfterNotified(w, note)),
               AsNotified(t, note))
  {
    SentSnoc(s.trace, Sent(note.key, origin));
    SentSnoc(s.trace + [Sent(note.key, origin)], Marked(note.key));
    NoteSnoc(t.sent, note);
    KeysOfAppend(t.sent, [note]);
    Assoc(SentKeys(o.s.trace), NoteKeys(t.sent), [note.key]);
    assert s.delivered + {note.key} == o.s.delivered + KeysOf(t.sent + [note]);
  }

  /** The delivery of one candidate: a lookup, and unless it is a duplicate a send and a mark. */
  lemma DeliverSolo(world: World, o: Origin, s: State, w: Work, note: Notification, origin: Option<RowId>, t: Tally)
    returns (actions: seq<Action>, s': State)
    requires At(o, s, Looking(w, note, origin), t)
    ensures var known := note.key in o.s.delivered + KeysOf(t.sent);
            && Reaches(world, s, actions, o.pid, s')
            && (known ==> At(o, s', Idle(AfterDuplicate(w)), t))
            && (!known ==> At(o, s', Idle(AfterNotified(w, note)), AsNotified(t, note)))
  {
    SentSnoc(s.trace, Looked(note.key));
    var s1 := LookStep(s, o.pid, w, note, origin);
    actions := OneGo(world, s, o.pid);
    s' := s1;
    if note.key !in s.delivered {
      s' := MarkStep(SendStep(s1, o.pid, w, note, origin), o.pid, w, note);
      var more := SendAndMark(world, s1, o.pid, w, note, origin);
      AndThen(world, s, actions, more, o.pid, s1, s');
      SentAndMarkedAt(o, s1, w, note, origin, t);
      actions := actions + more;
    }
  }

  /** One detection. */
  lemma VisitSolo(world: World, o: Origin, s: State, w: Work) returns (actions: seq<Action>, s': State)
    requires w.Detecting? && w.phase.Scan? && !w.t.cut && At(o, s, Idle(w), w.t)
    requires w.phase.i < |PageAt(world.pages, Index(w.token)).detections|
    ensures var d := PageAt(world.pages, Index(w.token)).detections[w.phase.i];
            var t' := Visit(PolicyOf(world, w.limit, w.maxPages), w.cutoff, o.s.delivered, w.t, d);
            var w' := w.(t := t', phase := if t'.cut then Finish else Scan(w.phase.i + 1));
            Reaches(world, s, actions, o.pid, s') && At(o, s', Idle(w'), t')
  {
    var policy := PolicyOf(world, w.limit, w.maxPages);
    var d := PageAt(world.pages, Index(w.token)).detections[w.phase.i];
    var s1 := DetectingStep(world, s, o.pid, w);
    actions := OneGo(world, s, o.pid);
    s' := s1;
    if Judge(policy, w.cutoff, w.t.processed, d).Candidate? {
      var w1 := w.(t := Counted(policy, w.cutoff, w.t, d), phase := Scan(w.phase.i + 1));
      var more;
      more, s' := DeliverSolo(world, o, s1, w1, Note(world.destination, d), None, w1.t);
      AndThen(world, s, actions, more, o.pid, s1, s');
      actions := actions + more;
    }
  }

  /** The rest of a page. */
  lemma {:induction false} ScanSolo(world: World, o: Origin, s: State, w: Work)
    returns (actions: seq<Action>, s': State)
    requires w.Detecting? && w.phase.Scan? && !w.t.cut && At(o, s, Idle(w), w.t)
    requires w.phase.i <= |PageAt(world.pages, Index(w.token)).detections|
    ensures var page := PageAt(world.pages, Index(w.token));
            var t' := ScanPage(PolicyOf(world, w.limit, w.maxPages), w.cutoff, o.s.delivered, w.t,
                               page.detections[w.phase.i..]);
            var w' := w.(t := t', phase := if !t'.cut && page.next.Some? then Store else Finish);
            Reaches(world, s, actions, o.pid, s') && At(o, s', Idle(w'), t')
    decreases |PageAt(world.pages, Index(w.token)).detections| - w.phase.i
  {
    var ds := PageAt(world.pages, Index(w.token)).detections;
    var i := w.phase.i;
    if i == |ds| {
      actions := OneGo(world, s, o.pid);
      s' := DetectingStep(world, s, o.pid, w);
    } else {
      actions, s' := VisitSolo(world, o, s, w);
      var t' := Visit(PolicyOf(world, w.limit, w.maxPages), w.cutoff, o.s.delivered, w.t, ds[i]);
      assert ds[i..][0] == ds[i] && ds[i..][1..] == ds[i + 1..];
      if !t'.cut {
        var more, s'' := ScanSolo(world, o, s', w.(t := t', phase := Scan(i + 1)));
        AndThen(world, s, actions, more, o.pid, s', s'');
        actions, s' := actions + more, s'';
      }
    }
  }

  /** save_cursor after a completed page. */
  lemma StoreSolo(world: World, o: Origin, s: State, w: Work) returns (actions: seq<Action>, s': State)
    requires w.Detecting? && w.phase.Store? && At(o, s, Idle(w), w.t) && PageAt(world.pages, Index(w.token)).next.Some?
    ensures var next := PageAt(world.pages, Index(w.token)).next;
            var t' := w.t.(cursors := w.t.cursors + [next.value]);
            var w' := w.(t := t', token := next, phase := if w.t.processed >= w.limit then Finish else Fetch);
            Reaches(world, s, actions, o.pid, s') && At(o, s', Idle(w'), t')
  {
    var next := PageAt(world.pages, Index(w.token)).next;
    actions := OneGo(world, s, o.pid);
    s' := DetectingStep(world, s, o.pid, w);
    assert CursorRows(w.t.cursors + [next.value]) == CursorRows(w.t.cursors) + [Running(next)];
    Assoc(o.s.log, CursorRows(w.t.cursors), [Running(next)]);
  }

  /** The fetch and the page. */
  lemma FetchSolo(world: World, o: Origin, s: State, w: Work) returns (actions: seq<Action>, s': State)
    requires w.Detecting? && w.phase.Fetch? && !w.t.cut && At(o, s, Idle(w), w.t) && w.t.fetched < Max(w.maxPages, 0)
    ensures var page := PageAt(world.pages, Index(w.token));
            var t' := ScanPage(PolicyOf(world, w.limit, w.maxPages), w.cutoff, o.s.delivered,
                               w.t.(fetched := w.t.fetched + 1), page.detections);
            var w' := w.(t := t', phase := if !t'.cut && page.next.Some? then Store else Finish);
            Reaches(world, s, actions, o.pid, s') && At(o, s', Idle(w'), t')
  {
    var w1 := w.(t := w.t.(fetched := w.t.fetched + 1), phase := Scan(0));
    var s1 := DetectingStep(world, s, o.pid, w);
    actions := OneGo(world, s, o.pid);
    var ds := PageAt(world.pages, Index(w.token)).detections;
    assert ds[0..] == ds;
    var more, s2 := ScanSolo(world, o, s1, w1);
    AndThen(world, s, actions, more, o.pid, s1, s2);
    actions, s' := actions + more, s2;
  }

  /** The fetch, the page, and the cursor. */
  lemma PageSolo(world: World, o: Origin, s: State, w: Work) returns (actions: seq<Action>, s': State)
    requires w.Detecting? && w.phase.Fetch? && !w.t.cut && At(o, s, Idle(w), w.t) && w.t.fetched < Max(w.maxPages, 0)
    ensures var policy := PolicyOf(world, w.limit, w.maxPages);
            var page := Paged(world.pages)(w.token);
            var t' := PageScan(policy, w.cutoff, o.s.delivered, w.t, page);
            var w' := w.(t := t', token := if !t'.cut && page.next.Some? then page.next else w.token,
                         phase := if GoesOn(policy, t', page) then Fetch else Finish);
            Reaches(world, s, actions, o.pid, s') && At(o, s', Idle(w'), t')
  {
    var page := PageAt(world.pages, Index(w.token));
    var t2 := ScanPage(PolicyOf(world, w.limit, w.maxPages), w.cutoff, o.s.delivered,
                       w.t.(fetched := w.t.fetched + 1), page.detections);
    actions, s' := FetchSolo(world, o, s, w);
    if !t2.cut && page.next.Some? {
      var store, s'' := StoreSolo(world, o, s', w.(t := t2, phase := Store));
      AndThen(world, s, actions, store, o.pid, s', s'');
      actions, s' := actions + store, s'';
    }
  }

  /** The outer loop. */
  lemma {:induction false} PagesSolo(world: World, o: Origin, s: State, w: Work, start: Option<Token>)
    returns (actions: seq<Action>, s': State)
    requires w.Detecting? && w.phase.Fetch? && !w.t.cut && At(o, s, Idle(w), w.t) && w.token == LastToken(w.t, start)
    ensures var t' := ScanPages(PolicyOf(world, w.limit, w.maxPages), w.cutoff, o.s.delivered, Paged(world.pages),
                                w.t, w.token);
            var w' := w.(t := t', token := LastToken(t', start), phase := Finish);
            Reaches(world, s, actions, o.pid, s') && At(o, s', Idle(w'), t')
    decreases Max(w.maxPages, 0) - w.t.fetched
  {
    if w.t.fetched >= Max(w.maxPages, 0) {
      actions := OneGo(world, s, o.pid);
      s' := DetectingStep(world, s, o.pid, w);
    } else {
      var policy := PolicyOf(world, w.limit, w.maxPages);
      var page := Paged(world.pages)(w.token);
      var m := PageScan(policy, w.cutoff, o.s.delivered, w.t, page);
      actions, s' := PageSolo(world, o, s, w);
      if GoesOn(policy, m, page) {
        var more, s'' := PagesSolo(world, o, s', w.(t := m, token := page.next), start);
        AndThen(world, s, actions, more, o.pid, s', s'');
        actions, s' := actions + more, s'';
      }
    }
  }

  /**
   A run that is left alone: the machine stops with the tables of RunOnce, having sent
   exactly the keys Collect sends, in that order.
   */
  lemma RunAlone(world: World, s: State, pid: nat, limit: int, maxPages: int) returns (actions: seq<Action>)
    requires pid in s.procs && s.procs[pid] == Idle(Start(CollectDetections(limit, maxPages)))
    ensures var policy, cutoff := PolicyOf(world, limit, maxPages), s.clock - world.window;
            var r := Collect(policy, cutoff, s.delivered, Paged(world.pages), LatestToken(s.log));
            var s' := Exec(world, s, actions);
            && OnlyGoes(actions, pid)
            && Tables(s'.log, s'.delivered) == RunOnce(policy, cutoff, Paged(world.pages), Tables(s.log, s.delivered))
            && SentKeys(s'.trace) == SentKeys(s.trace) + NoteKeys(r.sent)
            && s'.procs == s.procs[pid := Stopped]
            && s'.clock == s.clock && s'.detections == s.detections && s'.incidents == s.incidents
  {
    var o, start := Origin(s, pid), LatestToken(s.log);
    var w := Detecting(limit, maxPages, s.clock - world.window, start, ZERO, Fetch);
    var s1 := DetectingStep(world, s, pid, Start(CollectDetections(limit, maxPages)));
    actions := OneGo(world, s, pid);
    assert s.log + CursorRows([]) == s.log && s.delivered + KeysOf([]) == s.delivered;
    assert SentKeys(s.trace) + NoteKeys([]) == SentKeys(s.trace);
    assert At(o, s1, Idle(w), ZERO);
    var more, s2 := PagesSolo(world, o, s1, w, start);
    AndThen(world, s, actions, more, pid, s1, s2);
    var last := FinishSolo(world, s2, pid);
    var s3 := s2.(log := s2.log + [Succeeded(ResultOf(s2.procs[pid].w.t), s2.procs[pid].w.token)],
                  procs := s2.procs[pid := Stopped]);
    AndThen(world, s, actions + more, last, pid, s2, s3);
    actions := actions + more + last;
  }

  /** save_success, and the return. */
  lemma FinishSolo(world: World, s: State, pid: nat) returns (actions: seq<Action>)
    requires pid in s.procs && s.procs[pid].Idle? && s.procs[pid].w.Detecting? && s.procs[pid].w.phase.Finish?
    ensures var row := Succeeded(ResultOf(s.procs[pid].w.t), s.procs[pid].w.token);
            Reaches(world, s, actions, pid, s.(log := s.log + [row], procs := s.procs[pid := Stopped]))
  {
    var s' := GoStep(world, s, pid, []);
    var first := OneGo(world, s, pid);
    var second := OneGo(world, s', pid);
    assert GoStep(world, s', pid, []).procs == s.procs[pid := Stopped];
    AndThen(world, s, first, second, pid, s', GoStep(world, s', pid, []));
    actions := first + second;
  }

  // ------------------------------------------------------------- incident runs

  function Sends(t: IR.Totals): Tally {
    ZERO.(sent := t.sent)
  }

  lemma {:induction false} IncidentsSolo(world: World, o: Origin, s: State, limit: int, stream: seq<IR.Incident>,
                                         t: IR.Totals)
    returns (actions: seq<Action>, s': State)
    requires At(o, s, Idle(Incidents(limit, stream, t.collected)), Sends(t))
    ensures var r := IR.Collect(IR.Policy(limit, world.minSeverity, world.destination), o.s.delivered, t, stream);
            Reaches(world, s, actions, o.pid, s') && At(o, s', Stopped, Sends(r))
    decreases |stream|
  {
    actions := OneGo(world, s, o.pid);
    s' := GoStep(world, s, o.pid, []);
    if stream != [] {
      var policy, incident := IR.Policy(limit, world.minSeverity, world.destination), stream[0];
      var t' := IR.Visit(policy, o.s.delivered, t, incident);
      var rest := if t'.collected >= limit then [] else stream[1..];
      if incident.severity.MeetsThreshold(world.minSeverity) {
        var w := Incidents(limit, rest, t'.collected);
        var delivery, s1 := DeliverSolo(world, o, s', w, IR.Note(policy, incident), None, Sends(t));
        AndThen(world, s, actions, delivery, o.pid, s', s1);
        actions, s' := actions + delivery, s1;
      }
      var more, s2 := IncidentsSolo(world, o, s', limit, rest, t');
      AndThen(world, s, actions, more, o.pid, s', s2);
      actions, s' := actions + more, s2;
    }
  }

  /** An incident run left alone sends exactly what the incident loop sends, in that order. */
  lemma IncidentRunAlone(world: World, s: State, pid: nat, limit: int, stream: seq<IR.Incident>)
    returns (actions: seq<Action>)
    requires pid in s.procs && s.procs[pid] == Idle(Start(CollectIncidents(limit, stream)))
    ensures var r := IR.Collect(IR.Policy(limit, world.minSeverity, world.destination), s.delivered, IR.NONE_YET,
                                stream);
            var s' := Exec(world, s, actions);
            && OnlyGoes(actions, pid)
            && s' == s.(procs := s.procs[pid := Stopped], delivered := s.delivered + KeysOf(r.sent), trace := s'.trace)
            && SentKeys(s'.trace) == SentKeys(s.trace) + NoteKeys(r.sent)
  {
    assert s.log + CursorRows([]) == s.log && s.delivered + KeysOf([]) == s.delivered;
    assert SentKeys(s.trace) + NoteKeys([]) == SentKeys(s.trace);
    var s';
    actions, s' := IncidentsSolo(world, Origin(s, pid), s, limit, stream, IR.NONE_YET);
  }

  // ------------------------------------------------------------------ approvals

  /**
   An approval left alone: the pending row turns approved, its payload's key is delivered,
   and it is sent exactly when it was not delivered before.
   */
  lemma ApproveAlone(world: World, s: State, pid: nat, row: RowId) returns (actions: seq<Action>)
    requires pid in s.procs && s.procs[pid] == Idle(Start(Approve(row)))
    requires GetPending(TableOf(s, row.kind).rows, row.id).Some?
    ensures var key := KeyOf(row.kind, world.destination, TableOf(s, row.kind).rows[row.id].payload);
            var s' := Exec(world, s, actions);
            && OnlyGoes(actions, pid) && s'.procs == s.procs[pid := Stopped]
            && TableOf(s', row.kind).rows == MarkReviewed(TableOf(s, row.kind).rows, row.id, Approved, s.clock)
            && s'.delivered == s.delivered + {key} && s'.log == s.log
            && SentKeys(s'.trace) == SentKeys(s.trace) + (if key in s.delivered then [] else [key])
  {
    var payload := TableOf(s, row.kind).rows[row.id].payload;
    var note := NoteOf(row.kind, world.destination, payload);
    var s1 := ReadAlone(world, s, pid, row);
    actions := OneGo(world, s, pid);
    var more, s2 := DeliverSolo(world, Origin(s, pid), s1, Approving(row, Some(payload)), note, Some(row), ZERO);
    AndThen(world, s, actions, more, pid, s1, s2);
    AfterDelivery(Origin(s, pid), s2, Approving(row, Some(payload)), note);
    var last := OneGo(world, s2, pid);
    CloseAlone(world, s2, pid, row, payload);
    MarkRowAlone(s2, row, Approved, note);
    AndThen(world, s, actions + more, last, pid, s2, GoStep(world, s2, pid, []));
    actions := actions + more + last;
  }

  /** get_pending. */
  lemma ReadAlone(world: World, s: State, pid: nat, row: RowId) returns (s': State)
    requires pid in s.procs && s.procs[pid] == Idle(Start(Approve(row)))
    requires GetPending(TableOf(s, row.kind).rows, row.id).Some?
    ensures var payload := TableOf(s, row.kind).rows[row.id].payload;
            && s' == GoStep(world, s, pid, [])
            && At(Origin(s, pid), s',
                  Looking(Approving(row, Some(payload)), NoteOf(row.kind, world.destination, payload), Some(row)), ZERO)
  {
    s' := GoStep(world, s, pid, []);
    assert s.log + CursorRows([]) == s.log && s.delivered + KeysOf([]) == s.delivered;
    assert SentKeys(s.trace) + NoteKeys([]) == SentKeys(s.trace);
    SentSnoc(s.trace, Read(row, TableOf(s, row.kind).rows[row.id].payload));
  }

  /** mark_reviewed. */
  lemma MarkRowAlone(s: State, row: RowId, status: Status, note: Notification)
    ensures var s' := MarkRow(s, row, status, note);
            && s'.procs == s.procs && s'.delivered == s.delivered && s'.log == s.log
            && TableOf(s', row.kind).rows == MarkReviewed(TableOf(s, row.kind).rows, row.id, status, s.clock)
            && SentKeys(s'.trace) == SentKeys(s.trace)
  {
    SentSnoc(s.trace, Closed(row, status, note));
  }

  lemma CloseAlone(world: World, s: State, pid: nat, row: RowId, payload: Record)
    requires pid in s.procs && s.procs[pid] == Idle(Approving(row, Some(payload)))
    ensures GoStep(world, s, pid, []) ==
            Become(MarkRow(s, row, Approved, NoteOf(row.kind, world.destination, payload)), pid, Stopped)
  {
  }

  /** What one delivery leaves behind. */
  lemma AfterDelivery(o: Origin, s: State, w: Work, note: Notification)
    requires var known := note.key in o.s.delivered;
             At(o, s, Idle(w), if known then ZERO else AsNotified(ZERO, note))
    ensures s.delivered == o.s.delivered + {note.key} && s.log == o.s.log
    ensures SentKeys(s.trace) == SentKeys(o.s.trace) + (if note.key in o.s.delivered then [] else [note.key])
  {
    assert [note][..0] == [] && [note][1..] == [] && [] + [note] == [note];
    assert NoteKeys([note]) == [note.key];
    assert KeysOf([note]) == {note.key};
    assert o.s.log + CursorRows([]) == o.s.log;
  }

  /**
   A rejection left alone: a pending row turns rejected at the time of the review, a row that is
   not pending stays as it is, and nothing is sent or delivered.
   */
  lemma RejectAlone(world: World, s: State, pid: nat, row: RowId) returns (actions: seq<Action>)
    requires pid in s.procs && s.procs[pid] == Idle(Start(Reject(row)))
    ensures var table, s' := TableOf(s, row.kind), Exec(world, s, actions);
            var pending := row.id in table.rows && table.rows[row.id].status.Pending?;
            && OnlyGoes(actions, pid) && s'.procs == s.procs[pid := Stopped]
            && s'.delivered == s.delivered && s'.log == s.log && SentKeys(s'.trace) == SentKeys(s.trace)
            && (!pending ==> TableOf(s', row.kind) == table)
            && (pending ==>
                  TableOf(s', row.kind).rows ==
                  table.rows[row.id := table.rows[row.id].(status := Rejected, updatedAt := s.clock)])
  {
    var s1 := GoStep(world, s, pid, []);
    actions := OneGo(world, s, pid);
    if GetPending(TableOf(s, row.kind).rows, row.id).Some? {
      var last := OneGo(world, s1, pid);
      MarkRowAlone(s1, row, Rejected, Notification("", map[]));
      AndThen(world, s, actions, last, pid, s1, GoStep(world, s1, pid, []));
      actions := actions + last;
    }
  }
}
