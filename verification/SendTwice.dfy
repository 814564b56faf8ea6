/**
 When a key is sent twice: both conditions of NonOverlappingSendsOnce are needed, and calm is
 exactly what a step has to be. The proofs build the histories.
 */
module SendTwice {
  import opened Wrappers
  import opened Keys
  import opened Severities
  import opened Repositories
  import opened Approvals
  import opened Protocol
  import IR = IncidentRun
  import opened SendBound

  // ------------------------------------------------------------- building blocks

  /** The actions lead from s to s', and are calm for the key all the way. */
  ghost predicate Calmly(world: World, s: State, actions: seq<Action>, s': State, key: Key) {
    Exec(world, s, actions) == s' && CalmHistory(world, s, actions, key)
  }

  lemma {:induction false} CalmAppend(world: World, s: State, a: seq<Action>, b: seq<Action>, key: Key)
    requires CalmHistory(world, s, a, key) && CalmHistory(world, Exec(world, s, a), b, key)
    ensures CalmHistory(world, s, a + b, key)
    decreases |a|
  {
    if a == [] {
      assert a + b == b;
    } else {
      ConsAppend(a, b);
      CalmAppend(world, Step(world, s, a[0]), a[1..], b, key);
    }
  }

  lemma ThenCalmly(world: World, s: State, a: seq<Action>, m: State, b: seq<Action>, r: State, key: Key)
    requires Calmly(world, s, a, m, key) && Calmly(world, m, b, r, key)
    ensures Calmly(world, s, a + b, r, key)
  {
    ExecAppend(world, s, a, b);
    CalmAppend(world, s, a, b, key);
  }

  lemma OneCalmly(world: World, s: State, a: Action, key: Key)
    requires Calm(s, a, key)
    ensures Calmly(world, s, [a], Step(world, s, a), key)
  {
    assert [a][1..] == [];
  }

  lemma SendNow(world: World, s: State, pid: nat, key: Key)
    requires pid in s.procs && SendingKey(s.procs[pid], key)
    ensures var s' := Step(world, s, Go(pid, []));
            && SendsOf(s'.trace, key) == SendsOf(s.trace, key) + 1
            && s'.delivered == s.delivered && Moves(s, s', pid) && MarkingKey(s'.procs[pid], key)
            && Calmly(world, s, [Go(pid, [])], s', key)
  {
    StepEffect(world, s, Go(pid, []), key);
    OneCalmly(world, s, Go(pid, []), key);
  }

  lemma FreshPid(s: State) returns (pid: nat)
    ensures pid !in s.procs
  {
    var pids: set<int> := set q | q in s.procs;
    pid := Above(pids);
    assert pid !in pids;
  }

  /** What is left when a process is about to send a key that nobody else was delivering. */
  ghost predicate Readied(s: State, s': State, pid: nat, key: Key) {
    && s'.procs.Keys == s.procs.Keys + {pid} && pid in s'.procs && SendingKey(s'.procs[pid], key)
    && (forall q :: q in s.procs ==> s'.procs[q] == s.procs[q])
    && s'.delivered == s.delivered && SendsOf(s'.trace, key) == SendsOf(s.trace, key)
  }

  predicate NobodyDelivers(s: State, key: Key) {
    forall q :: q in s.procs ==> !Delivering(s.procs[q], key)
  }

  function KeyOfIncident(world: World, incident: IR.Incident): Key {
    KeyOf(IncidentKind, world.destination, incident.record)
  }

  /** A run over one incident, up to its send. */
  function UpToSend(pid: nat, incident: IR.Incident): seq<Action> {
    [Spawn(pid, CollectIncidents(1, [incident])), Go(pid, []), Go(pid, [])]
  }

  lemma Unfold3(world: World, s: State, a: Action, b: Action, c: Action, key: Key)
    ensures var s1 := Step(world, s, a);
            var s2 := Step(world, s1, b);
            && Exec(world, s, [a, b, c]) == Step(world, s2, c)
            && (CalmHistory(world, s, [a, b, c], key) <==> Calm(s, a, key) && Calm(s1, b, key) && Calm(s2, c, key))
            && (SpawnsAlone(world, s, [a, b, c]) <==>
                  (a.Spawn? ==> AllStopped(s)) && (b.Spawn? ==> AllStopped(s1)) && (c.Spawn? ==> AllStopped(s2)))
  {
    var s1 := Step(world, s, a);
    var s2 := Step(world, s1, b);
    assert [a, b, c][1..] == [b, c] && [b, c][1..] == [c] && [c][1..] == [];
    assert Exec(world, s2, [c]) == Exec(world, Step(world, s2, c), []);
    assert Exec(world, s1, [b, c]) == Exec(world, s2, [c]);
    assert Exec(world, s, [a, b, c]) == Exec(world, s1, [b, c]);
    assert CalmHistory(world, s2, [c], key) <==> Calm(s2, c, key);
    assert CalmHistory(world, s1, [b, c], key) <==> Calm(s1, b, key) && Calm(s2, c, key);
    assert SpawnsAlone(world, s2, [c]) <==> (c.Spawn? ==> AllStopped(s2));
    assert SpawnsAlone(world, s1, [b, c]) <==> (b.Spawn? ==> AllStopped(s1)) && (c.Spawn? ==> AllStopped(s2));
  }

  /** The state with the process about to look the incident up. */
  function AboutToLook(world: World, s: State, pid: nat, incident: IR.Incident): State {
    var note := NoteOf(IncidentKind, world.destination, incident.record);
    s.(procs := s.procs[pid := Looking(Incidents(1, [], 1), note, None)])
  }

  lemma TwoSteps(world: World, s: State, pid: nat, incident: IR.Incident)
    requires pid !in s.procs && incident.severity.MeetsThreshold(world.minSeverity)
    ensures var spawned := Step(world, s, Spawn(pid, CollectIncidents(1, [incident])));
            && spawned == Become(s, pid, Idle(Incidents(1, [incident], 0)))
            && Step(world, spawned, Go(pid, [])) == AboutToLook(world, s, pid, incident)
  {
    var s2 := Step(world, Step(world, s, Spawn(pid, CollectIncidents(1, [incident]))), Go(pid, []));
    assert s2.procs == AboutToLook(world, s, pid, incident).procs;
  }

  lemma RunsUpToSend(world: World, s: State, pid: nat, incident: IR.Incident)
    requires pid !in s.procs && incident.severity.MeetsThreshold(world.minSeverity)
    requires KeyOfIncident(world, incident) !in s.delivered
    ensures Readied(s, Exec(world, s, UpToSend(pid, incident)), pid, KeyOfIncident(world, incident))
    ensures NobodyDelivers(s, KeyOfIncident(world, incident)) ==>
              CalmHistory(world, s, UpToSend(pid, incident), KeyOfIncident(world, incident))
    ensures AllStopped(s) ==> SpawnsAlone(world, s, UpToSend(pid, incident))
  {
    var key := KeyOfIncident(world, incident);
    TwoSteps(world, s, pid, incident);
    Unfold3(world, s, Spawn(pid, CollectIncidents(1, [incident])), Go(pid, []), Go(pid, []), key);
    LooksInVain(world, AboutToLook(world, s, pid, incident), pid, key);
  }

  /** A lookup that finds nothing. */
  lemma LooksInVain(world: World, s: State, pid: nat, key: Key)
    requires pid in s.procs && s.procs[pid].Looking? && s.procs[pid].note.key == key && key !in s.delivered
    ensures Misses(s, Step(world, s, Go(pid, [])), pid, key)
    ensures NobodyDelivers(s, key) ==> Calm(s, Go(pid, []), key)
  {
    StepEffect(world, s, Go(pid, []), key);
  }

  // ------------------------------------------------ both conditions are needed

  lemma {:induction false} SpawnsAppend(world: World, s: State, a: seq<Action>, b: seq<Action>)
    requires SpawnsAlone(world, s, a) && SpawnsAlone(world, Exec(world, s, a), b)
    ensures SpawnsAlone(world, s, a + b)
    decreases |a|
  {
    if a == [] {
      assert a + b == b;
    } else {
      ConsAppend(a, b);
      SpawnsAppend(world, Step(world, s, a[0]), a[1..], b);
    }
  }

  predicate NoneEnds(actions: seq<Action>) {
    forall a :: a in actions ==> !a.Raise? && !a.Vanish?
  }

  lemma NoneEndsAppend(a: seq<Action>, b: seq<Action>)
    requires NoneEnds(a) && NoneEnds(b)
    ensures NoneEnds(a + b)
  {
  }

  lemma SendBoth(world: World, s: State, p: nat, q: nat, key: Key)
    requires p in s.procs && q in s.procs && p != q && SendingKey(s.procs[p], key) && SendingKey(s.procs[q], key)
    ensures SendsOf(Exec(world, s, [Go(p, []), Go(q, [])]).trace, key) == SendsOf(s.trace, key) + 2
  {
    SendNow(world, s, p, key);
    SendNow(world, Step(world, s, Go(p, [])), q, key);
    ExecAppend(world, s, [Go(p, [])], [Go(q, [])]);
    assert [Go(p, [])] + [Go(q, [])] == [Go(p, []), Go(q, [])];
  }

  /**
   Overlap. From every state, two incident runs that both look an undelivered key up before
   either marks it send it twice, although no process raises or vanishes.
   */
  lemma OverlapSendsTwice(world: World, s: State, incident: IR.Incident) returns (actions: seq<Action>)
    requires incident.severity.MeetsThreshold(world.minSeverity) && KeyOfIncident(world, incident) !in s.delivered
    ensures NoneEnds(actions)
    ensures var key := KeyOfIncident(world, incident);
            SendsOf(Exec(world, s, actions).trace, key) == SendsOf(s.trace, key) + 2
  {
    var p := FreshPid(s);
    RunsUpToSend(world, s, p, incident);
    var s1 := Exec(world, s, UpToSend(p, incident));
    var q := FreshPid(s1);
    RunsUpToSend(world, s1, q, incident);
    var s2 := Exec(world, s1, UpToSend(q, incident));
    SendBoth(world, s2, p, q, KeyOfIncident(world, incident));
    ExecAppend(world, s, UpToSend(p, incident), UpToSend(q, incident));
    ExecAppend(world, s, UpToSend(p, incident) + UpToSend(q, incident), [Go(p, []), Go(q, [])]);
    NoneEndsAppend(UpToSend(p, incident), UpToSend(q, incident));
    NoneEndsAppend(UpToSend(p, incident) + UpToSend(q, incident), [Go(p, []), Go(q, [])]);
    actions := UpToSend(p, incident) + UpToSend(q, incident) + [Go(p, []), Go(q, [])];
  }

  /** A run that goes on until it has sent, alone. */
  lemma RunUntilSent(world: World, s: State, incident: IR.Incident) returns (actions: seq<Action>, pid: nat)
    requires incident.severity.MeetsThreshold(world.minSeverity) && KeyOfIncident(world, incident) !in s.delivered
    requires AllStopped(s)
    ensures SpawnsAlone(world, s, actions) && pid !in s.procs
    ensures var key, s' := KeyOfIncident(world, incident), Exec(world, s, actions);
            && SendsOf(s'.trace, key) == SendsOf(s.trace, key) + 1 && s'.delivered == s.delivered
            && s'.procs.Keys == s.procs.Keys + {pid} && forall q :: q in s.procs ==> s'.procs[q] == s.procs[q]
  {
    pid := FreshPid(s);
    RunsUpToSend(world, s, pid, incident);
    var ready := Exec(world, s, UpToSend(pid, incident));
    SendNow(world, ready, pid, KeyOfIncident(world, incident));
    actions := UpToSend(pid, incident) + [Go(pid, [])];
    ExecSnoc(world, s, UpToSend(pid, incident), Go(pid, []));
    SpawnsAlone1(world, ready, Go(pid, []));
    SpawnsAppend(world, s, UpToSend(pid, incident), [Go(pid, [])]);
  }

  lemma SpawnsAlone1(world: World, s: State, a: Action)
    requires !a.Spawn?
    ensures SpawnsAlone(world, s, [a])
  {
    assert [a][1..] == [];
  }

  /**
   Abandoned. From every state in which all processes have stopped, a run that vanishes
   between its send and its mark, followed by an undisturbed one, sends an undelivered key
   twice, although no process starts before all others have stopped.
   */
  lemma AbandonedSendsTwice(world: World, s: State, incident: IR.Incident) returns (actions: seq<Action>)
    requires incident.severity.MeetsThreshold(world.minSeverity) && KeyOfIncident(world, incident) !in s.delivered
    requires AllStopped(s)
    ensures SpawnsAlone(world, s, actions)
    ensures var key := KeyOfIncident(world, incident);
            SendsOf(Exec(world, s, actions).trace, key) == SendsOf(s.trace, key) + 2
  {
    var first, pid := RunUntilSent(world, s, incident);
    var s1 := Exec(world, s, first);
    var vanished := Step(world, s1, Vanish(pid));
    ExecSnoc(world, s, first, Vanish(pid));
    SpawnsAlone1(world, s1, Vanish(pid));
    SpawnsAppend(world, s, first, [Vanish(pid)]);
    var second, _ := RunUntilSent(world, vanished, incident);
    ExecAppend(world, s, first + [Vanish(pid)], second);
    SpawnsAppend(world, s, first + [Vanish(pid)], second);
    actions := first + [Vanish(pid)] + second;
  }

  // ------------------------------------------------- every key can be sent again

  /** The notes processes deliver are made of a record for one of the two destinations. */
  predicate KnownNote(world: World, note: Notification) {
    || note == NoteOf(DetectionKind, world.destination, note.record)
    || note == NoteOf(IncidentKind, world.destination, note.record)
    || note == NoteOf(DetectionKind, BACKFILL_DESTINATION, note.record)
  }

  predicate ProcKnown(world: World, p: Proc) {
    InDelivery(p) ==> KnownNote(world, p.note)
  }

  ghost predicate NotesKnown(world: World, s: State) {
    forall pid :: pid in s.procs ==> ProcKnown(world, s.procs[pid])
  }

  lemma IdleKnown(world: World, s: State, pid: nat, listing: seq<nat>)
    requires pid in s.procs && s.procs[pid].Idle?
    ensures ProcKnown(world, GoStep(world, s, pid, listing).procs[pid])
  {
    var w := s.procs[pid].w;
    match w
    case Detecting(_, _, _, _, _, _) =>
      var s' := DetectingStep(world, s, pid, w);
      assert ProcKnown(world, s'.procs[pid]);
    case Incidents(_, _, _) =>
    case Approving(_, _) =>
    case Rejecting(_, _) =>
    case Backfilling(_, _) =>
  }

  lemma StepKnown(world: World, s: State, a: Action)
    requires NotesKnown(world, s)
    ensures NotesKnown(world, Step(world, s, a))
  {
    if a.Go? && a.pid in s.procs {
      if s.procs[a.pid].Idle? {
        IdleKnown(world, s, a.pid, a.listing);
        IdlePassive(world, s, a.pid, a.listing);
      }
    }
  }

  lemma {:induction false} ExecKnown(world: World, s: State, actions: seq<Action>)
    requires NotesKnown(world, s)
    ensures NotesKnown(world, Exec(world, s, actions))
    decreases |actions|
  {
    if actions != [] {
      StepKnown(world, s, actions[0]);
      ExecKnown(world, Step(world, s, actions[0]), actions[1..]);
    }
  }

  /** An incident whose key is the one of any record of either kind. */
  function Impostor(kind: Kind, record: Record): IR.Incident {
    IR.Incident(map["uuid" := Identity(record), "updateTime" := Version(kind, record)], Critical)
  }

  lemma ImpostorKey(world: World, kind: Kind, record: Record)
    ensures KeyOfIncident(world, Impostor(kind, record)) == KeyOf(kind, world.destination, record)
    ensures Impostor(kind, record).severity.MeetsThreshold(world.minSeverity)
  {
    assert Identity(record) != "" && Version(kind, record) != "";
  }

  lemma NewestListed(rows: Rows, id: nat, row: Row)
    requires row.status.Pending? && forall other :: other in rows ==> rows[other].updatedAt <= row.updatedAt
    ensures IsListing(rows[id := row], 1, [id])
  {
  }

  /** A time no row is newer than, and an external id no row has. */
  lemma Unused(rows: Rows) returns (late: int, name: string)
    ensures !HasExternalId(rows, name) && forall id :: id in rows ==> rows[id].updatedAt <= late
  {
    var times := set id | id in rows :: rows[id].updatedAt;
    var lengths := set id | id in rows :: |rows[id].externalId|;
    late := Above(times);
    var long := Above(lengths);
    name := seq(long, _ => 'x');
    assert forall id :: id in rows ==> rows[id].updatedAt in times && |rows[id].externalId| in lengths;
  }

  /** A save that is newer than every other row, under an external id nobody uses. */
  lemma SaveNewest(world: World, s: State, record: Record, key: Key) returns (actions: seq<Action>, s': State)
    requires key !in s.delivered
    ensures Calmly(world, s, actions, s', key)
    ensures s'.procs == s.procs && s'.delivered == s.delivered && s'.trace == s.trace
    ensures var id := s.detections.nextId;
            && id in s'.detections.rows && s'.detections.rows[id].payload == record
            && IsListing(s'.detections.rows, 1, [id])
  {
    var late, name := Unused(s.detections.rows);
    var tick := Tick(Max(late - s.clock, 0));
    var save := SavePending(DetectionKind, name, "", record);
    var ticked := Step(world, s, tick);
    s' := Step(world, ticked, save);
    NewestListed(s.detections.rows, s.detections.nextId, Row(name, "", Pending, record, ticked.clock));
    OneCalmly(world, s, tick, key);
    OneCalmly(world, ticked, save, key);
    ThenCalmly(world, s, [tick], ticked, [save], s', key);
    actions := [tick] + [save];
  }

  /** A script over that row alone, up to its send. */
  lemma ScriptUpToSend(world: World, s: State, record: Record) returns (actions: seq<Action>, s': State, pid: nat)
    requires var key := KeyOf(DetectionKind, BACKFILL_DESTINATION, record);
             key !in s.delivered && NobodyDelivers(s, key)
    ensures var key := KeyOf(DetectionKind, BACKFILL_DESTINATION, record);
            pid !in s.procs && Calmly(world, s, actions, s', key) && Readied(s, s', pid, key)
  {
    var key := KeyOf(DetectionKind, BACKFILL_DESTINATION, record);
    var id := s.detections.nextId;
    var s1;
    pid := FreshPid(s);
    actions, s1 := SaveNewest(world, s, record, key);
    var listing, more;
    listing, s' := ScriptLists(world, s1, pid, id, record, key);
    ThenCalmly(world, s, actions, s1, listing, s', key);
    more, s' := ScriptLooks(world, s', pid, id, record);
    actions := actions + listing;
    ThenCalmly(world, s, actions, Exec(world, s, actions), more, s', key);
    actions := actions + more;
  }

  lemma ScriptLists(world: World, s: State, pid: nat, id: nat, record: Record, key: Key)
    returns (actions: seq<Action>, s': State)
    requires pid !in s.procs && key !in s.delivered
    requires id in s.detections.rows && s.detections.rows[id].payload == record && IsListing(s.detections.rows, 1, [id])
    ensures Calmly(world, s, actions, s', key)
    ensures s'.procs == s.procs[pid := Idle(Backfilling(1, Todo([(id, record)])))] && s'.delivered == s.delivered
    ensures SendsOf(s'.trace, key) == SendsOf(s.trace, key)
  {
    var spawn := Spawn(pid, Backfill(1));
    var spawned := Step(world, s, spawn);
    OneCalmly(world, s, spawn, key);
    s' := Step(world, spawned, Go(pid, [id]));
    OneCalmly(world, spawned, Go(pid, [id]), key);
    assert Snapshot(s.detections.rows, [id]) == [(id, record)];
    CountReads(s.trace, ReadEvents([(id, record)]), key);
    ThenCalmly(world, s, [spawn], spawned, [Go(pid, [id])], s', key);
    actions := [spawn] + [Go(pid, [id])];
  }

  lemma ScriptLooks(world: World, s: State, pid: nat, id: nat, record: Record) returns (actions: seq<Action>, s': State)
    requires pid in s.procs && s.procs[pid] == Idle(Backfilling(1, Todo([(id, record)])))
    requires var key := KeyOf(DetectionKind, BACKFILL_DESTINATION, record);
             key !in s.delivered && NobodyDelivers(s, key)
    ensures var key := KeyOf(DetectionKind, BACKFILL_DESTINATION, record);
            && Calmly(world, s, actions, s', key) && Moves(s, s', pid) && SendingKey(s'.procs[pid], key)
            && s'.delivered == s.delivered && SendsOf(s'.trace, key) == SendsOf(s.trace, key)
  {
    var note, go := NoteOf(DetectionKind, BACKFILL_DESTINATION, record), Go(pid, []);
    var looking := Step(world, s, go);
    assert [(id, record)][1..] == [];
    assert looking.procs[pid] == Looking(Backfilling(1, Close(id, record, [])), note, Some(RowId(DetectionKind, id)));
    OneCalmly(world, s, go, note.key);
    s' := Step(world, looking, go);
    OneCalmly(world, looking, go, note.key);
    CountSnoc(s.trace, Looked(note.key), note.key);
    ThenCalmly(world, s, [go], looking, [go], s', note.key);
    actions := [go] + [go];
  }

  /** An undelivered key that nobody is delivering can be sent, calmly. */
  lemma SentAgain(world: World, s: State, note: Notification) returns (more: seq<Action>)
    requires KnownNote(world, note) && note.key !in s.delivered && NobodyDelivers(s, note.key)
    ensures CalmHistory(world, s, more, note.key)
    ensures SendsOf(Exec(world, s, more).trace, note.key) == SendsOf(s.trace, note.key) + 1
  {
    var s', pid;
    if note == NoteOf(DetectionKind, BACKFILL_DESTINATION, note.record) {
      more, s', pid := ScriptUpToSend(world, s, note.record);
    } else {
      var kind := if note == NoteOf(DetectionKind, world.destination, note.record) then DetectionKind else IncidentKind;
      var incident := Impostor(kind, note.record);
      ImpostorKey(world, kind, note.record);
      pid := FreshPid(s);
      RunsUpToSend(world, s, pid, incident);
      more, s' := UpToSend(pid, incident), Exec(world, s, UpToSend(pid, incident));
    }
    SendNow(world, s', pid, note.key);
    var sent := Step(world, s', Go(pid, []));
    ThenCalmly(world, s, more, s', [Go(pid, [])], sent, note.key);
    more := more + [Go(pid, [])];
  }

  // ------------------------------------------------------------------ exactness

  /** A lookup of a key that another process is delivering. */
  lemma LookupBreaks(world: World, s: State, p: nat, listing: seq<nat>, q: nat, key: Key) returns (more: seq<Action>)
    requires Once(s, key) && key !in s.delivered
    requires p in s.procs && s.procs[p].Looking? && s.procs[p].note.key == key && q in s.procs
             && Delivering(s.procs[q], key)
    ensures var s' := Step(world, s, Go(p, listing));
            CalmHistory(world, s', more, key) && SendsOf(Exec(world, s', more).trace, key) > 1
  {
    var s' := Step(world, s, Go(p, listing));
    StepEffect(world, s, Go(p, listing), key);
    SendNow(world, s', p, key);
    var s2 := Step(world, s', Go(p, []));
    more := [Go(p, [])];
    if SendingKey(s.procs[q], key) {
      SendNow(world, s2, q, key);
      ThenCalmly(world, s', more, s2, [Go(q, [])], Step(world, s2, Go(q, [])), key);
      more := more + [Go(q, [])];
    }
  }

  /** A process that ends between its send and its mark of an undelivered key. */
  lemma EndBreaks(world: World, s: State, a: Action, key: Key) returns (more: seq<Action>)
    requires Once(s, key) && NotesKnown(world, s) && key !in s.delivered
    requires (a.Raise? || a.Vanish?) && a.pid in s.procs && MarkingKey(s.procs[a.pid], key)
    ensures var s' := Step(world, s, a);
            CalmHistory(world, s', more, key) && SendsOf(Exec(world, s', more).trace, key) > 1
  {
    var s' := Step(world, s, a);
    assert ProcKnown(world, s.procs[a.pid]);
    assert NobodyDelivers(s', key);
    more := SentAgain(world, s', s.procs[a.pid].note);
  }

  lemma Breaks(world: World, s: State, a: Action, key: Key) returns (more: seq<Action>)
    requires Once(s, key) && NotesKnown(world, s) && !Calm(s, a, key)
    ensures var s' := Step(world, s, a);
            CalmHistory(world, s', more, key) && SendsOf(Exec(world, s', more).trace, key) > 1
  {
    if a.Go? {
      var q :| q in s.procs && Delivering(s.procs[q], key);
      more := LookupBreaks(world, s, a.pid, a.listing, q, key);
    } else {
      more := EndBreaks(world, s, a, key);
    }
  }

  /** However it goes on calmly, the key is sent at most once in all. */
  ghost predicate OnceCalmly(world: World, s: State, key: Key) {
    forall more :: CalmHistory(world, s, more, key) ==> SendsOf(Exec(world, s, more).trace, key) <= 1
  }

  /**
   Calm is exactly what a step has to be. After any history that was calm for a key, the next
   action is calm if and only if no calm continuation of it sends the key a second time.
   */
  lemma CalmExactly(world: World, s: State, actions: seq<Action>, a: Action, key: Key)
    requires Quiet(s) && CalmHistory(world, s, actions, key)
    ensures var s' := Exec(world, s, actions);
            Calm(s', a, key) <==> OnceCalmly(world, Step(world, s', a), key)
  {
    var s' := Exec(world, s, actions);
    ExecOnce(world, s, actions, key);
    ExecKnown(world, s, actions);
    if Calm(s', a, key) {
      StepOnce(world, s', a, key);
      forall more | CalmHistory(world, Step(world, s', a), more, key)
        ensures SendsOf(Exec(world, Step(world, s', a), more).trace, key) <= 1
      {
        ExecOnce(world, Step(world, s', a), more, key);
      }
    } else {
      var more := Breaks(world, s', a, key);
    }
  }
}
