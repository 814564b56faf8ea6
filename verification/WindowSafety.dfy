/**
 What detection runs may send, over every history: only what is made of a detection of the
 source that is not older than the window and meets the threshold; and where a run begins.
 */
module WindowSafety {
  import opened Wrappers
  import opened Keys
  import opened Repositories
  import opened DetectionRun
  import opened Protocol
  import opened SendBound

  /** The note is the one of a detection of the source that is not older than the cutoff. */
  ghost predicate MadeOf(world: World, cutoff: int, note: Notification) {
    exists page, d ::
      && page in world.pages && d in page && (d.occurredAt == None || cutoff <= d.occurredAt.value)
      && d.severity.MeetsThreshold(world.minSeverity)
      && note.record == d.record && note.key == KeyOf(DetectionKind, world.destination, d.record)
  }

  /** A run that has begun has a cutoff not before the floor, and delivers what is not before its cutoff. */
  ghost predicate ProcRecent(world: World, floor: int, p: Proc) {
    !p.Failing? && !p.Stopped? && p.w.Detecting? ==>
      && (p.w.phase != Begin ==> floor <= p.w.cutoff)
      && (InDelivery(p) ==> p.w.phase != Begin && MadeOf(world, p.w.cutoff, p.note))
  }

  ghost predicate AllRecent(world: World, floor: int, s: State) {
    floor <= s.clock - world.window && forall pid :: pid in s.procs ==> ProcRecent(world, floor, s.procs[pid])
  }

  lemma ScanRecent(world: World, floor: int, s: State, pid: nat, w: Work)
    requires pid in s.procs && s.procs[pid] == Idle(w) && w.Detecting? && w.phase.Scan?
    requires ProcRecent(world, floor, Idle(w))
    ensures ProcRecent(world, floor, DetectingStep(world, s, pid, w).procs[pid])
  {
    var k, i := Progress.Index(w.token), w.phase.i;
    var page := Progress.PageAt(world.pages, k);
    if i < |page.detections| && InWindow(w.cutoff, page.detections[i]) {
      assert world.pages[k] in world.pages && page.detections[i] in world.pages[k];
    }
  }

  lemma DetectingRecent(world: World, floor: int, s: State, pid: nat, w: Work)
    requires pid in s.procs && s.procs[pid] == Idle(w) && w.Detecting? && ProcRecent(world, floor, Idle(w))
    requires floor <= s.clock - world.window
    ensures ProcRecent(world, floor, DetectingStep(world, s, pid, w).procs[pid])
  {
    if w.phase.Scan? {
      ScanRecent(world, floor, s, pid, w);
    }
  }

  lemma GoRecent(world: World, floor: int, s: State, pid: nat, listing: seq<nat>)
    requires AllRecent(world, floor, s) && pid in s.procs
    ensures AllRecent(world, floor, GoStep(world, s, pid, listing))
  {
    var p := s.procs[pid];
    assert ProcRecent(world, floor, p);
    if p.Idle? || p.Failing? || p.Stopped? {
      IdlePassive(world, s, pid, listing);
      IdleKeeps(world, s, pid, listing);
      if p.Idle? && p.w.Detecting? {
        DetectingRecent(world, floor, s, pid, p.w);
      }
    }
  }

  /** Only a detection run goes on as a detection run, and no step of a process moves the clock. */
  lemma IdleKeeps(world: World, s: State, pid: nat, listing: seq<nat>)
    requires pid in s.procs && (s.procs[pid].Idle? || s.procs[pid].Failing? || s.procs[pid].Stopped?)
    ensures var s' := GoStep(world, s, pid, listing);
            && s'.clock == s.clock && pid in s'.procs
            && (!s.procs[pid].Idle? || !s.procs[pid].w.Detecting? ==>
                  var p := s'.procs[pid]; p.Failing? || p.Stopped? || !p.w.Detecting?)
  {
    var p := s.procs[pid];
    if p.Idle? {
      match p.w
      case Detecting(_, _, _, _, _, _) => assert GoStep(world, s, pid, listing) == DetectingStep(world, s, pid, p.w);
      case Incidents(_, _, _) =>
      case Approving(_, _) =>
      case Rejecting(_, _) =>
      case Backfilling(_, _) =>
    }
  }

  lemma StepRecent(world: World, floor: int, s: State, a: Action)
    requires AllRecent(world, floor, s)
    ensures AllRecent(world, floor, Step(world, s, a))
  {
    if a.Go? {
      if a.pid in s.procs {
        GoRecent(world, floor, s, a.pid, a.listing);
      }
    } else if (a.Raise? || a.Vanish?) && a.pid in s.procs {
      assert ProcRecent(world, floor, s.procs[a.pid]);
    }
  }

  lemma {:induction false} ExecRecent(world: World, floor: int, s: State, actions: seq<Action>)
    requires AllRecent(world, floor, s)
    ensures AllRecent(world, floor, Exec(world, s, actions))
    decreases |actions|
  {
    if actions != [] {
      StepRecent(world, floor, s, actions[0]);
      ExecRecent(world, floor, Step(world, s, actions[0]), actions[1..]);
    }
  }

  /**
   Over every history: whatever a detection run is about to send is made of a detection of the
   source that has no time or a time not before the run's cutoff, and meets the threshold;
   and no cutoff is before the window at the start of the history.
   */
  lemma DetectionRunsSendOnlyRecent(world: World, s: State, actions: seq<Action>, pid: nat)
    requires s.procs == map[]
    requires var s' := Exec(world, s, actions);
             pid in s'.procs && s'.procs[pid].Sending? && s'.procs[pid].w.Detecting?
    ensures var p := Exec(world, s, actions).procs[pid];
            MadeOf(world, p.w.cutoff, p.note) && s.clock - world.window <= p.w.cutoff
  {
    ExecRecent(world, s.clock - world.window, s, actions);
    assert ProcRecent(world, s.clock - world.window, Exec(world, s, actions).procs[pid]);
  }

  // ------------------------------------------------------------ where a run begins

  /**
   A run begins with the cutoff of the moment, and with the token of the last row of the log:
   the one stored by a run that is going on or vanished, the one a run ended with, or, after a
   failed run, none.
   */
  lemma RunBegins(world: World, s: State, pid: nat, limit: int, maxPages: int)
    requires pid !in s.procs
    ensures var s' := Exec(world, s, [Spawn(pid, CollectDetections(limit, maxPages)), Go(pid, [])]);
            && pid in s'.procs && s'.procs[pid].Idle? && s'.procs[pid].w.Detecting?
            && var w := s'.procs[pid].w;
            && w.limit == limit && w.maxPages == maxPages && w.t == ZERO && w.phase == Fetch
            && w.cutoff == s.clock - world.window
            && (s.log == [] ==> w.token == None)
            && (s.log != [] ==>
                  var last := s.log[|s.log| - 1];
                  && (last.Running? || last.Succeeded? ==> w.token == last.token)
                  && (last.Failed? ==> w.token == None))
  {
    var spawn, go := Spawn(pid, CollectDetections(limit, maxPages)), Go(pid, []);
    ExecAppend(world, s, [spawn], [go]);
    assert [spawn] + [go] == [spawn, go] && [spawn][1..] == [] && [go][1..] == [];
    assert Exec(world, s, [spawn]) == Exec(world, Step(world, s, spawn), []);
    var spawned := Step(world, s, spawn);
    assert Exec(world, spawned, [go]) == Exec(world, Step(world, spawned, go), []);
  }

  /** A detection run that raises leaves a failed row last, so that the next run starts from the first page. */
  lemma RaisedRunFails(world: World, s: State, pid: nat, late: bool)
    requires pid in s.procs && !s.procs[pid].Failing? && !s.procs[pid].Stopped? && s.procs[pid].w.Detecting?
    ensures var s' := Exec(world, s, [Raise(pid, late), Go(pid, [])]);
            && s'.log == s.log + [Failed] && s'.delivered == s.delivered && s'.procs == s.procs[pid := Stopped]
  {
    var raise, go := Raise(pid, late), Go(pid, []);
    ExecAppend(world, s, [raise], [go]);
    assert [raise] + [go] == [raise, go] && [raise][1..] == [] && [go][1..] == [];
    var raised := Step(world, s, raise);
    assert Exec(world, s, [raise]) == Exec(world, raised, []);
    assert raised.procs == s.procs[pid := Failing(s.procs[pid].w)];
    assert Exec(world, raised, [go]) == Exec(world, Step(world, raised, go), []);
  }
}
