/**
 Recovery, end to end: whatever collectors, reviews and scripts did before, overlapping, raising
 and vanishing, a few undisturbed detection runs deliver everything that is still eligible.
 */
module Recovery {
  import opened Wrappers
  import opened Repositories
  import opened DetectionRun
  import opened Progress
  import opened Protocol
  import opened CursorSafety
  import opened SoloRun

  // ------------------------------------------------ tokens stay inside the source

  predicate TokenInRange(world: World, token: Option<Token>) {
    Index(token) < |world.pages|
  }

  predicate ProcInRange(world: World, p: Proc) {
    !p.Failing? && !p.Stopped? && p.w.Detecting? ==> TokenInRange(world, p.w.token)
  }

  predicate LogInRange(world: World, s: State) {
    forall k :: 0 <= k < |s.log| ==> TokenInRange(world, RowToken(s.log[k]))
  }

  ghost predicate InRange(world: World, s: State) {
    && world.pages != [] && LogInRange(world, s)
    && forall pid :: pid in s.procs ==> ProcInRange(world, s.procs[pid])
  }

  lemma DetectingInRange(world: World, s: State, pid: nat, w: Work)
    requires InRange(world, s) && pid in s.procs && s.procs[pid] == Idle(w) && w.Detecting?
    ensures InRange(world, DetectingStep(world, s, pid, w))
  {
    assert ProcInRange(world, s.procs[pid]);
    assert w.phase.Begin? && s.log != [] ==> TokenInRange(world, RowToken(s.log[|s.log| - 1]));
  }

  /** One process moves, and the log stays. */
  lemma MoveInRange(world: World, s: State, s': State, pid: nat)
    requires InRange(world, s) && pid in s.procs && s'.log == s.log
    requires s'.procs.Keys == s.procs.Keys && forall q :: q in s.procs && q != pid ==> s'.procs[q] == s.procs[q]
    requires ProcInRange(world, s'.procs[pid])
    ensures InRange(world, s')
  {
  }

  lemma GoInRange(world: World, s: State, pid: nat, listing: seq<nat>)
    requires InRange(world, s) && pid in s.procs
    ensures InRange(world, GoStep(world, s, pid, listing))
  {
    assert ProcInRange(world, s.procs[pid]);
    match s.procs[pid]
    case Looking(w, note, origin) => MoveInRange(world, s, LookStep(s, pid, w, note, origin), pid);
    case Sending(w, note, origin) => MoveInRange(world, s, SendStep(s, pid, w, note, origin), pid);
    case Marking(w, note, _) => MoveInRange(world, s, MarkStep(s, pid, w, note), pid);
    case Failing(w) =>
    case Stopped =>
    case Idle(w) =>
      match w
      case Detecting(_, _, _, _, _, _) => DetectingInRange(world, s, pid, w);
      case Incidents(_, _, _) => MoveInRange(world, s, IncidentsStep(world, s, pid, w), pid);
      case Approving(_, _) => MoveInRange(world, s, ReviewStep(world, s, pid, w), pid);
      case Rejecting(_, _) => MoveInRange(world, s, ReviewStep(world, s, pid, w), pid);
      case Backfilling(_, _) => BackfillInRange(world, s, pid, w, listing);
  }

  lemma BackfillInRange(world: World, s: State, pid: nat, w: Work, listing: seq<nat>)
    requires InRange(world, s) && pid in s.procs && s.procs[pid] == Idle(w) && w.Backfilling?
    ensures InRange(world, BackfillStep(s, pid, w, listing))
  {
    MoveInRange(world, s, BackfillStep(s, pid, w, listing), pid);
  }

  lemma StepInRange(world: World, s: State, a: Action)
    requires InRange(world, s)
    ensures InRange(world, Step(world, s, a))
  {
    if a.Go? && a.pid in s.procs {
      GoInRange(world, s, a.pid, a.listing);
    } else if (a.Raise? || a.Vanish?) && a.pid in s.procs {
      assert ProcInRange(world, s.procs[a.pid]);
      MoveInRange(world, s, Step(world, s, a), a.pid);
    }
  }

  lemma {:induction false} ExecInRange(world: World, s: State, actions: seq<Action>)
    requires InRange(world, s)
    ensures InRange(world, Exec(world, s, actions))
    decreases |actions|
  {
    if actions != [] {
      StepInRange(world, s, actions[0]);
      ExecInRange(world, Step(world, s, actions[0]), actions[1..]);
    }
  }

  // ----------------------------------------------------------- undisturbed runs

  /** A pause, the start of a run, and nothing but its own steps. */
  ghost predicate IsRun(actions: seq<Action>, pause: nat, limit: int, maxPages: int) {
    && |actions| >= 2 && actions[0] == Tick(pause) && actions[1].Spawn?
    && actions[1].job == CollectDetections(limit, maxPages) && OnlyGoes(actions[2..], actions[1].pid)
  }

  ghost predicate AreRuns(runs: seq<seq<Action>>, pauses: seq<nat>, limit: int, maxPages: int) {
    |runs| == |pauses| && forall k :: 0 <= k < |runs| ==> IsRun(runs[k], pauses[k], limit, maxPages)
  }

  function TablesOf(s: State): Tables {
    Tables(s.log, s.delivered)
  }

  /** The cutoffs of runs that start after the given pauses. */
  function Cutoffs(cutoff: int, pauses: seq<nat>): seq<int>
    decreases |pauses|
  {
    if pauses == [] then [] else [cutoff + pauses[0]] + Cutoffs(cutoff + pauses[0], pauses[1..])
  }

  lemma {:induction false} CutoffsRise(cutoff: int, pauses: seq<nat>)
    ensures |Cutoffs(cutoff, pauses)| == |pauses| && Rising(Cutoffs(cutoff, pauses))
    ensures forall k :: 0 <= k < |pauses| ==> cutoff <= Cutoffs(cutoff, pauses)[k]
    decreases |pauses|
  {
    if pauses != [] {
      CutoffsRise(cutoff + pauses[0], pauses[1..]);
    }
  }

  /** One run with the given cutoff takes the tables from db to db'. */
  ghost predicate RanOnce(policy: Policy, source: Source, cutoff: int, db: Tables, db': Tables) {
    db' == RunOnce(policy, cutoff, source, db)
  }

  /** What matters here of a run left alone. */
  lemma RunTables(world: World, s: State, pid: nat, limit: int, maxPages: int, cutoff: int) returns (goes: seq<Action>)
    requires pid in s.procs && s.procs[pid] == Idle(Start(CollectDetections(limit, maxPages)))
    requires cutoff == s.clock - world.window
    ensures OnlyGoes(goes, pid) && Exec(world, s, goes).clock == s.clock
    ensures var policy, s' := PolicyOf(world, limit, maxPages), Exec(world, s, goes);
            RanOnce(policy, Paged(world.pages), cutoff, TablesOf(s), TablesOf(s'))
  {
    hide RunOnce;
    goes := RunAlone(world, s, pid, limit, maxPages);
  }

  lemma StartRun(world: World, s: State, pause: nat, limit: int, maxPages: int) returns (pid: nat, started: State)
    ensures started == Step(world, Step(world, s, Tick(pause)), Spawn(pid, CollectDetections(limit, maxPages)))
    ensures pid in started.procs && started.procs[pid] == Idle(Start(CollectDetections(limit, maxPages)))
    ensures started.clock == s.clock + pause && TablesOf(started) == TablesOf(s)
  {
    var pids: set<int> := set q | q in s.procs;
    pid := Above(pids);
    assert pid !in pids;
    started := Step(world, Step(world, s, Tick(pause)), Spawn(pid, CollectDetections(limit, maxPages)));
  }

  lemma AfterTwo(world: World, s: State, a: Action, b: Action, more: seq<Action>)
    ensures Exec(world, s, [a, b] + more) == Exec(world, Step(world, Step(world, s, a), b), more)
  {
    assert ([a, b] + more)[1..] == [b] + more && ([b] + more)[1..] == more;
  }

  lemma OneRun(world: World, s: State, pause: nat, limit: int, maxPages: int, cutoff: int)
    returns (actions: seq<Action>, s': State)
    requires cutoff == s.clock + pause - world.window
    ensures IsRun(actions, pause, limit, maxPages) && s' == Exec(world, s, actions) && s'.clock == s.clock + pause
    ensures RanOnce(PolicyOf(world, limit, maxPages), Paged(world.pages), cutoff, TablesOf(s), TablesOf(s'))
  {
    var pid, started := StartRun(world, s, pause, limit, maxPages);
    var goes := RunTables(world, started, pid, limit, maxPages, cutoff);
    actions := [Tick(pause), Spawn(pid, CollectDetections(limit, maxPages))] + goes;
    assert actions[2..] == goes;
    AfterTwo(world, s, Tick(pause), Spawn(pid, CollectDetections(limit, maxPages)), goes);
    s' := Exec(world, started, goes);
  }

  function LastCutoff(cutoff: int, pauses: seq<nat>): int
    decreases |pauses|
  {
    if pauses == [] then cutoff else LastCutoff(cutoff + pauses[0], pauses[1..])
  }

  lemma {:induction false} LastIsLast(cutoff: int, pauses: seq<nat>)
    requires pauses != []
    ensures |Cutoffs(cutoff, pauses)| == |pauses| && Cutoffs(cutoff, pauses)[|pauses| - 1] == LastCutoff(cutoff, pauses)
    decreases |pauses|
  {
    if |pauses| > 1 {
      LastIsLast(cutoff + pauses[0], pauses[1..]);
    }
  }

  lemma RunAllCons(policy: Policy, first: int, rest: seq<int>, source: Source, db: Tables, db': Tables)
    requires db' == RunOnce(policy, first, source, db)
    ensures RunAll(policy, [first] + rest, source, db) == RunAll(policy, rest, source, db')
  {
    assert ([first] + rest)[1..] == rest;
  }

  lemma CutoffsUnfold(cutoff: int, pauses: seq<nat>)
    requires pauses != []
    ensures Cutoffs(cutoff, pauses) == [cutoff + pauses[0]] + Cutoffs(cutoff + pauses[0], pauses[1..])
    ensures LastCutoff(cutoff, pauses) == LastCutoff(cutoff + pauses[0], pauses[1..])
  {
  }

  /** The runs of the given pauses take the tables from db to db', and the last has the cutoff `last`. */
  ghost predicate RanAll(policy: Policy, source: Source, cutoff: int, pauses: seq<nat>, db: Tables, db': Tables,
                         last: int) {
    db' == RunAll(policy, Cutoffs(cutoff, pauses), source, db) && last == LastCutoff(cutoff, pauses)
  }

  lemma RanOneMore(policy: Policy, source: Source, cutoff: int, pauses: seq<nat>, db: Tables, db1: Tables, db': Tables,
                   last: int)
    requires pauses != [] && RanOnce(policy, source, cutoff + pauses[0], db, db1)
    requires RanAll(policy, source, cutoff + pauses[0], pauses[1..], db1, db', last)
    ensures RanAll(policy, source, cutoff, pauses, db, db', last)
  {
    CutoffsUnfold(cutoff, pauses);
    RunAllCons(policy, cutoff + pauses[0], Cutoffs(cutoff + pauses[0], pauses[1..]), source, db, db1);
  }

  lemma {:induction false} ManyRuns(world: World, s: State, pauses: seq<nat>, limit: int, maxPages: int, cutoff: int)
    returns (runs: seq<seq<Action>>, s': State)
    requires cutoff == s.clock - world.window
    ensures AreRuns(runs, pauses, limit, maxPages) && s' == Exec(world, s, Flatten(runs))
    ensures RanAll(PolicyOf(world, limit, maxPages), Paged(world.pages), cutoff, pauses, TablesOf(s), TablesOf(s'),
                   s'.clock - world.window)
    decreases |pauses|
  {
    hide RunOnce;
    if pauses == [] {
      runs, s' := [], s;
    } else {
      var first, s1 := OneRun(world, s, pauses[0], limit, maxPages, cutoff + pauses[0]);
      var rest;
      rest, s' := ManyRuns(world, s1, pauses[1..], limit, maxPages, cutoff + pauses[0]);
      runs := [first] + rest;
      ManyFlattened(world, s, first, rest);
      RanOneMore(PolicyOf(world, limit, maxPages), Paged(world.pages), cutoff, pauses,
                 TablesOf(s), TablesOf(s1), TablesOf(s'), s'.clock - world.window);
    }
  }

  lemma ManyFlattened(world: World, s: State, first: seq<Action>, rest: seq<seq<Action>>)
    ensures Exec(world, s, Flatten([first] + rest)) == Exec(world, Exec(world, s, first), Flatten(rest))
  {
    assert ([first] + rest)[1..] == rest;
    ExecAppend(world, s, first, Flatten(rest));
  }

  /** Runs from a safe cursor inside the source. */
  lemma RunsDeliver(world: World, s': State, policy: Policy, cutoff: int, pauses: seq<nat>, db: Tables)
    requires policy.minSeverity == world.minSeverity && policy.destination == world.destination
    requires policy.maxPages >= 1 && |pauses| >= |world.pages| > 0
    requires forall ds :: ds in world.pages ==> |Windowed(cutoff + pauses[0], ds)| <= policy.limit
    requires Index(LatestToken(db.log)) < |world.pages|
    requires SafeBefore(policy, cutoff + pauses[0], db.delivered, world.pages, Index(LatestToken(db.log)))
    requires RanAll(policy, Paged(world.pages), cutoff, pauses, db, TablesOf(s'), s'.clock - world.window)
    ensures AllDelivered(world, s')
  {
    CutoffsRise(cutoff, pauses);
    LastIsLast(cutoff, pauses);
    EverythingIsDelivered(policy, Cutoffs(cutoff, pauses), world.pages, db);
    AllPagesSafe(world, s', policy);
  }

  /** Every detection is outside the window, below the threshold, or delivered. */
  ghost predicate AllDelivered(world: World, s: State) {
    forall ds, d :: ds in world.pages && d in ds ==>
      || (d.occurredAt.Some? && d.occurredAt.value < s.clock - world.window)
      || !d.severity.MeetsThreshold(world.minSeverity)
      || DetectionKey(world.destination, d) in s.delivered
  }

  /**
   After any history from an empty log, as many undisturbed detection runs as there are
   pages, at any times, deliver every detection that is in the window of the last run and
   meets the threshold, provided no page holds more in-window detections than the limit.
   */
  lemma Recovers(world: World, start: State, history: seq<Action>, limit: int, maxPages: int, pauses: seq<nat>)
    returns (runs: seq<seq<Action>>)
    requires Quiet(start) && start.log == [] && world.pages != []
    requires maxPages >= 1 && |pauses| >= |world.pages|
    requires var cutoff := Exec(world, start, history).clock + pauses[0] - world.window;
             forall ds :: ds in world.pages ==> |Windowed(cutoff, ds)| <= limit
    ensures AreRuns(runs, pauses, limit, maxPages)
    ensures AllDelivered(world, Exec(world, start, history + Flatten(runs)))
  {
    var s := Exec(world, start, history);
    ExecKeeps(world, start, history);
    ExecInRange(world, start, history);
    var policy, cutoff := PolicyOf(world, limit, maxPages), s.clock - world.window;
    var s';
    runs, s' := ManyRuns(world, s, pauses, limit, maxPages, cutoff);
    ExecAppend(world, start, history, Flatten(runs));
    CursorUsable(world, s, policy, cutoff + pauses[0]);
    RunsDeliver(world, s', policy, cutoff, pauses, TablesOf(s));
  }

  /** The cursor an undisturbed run starts from is safe and inside the source. */
  lemma CursorUsable(world: World, s: State, policy: Policy, cutoff: int)
    requires Inv(world, s) && InRange(world, s) && cutoff >= s.clock - world.window
    requires policy.minSeverity == world.minSeverity && policy.destination == world.destination
    ensures Index(LatestToken(s.log)) < |world.pages|
    ensures SafeBefore(policy, cutoff, s.delivered, world.pages, Index(LatestToken(s.log)))
  {
    if s.log != [] {
      assert SafeToken(world, s, RowToken(s.log[|s.log| - 1])) && TokenInRange(world, RowToken(s.log[|s.log| - 1]));
    }
    var c := Index(LatestToken(s.log));
    forall k | 0 <= k < c && k < |world.pages|
      ensures Safe(policy, s.clock - world.window, s.delivered, world.pages[k])
    {
      assert SafeNow(world, s, world.pages[k]);
    }
    SafeStays(policy, s.clock - world.window, cutoff, s.delivered, s.delivered, world.pages, c);
  }

  lemma AllPagesSafe(world: World, s: State, policy: Policy)
    requires policy.minSeverity == world.minSeverity && policy.destination == world.destination
    requires SafeBefore(policy, s.clock - world.window, s.delivered, world.pages, |world.pages|)
    ensures AllDelivered(world, s)
  {
    forall ds, d | ds in world.pages && d in ds
      ensures Eligible(world.minSeverity, s.clock - world.window, d) ==>
                DetectionKey(world.destination, d) in s.delivered
    {
      var k :| 0 <= k < |world.pages| && world.pages[k] == ds;
      assert Safe(policy, s.clock - world.window, s.delivered, world.pages[k]);
    }
  }
}
