/**
 Over every history, whatever interleaves, raises or vanishes: every detection on a page
 before a stored token is older than the cutoff, below the threshold, or delivered.
 */
module CursorSafety {
  import opened Wrappers
  import opened Repositories
  import opened DetectionRun
  import opened Progress
  import opened Protocol

  predicate SafeNow(world: World, s: State, ds: seq<Detection>) {
    Safe(PolicyOf(world, 0, 0), s.clock - world.window, s.delivered, ds)
  }

  /** Every page before the one the token asks for is safe. */
  predicate SafeToken(world: World, s: State, token: Option<Token>) {
    SafeBefore(PolicyOf(world, 0, 0), s.clock - world.window, s.delivered, world.pages, Index(token))
  }

  function Page(world: World, w: Work): seq<Detection>
    requires w.Detecting?
  {
    PageAt(world.pages, Index(w.token)).detections
  }

  /** A detection run between deliveries: everything it has gone past is safe. */
  predicate WorkSafe(world: World, s: State, w: Work) {
    w.Detecting? && w.phase != Begin ==>
      && w.cutoff <= s.clock - world.window
      && SafeToken(world, s, w.token)
      && (w.phase.Scan? ==> w.phase.i <= |Page(world, w)| && SafeNow(world, s, Page(world, w)[..w.phase.i]))
      && (w.phase.Store? ==> SafeNow(world, s, Page(world, w)))
  }

  /** In a delivery, the detection just gone past is the one being delivered. */
  predicate DeliverySafe(world: World, s: State, w: Work, note: Notification) {
    w.Detecting? ==>
      && w.phase.Scan? && 0 < w.phase.i <= |Page(world, w)|
      && w.cutoff <= s.clock - world.window
      && SafeToken(world, s, w.token)
      && SafeNow(world, s, Page(world, w)[..w.phase.i - 1])
      && note == Note(world.destination, Page(world, w)[w.phase.i - 1])
  }

  predicate ProcSafe(world: World, s: State, p: Proc) {
    match p
    case Idle(w) => WorkSafe(world, s, w)
    case Looking(w, note, _) => DeliverySafe(world, s, w, note)
    case Sending(w, note, _) => DeliverySafe(world, s, w, note)
    case Marking(w, note, _) => DeliverySafe(world, s, w, note)
    case Failing(_) => true
    case Stopped => true
  }

  predicate LogSafe(world: World, s: State) {
    forall k :: 0 <= k < |s.log| ==> SafeToken(world, s, RowToken(s.log[k]))
  }

  ghost predicate Inv(world: World, s: State) {
    && LogSafe(world, s)
    && forall pid :: pid in s.procs ==> ProcSafe(world, s, s.procs[pid])
  }

  // ------------------------------------------------------------ monotonicity

  /** Time passes and keys are added: what is safe stays safe. */
  predicate Later(s: State, s': State) {
    s.clock <= s'.clock && s.delivered <= s'.delivered
  }

  lemma TokenStays(world: World, s: State, s': State, token: Option<Token>)
    requires Later(s, s') && SafeToken(world, s, token)
    ensures SafeToken(world, s', token)
  {
    SafeStays(PolicyOf(world, 0, 0), s.clock - world.window, s'.clock - world.window, s.delivered, s'.delivered,
              world.pages, Index(token));
  }

  lemma ProcStays(world: World, s: State, s': State, p: Proc)
    requires Later(s, s') && ProcSafe(world, s, p)
    ensures ProcSafe(world, s', p)
  {
    if !p.Stopped? && p.w.Detecting? && SafeToken(world, s, p.w.token) {
      TokenStays(world, s, s', p.w.token);
    }
  }

  /** A step by one process, or by none, keeps everything if it keeps its own part. */
  lemma StepBy(world: World, s: State, s': State, pid: nat)
    requires Inv(world, s) && Later(s, s')
    requires s'.procs.Keys <= s.procs.Keys + {pid}
    requires forall q :: q in s'.procs && q != pid ==> q in s.procs && s'.procs[q] == s.procs[q]
    requires pid in s'.procs ==> ProcSafe(world, s', s'.procs[pid])
    requires s'.log == s.log
             || (|s'.log| == |s.log| + 1 && s'.log[..|s.log|] == s.log
                 && SafeToken(world, s', RowToken(s'.log[|s.log|])))
    ensures Inv(world, s')
  {
    forall k | 0 <= k < |s'.log|
      ensures SafeToken(world, s', RowToken(s'.log[k]))
    {
      if k < |s.log| {
        assert s'.log[k] == s'.log[..|s.log|][k];
        TokenStays(world, s, s', RowToken(s.log[k]));
      }
    }
    forall q | q in s'.procs
      ensures ProcSafe(world, s', s'.procs[q])
    {
      if q != pid {
        ProcStays(world, s, s', s.procs[q]);
      }
    }
  }

  // ------------------------------------------------------------- the steps

  lemma SafeSnoc(world: World, s: State, ds: seq<Detection>, i: nat)
    requires i < |ds| && SafeNow(world, s, ds[..i])
    requires Eligible(world.minSeverity, s.clock - world.window, ds[i]) ==>
               DetectionKey(world.destination, ds[i]) in s.delivered
    ensures SafeNow(world, s, ds[..i + 1])
  {
    assert ds[..i + 1] == ds[..i] + [ds[i]];
  }

  lemma ScanKeeps(world: World, s: State, pid: nat, w: Work)
    requires Inv(world, s) && pid in s.procs && s.procs[pid] == Idle(w) && w.Detecting? && w.phase.Scan?
    ensures Inv(world, DetectingStep(world, s, pid, w))
  {
    var ds := Page(world, w);
    if w.phase.i < |ds| {
      var verdict := Judge(PolicyOf(world, w.limit, w.maxPages), w.cutoff, w.t.processed, ds[w.phase.i]);
      if verdict.Old? || verdict.Below? {
        SafeSnoc(world, s, ds, w.phase.i);
      }
    } else {
      assert ds[..w.phase.i] == ds;
    }
    StepBy(world, s, DetectingStep(world, s, pid, w), pid);
  }

  lemma DetectingKeeps(world: World, s: State, pid: nat, w: Work)
    requires Inv(world, s) && pid in s.procs && s.procs[pid] == Idle(w) && w.Detecting? && !w.phase.Scan?
    ensures Inv(world, DetectingStep(world, s, pid, w))
  {
    var s' := DetectingStep(world, s, pid, w);
    var next := PageAt(world.pages, Index(w.token)).next;
    if w.phase.Begin? && s.log != [] {
      assert SafeToken(world, s, RowToken(s.log[|s.log| - 1]));
    }
    if w.phase.Store? && next.Some? {
      assert Index(next) == Index(w.token) + 1;
      assert SafeToken(world, s, next);
    }
    if s' != s {
      StepBy(world, s, s', pid);
    }
  }

  lemma OthersKeep(world: World, s: State, pid: nat, w: Work, listing: seq<nat>)
    requires Inv(world, s) && pid in s.procs && s.procs[pid] == Idle(w) && !w.Detecting?
    ensures Inv(world, GoStep(world, s, pid, listing))
  {
    var s' := GoStep(world, s, pid, listing);
    StepBy(world, s, s', pid);
  }

  lemma GoKeeps(world: World, s: State, pid: nat, listing: seq<nat>)
    requires Inv(world, s) && pid in s.procs
    ensures Inv(world, GoStep(world, s, pid, listing))
  {
    var s' := GoStep(world, s, pid, listing);
    match s.procs[pid] {
      case Idle(w) =>
        if w.Detecting? && w.phase.Scan? {
          ScanKeeps(world, s, pid, w);
        } else if w.Detecting? {
          DetectingKeeps(world, s, pid, w);
        } else {
          OthersKeep(world, s, pid, w, listing);
        }
      case Looking(w, note, _) =>
        if w.Detecting? && note.key in s.delivered {
          SafeSnoc(world, s, Page(world, w), w.phase.i - 1);
        }
        StepBy(world, s, s', pid);
      case Sending(w, note, _) => StepBy(world, s, s', pid);
      case Marking(w, note, _) =>
        ProcStays(world, s, s', s.procs[pid]);
        if w.Detecting? {
          SafeSnoc(world, s', Page(world, w), w.phase.i - 1);
        }
        StepBy(world, s, s', pid);
      case Failing(w) => StepBy(world, s, s', pid);
      case Stopped =>
    }
  }

  lemma NobodyMoves(world: World, s: State, s': State)
    requires Inv(world, s) && Later(s, s') && s'.procs == s.procs && s'.log == s.log
    ensures Inv(world, s')
  {
    forall pid | pid in s.procs
      ensures ProcSafe(world, s', s.procs[pid])
    {
      ProcStays(world, s, s', s.procs[pid]);
    }
    StepBy(world, s, s', 0);
  }

  lemma StepKeeps(world: World, s: State, a: Action)
    requires Inv(world, s)
    ensures Inv(world, Step(world, s, a))
  {
    var s' := Step(world, s, a);
    match a {
      case Go(pid, listing) =>
        if pid in s.procs {
          GoKeeps(world, s, pid, listing);
        }
      case Tick(_) => NobodyMoves(world, s, s');
      case SavePending(_, _, _, _) => NobodyMoves(world, s, s');
      case Spawn(pid, _) => if pid !in s.procs { StepBy(world, s, s', pid); }
      case Raise(pid, _) => if pid in s.procs { StepBy(world, s, s', pid); }
      case Vanish(pid) => if pid in s.procs { StepBy(world, s, s', pid); }
    }
  }

  lemma {:induction false} ExecKeeps(world: World, s: State, actions: seq<Action>)
    requires Inv(world, s)
    ensures Inv(world, Exec(world, s, actions))
    decreases |actions|
  {
    if actions != [] {
      StepKeeps(world, s, actions[0]);
      ExecKeeps(world, Step(world, s, actions[0]), actions[1..]);
    }
  }

  /**
   Cursor safety over all histories. From any state without processes whose stored tokens
   are safe, the empty log for one, every token stored at any later time is safe: each
   detection on an earlier page is older than the cutoff, below the threshold, or its key
   is delivered.
   */
  lemma CursorSafety(world: World, s: State, actions: seq<Action>, row: nat, page: nat, d: Detection)
    requires Quiet(s) && LogSafe(world, s)
    requires var s' := Exec(world, s, actions);
             && row < |s'.log| && page < Index(RowToken(s'.log[row])) && page < |world.pages| && d in world.pages[page]
    ensures var s' := Exec(world, s, actions);
            || (d.occurredAt.Some? && d.occurredAt.value < s'.clock - world.window)
            || !d.severity.MeetsThreshold(world.minSeverity)
            || DetectionKey(world.destination, d) in s'.delivered
  {
    var s' := Exec(world, s, actions);
    ExecKeeps(world, s, actions);
    assert SafeToken(world, s', RowToken(s'.log[row]));
    assert SafeNow(world, s', world.pages[page]);
  }
}
