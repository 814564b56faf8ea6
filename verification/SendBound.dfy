/**
 How often one key can be sent: over every history no more often than it was looked up
 before it was first marked, and at most once when nobody else looks it up while it is
 being delivered and no delivery of it is abandoned between send and mark.
 */
module SendBound {
  import opened Wrappers
  import opened Keys
  import opened Repositories
  import opened Protocol

  // ------------------------------------------------------- counting events

  function SendsOf(trace: seq<Event>, key: Key): nat {
    if trace == [] then 0
    else
      var last := trace[|trace| - 1];
      SendsOf(trace[..|trace| - 1], key) + (if last.Sent? && last.key == key then 1 else 0)
  }

  /** The lookups of a key completed before its first mark. */
  function LookupsBeforeMark(trace: seq<Event>, key: Key): nat {
    if trace == [] then 0
    else
      var init := trace[..|trace| - 1];
      LookupsBeforeMark(init, key) + (if trace[|trace| - 1] == Looked(key) && Marked(key) !in init then 1 else 0)
  }

  lemma CountSnoc(trace: seq<Event>, e: Event, key: Key)
    ensures SendsOf(trace + [e], key) == SendsOf(trace, key) + (if e.Sent? && e.key == key then 1 else 0)
    ensures LookupsBeforeMark(trace + [e], key) ==
            LookupsBeforeMark(trace, key) + (if e == Looked(key) && Marked(key) !in trace then 1 else 0)
    ensures Marked(key) in trace + [e] <==> Marked(key) in trace || e == Marked(key)
  {
    assert (trace + [e])[..|trace|] == trace;
  }

  /** Events that are neither lookups, sends nor marks do not count. */
  lemma {:induction false} CountReads(trace: seq<Event>, more: seq<Event>, key: Key)
    requires forall e :: e in more ==> e.Read? || e.Closed?
    ensures SendsOf(trace + more, key) == SendsOf(trace, key)
    ensures LookupsBeforeMark(trace + more, key) == LookupsBeforeMark(trace, key)
    ensures Marked(key) in trace + more <==> Marked(key) in trace
    decreases |more|
  {
    if more == [] {
      assert trace + more == trace;
    } else {
      var init, last := more[..|more| - 1], more[|more| - 1];
      CountReads(trace, init, key);
      assert last in more && trace + more == (trace + init) + [last];
      CountSnoc(trace + init, last, key);
    }
  }

  // ------------------------------------------- what a step does to one key

  predicate SendingKey(p: Proc, key: Key) { p.Sending? && p.note.key == key }

  predicate MarkingKey(p: Proc, key: Key) { p.Marking? && p.note.key == key }

  /** A step that does not move the key through a delivery. */
  ghost predicate Aside(s: State, s': State, a: Action, key: Key) {
    && (key in s'.delivered <==> key in s.delivered)
    && SendsOf(s'.trace, key) == SendsOf(s.trace, key)
    && LookupsBeforeMark(s'.trace, key) >= LookupsBeforeMark(s.trace, key)
    && (Marked(key) in s'.trace <==> Marked(key) in s.trace)
    && (forall q :: q in s'.procs && (SendingKey(s'.procs[q], key) || MarkingKey(s'.procs[q], key)) ==>
          q in s.procs && s'.procs[q] == s.procs[q])
    && (forall q :: q in s.procs && MarkingKey(s.procs[q], key) ==>
          q in s'.procs && (s'.procs[q] == s.procs[q] || ((a.Raise? || a.Vanish?) && a.pid == q)))
  }

  /** Only one process moves. */
  predicate Moves(s: State, s': State, pid: nat) {
    && pid in s.procs && s'.procs.Keys == s.procs.Keys
    && forall q :: q in s.procs && q != pid ==> s'.procs[q] == s.procs[q]
  }

  /** A lookup of the key that finds nothing. */
  ghost predicate Misses(s: State, s': State, pid: nat, key: Key) {
    && Moves(s, s', pid) && s'.delivered == s.delivered
    && !SendingKey(s.procs[pid], key) && SendingKey(s'.procs[pid], key)
    && SendsOf(s'.trace, key) == SendsOf(s.trace, key)
    && LookupsBeforeMark(s'.trace, key) == LookupsBeforeMark(s.trace, key) + (if Marked(key) in s.trace then 0 else 1)
    && (Marked(key) in s'.trace <==> Marked(key) in s.trace)
  }

  ghost predicate Sends(s: State, s': State, pid: nat, key: Key) {
    && Moves(s, s', pid) && s'.delivered == s.delivered
    && SendingKey(s.procs[pid], key) && MarkingKey(s'.procs[pid], key)
    && SendsOf(s'.trace, key) == SendsOf(s.trace, key) + 1
    && LookupsBeforeMark(s'.trace, key) == LookupsBeforeMark(s.trace, key)
    && (Marked(key) in s'.trace <==> Marked(key) in s.trace)
  }

  ghost predicate Marks(s: State, s': State, pid: nat, key: Key) {
    && Moves(s, s', pid) && s'.delivered == s.delivered + {key}
    && MarkingKey(s.procs[pid], key) && s'.procs[pid].Idle?
    && SendsOf(s'.trace, key) == SendsOf(s.trace, key)
    && LookupsBeforeMark(s'.trace, key) == LookupsBeforeMark(s.trace, key)
  }

  datatype Effect = Nothing | Missing(pid: nat) | SendingIt(pid: nat) | MarkingIt(pid: nat)

  function EffectOf(s: State, a: Action, key: Key): Effect {
    if !a.Go? || a.pid !in s.procs then Nothing
    else
      var p := s.procs[a.pid];
      if p.Looking? && p.note.key == key && key !in s.delivered then Missing(a.pid)
      else if SendingKey(p, key) then SendingIt(a.pid)
      else if MarkingKey(p, key) then MarkingIt(a.pid)
      else Nothing
  }

  /** What any step does to any key. */
  lemma StepEffect(world: World, s: State, a: Action, key: Key)
    ensures Effects(s, Step(world, s, a), a, key)
  {
    if a.Go? && a.pid in s.procs {
      var p := s.procs[a.pid];
      if p.Idle? || p.Failing? || p.Stopped? {
        IdlePassive(world, s, a.pid, a.listing);
        PassiveAside(s, Step(world, s, a), a, a.pid, key);
      } else {
        DeliveryEffect(world, s, a, key);
      }
    }
  }

  predicate InDelivery(p: Proc) { p.Looking? || p.Sending? || p.Marking? }

  lemma DeliveryEffect(world: World, s: State, a: Action, key: Key)
    requires a.Go? && a.pid in s.procs && InDelivery(s.procs[a.pid])
    ensures Effects(s, Step(world, s, a), a, key)
  {
    var p := s.procs[a.pid];
    if p.Looking? {
      LookEffect(s, a, p.w, p.note, p.origin, key);
    } else if p.Sending? {
      SendEffect(s, a, p.w, p.note, p.origin, key);
    } else {
      MarkEffect(s, a, p.w, p.note, p.origin, key);
    }
  }

  lemma LookEffect(s: State, a: Action, w: Work, note: Notification, origin: Option<RowId>, key: Key)
    requires a.Go? && a.pid in s.procs && s.procs[a.pid] == Looking(w, note, origin)
    ensures Effects(s, LookStep(s, a.pid, w, note, origin), a, key)
  {
    CountSnoc(s.trace, Looked(note.key), key);
  }

  lemma SendEffect(s: State, a: Action, w: Work, note: Notification, origin: Option<RowId>, key: Key)
    requires a.Go? && a.pid in s.procs && s.procs[a.pid] == Sending(w, note, origin)
    ensures Effects(s, SendStep(s, a.pid, w, note, origin), a, key)
  {
    CountSnoc(s.trace, Sent(note.key, origin), key);
  }

  lemma MarkEffect(s: State, a: Action, w: Work, note: Notification, origin: Option<RowId>, key: Key)
    requires a.Go? && a.pid in s.procs && s.procs[a.pid] == Marking(w, note, origin)
    ensures Effects(s, MarkStep(s, a.pid, w, note), a, key)
  {
    CountSnoc(s.trace, Marked(note.key), key);
  }

  ghost predicate Effects(s: State, s': State, a: Action, key: Key) {
    var e := EffectOf(s, a, key);
    && (e.Nothing? ==> Aside(s, s', a, key))
    && (e.Missing? ==> Misses(s, s', e.pid, key))
    && (e.SendingIt? ==> Sends(s, s', e.pid, key))
    && (e.MarkingIt? ==> Marks(s, s', e.pid, key))
  }

  /** An idle process, a handler or a listing never moves a key. */
  lemma IdlePassive(world: World, s: State, pid: nat, listing: seq<nat>)
    requires pid in s.procs && (s.procs[pid].Idle? || s.procs[pid].Failing? || s.procs[pid].Stopped?)
    ensures Passive(s, GoStep(world, s, pid, listing), pid)
  {
    var p := s.procs[pid];
    if p.Idle? {
      match p.w
      case Detecting(_, _, _, _, _, _) => DetectingPassive(world, s, pid, p.w);
      case Incidents(_, _, _) =>
      case Approving(_, _) => ReviewPassive(world, s, pid, p.w);
      case Rejecting(_, _) => ReviewPassive(world, s, pid, p.w);
      case Backfilling(_, _) => BackfillPassive(s, pid, p.w, listing);
    }
  }

  lemma PassiveAside(s: State, s': State, a: Action, pid: nat, key: Key)
    requires Passive(s, s', pid) && (s.procs[pid].Idle? || s.procs[pid].Failing? || s.procs[pid].Stopped?)
    ensures Aside(s, s', a, key)
  {
    assert s'.trace == s.trace + s'.trace[|s.trace|..];
    CountReads(s.trace, s'.trace[|s.trace|..], key);
  }

  /** One process moves, no key is marked, and nothing is recorded but reads and reviews. */
  predicate Passive(s: State, s': State, pid: nat) {
    && Moves(s, s', pid) && s'.delivered == s.delivered
    && !s'.procs[pid].Sending? && !s'.procs[pid].Marking?
    && s.trace <= s'.trace && forall e :: e in s'.trace[|s.trace|..] ==> e.Read? || e.Closed?
  }

  lemma DetectingPassive(world: World, s: State, pid: nat, w: Work)
    requires pid in s.procs && s.procs[pid] == Idle(w) && w.Detecting?
    ensures Passive(s, DetectingStep(world, s, pid, w), pid)
  {
  }

  lemma ReviewPassive(world: World, s: State, pid: nat, w: Work)
    requires pid in s.procs && s.procs[pid] == Idle(w) && (w.Approving? || w.Rejecting?)
    ensures Passive(s, ReviewStep(world, s, pid, w), pid)
  {
  }

  lemma BackfillPassive(s: State, pid: nat, w: Work, listing: seq<nat>)
    requires pid in s.procs && s.procs[pid] == Idle(w) && w.Backfilling?
    ensures Passive(s, BackfillStep(s, pid, w, listing), pid)
  {
  }

  // ------------------------------------------------- the bound, over all histories

  function Waiting(s: State, key: Key): set<nat> {
    set pid | pid in s.procs && SendingKey(s.procs[pid], key)
  }

  ghost predicate Bounded(s: State, key: Key) {
    && (key !in s.delivered ==> Marked(key) !in s.trace)
    && SendsOf(s.trace, key) + |Waiting(s, key)| <= LookupsBeforeMark(s.trace, key)
  }

  lemma Smaller(a: set<nat>, b: set<nat>)
    requires a <= b
    ensures |a| <= |b|
  {
    assert b == a + (b - a);
  }

  lemma StepBounded(world: World, s: State, a: Action, key: Key)
    requires Bounded(s, key)
    ensures Bounded(Step(world, s, a), key)
  {
    hide Step, SendsOf, LookupsBeforeMark;
    var s' := Step(world, s, a);
    StepEffect(world, s, a, key);
    var e := EffectOf(s, a, key);
    if e.Missing? {
      assert Waiting(s', key) == Waiting(s, key) + {e.pid};
    } else if e.SendingIt? {
      assert Waiting(s', key) == Waiting(s, key) - {e.pid};
    } else {
      Smaller(Waiting(s', key), Waiting(s, key));
    }
  }

  lemma {:induction false} ExecBounded(world: World, s: State, actions: seq<Action>, key: Key)
    requires Bounded(s, key)
    ensures Bounded(Exec(world, s, actions), key)
    decreases |actions|
  {
    if actions != [] {
      StepBounded(world, s, actions[0], key);
      ExecBounded(world, Step(world, s, actions[0]), actions[1..], key);
    }
  }

  /**
   For every key and every history of collectors, reviewers and scripts: the key is sent at
   most as often as it was looked up before it was first marked.
   */
  lemma SendsAtMostLookups(world: World, s: State, actions: seq<Action>, key: Key)
    requires Quiet(s)
    ensures SendsOf(Exec(world, s, actions).trace, key) <= LookupsBeforeMark(Exec(world, s, actions).trace, key)
  {
    assert Waiting(s, key) == {};
    ExecBounded(world, s, actions, key);
  }

  // --------------------------------------------------------------- at most once

  predicate Delivering(p: Proc, key: Key) { SendingKey(p, key) || MarkingKey(p, key) }

  /**
   Unless the key is delivered already, the action does not look it up while another process
   is delivering it, and does not end a process between its send and its mark of the key.
   */
  predicate Calm(s: State, a: Action, key: Key) {
    || key in s.delivered
    || ((a.Go? && a.pid in s.procs && s.procs[a.pid].Looking? && s.procs[a.pid].note.key == key ==>
           forall q :: q in s.procs ==> !Delivering(s.procs[q], key))
        && ((a.Raise? || a.Vanish?) && a.pid in s.procs ==> !MarkingKey(s.procs[a.pid], key)))
  }

  ghost predicate CalmHistory(world: World, s: State, actions: seq<Action>, key: Key)
    decreases |actions|
  {
    actions != [] ==> Calm(s, actions[0], key) && CalmHistory(world, Step(world, s, actions[0]), actions[1..], key)
  }

  ghost predicate Once(s: State, key: Key) {
    && (forall p, q :: p in s.procs && q in s.procs && Delivering(s.procs[p], key) && Delivering(s.procs[q], key) ==>
          p == q)
    && (forall p :: p in s.procs && SendingKey(s.procs[p], key) ==> SendsOf(s.trace, key) == 0 && key !in s.delivered)
    && (forall p :: p in s.procs && MarkingKey(s.procs[p], key) ==> SendsOf(s.trace, key) == 1)
    && SendsOf(s.trace, key) <= 1
    && (SendsOf(s.trace, key) == 1 ==> key in s.delivered || exists p :: p in s.procs && MarkingKey(s.procs[p], key))
  }

  lemma AsideOnce(s: State, s': State, a: Action, key: Key)
    requires Once(s, key) && Calm(s, a, key) && Aside(s, s', a, key)
    ensures Once(s', key)
  {
    if SendsOf(s.trace, key) == 1 && key !in s.delivered {
      var p :| p in s.procs && MarkingKey(s.procs[p], key);
      assert s'.procs[p] == s.procs[p];
    }
  }

  lemma MovesOnce(s: State, s': State, pid: nat, key: Key)
    requires Once(s, key)
    requires (Misses(s, s', pid, key) && key !in s.delivered
              && forall q :: q in s.procs ==> !Delivering(s.procs[q], key))
             || Sends(s, s', pid, key) || Marks(s, s', pid, key)
    ensures Once(s', key)
  {
    if Sends(s, s', pid, key) {
      assert MarkingKey(s'.procs[pid], key);
    } else if SendsOf(s.trace, key) == 1 && key !in s.delivered {
      var p :| p in s.procs && MarkingKey(s.procs[p], key);
    }
  }

  lemma StepOnce(world: World, s: State, a: Action, key: Key)
    requires Once(s, key) && Calm(s, a, key)
    ensures Once(Step(world, s, a), key)
  {
    var s' := Step(world, s, a);
    var e := EffectOf(s, a, key);
    StepEffect(world, s, a, key);
    if e.Nothing? {
      AsideOnce(s, s', a, key);
    } else {
      MovesOnce(s, s', e.pid, key);
    }
  }

  lemma {:induction false} ExecOnce(world: World, s: State, actions: seq<Action>, key: Key)
    requires Once(s, key) && CalmHistory(world, s, actions, key)
    ensures Once(Exec(world, s, actions), key)
    decreases |actions|
  {
    if actions != [] {
      StepOnce(world, s, actions[0], key);
      ExecOnce(world, Step(world, s, actions[0]), actions[1..], key);
    }
  }

  /** In a history that is calm for a key, the key is sent at most once. */
  lemma SentAtMostOnce(world: World, s: State, actions: seq<Action>, key: Key)
    requires Quiet(s) && CalmHistory(world, s, actions, key)
    ensures SendsOf(Exec(world, s, actions).trace, key) <= 1
  {
    ExecOnce(world, s, actions, key);
  }

  /** A process starts only when all others have stopped. */
  ghost predicate SpawnsAlone(world: World, s: State, actions: seq<Action>)
    decreases |actions|
  {
    actions != [] ==>
      && (actions[0].Spawn? ==> AllStopped(s))
      && SpawnsAlone(world, Step(world, s, actions[0]), actions[1..])
  }

  /** No process ends between its send and its mark. */
  ghost predicate NoneAbandoned(world: World, s: State, actions: seq<Action>)
    decreases |actions|
  {
    actions != [] ==>
      && ((actions[0].Raise? || actions[0].Vanish?) && actions[0].pid in s.procs ==> !s.procs[actions[0].pid].Marking?)
      && NoneAbandoned(world, Step(world, s, actions[0]), actions[1..])
  }

  predicate AllStopped(s: State) {
    forall q :: q in s.procs ==> s.procs[q].Stopped?
  }

  predicate AtMostOneActive(s: State) {
    forall p, q :: p in s.procs && q in s.procs && !s.procs[p].Stopped? && !s.procs[q].Stopped? ==> p == q
  }

  lemma ActiveStays(world: World, s: State, a: Action)
    requires AtMostOneActive(s) && (a.Spawn? ==> AllStopped(s))
    ensures AtMostOneActive(Step(world, s, a))
  {
    if a.Go? && a.pid in s.procs && !InDelivery(s.procs[a.pid]) {
      IdlePassive(world, s, a.pid, a.listing);
    }
  }

  lemma {:induction false} NonOverlappingIsCalm(world: World, s: State, actions: seq<Action>, key: Key)
    requires AtMostOneActive(s) && SpawnsAlone(world, s, actions) && NoneAbandoned(world, s, actions)
    ensures CalmHistory(world, s, actions, key)
    decreases |actions|
  {
    if actions != [] {
      ActiveStays(world, s, actions[0]);
      NonOverlappingIsCalm(world, Step(world, s, actions[0]), actions[1..], key);
    }
  }

  /** When runs do not overlap and none stops between send and mark, no key is sent twice. */
  lemma NonOverlappingSendsOnce(world: World, s: State, actions: seq<Action>, key: Key)
    requires Quiet(s) && SpawnsAlone(world, s, actions) && NoneAbandoned(world, s, actions)
    ensures SendsOf(Exec(world, s, actions).trace, key) <= 1
  {
    NonOverlappingIsCalm(world, s, actions, key);
    SentAtMostOnce(world, s, actions, key);
  }
}
