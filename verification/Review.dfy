/** Approving and rejecting one pending approval, and the backfill script over all of them. */
module Review {
  import opened Wrappers
  import opened Keys
  import opened Repositories
  import opened Approvals

  datatype ReviewResult =
    | NotFound
    | CallRaised
    | Reviewed(externalId: string, status: Status, notificationSent: bool, duplicateSkipped: bool)

  /** What the approval table, the channel and the delivery table hold at some moment. */
  datatype Books = Books(rows: Rows, sent: seq<Notification>, keys: set<Key>)

  /** One approval carried out: sent unless its key was delivered before, marked, approved. */
  function CarryOut(b: Books, id: nat, note: Notification, now: int): Books {
    Books(MarkReviewed(b.rows, id, Approved, now),
          b.sent + (if note.key in b.keys then [] else [note]),
          b.keys + {note.key})
  }

  /**
   One approval that raised: it may have sent, if its key was not delivered before; after a
   send it may have marked; and only with its key delivered may it have approved.
   */
  predicate Partly(b: Books, b': Books, id: nat, note: Notification, now: int) {
    && (b'.sent == b.sent || (note.key !in b.keys && b'.sent == b.sent + [note]))
    && (b'.keys == b.keys || (b'.keys == b.keys + {note.key} && b'.sent != b.sent))
    && (b'.rows == b.rows || (b'.rows == MarkReviewed(b.rows, id, Approved, now) && note.key in b'.keys))
  }

  /** The use cases ReviewPendingApproval and ReviewPendingDetectionApproval, told apart by the kind. */
  class ReviewPending {
    const approvals: ApprovalRepository
    const deliveries: NotificationRepository
    const notifier: Notifier
    const destination: string

    constructor (approvals: ApprovalRepository, deliveries: NotificationRepository, notifier: Notifier,
                 destination: string)
      ensures this.approvals == approvals && this.deliveries == deliveries && this.notifier == notifier
      ensures this.destination == destination
    {
      this.approvals, this.deliveries, this.notifier, this.destination := approvals, deliveries, notifier, destination;
    }

    ghost function Now(): Books
      reads approvals, deliveries, notifier
    {
      Books(approvals.rows, notifier.sent, deliveries.deliveries.Keys)
    }

    /** How many calls have raised. */
    ghost function Raised(): nat
      reads approvals, deliveries, notifier
    {
      approvals.raised + DeliveriesRaised(deliveries, notifier)
    }

    /**
     The row turns approved only with the key of its payload delivered; the payload is sent
     exactly when that key was not delivered before; and only this row changes.
     */
    method Approve(id: nat, now: int) returns (r: ReviewResult)
      requires approvals.Valid()
      modifies approvals, deliveries, notifier
      ensures approvals.Valid() && approvals.nextId == old(approvals.nextId)
      ensures Raised() == Counting(old(Raised()), !r.CallRaised?)
      ensures r.NotFound? ==> GetPending(approvals.rows, id).None? && Now() == old(Now())
      ensures r.Reviewed? ==>
                var row := old(GetPending(approvals.rows, id));
                && row.Some?
                && var note := NoteOf(approvals.kind, destination, row.value.payload);
                && Now() == CarryOut(old(Now()), id, note, now)
                && var known := note.key in old(deliveries.deliveries);
                r == Reviewed(row.value.externalId, Approved, !known, known)
      ensures r.CallRaised? ==>
                var row := old(GetPending(approvals.rows, id));
                || Now() == old(Now())
                || (row.Some?
                    && Partly(old(Now()), Now(), id, NoteOf(approvals.kind, destination, row.value.payload), now))
    {
      var ok, row := approvals.Get(id);
      if !ok { return CallRaised; }
      if row.None? { return NotFound; }
      var note := NoteOf(approvals.kind, destination, row.value.payload);
      var outcome := Deliver(deliveries, notifier, note, destination);
      if outcome.Raised? { return CallRaised; }
      ok := approvals.Mark(id, Approved, now);
      if !ok { return CallRaised; }
      return Reviewed(row.value.externalId, Approved, outcome.Notified?, outcome.Duplicate?);
    }

    method Reject(id: nat, now: int) returns (r: ReviewResult)
      requires approvals.Valid()
      modifies approvals
      ensures approvals.Valid() && approvals.nextId == old(approvals.nextId)
      ensures approvals.raised == Counting(old(approvals.raised), !r.CallRaised?)
      ensures r.NotFound? ==> GetPending(approvals.rows, id).None? && approvals.rows == old(approvals.rows)
      ensures r.Reviewed? ==>
                var row := old(GetPending(approvals.rows, id));
                && row.Some? && r == Reviewed(row.value.externalId, Rejected, false, false)
                && approvals.rows == MarkReviewed(old(approvals.rows), id, Rejected, now)
      ensures r.CallRaised? ==>
                approvals.rows == old(approvals.rows)
                  || approvals.rows == MarkReviewed(old(approvals.rows), id, Rejected, now)
    {
      var ok, row := approvals.Get(id);
      if !ok { return CallRaised; }
      if row.None? { return NotFound; }
      ok := approvals.Mark(id, Rejected, now);
      if !ok { return CallRaised; }
      return Reviewed(row.value.externalId, Rejected, false, false);
    }
  }

  // ---------------------------------------------------------------- the backfill

  /** What the first n listed approvals would notify, in order. */
  function Notes(rows: Rows, ids: seq<nat>, n: nat): seq<Notification>
    requires n <= |ids| && forall i :: 0 <= i < |ids| ==> ids[i] in rows
  {
    if n == 0 then [] else Notes(rows, ids, n - 1) + [NoteOf(DetectionKind, "discord", rows[ids[n - 1]].payload)]
  }

  /** The outcome of one approval: Aborted ends the script, LeftPending does not. */
  datatype Processed = Done | LeftPending | Aborted

  class Backfill {
    const approvals: ApprovalRepository
    const deliveries: NotificationRepository
    const notifier: Notifier

    constructor (approvals: ApprovalRepository, deliveries: NotificationRepository, notifier: Notifier)
      ensures this.approvals == approvals && this.deliveries == deliveries && this.notifier == notifier
    {
      this.approvals, this.deliveries, this.notifier := approvals, deliveries, notifier;
    }

    ghost function Now(): Books
      reads approvals, deliveries, notifier
    {
      Books(approvals.rows, notifier.sent, deliveries.deliveries.Keys)
    }

    /** How many calls have raised whose exceptions end the script: the listing, lookups, changes of status. */
    ghost function EndingRaised(): nat
      reads approvals, deliveries
    {
      approvals.raised + deliveries.lookupsRaised
    }

    /** How many have raised whose exceptions are swallowed: sends and marks. */
    ghost function SwallowedRaised(): nat
      reads deliveries, notifier
    {
      notifier.raised + deliveries.marksRaised
    }

    /**
     One pass. `ids` is the listing it worked on and `outcomes` how the approvals taken up
     ended. A pass in which nothing raised approves every listed row and sends exactly the
     first occurrences of the listed keys not delivered before.
     */
    method Run(limit: nat, dryRun: bool, now: int) returns (ok: bool, ids: seq<nat>, outcomes: seq<Processed>)
      requires approvals.kind == DetectionKind && approvals.Valid()
      modifies approvals, deliveries, notifier
      ensures approvals.Valid() && approvals.nextId == old(approvals.nextId)
      ensures EndingRaised() == Counting(old(EndingRaised()), ok)
      ensures SwallowedRaised() == old(SwallowedRaised()) + LeftCount(outcomes)
      ensures ok ==> IsListing(old(approvals.rows), limit, ids)
      ensures dryRun ==> Now() == old(Now()) && outcomes == []
      ensures ok && !dryRun ==> GoesThrough(outcomes, |ids|)
      ensures |outcomes| <= |ids| && Reached(old(Now()), Now(), ids, outcomes, now)
      ensures ok && !dryRun && AllDone(outcomes) ==>
                && AllApproved(approvals.rows, Members(ids))
                && SentAndMarked(old(Now()), Now(), Notes(old(approvals.rows), ids, |ids|))
    {
      outcomes := [];
      ok, ids := approvals.ListPending(limit);
      if !ok { ids := []; }
      NothingReached(Now(), ids, now);
      if !ok || dryRun { return; }
      ghost var before := Now();
      ok, outcomes := ProcessAll(ids, now);
      if AllDone(outcomes) && ok {
        AllDoneApproved(before, Now(), ids, outcomes, now);
      }
    }

    /**
     The loop over the listed approvals. It goes on after a delivery that raised, and ends
     early only when a lookup or the change of a status raised.
     */
    method ProcessAll(ids: seq<nat>, now: int) returns (ok: bool, outcomes: seq<Processed>)
      requires AllPending(approvals.rows, ids) && approvals.Valid()
      modifies approvals, deliveries, notifier
      ensures approvals.Valid() && approvals.nextId == old(approvals.nextId)
      ensures EndingRaised() == Counting(old(EndingRaised()), ok)
      ensures SwallowedRaised() == old(SwallowedRaised()) + LeftCount(outcomes)
      ensures ok ==> GoesThrough(outcomes, |ids|)
      ensures !ok ==> outcomes != [] && outcomes[|outcomes| - 1].Aborted? && NoneAborted(outcomes[..|outcomes| - 1])
      ensures |outcomes| <= |ids| && Reached(old(Now()), Now(), ids, outcomes, now)
    {
      ok, outcomes := true, [];
      ghost var before := Now();
      NothingReached(before, ids, now);
      while |outcomes| < |ids|
        invariant ok && |outcomes| <= |ids| && NoneAborted(outcomes)
        invariant Reached(before, Now(), ids, outcomes, now)
        invariant approvals.Valid() && approvals.nextId == old(approvals.nextId)
        invariant EndingRaised() == old(EndingRaised())
        invariant SwallowedRaised() == old(SwallowedRaised()) + LeftCount(outcomes)
        decreases |ids| - |outcomes|
      {
        var outcome := ProcessNext(ids, outcomes, now, before);
        NoneAbortedSnoc(outcomes, outcome);
        outcomes := outcomes + [outcome];
        if outcome.Aborted? {
          ok := false;
          return;
        }
      }
    }

    method ProcessNext(ids: seq<nat>, outcomes: seq<Processed>, now: int, ghost before: Books)
      returns (outcome: Processed)
      requires |outcomes| < |ids| && Reached(before, Now(), ids, outcomes, now) && approvals.Valid()
      modifies approvals, deliveries, notifier
      ensures approvals.Valid() && approvals.nextId == old(approvals.nextId)
      ensures EndingRaised() == Counting(old(EndingRaised()), !outcome.Aborted?)
      ensures SwallowedRaised() == Counting(old(SwallowedRaised()), !outcome.LeftPending?)
      ensures Reached(before, Now(), ids, outcomes + [outcome], now)
    {
      ghost var was := Now();
      NextUntouched(before, was, ids, outcomes, now);
      var id := ids[|outcomes|];
      outcome := ProcessApproval(id, approvals.rows[id].payload, now);
      ReachedNext(before, was, Now(), ids, outcomes, outcome, now);
    }

    /**
     _process_approval: the exceptions of the send and of the mark leave the approval pending,
     and all others end the script.
     */
    method ProcessApproval(id: nat, payload: Record, now: int) returns (outcome: Processed)
      requires approvals.Valid()
      modifies approvals, deliveries, notifier
      ensures approvals.Valid() && approvals.nextId == old(approvals.nextId)
      ensures EndingRaised() == Counting(old(EndingRaised()), !outcome.Aborted?)
      ensures SwallowedRaised() == Counting(old(SwallowedRaised()), !outcome.LeftPending?)
      ensures Processes(old(Now()), Now(), id, NoteOf(DetectionKind, "discord", payload), outcome, now)
    {
      var note := NoteOf(DetectionKind, "discord", payload);
      var ok, found := deliveries.WasDelivered(note.key);
      if !ok { return Aborted; }
      if !found {
        ok := notifier.Send(note);
        if !ok { return LeftPending; }
        ok := deliveries.MarkDelivered(note.key, "discord");
        if !ok { return LeftPending; }
      }
      ok := approvals.Mark(id, Approved, now);
      if !ok { return Aborted; }
      return Done;
    }
  }

  /** One approval and its outcome. What it did beyond that outcome is bounded by Partly. */
  predicate Processes(b: Books, b': Books, id: nat, note: Notification, outcome: Processed, now: int) {
    match outcome
    case Done => b' == CarryOut(b, id, note, now)
    case LeftPending => Partly(b, b', id, note, now) && b'.rows == b.rows && note.key !in b.keys
    case Aborted => Partly(b, b', id, note, now) || (b' == CarryOut(b, id, note, now))
  }

  predicate AllDone(outcomes: seq<Processed>) {
    forall i :: 0 <= i < |outcomes| ==> outcomes[i].Done?
  }

  predicate NoneAborted(outcomes: seq<Processed>) {
    forall i :: 0 <= i < |outcomes| ==> !outcomes[i].Aborted?
  }

  /** How many approvals were left pending. */
  function LeftCount(outcomes: seq<Processed>): nat {
    if outcomes == [] then 0
    else LeftCount(outcomes[..|outcomes| - 1]) + (if outcomes[|outcomes| - 1].LeftPending? then 1 else 0)
  }

  /** All n approvals were taken up and none of them ended the script. */
  predicate GoesThrough(outcomes: seq<Processed>, n: nat) {
    |outcomes| == n && NoneAborted(outcomes)
  }

  /** Every row is as it was, or it is one of ids, has turned approved, and its key is delivered. */
  ghost predicate OnlyApproves(before: Rows, rows: Rows, ids: set<nat>, delivered: set<Key>, now: int) {
    && rows.Keys == before.Keys
    && forall id :: id in rows ==>
         || rows[id] == before[id]
         || (id in ids && rows[id] == before[id].(status := Approved, updatedAt := now)
             && KeyOf(DetectionKind, "discord", rows[id].payload) in delivered)
  }

  /** The rows of the approvals taken up are as their outcomes say. */
  ghost predicate AsReported(before: Rows, rows: Rows, ids: seq<nat>, outcomes: seq<Processed>, now: int)
    requires |outcomes| <= |ids|
  {
    && (forall i :: 0 <= i < |ids| ==> ids[i] in before && ids[i] in rows)
    && (forall i :: 0 <= i < |outcomes| && outcomes[i].Done? ==>
          rows[ids[i]] == before[ids[i]].(status := Approved, updatedAt := now))
    && (forall i :: 0 <= i < |outcomes| && outcomes[i].LeftPending? ==> rows[ids[i]] == before[ids[i]])
  }

  /** Only notes of the list were sent, in its order, each under a key that was not delivered before. */
  ghost predicate SentSome(before: Books, b: Books, notes: seq<Notification>) {
    && before.sent <= b.sent && Subsequence(b.sent[|before.sent|..], notes)
    && (forall n :: n in b.sent[|before.sent|..] ==> n.key !in before.keys)
    && before.keys <= b.keys <= before.keys + KeysOf(notes)
  }

  /** Exactly the first occurrences of the notes were sent, and all their keys are marked. */
  ghost predicate SentAndMarked(before: Books, b: Books, notes: seq<Notification>) {
    b.sent == before.sent + FirstOccurrences(before.keys, notes) && b.keys == before.keys + KeysOf(notes)
  }

  /** The listed approvals with an outcome have been taken up. */
  ghost predicate Reached(before: Books, b: Books, ids: seq<nat>, outcomes: seq<Processed>, now: int)
    requires |outcomes| <= |ids|
  {
    && AllPending(before.rows, ids)
    && OnlyApproves(before.rows, b.rows, FirstIds(ids, |outcomes|), b.keys, now)
    && AsReported(before.rows, b.rows, ids, outcomes, now)
    && var notes := Notes(before.rows, ids, |outcomes|);
    SentSome(before, b, notes) && (AllDone(outcomes) ==> SentAndMarked(before, b, notes))
  }

  predicate AllApproved(rows: Rows, ids: set<nat>) {
    forall id :: id in ids ==> id in rows && rows[id].status == Approved
  }

  /** A listing without repetitions of pending rows. */
  predicate AllPending(rows: Rows, ids: seq<nat>) {
    && (forall i :: 0 <= i < |ids| ==> ids[i] in rows && rows[ids[i]].status.Pending?)
    && (forall i, j :: 0 <= i < j < |ids| ==> ids[i] != ids[j])
  }

  function Members(ids: seq<nat>): set<nat> {
    set id | id in ids
  }

  function FirstIds(ids: seq<nat>, i: nat): set<nat>
    requires i <= |ids|
  {
    if i == 0 then {} else FirstIds(ids, i - 1) + {ids[i - 1]}
  }

  lemma {:induction false} FirstIdsAreMembers(ids: seq<nat>, i: nat)
    requires i <= |ids|
    ensures FirstIds(ids, i) <= Members(ids)
    ensures forall k :: 0 <= k < i ==> ids[k] in FirstIds(ids, i)
  {
    if i > 0 {
      FirstIdsAreMembers(ids, i - 1);
    }
  }

  lemma {:induction false} NotAmongFirst(ids: seq<nat>, i: nat, k: nat)
    requires k <= i < |ids| && forall j, l :: 0 <= j < l < |ids| ==> ids[j] != ids[l]
    ensures ids[i] !in FirstIds(ids, k)
  {
    if k > 0 {
      NotAmongFirst(ids, i, k - 1);
    }
  }

  // ------------------------------------------------------------ one more approval

  lemma NothingReached(b: Books, ids: seq<nat>, now: int)
    requires AllPending(b.rows, ids)
    ensures Reached(b, b, ids, [], now)
  {
    assert b.sent[|b.sent|..] == [] && b.sent + [] == b.sent;
  }

  lemma NoneAbortedSnoc(outcomes: seq<Processed>, outcome: Processed)
    requires NoneAborted(outcomes)
    ensures !outcome.Aborted? ==> NoneAborted(outcomes + [outcome])
    ensures LeftCount(outcomes + [outcome]) == LeftCount(outcomes) + (if outcome.LeftPending? then 1 else 0)
    ensures (outcomes + [outcome])[..|outcomes|] == outcomes
  {
    assert (outcomes + [outcome])[..|outcomes|] == outcomes;
  }

  /** The next listed row has not been touched. */
  lemma NextUntouched(before: Books, b: Books, ids: seq<nat>, outcomes: seq<Processed>, now: int)
    requires |outcomes| < |ids| && Reached(before, b, ids, outcomes, now)
    ensures var id := ids[|outcomes|]; id in b.rows && b.rows[id] == before.rows[id] && b.rows[id].status.Pending?
  {
    NotAmongFirst(ids, |outcomes|, |outcomes|);
  }

  /** What any outcome says about the rows and the keys. */
  lemma ProcessedRows(b: Books, b': Books, id: nat, note: Notification, outcome: Processed, now: int)
    requires Processes(b, b', id, note, outcome, now)
    ensures b.keys <= b'.keys && (Partly(b, b', id, note, now) || b' == CarryOut(b, id, note, now))
    ensures b'.rows == b.rows || (b'.rows == MarkReviewed(b.rows, id, Approved, now) && note.key in b'.keys)
    ensures outcome.Done? ==> b'.rows == MarkReviewed(b.rows, id, Approved, now)
    ensures outcome.LeftPending? ==> b'.rows == b.rows
  {
  }

  lemma ReachedNext(before: Books, b: Books, b': Books, ids: seq<nat>, outcomes: seq<Processed>, outcome: Processed,
                    now: int)
    requires |outcomes| < |ids| && Reached(before, b, ids, outcomes, now)
    requires var id := ids[|outcomes|];
             id in b.rows && Processes(b, b', id, NoteOf(DetectionKind, "discord", b.rows[id].payload), outcome, now)
    ensures Reached(before, b', ids, outcomes + [outcome], now)
  {
    hide OnlyApproves, AsReported, SentSome, SentAndMarked, Processes, Partly, CarryOut, AllDone, KeyOf;
    var i, id := |outcomes|, ids[|outcomes|];
    var note := NoteOf(DetectionKind, "discord", before.rows[id].payload);
    NextUntouched(before, b, ids, outcomes, now);
    ProcessedRows(b, b', id, note, outcome, now);
    OnlyApprovesNext(before.rows, b.rows, b'.rows, FirstIds(ids, i), id, b.keys, b'.keys, now);
    ReportNext(before.rows, b.rows, b'.rows, ids, outcomes, outcome, now);
    NotesNext(before, b, b', Notes(before.rows, ids, i), note, id, outcomes, outcome, now);
  }

  lemma NotesNext(before: Books, b: Books, b': Books, notes: seq<Notification>, note: Notification, id: nat,
                  outcomes: seq<Processed>, outcome: Processed, now: int)
    requires SentSome(before, b, notes) && (AllDone(outcomes) ==> SentAndMarked(before, b, notes))
    requires Processes(b, b', id, note, outcome, now)
    ensures SentSome(before, b', notes + [note])
    ensures AllDone(outcomes + [outcome]) ==> SentAndMarked(before, b', notes + [note])
  {
    ProcessedRows(b, b', id, note, outcome, now);
    SentNext(before, b, b', notes, note, id, now);
    AllDoneSnoc(outcomes, outcome);
    if AllDone(outcomes + [outcome]) {
      DoneNext(before, b, b', notes, note, id, now);
    }
  }

  lemma AllDoneSnoc(outcomes: seq<Processed>, outcome: Processed)
    ensures AllDone(outcomes + [outcome]) <==> AllDone(outcomes) && outcome.Done?
  {
    var all := outcomes + [outcome];
    assert all[|outcomes|] == outcome;
    if AllDone(all) {
      assert forall i :: 0 <= i < |outcomes| ==> outcomes[i] == all[i];
    }
  }

  lemma OnlyApprovesNext(before: Rows, rows: Rows, rows': Rows, ids: set<nat>, id: nat, keys: set<Key>,
                         keys': set<Key>, now: int)
    requires OnlyApproves(before, rows, ids, keys, now) && keys <= keys'
    requires id in rows && rows[id] == before[id]
    requires rows' == rows || (rows' == MarkReviewed(rows, id, Approved, now)
                               && KeyOf(DetectionKind, "discord", rows[id].payload) in keys')
    ensures OnlyApproves(before, rows', ids + {id}, keys', now)
  {
  }

  lemma ReportNext(before: Rows, rows: Rows, rows': Rows, ids: seq<nat>, outcomes: seq<Processed>,
                   outcome: Processed, now: int)
    requires |outcomes| < |ids| && AllPending(before, ids) && AsReported(before, rows, ids, outcomes, now)
    requires var id := ids[|outcomes|];
             && rows[id] == before[id]
             && (rows' == rows || rows' == MarkReviewed(rows, id, Approved, now))
             && (outcome.Done? ==> rows' == MarkReviewed(rows, id, Approved, now))
             && (outcome.LeftPending? ==> rows' == rows)
    ensures AsReported(before, rows', ids, outcomes + [outcome], now)
  {
    forall i | 0 <= i < |outcomes|
      ensures (outcomes + [outcome])[i] == outcomes[i] && rows'[ids[i]] == rows[ids[i]]
    {
      assert ids[i] != ids[|outcomes|];
    }
  }

  lemma SentNext(before: Books, b: Books, b': Books, notes: seq<Notification>, note: Notification, id: nat, now: int)
    requires SentSome(before, b, notes) && (Partly(b, b', id, note, now) || b' == CarryOut(b, id, note, now))
    ensures SentSome(before, b', notes + [note])
  {
    var extra := b.sent[|before.sent|..];
    KeysOfAppend(notes, [note]);
    if b'.sent == b.sent {
      SubsequenceSkip(extra, notes, note);
    } else {
      SubsequenceTake(extra, notes, note);
      assert b'.sent == b.sent + [note];
      assert b'.sent[|before.sent|..] == extra + [note];
    }
  }

  lemma DoneNext(before: Books, b: Books, b': Books, notes: seq<Notification>, note: Notification, id: nat, now: int)
    requires SentAndMarked(before, b, notes) && b' == CarryOut(b, id, note, now)
    ensures SentAndMarked(before, b', notes + [note])
  {
    FirstOccurrencesSnoc(before.keys, notes, note);
    KeysOfAppend(notes, [note]);
    Assoc(before.sent, FirstOccurrences(before.keys, notes), if note.key in b.keys then [] else [note]);
  }

  lemma AllDoneApproved(before: Books, b: Books, ids: seq<nat>, outcomes: seq<Processed>, now: int)
    requires |outcomes| == |ids| && AllDone(outcomes) && Reached(before, b, ids, outcomes, now)
    ensures AllApproved(b.rows, Members(ids)) && SentAndMarked(before, b, Notes(before.rows, ids, |ids|))
  {
    forall id | id in Members(ids)
      ensures id in b.rows && b.rows[id].status == Approved
    {
      var i :| 0 <= i < |ids| && ids[i] == id;
      assert outcomes[i].Done?;
    }
  }

  lemma {:induction false} FirstOccurrencesSnoc(seen: set<Key>, notes: seq<Notification>, n: Notification)
    ensures FirstOccurrences(seen, notes + [n]) ==
            FirstOccurrences(seen, notes) + (if n.key in seen + KeysOf(notes) then [] else [n])
    decreases |notes|
  {
    if notes == [] {
      assert [] + [n] == [n] && [n][1..] == [];
    } else {
      ConsAppend(notes, [n]);
      if notes[0].key in seen {
        FirstOccurrencesSnoc(seen, notes[1..], n);
      } else {
        FirstOccurrencesSnoc(seen + {notes[0].key}, notes[1..], n);
        assert seen + {notes[0].key} + KeysOf(notes[1..]) == seen + KeysOf(notes);
        Assoc([notes[0]], FirstOccurrences(seen + {notes[0].key}, notes[1..]),
              if n.key in seen + KeysOf(notes) then [] else [n]);
      }
    }
  }
}
