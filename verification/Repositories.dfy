/**
 The tables the pipelines share, and the notifier. Every method may raise (ok is false), and
 one that raises may have taken effect all the same: the answer was lost, not the statement.
 What it would have answered is then unknown. Each object counts the calls that raised.
 */
module Repositories {
  import opened Wrappers
  import opened Keys

  /** A page token of the detection source; the texts themselves never matter. */
  type Token = nat

  datatype CollectionResult = CollectionResult(
    collected: int,
    notified: int,
    duplicates: int,
    pending: int,
    skipped: int,
    observed: set<string>)

  /** A row of detection_collection_runs. A failed row has a NULL token. */
  datatype RunRow =
    | Running(token: Option<Token>)
    | Succeeded(result: CollectionResult, token: Option<Token>)
    | Failed

  function RowToken(row: RunRow): Option<Token> {
    match row
    case Running(token) => token
    case Succeeded(_, token) => token
    case Failed => None
  }

  /** latest().last_page_token, or None when there is no row. */
  function LatestToken(log: seq<RunRow>): Option<Token> {
    if log == [] then None else RowToken(log[|log| - 1])
  }

  /** An await: it may raise, and if it does it may still have taken effect. */
  method Attempt() returns (ok: bool, took: bool)
    ensures ok ==> took
  {
    ok, took := *, *;
    took := took || ok;
  }

  /** The number of calls that raised, after one more call. */
  function Counting(raised: nat, ok: bool): nat {
    if ok then raised else raised + 1
  }

  /** The append-only run log. */
  class DetectionRunRepository {
    var log: seq<RunRow>
    ghost var raised: nat

    constructor ()
      ensures log == [] && raised == 0
    {
      log, raised := [], 0;
    }

    method Latest() returns (ok: bool, token: Option<Token>)
      modifies `raised
      ensures raised == Counting(old(raised), ok)
      ensures ok ==> token == LatestToken(log)
      ensures ok && log == [] ==> token == None
      ensures ok && log != [] ==>
                var last := log[|log| - 1];
                && (last.Running? ==> token == last.token)
                && (last.Succeeded? ==> token == last.token)
                && (last.Failed? ==> token == None)
    {
      ok, token := *, *;
      if ok { token := LatestToken(log); }
      raised := Counting(raised, ok);
    }

    method SaveCursor(token: Option<Token>) returns (ok: bool)
      modifies this
      ensures log == old(log) + [Running(token)] || (!ok && log == old(log))
      ensures raised == Counting(old(raised), ok)
    {
      var took;
      ok, took := Attempt();
      raised := Counting(raised, ok);
      if took { log := log + [Running(token)]; }
    }

    method SaveSuccess(result: CollectionResult, token: Option<Token>) returns (ok: bool)
      modifies this
      ensures log == old(log) + [Succeeded(result, token)] || (!ok && log == old(log))
      ensures raised == Counting(old(raised), ok)
    {
      var took;
      ok, took := Attempt();
      raised := Counting(raised, ok);
      if took { log := log + [Succeeded(result, token)]; }
    }

    method SaveFailure() returns (ok: bool)
      modifies this
      ensures log == old(log) + [Failed] || (!ok && log == old(log))
      ensures raised == Counting(old(raised), ok)
    {
      var took;
      ok, took := Attempt();
      raised := Counting(raised, ok);
      if took { log := log + [Failed]; }
    }
  }

  /** INSERT ... ON CONFLICT (idempotency_key) DO NOTHING: the first destination stays. */
  function Delivered(deliveries: map<Key, string>, key: Key, destination: string): map<Key, string> {
    if key in deliveries then deliveries else deliveries[key := destination]
  }

  /** notification_deliveries: unique keys, never removed. */
  class NotificationRepository {
    var deliveries: map<Key, string>
    ghost var lookupsRaised: nat
    ghost var marksRaised: nat

    constructor ()
      ensures deliveries == map[] && lookupsRaised == marksRaised == 0
    {
      deliveries, lookupsRaised, marksRaised := map[], 0, 0;
    }

    method WasDelivered(key: Key) returns (ok: bool, found: bool)
      modifies `lookupsRaised
      ensures ok ==> (found <==> key in deliveries)
      ensures lookupsRaised == Counting(old(lookupsRaised), ok)
    {
      ok, found := *, *;
      if ok { found := key in deliveries; }
      lookupsRaised := Counting(lookupsRaised, ok);
    }

    method MarkDelivered(key: Key, destination: string) returns (ok: bool)
      modifies `deliveries, `marksRaised
      ensures marksRaised == Counting(old(marksRaised), ok)
      ensures key in old(deliveries) ==> deliveries == old(deliveries)
      ensures key !in old(deliveries) ==>
                deliveries == old(deliveries)[key := destination] || (!ok && deliveries == old(deliveries))
      ensures ok ==> deliveries.Keys == old(deliveries).Keys + {key}
    {
      var took;
      ok, took := Attempt();
      marksRaised := Counting(marksRaised, ok);
      if took { deliveries := Delivered(deliveries, key, destination); }
    }
  }

  /** A message: the record it shows and the key it is sent under. */
  datatype Notification = Notification(key: Key, record: Record)

  function NoteOf(kind: Kind, destination: string, record: Record): Notification {
    Notification(KeyOf(kind, destination, record), record)
  }

  function KeysOf(notes: seq<Notification>): set<Key> {
    if notes == [] then {} else {notes[0].key} + KeysOf(notes[1..])
  }

  /** The first notification of each key outside `seen`, in order. */
  function FirstOccurrences(seen: set<Key>, notes: seq<Notification>): seq<Notification>
    decreases |notes|
  {
    if notes == [] then []
    else if notes[0].key in seen then FirstOccurrences(seen, notes[1..])
    else [notes[0]] + FirstOccurrences(seen + {notes[0].key}, notes[1..])
  }

  /**
   FirstOccurrences is characterised independently of its recursion. Its keys are exactly
   the unseen keys of the input, each once ...
   */
  lemma {:induction false} FirstOccurrencesKeys(seen: set<Key>, notes: seq<Notification>)
    ensures KeysOf(FirstOccurrences(seen, notes)) == KeysOf(notes) - seen
    ensures |KeysOf(FirstOccurrences(seen, notes))| == |FirstOccurrences(seen, notes)|
    decreases |notes|
  {
    if notes == [] {
    } else if notes[0].key in seen {
      FirstOccurrencesKeys(seen, notes[1..]);
    } else {
      var rest := FirstOccurrences(seen + {notes[0].key}, notes[1..]);
      FirstOccurrencesKeys(seen + {notes[0].key}, notes[1..]);
      assert ([notes[0]] + rest)[1..] == rest;
      assert KeysOf(FirstOccurrences(seen, notes)) == {notes[0].key} + KeysOf(rest);
    }
  }

  /** The position of the first notification with the given key. */
  function FirstIndex(notes: seq<Notification>, key: Key): (i: nat)
    requires key in KeysOf(notes)
    ensures i < |notes| && notes[i].key == key
    ensures forall j :: 0 <= j < i ==> notes[j].key != key
    decreases |notes|
  {
    if notes[0].key == key then 0 else 1 + FirstIndex(notes[1..], key)
  }

  /** ... every notification kept is the first of its key ... */
  lemma {:induction false} FirstOccurrencesAreFirst(seen: set<Key>, notes: seq<Notification>, n: Notification)
    requires n in FirstOccurrences(seen, notes)
    ensures n.key in KeysOf(notes) && n.key !in seen && n == notes[FirstIndex(notes, n.key)]
    decreases |notes|
  {
    var head, rest := notes[0], notes[1..];
    if head.key in seen {
      FirstOccurrencesAreFirst(seen, rest, n);
    } else if n in FirstOccurrences(seen + {head.key}, rest) {
      FirstOccurrencesAreFirst(seen + {head.key}, rest, n);
    }
  }

  /** What is kept of the rest has its first index in the rest. */
  lemma FirstIndexLater(seen: set<Key>, notes: seq<Notification>, n: Notification)
    requires notes != [] && notes[0].key in seen && n in FirstOccurrences(seen, notes[1..])
    ensures n.key in KeysOf(notes[1..]) && n.key in KeysOf(notes)
    ensures FirstIndex(notes, n.key) == 1 + FirstIndex(notes[1..], n.key)
  {
    FirstOccurrencesAreFirst(seen, notes[1..], n);
  }

  /** ... and they are kept in the order of the input. */
  lemma {:induction false} FirstOccurrencesInOrder(seen: set<Key>, notes: seq<Notification>, i: nat, j: nat)
    requires i < j < |FirstOccurrences(seen, notes)|
    ensures var out := FirstOccurrences(seen, notes);
            && out[i].key in KeysOf(notes) && out[j].key in KeysOf(notes)
            && FirstIndex(notes, out[i].key) < FirstIndex(notes, out[j].key)
    decreases |notes|
  {
    var out, head, rest := FirstOccurrences(seen, notes), notes[0], notes[1..];
    if head.key in seen {
      FirstIndexLater(seen, notes, out[i]);
      FirstIndexLater(seen, notes, out[j]);
      FirstOccurrencesInOrder(seen, rest, i, j);
    } else {
      var out' := FirstOccurrences(seen + {head.key}, rest);
      Uncons(out, head, out');
      FirstIndexLater(seen + {head.key}, notes, out'[j - 1]);
      if i > 0 {
        FirstIndexLater(seen + {head.key}, notes, out'[i - 1]);
        FirstOccurrencesInOrder(seen + {head.key}, rest, i - 1, j - 1);
      }
    }
  }

  lemma {:induction false} KeysOfAppend(a: seq<Notification>, b: seq<Notification>)
    ensures KeysOf(a + b) == KeysOf(a) + KeysOf(b)
  {
    if a == [] {
      assert a + b == b;
    } else {
      KeysOfAppend(a[1..], b);
      assert (a + b)[1..] == a[1..] + b;
    }
  }

  /** The outgoing channel; `sent` lists the notifications sent so far. */
  class Notifier {
    var sent: seq<Notification>
    ghost var raised: nat

    constructor ()
      ensures sent == [] && raised == 0
    {
      sent, raised := [], 0;
    }

    method Send(note: Notification) returns (ok: bool)
      modifies this
      ensures raised == Counting(old(raised), ok)
      ensures sent == old(sent) + [note] || (!ok && sent == old(sent))
    {
      var took;
      ok, took := Attempt();
      raised := Counting(raised, ok);
      if took { sent := sent + [note]; }
    }
  }

  datatype Delivery = Duplicate | Notified | Raised

  /** How many awaits of deliveries have raised. */
  ghost function DeliveriesRaised(deliveries: NotificationRepository, notifier: Notifier): nat
    reads deliveries, notifier
  {
    deliveries.lookupsRaised + deliveries.marksRaised + notifier.raised
  }

  /**
   Look the key up, send, mark: the three awaits by which every pipeline notifies. It raises
   exactly when one of them does, and then the notification may have been sent, and if so its
   key may be marked.
   */
  method Deliver(deliveries: NotificationRepository, notifier: Notifier, note: Notification, destination: string)
    returns (outcome: Delivery)
    modifies deliveries, notifier
    ensures DeliveriesRaised(deliveries, notifier) ==
            Counting(old(DeliveriesRaised(deliveries, notifier)), !outcome.Raised?)
    ensures outcome.Duplicate? ==>
              note.key in old(deliveries.deliveries) && notifier.sent == old(notifier.sent)
              && deliveries.deliveries == old(deliveries.deliveries)
    ensures outcome.Notified? ==>
              note.key !in old(deliveries.deliveries) && notifier.sent == old(notifier.sent) + [note]
              && deliveries.deliveries == old(deliveries.deliveries)[note.key := destination]
    ensures outcome.Raised? ==>
              || (notifier.sent == old(notifier.sent) && deliveries.deliveries == old(deliveries.deliveries))
              || (note.key !in old(deliveries.deliveries) && notifier.sent == old(notifier.sent) + [note]
                  && (deliveries.deliveries == old(deliveries.deliveries)
                      || deliveries.deliveries == old(deliveries.deliveries)[note.key := destination]))
  {
    var ok, found := deliveries.WasDelivered(note.key);
    if !ok { return Raised; }
    if found { return Duplicate; }
    ok := notifier.Send(note);
    if !ok { return Raised; }
    ok := deliveries.MarkDelivered(note.key, destination);
    if !ok { return Raised; }
    return Notified;
  }

  /** `now` is `before` followed by a prefix of what was planned. */
  predicate CutShort<T(==)>(before: seq<T>, now: seq<T>, planned: seq<T>) {
    |before| <= |now| <= |before| + |planned| && now == before + planned[..|now| - |before|]
  }

  /** Of the n planned notifications that were sent, all are marked, or all but the last. */
  predicate MarkedSo(before: set<Key>, now: set<Key>, planned: seq<Notification>, n: int) {
    0 <= n <= |planned| && (now == before + KeysOf(planned[..n]) || (n > 0 && now == before + KeysOf(planned[..n - 1])))
  }

  /** The state in which a pipeline may raise: `done` is sent and marked, `note` perhaps sent or marked too. */
  lemma RaisedMidway(before: seq<Notification>, now: seq<Notification>, marked: set<Key>, keys: set<Key>,
                     planned: seq<Notification>, done: seq<Notification>, note: Notification)
    requires done <= planned
    requires || (now == before + done && keys == marked + KeysOf(done))
             || (done + [note] <= planned && now == before + done + [note]
                 && (keys == marked + KeysOf(done) || keys == marked + KeysOf(done) + {note.key}))
    ensures CutShort(before, now, planned) && MarkedSo(marked, keys, planned, |now| - |before|)
  {
    assert done == planned[..|done|];
    if now != before + done {
      assert done + [note] == planned[..|done| + 1];
      Assoc(before, done, [note]);
      KeysOfAppend(done, [note]);
    }
  }
}
