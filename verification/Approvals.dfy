/** The tables of pending approvals; detections and incidents use the same status machine. */
module Approvals {
  import opened Wrappers
  import opened Keys
  import opened Payloads
  import opened Repositories

  datatype Status = Pending | Approved | Rejected

  datatype Row = Row(externalId: string, severity: string, status: Status, payload: Record, updatedAt: int)

  type Rows = map<nat, Row>

  /** UNIQUE (detection_id), UNIQUE (incident_id) */
  predicate UniqueExternalIds(rows: Rows) {
    forall i, j :: i in rows && j in rows && rows[i].externalId == rows[j].externalId ==> i == j
  }

  /** Ids come from a sequence that never goes back. */
  predicate IdsBelow(rows: Rows, nextId: nat) {
    forall id :: id in rows ==> id < nextId
  }

  predicate HasExternalId(rows: Rows, externalId: string) {
    exists id :: id in rows && rows[id].externalId == externalId
  }

  /** INSERT ... ON CONFLICT DO UPDATE: a known external id keeps its id and its status. */
  function Upsert(rows: Rows, nextId: nat, externalId: string, severity: string, payload: Record, now: int): Rows {
    if HasExternalId(rows, externalId) then
      map id | id in rows ::
        if rows[id].externalId == externalId
        then rows[id].(severity := severity, payload := payload, updatedAt := now) else rows[id]
    else rows[nextId := Row(externalId, severity, Pending, payload, now)]
  }

  /** UPDATE ... WHERE id = ... AND status = 'pending' */
  function MarkReviewed(rows: Rows, id: nat, status: Status, now: int): Rows {
    if id in rows && rows[id].status.Pending? then rows[id := rows[id].(status := status, updatedAt := now)] else rows
  }

  function GetPending(rows: Rows, id: nat): Option<Row> {
    if id in rows && rows[id].status.Pending? then Some(rows[id]) else None
  }

  function PendingIds(rows: Rows): set<nat> {
    set id | id in rows && rows[id].status.Pending?
  }

  /** SELECT ... WHERE status = 'pending' ORDER BY updated_at DESC LIMIT limit; ties in any order. */
  ghost predicate IsListing(rows: Rows, limit: nat, ids: seq<nat>) {
    && (forall i :: 0 <= i < |ids| ==> ids[i] in PendingIds(rows))
    && (forall i, j :: 0 <= i < j < |ids| ==> ids[i] != ids[j] && rows[ids[i]].updatedAt >= rows[ids[j]].updatedAt)
    && |ids| <= limit
    && (forall id, i :: id in PendingIds(rows) && id !in ids && 0 <= i < |ids| ==>
          rows[ids[i]].updatedAt >= rows[id].updatedAt)
    && (|ids| < limit ==> forall id :: id in PendingIds(rows) ==> id in ids)
  }

  /** A save never makes a second row for an external id, nor touches a status or another row. */
  lemma UpsertKeeps(rows: Rows, nextId: nat, externalId: string, severity: string, payload: Record, now: int)
    requires UniqueExternalIds(rows) && IdsBelow(rows, nextId)
    ensures var rows' := Upsert(rows, nextId, externalId, severity, payload, now);
            && UniqueExternalIds(rows') && IdsBelow(rows', nextId + 1)
            && rows.Keys <= rows'.Keys && HasExternalId(rows', externalId)
            && (forall id :: id in rows ==>
                  rows'[id].status == rows[id].status && rows'[id].externalId == rows[id].externalId)
            && (forall id :: id in rows && rows[id].externalId != externalId ==> rows'[id] == rows[id])
            && (forall id :: id in rows' && rows'[id].externalId == externalId ==>
                  rows'[id].payload == payload && rows'[id].severity == severity && rows'[id].updatedAt == now)
            && (forall id :: id in rows' && id !in rows ==>
                  rows'[id].status == Pending && !HasExternalId(rows, externalId))
  {
    var rows' := Upsert(rows, nextId, externalId, severity, payload, now);
    if HasExternalId(rows, externalId) {
      var id :| id in rows && rows[id].externalId == externalId;
      assert rows'[id].externalId == externalId;
    } else {
      assert rows'[nextId].externalId == externalId;
    }
  }

  /**
   Save, then list. If every other row is older than the save, a pending row just saved is the
   first of every listing that is not empty, however long ago it was saved before.
   */
  lemma SavedIsListedFirst(rows: Rows, nextId: nat, externalId: string, severity: string, payload: Record, now: int,
                           id: nat, limit: nat, ids: seq<nat>)
    requires UniqueExternalIds(rows) && IdsBelow(rows, nextId)
    requires forall other :: other in rows && rows[other].externalId != externalId ==> rows[other].updatedAt < now
    requires var rows' := Upsert(rows, nextId, externalId, severity, payload, now);
             && id in rows' && rows'[id].externalId == externalId && rows'[id].status.Pending?
             && IsListing(rows', limit, ids) && ids != []
    ensures ids[0] == id
  {
    var rows' := Upsert(rows, nextId, externalId, severity, payload, now);
    UpsertKeeps(rows, nextId, externalId, severity, payload, now);
    FirstIsNewest(rows', limit, ids, id);
  }

  lemma FirstIsNewest(rows: Rows, limit: nat, ids: seq<nat>, id: nat)
    requires IsListing(rows, limit, ids) && ids != [] && id in PendingIds(rows)
    ensures ids[0] in rows && rows[ids[0]].updatedAt >= rows[id].updatedAt
  {
    assert ids[0] in PendingIds(rows);
    if id in ids {
      var k :| 0 <= k < |ids| && ids[k] == id;
    }
  }

  /** A review changes one pending row, and a row once reviewed never again. */
  lemma MarkKeeps(rows: Rows, nextId: nat, id: nat, status: Status, now: int)
    requires UniqueExternalIds(rows) && IdsBelow(rows, nextId)
    ensures var rows' := MarkReviewed(rows, id, status, now);
            && UniqueExternalIds(rows') && IdsBelow(rows', nextId) && rows'.Keys == rows.Keys
            && (forall i :: i in rows && (i != id || !rows[i].status.Pending?) ==> rows'[i] == rows[i])
            && (id in rows && rows[id].status.Pending? ==>
                  rows'[id].status == status && rows'[id].updatedAt == now && rows'[id].severity == rows[id].severity)
            && (forall i :: i in rows ==>
                  rows'[i].payload == rows[i].payload && rows'[i].externalId == rows[i].externalId)
  {
    var rows' := MarkReviewed(rows, id, status, now);
    assert forall i :: i in rows ==> rows'[i].externalId == rows[i].externalId;
  }

  lemma NewestExists(rows: Rows, left: set<nat>)
    requires left != {} && left <= rows.Keys
    ensures exists id :: id in left && forall other :: other in left ==> rows[other].updatedAt <= rows[id].updatedAt
    decreases |left|
  {
    var id :| id in left;
    if left != {id} {
      var rest := left - {id};
      assert rest != {};
      NewestExists(rows, rest);
      var best :| best in rest && forall other :: other in rest ==> rows[other].updatedAt <= rows[best].updatedAt;
      if rows[best].updatedAt < rows[id].updatedAt {
        assert forall other :: other in left ==> rows[other].updatedAt <= rows[id].updatedAt;
      } else {
        assert forall other :: other in left ==> rows[other].updatedAt <= rows[best].updatedAt;
      }
    }
  }

  class ApprovalRepository {
    const kind: Kind
    const sanitize: Sanitizer
    var rows: Rows
    var nextId: nat
    ghost var raised: nat

    ghost predicate Valid()
      reads this
    {
      UniqueExternalIds(rows) && IdsBelow(rows, nextId)
    }

    constructor (kind: Kind, sanitize: Sanitizer)
      ensures Valid() && rows == map[] && this.kind == kind && this.sanitize == sanitize && raised == 0
    {
      this.kind, this.sanitize := kind, sanitize;
      rows, nextId, raised := map[], 1, 0;
    }

    method SavePending(record: Record, nested: Nested, severity: string, now: int) returns (ok: bool)
      requires Valid()
      modifies this
      ensures Valid() && raised == Counting(old(raised), ok)
      ensures var payload := PayloadOf(kind, sanitize, record, nested);
              || rows == Upsert(old(rows), old(nextId), Identity(record), severity, payload, now)
              || (!ok && rows == old(rows))
      ensures ok ==> HasExternalId(rows, Identity(record))
      ensures ok ==>
                forall id :: id in rows && rows[id].externalId == Identity(record) ==>
                  && rows[id].payload == PayloadOf(kind, sanitize, record, nested)
                  && rows[id].severity == severity && rows[id].updatedAt == now
    {
      var took;
      ok, took := Attempt();
      raised := Counting(raised, ok);
      if took {
        var payload := PayloadOf(kind, sanitize, record, nested);
        UpsertKeeps(rows, nextId, Identity(record), severity, payload, now);
        rows := Upsert(rows, nextId, Identity(record), severity, payload, now);
        nextId := nextId + 1;
      }
    }

    method ListPending(limit: nat) returns (ok: bool, ids: seq<nat>)
      modifies `raised
      ensures raised == Counting(old(raised), ok)
      ensures ok ==> IsListing(rows, limit, ids)
    {
      ids := [];
      ok := *;
      raised := Counting(raised, ok);
      if !ok { return; }
      var left := PendingIds(rows);
      while left != {} && |ids| < limit
        invariant left <= PendingIds(rows) && |ids| <= limit && raised == old(raised)
        invariant forall i :: 0 <= i < |ids| ==> ids[i] in PendingIds(rows) && ids[i] !in left
        invariant forall id :: id in PendingIds(rows) ==> id in left || id in ids
        invariant forall i, j :: 0 <= i < j < |ids| ==>
                    ids[i] != ids[j] && rows[ids[i]].updatedAt >= rows[ids[j]].updatedAt
        invariant forall id, i :: id in left && 0 <= i < |ids| ==> rows[ids[i]].updatedAt >= rows[id].updatedAt
        decreases left
      {
        NewestExists(rows, left);
        var id :| id in left && forall other :: other in left ==> rows[other].updatedAt <= rows[id].updatedAt;
        left := left - {id};
        ids := ids + [id];
      }
    }

    method Get(id: nat) returns (ok: bool, row: Option<Row>)
      modifies `raised
      ensures raised == Counting(old(raised), ok)
      ensures ok ==> row == GetPending(rows, id)
      ensures ok ==> (row.Some? <==> id in rows && rows[id].status == Pending)
      ensures ok && row.Some? ==> row.value == rows[id]
    {
      ok, row := *, *;
      if ok { row := GetPending(rows, id); }
      raised := Counting(raised, ok);
    }

    method Mark(id: nat, status: Status, now: int) returns (ok: bool)
      requires Valid()
      modifies this
      ensures Valid() && nextId == old(nextId) && raised == Counting(old(raised), ok)
      ensures rows == MarkReviewed(old(rows), id, status, now) || (!ok && rows == old(rows))
    {
      var took;
      ok, took := Attempt();
      raised := Counting(raised, ok);
      if took {
        MarkKeeps(rows, nextId, id, status, now);
        rows := MarkReviewed(rows, id, status, now);
      }
    }
  }
}
