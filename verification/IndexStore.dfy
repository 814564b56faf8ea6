/**
 PgVectorRepository.index_document over its two tables, and the simple map the tables
 stand for. uuid5 is taken to be injective, so an id is represented by the text it is
 made from; the content hash is any function from texts to texts.
 */
module IndexStore {
  import opened Wrappers
  import Keys
  import opened Chunker
  import opened Vectors

  type Id = string

  /** What the unique constraint of knowledge_documents is about. */
  datatype Triple = Triple(sourceType: string, sourceId: string, hash: string)

  datatype DocumentRow = DocumentRow(id: Id, title: string, content: string, metadata: map<string, string>)

  datatype ChunkRow = ChunkRow(content: string, metadata: map<string, string>, embedding: Vector)

  /** What the unique constraint of knowledge_chunks is about. */
  datatype ChunkKey = ChunkKey(id: Id, index: int)

  /** Both tables by their unique constraints. */
  datatype Tables = Tables(documents: map<Triple, DocumentRow>, chunks: map<ChunkKey, ChunkRow>)

  const EMPTY := Tables(map[], map[])

  /** One call of index_document. */
  datatype Call = Call(document: KnowledgeDocument, chunks: seq<ChunkRecord>, embeddings: seq<Vector>)

  datatype IndexError = LengthMismatch | DocumentIdTaken | ChunkTaken

  type Digest = string -> string

  function TripleOf(digest: Digest, document: KnowledgeDocument): Triple {
    Triple(document.sourceType, document.sourceId, digest(document.content))
  }

  function DocumentId(t: Triple): Id {
    Keys.Join(t.sourceType, t.sourceId, t.hash)
  }

  function WithoutChunksOf(chunks: map<ChunkKey, ChunkRow>, id: Id): map<ChunkKey, ChunkRow> {
    map k | k in chunks && k.id != id :: chunks[k]
  }

  function RowAt(call: Call, i: nat): ChunkRow
    requires i < |call.chunks| == |call.embeddings|
  {
    ChunkRow(call.chunks[i].content, call.chunks[i].metadata, call.embeddings[i])
  }

  /** The rows of the call's first n chunks, by index; None when an index repeats. */
  function Rows(call: Call, n: nat): Option<map<int, ChunkRow>>
    requires n <= |call.chunks| == |call.embeddings|
  {
    if n == 0 then Some(map[])
    else
      var rows := Rows(call, n - 1);
      if rows.None? || call.chunks[n - 1].chunkIndex in rows.value then None
      else Some(rows.value[call.chunks[n - 1].chunkIndex := RowAt(call, n - 1)])
  }

  // ------------------------------------------------------- what the tables stand for

  datatype Entry = Entry(title: string, content: string, metadata: map<string, string>, chunks: map<int, ChunkRow>)

  function EntryOf(document: KnowledgeDocument, rows: map<int, ChunkRow>): Entry {
    Entry(document.title, document.content, document.metadata, rows)
  }

  function RowOf(id: Id, entry: Entry): DocumentRow {
    DocumentRow(id, entry.title, entry.content, entry.metadata)
  }

  type Store = map<Triple, Entry>

  /** Another document already uses the id. */
  predicate IdTaken(store: Store, t: Triple) {
    t !in store && exists other :: other in store && DocumentId(other) == DocumentId(t)
  }

  /** The simple map after one call: the triple's entry replaced, or nothing and an error. */
  function Apply(digest: Digest, store: Store, call: Call): (Store, Option<IndexError>) {
    var t := TripleOf(digest, call.document);
    if |call.chunks| != |call.embeddings| then (store, Some(LengthMismatch))
    else if IdTaken(store, t) then (store, Some(DocumentIdTaken))
    else
      var rows := Rows(call, |call.chunks|);
      if rows.None? then (store, Some(ChunkTaken))
      else (store[t := EntryOf(call.document, rows.value)], None)
  }

  ghost predicate RepresentsDocuments(documents: map<Triple, DocumentRow>, store: Store) {
    && documents.Keys == store.Keys
    && (forall t :: t in store ==> documents[t] == RowOf(DocumentId(t), store[t]))
    && (forall t, u :: t in store && u in store && DocumentId(t) == DocumentId(u) ==> t == u)
  }

  ghost predicate StoresChunks(chunks: map<ChunkKey, ChunkRow>, store: Store) {
    forall t, i :: t in store && i in store[t].chunks ==>
        ChunkKey(DocumentId(t), i) in chunks && chunks[ChunkKey(DocumentId(t), i)] == store[t].chunks[i]
  }

  ghost predicate Owned(store: Store, k: ChunkKey) {
    exists t :: t in store && DocumentId(t) == k.id && k.index in store[t].chunks
  }

  ghost predicate NoLeftovers(chunks: map<ChunkKey, ChunkRow>, store: Store) {
    forall k :: k in chunks ==> Owned(store, k)
  }

  /** The document ids differ, and the chunk table holds the entries' chunks and nothing else. */
  ghost predicate Represents(tables: Tables, store: Store) {
    RepresentsDocuments(tables.documents, store) && StoresChunks(tables.chunks, store)
      && NoLeftovers(tables.chunks, store)
  }

  /** What the table holds under one key, if the document's rows are replaced. */
  predicate ReplacedAt(before: map<ChunkKey, ChunkRow>, after: map<ChunkKey, ChunkRow>, id: Id,
                       rows: map<int, ChunkRow>, k: ChunkKey) {
    if k.id == id then (k in after <==> k.index in rows) && (k in after ==> after[k] == rows[k.index])
    else (k in after <==> k in before) && (k in after ==> after[k] == before[k])
  }

  ghost predicate Replaced(before: map<ChunkKey, ChunkRow>, after: map<ChunkKey, ChunkRow>, id: Id,
                           rows: map<int, ChunkRow>) {
    forall k :: ReplacedAt(before, after, id, rows, k)
  }

  lemma ReplacedNone(before: map<ChunkKey, ChunkRow>, id: Id)
    ensures Replaced(before, WithoutChunksOf(before, id), id, map[])
  {
  }

  lemma ReplacedOne(before: map<ChunkKey, ChunkRow>, after: map<ChunkKey, ChunkRow>, id: Id,
                    rows: map<int, ChunkRow>, i: int, row: ChunkRow)
    requires Replaced(before, after, id, rows)
    ensures Replaced(before, after[ChunkKey(id, i) := row], id, rows[i := row])
    ensures ChunkKey(id, i) in after <==> i in rows
  {
    assert ReplacedAt(before, after, id, rows, ChunkKey(id, i));
    var after', rows' := after[ChunkKey(id, i) := row], rows[i := row];
    forall k
      ensures ReplacedAt(before, after', id, rows', k)
    {
      assert ReplacedAt(before, after, id, rows, k);
    }
  }

  lemma {:induction false} RowsNone(call: Call, n: nat, m: nat)
    requires n <= m <= |call.chunks| == |call.embeddings| && Rows(call, n).None?
    ensures Rows(call, m).None?
  {
    if n < m {
      RowsNone(call, n, m - 1);
    }
  }

  /** The deletion of the document's chunks and the insertion loop; None when an index is taken. */
  method InsertChunks(table: map<ChunkKey, ChunkRow>, id: Id, call: Call) returns (r: Option<map<ChunkKey, ChunkRow>>)
    requires |call.chunks| == |call.embeddings|
    ensures r.Some? <==> Rows(call, |call.chunks|).Some?
    ensures r.Some? ==> Replaced(table, r.value, id, Rows(call, |call.chunks|).value)
  {
    var rows := WithoutChunksOf(table, id);
    ReplacedNone(table, id);
    var i := 0;
    while i < |call.chunks|
      invariant 0 <= i <= |call.chunks|
      invariant Rows(call, i).Some? && Replaced(table, rows, id, Rows(call, i).value)
    {
      var index := call.chunks[i].chunkIndex;
      ReplacedOne(table, rows, id, Rows(call, i).value, index, RowAt(call, i));
      if ChunkKey(id, index) in rows {
        RowsNone(call, i + 1, |call.chunks|);
        return None;
      }
      rows := rows[ChunkKey(id, index) := ChunkRow(call.chunks[i].content, call.chunks[i].metadata,
                                                   call.embeddings[i])];
      i := i + 1;
    }
    return Some(rows);
  }

  /**
   What the chunk table holds of a document after an accepted call, field by field: the i-th
   chunk with the i-th embedding under its own index, and nothing under any other index.
   */
  ghost predicate HoldsChunks(table: map<ChunkKey, ChunkRow>, id: Id, chunks: seq<ChunkRecord>, embeddings: seq<Vector>)
    requires |chunks| == |embeddings|
  {
    && (forall i :: 0 <= i < |chunks| ==>
          var key := ChunkKey(id, chunks[i].chunkIndex);
          && key in table && table[key].content == chunks[i].content
          && table[key].metadata == chunks[i].metadata && table[key].embedding == embeddings[i])
    && (forall key :: key in table && key.id == id ==>
          exists i :: 0 <= i < |chunks| && chunks[i].chunkIndex == key.index)
  }

  lemma {:induction false} RowsHold(call: Call, n: nat)
    requires n <= |call.chunks| == |call.embeddings| && Rows(call, n).Some?
    ensures var rows := Rows(call, n).value;
            && (forall i :: 0 <= i < n ==>
                  var index := call.chunks[i].chunkIndex;
                  && index in rows && rows[index].content == call.chunks[i].content
                  && rows[index].metadata == call.chunks[i].metadata && rows[index].embedding == call.embeddings[i])
            && (forall index :: index in rows ==> exists i :: 0 <= i < n && call.chunks[i].chunkIndex == index)
  {
    if n > 0 {
      RowsHold(call, n - 1);
      var last := call.chunks[n - 1].chunkIndex;
      forall index | index in Rows(call, n).value
        ensures exists i :: 0 <= i < n && call.chunks[i].chunkIndex == index
      {
        if index == last {
          assert call.chunks[n - 1].chunkIndex == index;
        } else {
          var i :| 0 <= i < n - 1 && call.chunks[i].chunkIndex == index;
        }
      }
    }
  }

  lemma ReplacedHolds(before: map<ChunkKey, ChunkRow>, after: map<ChunkKey, ChunkRow>, id: Id, call: Call)
    requires |call.chunks| == |call.embeddings| && Rows(call, |call.chunks|).Some?
    requires Replaced(before, after, id, Rows(call, |call.chunks|).value)
    ensures HoldsChunks(after, id, call.chunks, call.embeddings) && OthersUntouched(before, after, id)
  {
    RowsHold(call, |call.chunks|);
    var rows := Rows(call, |call.chunks|).value;
    forall i | 0 <= i < |call.chunks|
      ensures ReplacedAt(before, after, id, rows, ChunkKey(id, call.chunks[i].chunkIndex))
    {
    }
    forall key | key in after && key.id == id
      ensures exists i :: 0 <= i < |call.chunks| && call.chunks[i].chunkIndex == key.index
    {
      assert ReplacedAt(before, after, id, rows, key);
    }
    forall key: ChunkKey | key.id != id
      ensures (key in after <==> key in before) && (key in before ==> after[key] == before[key])
    {
      assert ReplacedAt(before, after, id, rows, key);
    }
  }

  /** The chunks of all other documents are as they were. */
  ghost predicate OthersUntouched(before: map<ChunkKey, ChunkRow>, after: map<ChunkKey, ChunkRow>, id: Id) {
    forall key: ChunkKey :: key.id != id ==>
        (key in after <==> key in before) && (key in before ==> after[key] == before[key])
  }

  class KnowledgeStore {
    var tables: Tables
    /** The map the tables stand for. */
    ghost var store: Store

    ghost predicate Valid()
      reads this
    {
      Represents(tables, store)
    }

    constructor ()
      ensures Valid() && tables == EMPTY && store == map[]
    {
      tables := EMPTY;
      store := map[];
    }

    /**
     index_document. An error rolls everything back. The update of the document row, the
     deletion of its chunks and the insertions together are one update of the map.
     */
    method IndexDocument(digest: Digest, document: KnowledgeDocument, chunks: seq<ChunkRecord>, embeddings: seq<Vector>)
      returns (error: Option<IndexError>)
      requires Valid()
      modifies this
      ensures Valid()
      ensures (store, error) == Apply(digest, old(store), Call(document, chunks, embeddings))
      ensures error.Some? ==> tables == old(tables)
      ensures error.None? ==>
                var t := Triple(document.sourceType, document.sourceId, digest(document.content));
                && t in tables.documents && |chunks| == |embeddings|
                && var row := tables.documents[t];
                && row.id == document.sourceType + ":" + document.sourceId + ":" + digest(document.content)
                && row.title == document.title && row.content == document.content && row.metadata == document.metadata
                && HoldsChunks(tables.chunks, row.id, chunks, embeddings)
                && OthersUntouched(old(tables.chunks), tables.chunks, row.id)
                && (forall u :: u in old(tables.documents) && u != t ==>
                      && u in tables.documents && tables.documents[u] == old(tables.documents[u])
                      && tables.documents[u].id != row.id)
    {
      if |chunks| != |embeddings| { return Some(LengthMismatch); }
      var t := TripleOf(digest, document);
      var id := DocumentId(t);
      if t in tables.documents {
        id := tables.documents[t].id;
      } else if exists other :: other in tables.documents && tables.documents[other].id == id {
        return Some(DocumentIdTaken);
      }
      var documents := tables.documents[t := DocumentRow(id, document.title, document.content, document.metadata)];
      var rows := InsertChunks(tables.chunks, id, Call(document, chunks, embeddings));
      if rows.None? { return Some(ChunkTaken); }
      ghost var entry := EntryOf(document, Rows(Call(document, chunks, embeddings), |chunks|).value);
      ReplacedHolds(tables.chunks, rows.value, id, Call(document, chunks, embeddings));
      RepresentsAfter(tables, rows.value, store, t, entry);
      tables := Tables(documents, rows.value);
      store := store[t := entry];
      error := None;
    }
  }

  // ---------------------------------------------------- the tables after a call

  lemma ReplaceDocument(documents: map<Triple, DocumentRow>, store: Store, t: Triple, entry: Entry)
    requires RepresentsDocuments(documents, store) && !IdTaken(store, t)
    ensures RepresentsDocuments(documents[t := RowOf(DocumentId(t), entry)], store[t := entry])
    ensures forall u :: u in store && DocumentId(u) == DocumentId(t) ==> u == t
  {
  }

  lemma ReplacedNoLeftovers(before: map<ChunkKey, ChunkRow>, after: map<ChunkKey, ChunkRow>, store: Store, t: Triple,
                            entry: Entry)
    requires NoLeftovers(before, store) && forall u :: u in store && DocumentId(u) == DocumentId(t) ==> u == t
    requires Replaced(before, after, DocumentId(t), entry.chunks)
    ensures NoLeftovers(after, store[t := entry])
  {
    forall k | k in after
      ensures Owned(store[t := entry], k)
    {
      assert ReplacedAt(before, after, DocumentId(t), entry.chunks, k);
      OwnedAfter(store, t, entry, k);
    }
  }

  lemma OwnedAfter(store: Store, t: Triple, entry: Entry, k: ChunkKey)
    requires if k.id == DocumentId(t) then k.index in entry.chunks else Owned(store, k)
    ensures Owned(store[t := entry], k)
  {
    var store' := store[t := entry];
    if k.id == DocumentId(t) {
      assert t in store' && DocumentId(t) == k.id && k.index in store'[t].chunks;
    } else {
      var u :| u in store && DocumentId(u) == k.id && k.index in store[u].chunks;
      assert u in store' && DocumentId(u) == k.id && k.index in store'[u].chunks;
    }
  }

  lemma ReplacedStores(before: map<ChunkKey, ChunkRow>, after: map<ChunkKey, ChunkRow>, store: Store, t: Triple,
                       entry: Entry)
    requires StoresChunks(before, store) && forall u :: u in store && DocumentId(u) == DocumentId(t) ==> u == t
    requires Replaced(before, after, DocumentId(t), entry.chunks)
    ensures StoresChunks(after, store[t := entry])
  {
    forall u, i | u in store[t := entry] && i in store[t := entry][u].chunks
      ensures ChunkKey(DocumentId(u), i) in after && after[ChunkKey(DocumentId(u), i)] == store[t := entry][u].chunks[i]
    {
      assert ReplacedAt(before, after, DocumentId(t), entry.chunks, ChunkKey(DocumentId(u), i));
    }
  }

  lemma RepresentsAfter(before: Tables, after: map<ChunkKey, ChunkRow>, store: Store, t: Triple, entry: Entry)
    requires Represents(before, store) && !IdTaken(store, t)
             && Replaced(before.chunks, after, DocumentId(t), entry.chunks)
    ensures Represents(Tables(before.documents[t := RowOf(DocumentId(t), entry)], after), store[t := entry])
  {
    ReplaceDocument(before.documents, store, t, entry);
    ReplacedStores(before.chunks, after, store, t, entry);
    ReplacedNoLeftovers(before.chunks, after, store, t, entry);
  }

  /** The tables are determined by the map they stand for. */
  lemma RepresentationUnique(a: Tables, b: Tables, store: Store)
    requires Represents(a, store) && Represents(b, store)
    ensures a == b
  {
    forall t | t in store
      ensures a.documents[t] == b.documents[t]
    {
    }
    assert a.documents == b.documents;
    ChunksContained(a.chunks, b.chunks, store);
    ChunksContained(b.chunks, a.chunks, store);
    assert a.chunks == b.chunks;
  }

  lemma ChunksContained(a: map<ChunkKey, ChunkRow>, b: map<ChunkKey, ChunkRow>, store: Store)
    requires NoLeftovers(a, store) && StoresChunks(a, store) && StoresChunks(b, store)
    ensures forall k :: k in a ==> k in b && a[k] == b[k]
  {
    forall k | k in a
      ensures k in b && a[k] == b[k]
    {
      assert Owned(store, k);
      var t :| t in store && DocumentId(t) == k.id && k.index in store[t].chunks;
      assert k == ChunkKey(DocumentId(t), k.index) && ChunkKey(DocumentId(t), k.index) in b;
    }
  }

  // ------------------------------------------------------------------ whole histories

  function Replay(digest: Digest, store: Store, calls: seq<Call>): Store {
    if calls == [] then store
    else Apply(digest, Replay(digest, store, calls[..|calls| - 1]), calls[|calls| - 1]).0
  }

  /** What build_chunks and an embedder give: equally long lists, indices counting from 0. */
  predicate Contiguous(call: Call) {
    |call.chunks| == |call.embeddings| && forall k :: 0 <= k < |call.chunks| ==> call.chunks[k].chunkIndex == k
  }

  predicate ColonFree(digest: Digest, call: Call) {
    ':' !in call.document.sourceType && ':' !in digest(call.document.content)
  }

  predicate AllSafe(digest: Digest, calls: seq<Call>) {
    forall k :: 0 <= k < |calls| ==> ColonFree(digest, calls[k]) && Contiguous(calls[k])
  }

  function RowTable(call: Call, n: nat): map<int, ChunkRow>
    requires n <= |call.chunks| == |call.embeddings|
  {
    map i | 0 <= i < n :: RowAt(call, i)
  }

  lemma {:induction false} ContiguousRows(call: Call, n: nat)
    requires Contiguous(call) && n <= |call.chunks|
    ensures Rows(call, n) == Some(RowTable(call, n))
  {
    if n > 0 {
      ContiguousRows(call, n - 1);
      assert RowTable(call, n) == RowTable(call, n - 1)[n - 1 := RowAt(call, n - 1)];
    } else {
      assert RowTable(call, 0) == map[];
    }
  }

  /** The last call for a triple. */
  function LastCall(digest: Digest, calls: seq<Call>, t: Triple): Option<Call> {
    if calls == [] then None
    else
      var last := calls[|calls| - 1];
      if TripleOf(digest, last.document) == t then Some(last) else LastCall(digest, calls[..|calls| - 1], t)
  }

  predicate ColonFreeStore(store: Store) {
    forall t :: t in store ==> ':' !in t.sourceType && ':' !in t.hash
  }

  lemma IdFree(digest: Digest, store: Store, call: Call)
    requires ColonFreeStore(store) && ColonFree(digest, call)
    ensures !IdTaken(store, TripleOf(digest, call.document))
  {
    var t := TripleOf(digest, call.document);
    forall other | other in store && DocumentId(other) == DocumentId(t)
      ensures other == t
    {
      Keys.JoinInjective(other.sourceType, other.sourceId, other.hash, t.sourceType, t.sourceId, t.hash);
    }
  }

  lemma AcceptedCall(digest: Digest, store: Store, call: Call)
    requires ColonFreeStore(store) && ColonFree(digest, call) && Contiguous(call)
    ensures Apply(digest, store, call) ==
            (store[TripleOf(digest, call.document) := EntryOf(call.document, RowTable(call, |call.chunks|))], None)
  {
    IdFree(digest, store, call);
    ContiguousRows(call, |call.chunks|);
  }

  /**
   After any sequence of calls fed by build_chunks, whose source types hold no colon, each
   triple holds exactly the chunks of its last call, so no longer earlier chunking leaves
   rows behind, and a triple no call names is untouched. No call is refused.
   */
  lemma {:induction false} ReplayIsLatest(digest: Digest, store: Store, calls: seq<Call>, t: Triple)
    requires ColonFreeStore(store) && AllSafe(digest, calls)
    ensures var after, last := Replay(digest, store, calls), LastCall(digest, calls, t);
            && ColonFreeStore(after)
            && match last
               case Some(call) => Contiguous(call) && t in after
                 && after[t] == EntryOf(call.document, RowTable(call, |call.chunks|))
               case None => (t in after <==> t in store) && (t in store ==> after[t] == store[t])
  {
    if calls != [] {
      var n := |calls| - 1;
      ReplayIsLatest(digest, store, calls[..n], t);
      AcceptedCall(digest, Replay(digest, store, calls[..n]), calls[n]);
    }
  }

  /** Repeating any call, accepted or refused, gives the same answer and changes nothing. */
  lemma RepeatChangesNothing(digest: Digest, store: Store, call: Call)
    ensures var (after, error) := Apply(digest, store, call);
            Apply(digest, after, call) == (after, error)
  {
    var (after, error) := Apply(digest, store, call);
    if error.None? {
      assert after[TripleOf(digest, call.document) := after[TripleOf(digest, call.document)]] == after;
    }
  }

  predicate SharesId(t: Triple, other: Triple) {
    other != t && ':' !in other.hash && DocumentId(other) == DocumentId(t)
  }

  lemma NoColonSameTriple(t: Triple, other: Triple)
    requires ':' !in t.hash && ':' !in t.sourceType && ':' !in t.sourceId
    requires ':' !in other.hash && DocumentId(other) == DocumentId(t)
    ensures other == t
  {
    var raw := DocumentId(t);
    Keys.LastColon(t.sourceType, t.sourceId, t.hash, other.hash);
    Keys.LastColon(other.sourceType, other.sourceId, other.hash, t.hash);
    assert raw[|other.sourceType|] == ':' && |other.sourceType| < |raw| - |t.hash| - 1;
    assert |other.sourceType| == |t.sourceType|;
    assert other.sourceType == raw[..|t.sourceType|] == t.sourceType;
    Keys.JoinInjective(t.sourceType, t.sourceId, t.hash, other.sourceType, other.sourceId, other.hash);
  }

  lemma SplitAt(text: string, i: nat)
    requires i < |text| && text[i] == ':'
    ensures text == text[..i] + ":" + text[i + 1..]
  {
  }

  lemma Sharer(t: Triple) returns (other: Triple)
    requires ':' !in t.hash && (':' in t.sourceType || ':' in t.sourceId)
    ensures SharesId(t, other)
  {
    if ':' in t.sourceType {
      var i :| 0 <= i < |t.sourceType| && t.sourceType[i] == ':';
      SplitAt(t.sourceType, i);
      other := Triple(t.sourceType[..i], t.sourceType[i + 1..] + ":" + t.sourceId, t.hash);
    } else {
      var i :| 0 <= i < |t.sourceId| && t.sourceId[i] == ':';
      SplitAt(t.sourceId, i);
      other := Triple(t.sourceType + ":" + t.sourceId[..i], t.sourceId[i + 1..], t.hash);
    }
    assert other.sourceType + ":" + other.sourceId == t.sourceType + ":" + t.sourceId;
  }

  /**
   Two documents can be given one id, so that the second is refused, exactly when there is a
   colon in the source type or in the source id.
   */
  lemma IdSharedExactly(t: Triple)
    requires ':' !in t.hash
    ensures (exists other :: SharesId(t, other)) <==> ':' in t.sourceType || ':' in t.sourceId
  {
    if ':' in t.sourceType || ':' in t.sourceId {
      var other := Sharer(t);
    } else {
      forall other: Triple | ':' !in other.hash && DocumentId(other) == DocumentId(t)
        ensures other == t
      {
        NoColonSameTriple(t, other);
      }
    }
  }

  /** Then a store that already holds the other document refuses this one, without any change. */
  lemma SharedIdRefused(digest: Digest, store: Store, call: Call, other: Triple)
    requires |call.chunks| == |call.embeddings|
    requires other in store && SharesId(TripleOf(digest, call.document), other)
             && TripleOf(digest, call.document) !in store
    ensures Apply(digest, store, call) == (store, Some(DocumentIdTaken))
  {
    assert IdTaken(store, TripleOf(digest, call.document));
  }

  // -------------------------------------------------------------------- ingestion

  function CallFor(c: TextChunker, embed: string -> Vector, document: KnowledgeDocument): (call: Call)
    requires c.Valid()
    ensures Contiguous(call)
  {
    var chunks := BuildChunks(c, document);
    Call(document, chunks, seq(|chunks|, k requires 0 <= k < |chunks| => embed(chunks[k].content)))
  }

  /** One call for each document that has any chunks. */
  function CallsFor(c: TextChunker, embed: string -> Vector, documents: seq<KnowledgeDocument>): seq<Call>
    requires c.Valid()
  {
    if documents == [] then []
    else
      var last := documents[|documents| - 1];
      CallsFor(c, embed, documents[..|documents| - 1]) + if BuildChunks(c, last) == [] then []
        else [CallFor(c, embed, last)]
  }

  predicate ColonFreeDocuments(digest: Digest, documents: seq<KnowledgeDocument>) {
    forall d :: 0 <= d < |documents| ==> ':' !in documents[d].sourceType && ':' !in digest(documents[d].content)
  }

  lemma {:induction false} CallsSafe(digest: Digest, c: TextChunker, embed: string -> Vector,
                                     documents: seq<KnowledgeDocument>)
    requires c.Valid() && ColonFreeDocuments(digest, documents)
    ensures AllSafe(digest, CallsFor(c, embed, documents))
  {
    if documents != [] {
      CallsSafe(digest, c, embed, documents[..|documents| - 1]);
    }
  }

  lemma IngestStep(digest: Digest, c: TextChunker, embed: string -> Vector, store: Store,
                   documents: seq<KnowledgeDocument>, n: nat)
    requires c.Valid() && ColonFreeStore(store) && ColonFreeDocuments(digest, documents) && n < |documents|
    ensures var before, after := CallsFor(c, embed, documents[..n]), CallsFor(c, embed, documents[..n + 1]);
            && (BuildChunks(c, documents[n]) == [] ==> after == before)
            && (BuildChunks(c, documents[n]) != [] ==>
                  |after| == |before| + 1
                  && Apply(digest, Replay(digest, store, before), CallFor(c, embed, documents[n])) ==
                     (Replay(digest, store, after), None))
  {
    assert documents[..n + 1][..n] == documents[..n];
    var before, call := CallsFor(c, embed, documents[..n]), CallFor(c, embed, documents[n]);
    assert (before + [call])[..|before|] == before;
    CallsSafe(digest, c, embed, documents[..n]);
    ReplayIsLatest(digest, store, before, TripleOf(digest, documents[n]));
    AcceptedCall(digest, Replay(digest, store, before), call);
  }

  function Ingested(digest: Digest, c: TextChunker, embed: string -> Vector, store: Store,
                    documents: seq<KnowledgeDocument>): Store
    requires c.Valid()
  {
    Replay(digest, store, CallsFor(c, embed, documents))
  }

  /** Every row is as it was, or holds the embedding of its own content. */
  ghost predicate RowsEmbedded(before: map<ChunkKey, ChunkRow>, after: map<ChunkKey, ChunkRow>,
                               embed: string -> Vector) {
    forall key :: key in after ==>
        (key in before && after[key] == before[key]) || after[key].embedding == embed(after[key].content)
  }

  lemma HeldRowsEmbedded(before: map<ChunkKey, ChunkRow>, after: map<ChunkKey, ChunkRow>, id: Id,
                         chunks: seq<ChunkRecord>, embeddings: seq<Vector>, embed: string -> Vector)
    requires |chunks| == |embeddings| && forall i :: 0 <= i < |chunks| ==> embeddings[i] == embed(chunks[i].content)
    requires HoldsChunks(after, id, chunks, embeddings) && OthersUntouched(before, after, id)
    ensures RowsEmbedded(before, after, embed)
  {
    forall key | key in after && key.id == id
      ensures after[key].embedding == embed(after[key].content)
    {
      var i :| 0 <= i < |chunks| && chunks[i].chunkIndex == key.index;
      assert key == ChunkKey(id, chunks[i].chunkIndex);
    }
  }

  lemma RowsEmbeddedThen(a: map<ChunkKey, ChunkRow>, b: map<ChunkKey, ChunkRow>, c: map<ChunkKey, ChunkRow>,
                         embed: string -> Vector)
    requires RowsEmbedded(a, b, embed) && RowsEmbedded(b, c, embed)
    ensures RowsEmbedded(a, c, embed)
  {
  }

  /** The last call for a document's triple is its own, if no later document has the same triple. */
  lemma {:induction false} LastIngested(digest: Digest, c: TextChunker, embed: string -> Vector,
                                        documents: seq<KnowledgeDocument>, d: nat)
    requires c.Valid() && d < |documents| && BuildChunks(c, documents[d]) != []
    requires forall e :: d < e < |documents| ==> TripleOf(digest, documents[e]) != TripleOf(digest, documents[d])
    ensures LastCall(digest, CallsFor(c, embed, documents), TripleOf(digest, documents[d])) ==
            Some(CallFor(c, embed, documents[d]))
    decreases |documents|
  {
    var n := |documents| - 1;
    var rest, call := CallsFor(c, embed, documents[..n]), CallFor(c, embed, documents[n]);
    if d < n {
      LastIngested(digest, c, embed, documents[..n], d);
    }
    if BuildChunks(c, documents[n]) != [] {
      LastCallSnoc(digest, rest, call, TripleOf(digest, documents[d]));
      assert CallsFor(c, embed, documents) == rest + [call];
    } else {
      assert CallsFor(c, embed, documents) == rest;
    }
  }

  lemma LastCallSnoc(digest: Digest, calls: seq<Call>, call: Call, t: Triple)
    ensures LastCall(digest, calls + [call], t) ==
            if TripleOf(digest, call.document) == t then Some(call) else LastCall(digest, calls, t)
  {
    assert (calls + [call])[..|calls|] == calls;
  }

  /**
   After an ingestion, the entry of each document that no later one replaces holds exactly the
   chunks of its text, in order, each with the embedding of its own text.
   */
  lemma IngestedRows(digest: Digest, c: TextChunker, embed: string -> Vector, store: Store,
                     documents: seq<KnowledgeDocument>, d: nat)
    requires c.Valid() && ColonFreeStore(store) && ColonFreeDocuments(digest, documents)
    requires d < |documents| && documents[d].content != ""
    requires forall e :: d < e < |documents| ==> TripleOf(digest, documents[e]) != TripleOf(digest, documents[d])
    ensures var document, after := documents[d], Ingested(digest, c, embed, store, documents);
            var t := Triple(document.sourceType, document.sourceId, digest(document.content));
            && t in after && after[t].title == document.title && after[t].content == document.content
            && after[t].metadata == document.metadata
            && var texts := c.ChunksFrom(document.content, 0);
            && (forall i :: i in after[t].chunks <==> 0 <= i < |texts|)
            && forall i :: 0 <= i < |texts| ==>
                 && after[t].chunks[i].content == texts[i]
                 && after[t].chunks[i].metadata == document.metadata
                 && after[t].chunks[i].embedding == embed(texts[i])
  {
    var t := TripleOf(digest, documents[d]);
    assert c.ChunksFrom(documents[d].content, 0) != [];
    LastIngested(digest, c, embed, documents, d);
    CallsSafe(digest, c, embed, documents);
    ReplayIsLatest(digest, store, CallsFor(c, embed, documents), t);
  }

  /** One file of the ingestion script; a document without chunks is passed over. */
  method IngestOne(knowledge: KnowledgeStore, digest: Digest, c: TextChunker, embed: string -> Vector,
                   document: KnowledgeDocument)
    returns (indexed: nat, error: Option<IndexError>)
    requires knowledge.Valid() && c.Valid()
    modifies knowledge
    ensures knowledge.Valid()
    ensures BuildChunks(c, document) == [] ==> knowledge.store == old(knowledge.store) && indexed == 0 && error.None?
    ensures BuildChunks(c, document) != [] ==>
              (knowledge.store, error) == Apply(digest, old(knowledge.store), CallFor(c, embed, document))
    ensures BuildChunks(c, document) != [] && error.None? ==> indexed == 1
    ensures RowsEmbedded(old(knowledge.tables.chunks), knowledge.tables.chunks, embed)
  {
    var chunks := BuildChunks(c, document);
    if chunks == [] { return 0, None; }
    var embeddings := seq(|chunks|, k requires 0 <= k < |chunks| => embed(chunks[k].content));
    ghost var before := knowledge.tables.chunks;
    error := knowledge.IndexDocument(digest, document, chunks, embeddings);
    if error.None? {
      ghost var t := Triple(document.sourceType, document.sourceId, digest(document.content));
      HeldRowsEmbedded(before, knowledge.tables.chunks, knowledge.tables.documents[t].id, chunks, embeddings, embed);
    }
    indexed := if error.None? then 1 else 0;
  }

  method IngestNext(knowledge: KnowledgeStore, digest: Digest, c: TextChunker, embed: string -> Vector,
                    documents: seq<KnowledgeDocument>, i: nat, ghost start: Store)
    returns (indexed: nat, error: Option<IndexError>)
    requires knowledge.Valid() && c.Valid() && ColonFreeStore(start) && ColonFreeDocuments(digest, documents)
             && i < |documents|
    requires knowledge.store == Ingested(digest, c, embed, start, documents[..i])
    modifies knowledge
    ensures knowledge.Valid() && error.None?
    ensures knowledge.store == Ingested(digest, c, embed, start, documents[..i + 1])
    ensures |CallsFor(c, embed, documents[..i + 1])| == |CallsFor(c, embed, documents[..i])| + indexed
    ensures RowsEmbedded(old(knowledge.tables.chunks), knowledge.tables.chunks, embed)
  {
    IngestStep(digest, c, embed, start, documents, i);
    indexed, error := IngestOne(knowledge, digest, c, embed, documents[i]);
  }

  /** The ingestion script: every document with any text is indexed, and no call fails. */
  method Ingest(knowledge: KnowledgeStore, digest: Digest, c: TextChunker, embed: string -> Vector,
                documents: seq<KnowledgeDocument>)
    returns (count: nat, error: Option<IndexError>)
    requires knowledge.Valid() && c.Valid() && ColonFreeStore(knowledge.store) && ColonFreeDocuments(digest, documents)
    modifies knowledge
    ensures knowledge.Valid() && error.None?
    ensures knowledge.store == Ingested(digest, c, embed, old(knowledge.store), documents)
    ensures count == |CallsFor(c, embed, documents)|
    ensures RowsEmbedded(old(knowledge.tables.chunks), knowledge.tables.chunks, embed)
  {
    ghost var start, table := knowledge.store, knowledge.tables.chunks;
    count, error := 0, None;
    var i := 0;
    assert documents[..|documents|] == documents;
    while i < |documents|
      invariant 0 <= i <= |documents| && knowledge.Valid() && error.None?
      invariant knowledge.store == Ingested(digest, c, embed, start, documents[..i])
      invariant count == |CallsFor(c, embed, documents[..i])|
      invariant RowsEmbedded(table, knowledge.tables.chunks, embed)
    {
      var indexed;
      ghost var before := knowledge.tables.chunks;
      indexed, error := IngestNext(knowledge, digest, c, embed, documents, i, start);
      RowsEmbeddedThen(table, before, knowledge.tables.chunks, embed);
      if error.Some? { return; }
      count := count + indexed;
      i := i + 1;
    }
  }
}
