/**
 Idempotency keys. A raw record is a map from field names to texts, where an absent
 field and an empty text are both false in the sense of Python's `or`. SHA-256 is taken
 to be injective, so a key is represented by the text that is hashed.
 */
module Keys {
  type Record = map<string, string>
  type Key = string

  /** Which of the two pipelines a record belongs to. */
  datatype Kind = DetectionKind | IncidentKind

  /** str(record.get(name) or fallback) */
  function Or(record: Record, name: string, fallback: string): string {
    if name in record && record[name] != "" then record[name] else fallback
  }

  function Identity(record: Record): string {
    Or(record, "uuid", Or(record, "displayName", "unknown"))
  }

  function Version(kind: Kind, record: Record): string {
    match kind
    case DetectionKind => Or(record, "occurTime", "unknown")
    case IncidentKind => Or(record, "updateTime", Or(record, "createTime", "unknown"))
  }

  /** The text that build_idempotency_key hashes. */
  function Join(id: string, version: string, destination: string): Key {
    id + ":" + version + ":" + destination
  }

  function KeyOf(kind: Kind, destination: string, record: Record): Key {
    Join(Identity(record), Version(kind, record), destination)
  }

  lemma HeadAndTail(a: string, b: string)
    ensures var s := a + ":" + b; |a| < |s| && s[..|a|] == a && s[|a|] == ':' && s[|a| + 1..] == b
  {
  }

  /** A key reads: identity, colon, version, colon, destination. */
  lemma KeyReads(kind: Kind, destination: string, record: Record)
    ensures var key, id := KeyOf(kind, destination, record), Identity(record);
            && |id| < |key| && key[..|id|] == id && key[|id|] == ':'
            && key[|id| + 1..] == Version(kind, record) + ":" + destination
  {
    var id, version := Identity(record), Version(kind, record);
    HeadAndTail(id, version + ":" + destination);
    assert KeyOf(kind, destination, record) == id + ":" + (version + ":" + destination);
  }

  /** Which field each part is read from: the first non-empty one, or "unknown". */
  lemma PartsRead(record: Record)
    ensures var has := (field: string) => field in record && record[field] != "";
            && (has("uuid") ==> Identity(record) == record["uuid"])
            && (!has("uuid") && has("displayName") ==> Identity(record) == record["displayName"])
            && (!has("uuid") && !has("displayName") ==> Identity(record) == "unknown")
            && (has("occurTime") ==> Version(DetectionKind, record) == record["occurTime"])
            && (!has("occurTime") ==> Version(DetectionKind, record) == "unknown")
            && (has("updateTime") ==> Version(IncidentKind, record) == record["updateTime"])
            && (!has("updateTime") && has("createTime") ==> Version(IncidentKind, record) == record["createTime"])
            && (!has("updateTime") && !has("createTime") ==> Version(IncidentKind, record) == "unknown")
  {
  }

  /**
   The joined text determines its three parts whenever the first and the last hold no
   colon; the middle part is arbitrary, so timestamps with colons are no problem.
   */
  lemma JoinInjective(id: string, version: string, destination: string,
                      id': string, version': string, destination': string)
    requires ':' !in id && ':' !in id' && ':' !in destination && ':' !in destination'
    requires Join(id, version, destination) == Join(id', version', destination')
    ensures id == id' && version == version' && destination == destination'
  {
    var raw := Join(id, version, destination);
    FirstColon(id, version, destination, id');
    FirstColon(id', version', destination', id);
    assert id == raw[..|id|] == id';
    LastColon(id, version, destination, destination');
    LastColon(id', version', destination', destination);
    assert destination == raw[|raw| - |destination|..] == destination';
    assert version == raw[|id| + 1..|raw| - |destination| - 1] == version';
  }

  lemma FirstColon(id: string, version: string, destination: string, other: string)
    requires ':' !in other
    requires other <= Join(id, version, destination)
    ensures |other| <= |id|
  {
    assert Join(id, version, destination)[|id|] == ':';
    assert forall i :: 0 <= i < |other| ==> other[i] == Join(id, version, destination)[i];
  }

  lemma LastColon(id: string, version: string, destination: string, other: string)
    requires ':' !in other
    requires |other| <= |Join(id, version, destination)|
    requires other == Join(id, version, destination)[|Join(id, version, destination)| - |other|..]
    ensures |other| <= |destination|
  {
    var raw := Join(id, version, destination);
    assert raw[|raw| - |destination| - 1] == ':';
    assert forall i :: |raw| - |other| <= i < |raw| ==> raw[i] == other[i - (|raw| - |other|)];
  }

  /**
   The restriction on colons is needed: every identity and every destination that holds
   a colon shares its key with a different triple.
   */
  lemma ColonCollides(id: string, version: string, destination: string)
    returns (id': string, version': string, destination': string)
    requires ':' in id || ':' in destination
    ensures Join(id, version, destination) == Join(id', version', destination')
    ensures (id, version, destination) != (id', version', destination')
  {
    if ':' in id {
      var i :| 0 <= i < |id| && id[i] == ':';
      id', version', destination' := id[..i], id[i + 1..] + ":" + version, destination;
      assert id == id[..i] + ":" + id[i + 1..];
    } else {
      var i :| 0 <= i < |destination| && destination[i] == ':';
      id', version', destination' := id, version + ":" + destination[..i], destination[i + 1..];
      assert destination == destination[..i] + ":" + destination[i + 1..];
    }
    assert Join(id, version, destination) == Join(id', version', destination');
  }

  /** Two records of one pipeline are taken for duplicates only if identity and version agree. */
  lemma DistinctRecordsHaveDistinctKeys(kind: Kind, destination: string, a: Record, b: Record)
    requires ':' !in destination && ':' !in Identity(a) && ':' !in Identity(b)
    ensures KeyOf(kind, destination, a) == KeyOf(kind, destination, b)
       <==> Identity(a) == Identity(b) && Version(kind, a) == Version(kind, b)
  {
    if KeyOf(kind, destination, a) == KeyOf(kind, destination, b) {
      JoinInjective(Identity(a), Version(kind, a), destination, Identity(b), Version(kind, b), destination);
    }
  }
}
