/**
 The sanitized payloads stored for review, and when the key computed from a payload is
 the key the collector computes from the raw record. The sanitizer is a parameter.
 */
module Payloads {
  import opened Wrappers
  import opened Keys

  type Sanitizer = string -> string

  const DETECTION_FIELDS: set<string> := {
    "uuid", "displayName", "context", "severityLevel", "category", "occurTime",
    "objectName", "objectHashSha1", "objectUrl", "userName", "device" }
  const INCIDENT_FIELDS: set<string> := {
    "uuid", "displayName", "description", "severity", "status", "createTime", "updateTime" }
  const RAW_DETECTION_APPROVAL_FIELDS: set<string> := {"userName", "device"}

  function OrNotAvailable(value: string): string { if value == "" then "N/A" else value }

  function SafeText(sanitize: Sanitizer, value: string): string {
    Upto(sanitize(OrNotAvailable(value)), 1000)
  }

  function PayloadText(sanitize: Sanitizer, field: string, value: string): string {
    if field in RAW_DETECTION_APPROVAL_FIELDS then Upto(OrNotAvailable(value), 1000) else SafeText(sanitize, value)
  }

  /**
   What the stored payload takes from values that are not plain texts: the JSON texts of the
   fields that hold lists or objects, and the user and device found in the context.
   */
  datatype Nested = Nested(json: Record, user: string, device: string)

  /** _text_value of every field. The incident table uses str alone. */
  function Stored(kind: Kind, record: Record, nested: Nested): Record {
    map field | field in record ::
      if kind.DetectionKind? && field in nested.json && record[field] != "" then nested.json[field] else record[field]
  }

  function DetectionPayload(sanitize: Sanitizer, record: Record, nested: Nested): Record {
    var stored := Stored(DetectionKind, record, nested);
    var user := Or(stored, "userName", nested.user);
    var device := Or(stored, "device", nested.device);
    (map field | field in DETECTION_FIELDS && field in stored :: PayloadText(sanitize, field, stored[field]))
    + (if user != "" then map["userName" := PayloadText(sanitize, "userName", user)] else map[])
    + (if device != "" then map["device" := PayloadText(sanitize, "device", device)] else map[])
  }

  function IncidentPayload(sanitize: Sanitizer, record: Record): Record {
    map field | field in INCIDENT_FIELDS && field in record :: SafeText(sanitize, record[field])
  }

  function PayloadOf(kind: Kind, sanitize: Sanitizer, record: Record, nested: Nested): Record {
    match kind
    case DetectionKind => DetectionPayload(sanitize, record, nested)
    case IncidentKind => IncidentPayload(sanitize, record)
  }

  /** What is kept of a text: all of it, or its first 1000 characters. */
  predicate IsCut(cut: string, text: string) {
    cut <= text && (|text| <= 1000 ==> cut == text) && (|text| > 1000 ==> |cut| == 1000)
  }

  /** A field of a detection other than user and device: sanitized, then cut, "N/A" for an empty one. */
  lemma DetectionFieldStored(sanitize: Sanitizer, record: Record, nested: Nested, field: string)
    requires field in DETECTION_FIELDS && field != "userName" && field != "device"
    ensures var payload := DetectionPayload(sanitize, record, nested);
            && (field in payload <==> field in record)
            && (field in record ==>
                  var text := if record[field] == "" then "N/A"
                              else if field in nested.json then OrNotAvailable(nested.json[field]) else record[field];
                  IsCut(payload[field], sanitize(text)))
  {
  }

  /** User and device are stored as they are, cut, and come from the context when the record has none. */
  lemma UserAndDeviceStored(sanitize: Sanitizer, record: Record, nested: Nested)
    requires nested.json == map[]
    ensures var payload := DetectionPayload(sanitize, record, nested);
            var named := "userName" in record && record["userName"] != "";
            var placed := "device" in record && record["device"] != "";
            && payload.Keys <= DETECTION_FIELDS
            && (named ==> "userName" in payload && IsCut(payload["userName"], record["userName"]))
            && (!named && nested.user != "" ==> "userName" in payload && IsCut(payload["userName"], nested.user))
            && (placed ==> "device" in payload && IsCut(payload["device"], record["device"]))
            && (!placed && nested.device != "" ==> "device" in payload && IsCut(payload["device"], nested.device))
  {
  }

  /** An incident's payload holds exactly its listed fields, sanitized and cut. */
  lemma IncidentFieldsStored(sanitize: Sanitizer, record: Record)
    ensures var payload := IncidentPayload(sanitize, record);
            && payload.Keys == INCIDENT_FIELDS * record.Keys
            && forall field :: field in payload ==>
                 IsCut(payload[field], sanitize(if record[field] == "" then "N/A" else record[field]))
  {
  }

  /** What the substitutions of Sanitizer.sanitize_text guarantee on all texts. */
  ghost predicate Sane(sanitize: Sanitizer) {
    && sanitize("N/A") == "N/A"
    && forall text :: text != "" ==> sanitize(text) != ""
  }

  /** The stored text of a field, sanitized and cut, is still the text the key is made of. */
  predicate Kept(sanitize: Sanitizer, record: Record, stored: Record, field: string)
    requires field in record && field in stored
  {
    record[field] != "" && SafeText(sanitize, stored[field]) == record[field]
  }

  /** The condition under which `first or second or "unknown"` survives being stored. */
  predicate OrKept(sanitize: Sanitizer, record: Record, stored: Record, first: string, second: string)
    requires stored.Keys == record.Keys
  {
    if first in record && record[first] != "" then Kept(sanitize, record, stored, first)
    else if first in record then second in record && record[second] == "N/A"
    else second in record ==> Kept(sanitize, record, stored, second)
  }

  predicate IdentityKept(kind: Kind, sanitize: Sanitizer, record: Record, nested: Nested) {
    OrKept(sanitize, record, Stored(kind, record, nested), "uuid", "displayName")
  }

  predicate VersionKept(kind: Kind, sanitize: Sanitizer, record: Record, nested: Nested) {
    var stored := Stored(kind, record, nested);
    match kind
    case DetectionKind => "occurTime" in record ==> Kept(sanitize, record, stored, "occurTime")
    case IncidentKind => OrKept(sanitize, record, stored, "updateTime", "createTime")
  }

  /** The payload holds the sanitized text of a field exactly when the record has the field. */
  predicate Carries(sanitize: Sanitizer, payload: Record, stored: Record, field: string) {
    && (field in payload <==> field in stored)
    && (field in stored ==> payload[field] == SafeText(sanitize, stored[field]))
  }

  lemma SafeTextNotEmpty(sanitize: Sanitizer, value: string)
    requires Sane(sanitize)
    ensures SafeText(sanitize, value) != "" && (value == "" ==> SafeText(sanitize, value) == "N/A")
  {
    assert sanitize(OrNotAvailable(value)) != "";
  }

  lemma OrAgreement(sanitize: Sanitizer, payload: Record, record: Record, stored: Record, first: string, second: string)
    requires Sane(sanitize) && stored.Keys == record.Keys
    requires forall field :: field in record && record[field] == "" ==> stored[field] == ""
    requires Carries(sanitize, payload, stored, first) && Carries(sanitize, payload, stored, second)
    ensures Or(payload, first, Or(payload, second, "unknown")) == Or(record, first, Or(record, second, "unknown"))
       <==> OrKept(sanitize, record, stored, first, second)
  {
    if first in record {
      SafeTextNotEmpty(sanitize, stored[first]);
    }
    if second in record {
      SafeTextNotEmpty(sanitize, stored[second]);
    }
  }

  lemma PayloadCarries(kind: Kind, sanitize: Sanitizer, record: Record, nested: Nested, field: string)
    requires if kind.DetectionKind? then field in DETECTION_FIELDS && field != "userName" && field != "device"
             else field in INCIDENT_FIELDS
    ensures Carries(sanitize, PayloadOf(kind, sanitize, record, nested), Stored(kind, record, nested), field)
  {
  }

  /** Identity and version survive being stored exactly under the two conditions on the fields. */
  lemma PartsAgree(kind: Kind, sanitize: Sanitizer, record: Record, nested: Nested)
    requires Sane(sanitize)
    ensures var payload := PayloadOf(kind, sanitize, record, nested);
            && (Identity(payload) == Identity(record) <==> IdentityKept(kind, sanitize, record, nested))
            && (Version(kind, payload) == Version(kind, record) <==> VersionKept(kind, sanitize, record, nested))
  {
    var payload, stored := PayloadOf(kind, sanitize, record, nested), Stored(kind, record, nested);
    PayloadCarries(kind, sanitize, record, nested, "uuid");
    PayloadCarries(kind, sanitize, record, nested, "displayName");
    OrAgreement(sanitize, payload, record, stored, "uuid", "displayName");
    match kind
    case IncidentKind =>
      PayloadCarries(kind, sanitize, record, nested, "updateTime");
      PayloadCarries(kind, sanitize, record, nested, "createTime");
      OrAgreement(sanitize, payload, record, stored, "updateTime", "createTime");
    case DetectionKind =>
      PayloadCarries(kind, sanitize, record, nested, "occurTime");
      if "occurTime" in record {
        SafeTextNotEmpty(sanitize, stored["occurTime"]);
      }
  }

  /** If the conditions hold, the reviewed payload has the key of the collected record. */
  lemma KeyAgreement(kind: Kind, destination: string, sanitize: Sanitizer, record: Record, nested: Nested)
    requires Sane(sanitize)
    requires IdentityKept(kind, sanitize, record, nested) && VersionKept(kind, sanitize, record, nested)
    ensures KeyOf(kind, destination, PayloadOf(kind, sanitize, record, nested)) == KeyOf(kind, destination, record)
  {
    PartsAgree(kind, sanitize, record, nested);
  }

  /** For identities without a colon the conditions are exact. */
  lemma KeyAgreementExact(kind: Kind, destination: string, sanitize: Sanitizer, record: Record, nested: Nested)
    requires Sane(sanitize)
    requires ':' !in Identity(record) && ':' !in Identity(PayloadOf(kind, sanitize, record, nested))
    ensures KeyOf(kind, destination, PayloadOf(kind, sanitize, record, nested)) == KeyOf(kind, destination, record)
       <==> IdentityKept(kind, sanitize, record, nested) && VersionKept(kind, sanitize, record, nested)
  {
    var payload := PayloadOf(kind, sanitize, record, nested);
    PartsAgree(kind, sanitize, record, nested);
    if KeyOf(kind, destination, payload) == KeyOf(kind, destination, record) {
      SameParts(Identity(payload), Version(kind, payload), Identity(record), Version(kind, record), destination);
    }
  }

  lemma SameParts(id: string, version: string, id': string, version': string, destination: string)
    requires ':' !in id && ':' !in id'
    requires Join(id, version, destination) == Join(id', version', destination)
    ensures id == id' && version == version'
  {
    var raw := Join(id, version, destination);
    assert Join(id, version, "") == raw[..|raw| - |destination|] == Join(id', version', "");
    JoinInjective(id, version, "", id', version', "");
  }

  /** The conditions fail on real records: an empty occurTime is read as unknown, but stored as N/A. */
  lemma EmptyOccurTimeChangesTheKey(sanitize: Sanitizer, nested: Nested)
    requires Sane(sanitize)
    ensures var record := map["occurTime" := ""];
            && KeyOf(DetectionKind, "discord", PayloadOf(DetectionKind, sanitize, record, nested))
               != KeyOf(DetectionKind, "discord", record)
  {
    var record: Record := map["occurTime" := ""];
    PartsAgree(DetectionKind, sanitize, record, nested);
    KeyAgreementExact(DetectionKind, "discord", sanitize, record, nested);
  }

  /**
   The plain case: when each of uuid, displayName and occurTime is absent or a non-empty
   text of at most 1000 characters that the sanitizer leaves alone, a detection the
   collector has delivered counts as delivered when its payload is reviewed.
   */
  lemma DeliveredDetectionIsDuplicate(destination: string, sanitize: Sanitizer, record: Record, nested: Nested,
                                      delivered: set<Key>)
    requires Sane(sanitize)
    requires forall field :: field in {"uuid", "displayName", "occurTime"} && field in record ==>
               field !in nested.json && 0 < |record[field]| <= 1000 && sanitize(record[field]) == record[field]
    requires KeyOf(DetectionKind, destination, record) in delivered
    ensures KeyOf(DetectionKind, destination, PayloadOf(DetectionKind, sanitize, record, nested)) in delivered
  {
    KeyAgreement(DetectionKind, destination, sanitize, record, nested);
  }
}
