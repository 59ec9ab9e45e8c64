/**
 * The audit record that services hand to their audit clients
 * (`Omit<InternalCreateAuditLog, 'cryptographicHash'>`), and the parts of it
 * both audit clients derive the same way.
 */
module AuditRecord {
  import opened Wrappers
  import opened Js
  import opened Signing

  datatype ActorType = User | System | Service

  function ActorTypeText(t: ActorType): string {
    match t
    case User => "USER"
    case System => "SYSTEM"
    case Service => "SERVICE"
  }

  /** An audit record without timestamp or hash; absent fields are `undefined`. */
  datatype AuditData = AuditData(
    actorType: ActorType,
    actorId: Option<string>,
    action: string,
    targetType: Option<string>,
    targetId: Option<string>,
    correlationId: Option<string>,
    metadata: Option<JsObject>)

  function Opt(key: string, v: Option<string>): JsObject {
    if v.Some? then [(key, JStr(v.value))] else []
  }

  /**
   * The record as a JavaScript object, keys in the order the callers write
   * them; `undefined` fields are not own properties (and JSON.stringify
   * leaves them out).
   */
  function ToObject(a: AuditData): JsObject {
    [("actorType", JStr(ActorTypeText(a.actorType)))]
    + Opt("actorId", a.actorId)
    + [("action", JStr(a.action))]
    + Opt("targetType", a.targetType)
    + Opt("targetId", a.targetId)
    + Opt("correlationId", a.correlationId)
    + (if a.metadata.Some? then [("metadata", JObj(a.metadata.value))] else [])
  }

  /** The record's "timestamp" and "cryptographicHash" keys are never set by the caller. */
  lemma ToObjectKeys(a: AuditData)
    ensures forall i :: 0 <= i < |ToObject(a)| ==> ToObject(a)[i].0 != "timestamp" && ToObject(a)[i].0 != "cryptographicHash"
  {
  }

  /** `{ ...auditData, timestamp }`: the object both clients hash. */
  function WithTimestamp(a: AuditData, timestamp: string): (r: JsObject)
    ensures r == SetKey(ToObject(a), "timestamp", JStr(timestamp))
  {
    ToObjectKeys(a);
    ToObject(a) + [("timestamp", JStr(timestamp))]
  }

  /** `{ ...auditData, timestamp, cryptographicHash }`: the record both clients send. */
  function FullRecord(a: AuditData, timestamp: string, hash: string): (r: JsObject)
    ensures r == SetKey(WithTimestamp(a, timestamp), "cryptographicHash", JStr(hash))
    ensures Lookup(r, "timestamp") == Some(JStr(timestamp))
    ensures Lookup(r, "cryptographicHash") == Some(JStr(hash))
    ensures forall k :: k != "timestamp" && k != "cryptographicHash" ==> Lookup(r, k) == Lookup(ToObject(a), k)
  {
    ToObjectKeys(a);
    WithTimestamp(a, timestamp) + [("cryptographicHash", JStr(hash))]
  }

  /** `auditData.metadata?.email` when truthy, for an actor of type USER; otherwise nothing. */
  function UserEmail(a: AuditData): (r: Option<Json>)
    ensures r.Some? <==> a.actorType == User && a.metadata.Some?
                         && Lookup(a.metadata.value, "email").Some? && Truthy(Lookup(a.metadata.value, "email").value)
    ensures r.Some? ==> Lookup(a.metadata.value, "email") == r
  {
    if a.actorType == User && a.metadata.Some? then
      var e := Lookup(a.metadata.value, "email");
      if e.Some? && Truthy(e.value) then e else None
    else None
  }

  /** The e-mail header value: the USER actor's metadata e-mail, or the empty string. */
  function EmailHeader(n: Natives, a: AuditData): string {
    match UserEmail(a)
    case Some(v) => JsString(n, v)
    case None => ""
  }

  /** `sha256(JSON.stringify({ ...auditData, timestamp }))`: the record's cryptographic hash. */
  function RecordHash(n: Natives, a: AuditData, timestamp: string): string {
    n.sha256Hex(n.stringify(JObj(WithTimestamp(a, timestamp))))
  }

  /**
   * Under collision-free SHA-256 and an injective JSON.stringify, equal hashes
   * mean the same record at the same timestamp.
   */
  lemma RecordHashBindsRecord(n: Natives, a1: AuditData, t1: string, a2: AuditData, t2: string)
    requires ShaInjective(n) && StringifyInjective(n)
    requires RecordHash(n, a1, t1) == RecordHash(n, a2, t2)
    ensures WithTimestamp(a1, t1) == WithTimestamp(a2, t2)
    ensures t1 == t2
  {
    var o1, o2 := WithTimestamp(a1, t1), WithTimestamp(a2, t2);
    assert n.stringify(JObj(o1)) == n.stringify(JObj(o2));
    assert JObj(o1) == JObj(o2);
    assert Lookup(o1, "timestamp") == Some(JStr(t1));
  }
}
