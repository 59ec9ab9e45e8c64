/**
 * The API gateway's audit client: it stamps and hashes an audit record,
 * signs the post itself and delivers it to the audit service, turning every
 * delivery failure into a null result.
 */
module GatewayAuditClient {
  import opened Wrappers
  import opened Js
  import opened Text
  import opened Signing
  import opened AuditRecord

  const AuditPath: string := "/api/audit"
  const AuditVerb: string := "POST"

  /** The settings read once at construction. */
  datatype Settings = Settings(auditServiceUrl: Option<string>, internalServiceSecret: Option<string>)

  /** One HTTP post: the absolute URL, the JSON body and the request headers. */
  datatype HttpPost = HttpPost(url: string, body: JsObject, headers: AuditHeaders)

  /**
   * The service's own signer: a body is hashed (`JSON.stringify(body)`) and
   * the six fields are signed as by the internal clients.
   */
  function GenerateHmacSignature(n: Natives, secret: string, verb: string, path: string, timestamp: string,
                                 body: Json, userId: Option<string>, userEmail: Option<string>): string {
    OutboundSignature(n, secret, verb, path, timestamp, n.sha256Hex(n.stringify(body)), userId, userEmail)
  }

  /** `Date.now().toString()`: the signed timestamp. */
  function HeaderTimestamp(now: nat): string {
    Decimal(now)
  }

  /**
   * `new Date(parseInt(timestamp, 10)).toISOString()`: the record's timestamp
   * is the ISO form of the very instant the header carries.
   */
  function RecordTimestamp(n: Natives, now: nat): (r: string)
    ensures r == n.isoString(now)
  {
    ParseDecimal(now);
    n.isoString(ParseInt(HeaderTimestamp(now)).value)
  }

  /** `auditData.actorId || undefined`. */
  function SignedUserId(a: AuditData): (r: Option<string>)
    ensures r.Some? <==> Present(a.actorId)
    ensures OrEmpty(r) == OrEmpty(a.actorId)
  {
    if Present(a.actorId) then a.actorId else None
  }

  /** `actorType === 'USER' && metadata?.email ? metadata.email : undefined`. */
  function SignedEmail(n: Natives, a: AuditData): (r: Option<string>)
    ensures r.Some? <==> UserEmail(a).Some?
    ensures OrEmpty(r) == EmailHeader(n, a)
  {
    match UserEmail(a)
    case Some(v) => Some(JsString(n, v))
    case None => None
  }

  /** The record sent: the caller's fields, then the ISO timestamp and the hash. */
  function Record(n: Natives, a: AuditData, now: nat): (r: JsObject)
    ensures Lookup(r, "timestamp") == Some(JStr(n.isoString(now)))
    ensures Lookup(r, "cryptographicHash") == Some(JStr(RecordHash(n, a, n.isoString(now))))
    ensures forall k :: k != "timestamp" && k != "cryptographicHash" ==> Lookup(r, k) == Lookup(ToObject(a), k)
  {
    var timestamp := RecordTimestamp(n, now);
    FullRecord(a, timestamp, RecordHash(n, a, timestamp))
  }

  /** The header object of the post, one field per header it names. */
  datatype AuditHeaders = AuditHeaders(
    contentType: string,          // Content-Type
    internalSignature: string,    // X-Internal-Signature
    internalTimestamp: string,    // X-Internal-Timestamp
    userId: string,               // X-User-Id
    userEmail: string,            // X-User-Email
    correlationId: string)        // X-Correlation-Id

  /** The headers of the post. */
  function Headers(n: Natives, secret: string, a: AuditData, now: nat): (h: AuditHeaders)
    ensures h.contentType == "application/json"
    ensures h.internalTimestamp == Decimal(now)
    ensures h.userId == OrEmpty(a.actorId)
    ensures h.userEmail == EmailHeader(n, a)
    ensures h.correlationId == OrEmpty(a.correlationId)
  {
    var timestamp := HeaderTimestamp(now);
    var signature := GenerateHmacSignature(n, secret, AuditVerb, AuditPath, timestamp,
                                           JObj(Record(n, a, now)), SignedUserId(a), SignedEmail(n, a));
    AuditHeaders("application/json", signature, timestamp, OrEmpty(a.actorId), EmailHeader(n, a), OrEmpty(a.correlationId))
  }

  /**
   * The post signs exactly what its own headers and body carry: a receiver
   * recomputing the six-field signature from the timestamp, user id and
   * e-mail headers and the hash of the body it received obtains the
   * signature header.
   */
  lemma SignatureMatchesHeaders(n: Natives, secret: string, a: AuditData, now: nat)
    ensures var h := Headers(n, secret, a, now);
      h.internalSignature ==
        OutboundSignature(n, secret, AuditVerb, AuditPath, h.internalTimestamp,
                          n.sha256Hex(n.stringify(JObj(Record(n, a, now)))),
                          Some(h.userId), Some(h.userEmail))
  {
    var h := Headers(n, secret, a, now);
    assert OrEmpty(SignedUserId(a)) == OrEmpty(Some(h.userId));
    assert OrEmpty(SignedEmail(n, a)) == OrEmpty(Some(h.userEmail));
  }

  /** The post to `${auditServiceUrl}/api/audit`. */
  function Post(n: Natives, baseUrl: string, secret: string, a: AuditData, now: nat): (p: HttpPost)
    ensures p.url == baseUrl + AuditPath
    ensures p.body == Record(n, a, now)
    ensures p.headers == Headers(n, secret, a, now)
  {
    HttpPost(baseUrl + AuditPath, Record(n, a, now), Headers(n, secret, a, now))
  }

  datatype ClientError = SecretNotConfigured   // crypto.createHmac refuses an undefined key

  /** What one call did: the post it made, if any, and what it returned (None is `null`). */
  datatype Delivery = Delivery(sent: Option<HttpPost>, returned: Option<Json>)

  /**
   * `sendAuditLog` at time `now`; `reply` is what the audit service answered
   * (None for any failed post). Without a configured URL nothing is sent and
   * the result is null. Signing happens before the guarded post, so an
   * unconfigured secret throws instead of returning null.
   */
  function SendAuditLog(n: Natives, s: Settings, a: AuditData, now: nat, reply: Option<Json>): (r: Result<Delivery, ClientError>)
    ensures !Present(s.auditServiceUrl) ==> r == Success(Delivery(None, None))
    ensures Present(s.auditServiceUrl) && s.internalServiceSecret.None? ==> r == Failure(SecretNotConfigured)
    ensures Present(s.auditServiceUrl) && s.internalServiceSecret.Some? ==>
      r == Success(Delivery(Some(Post(n, s.auditServiceUrl.value, s.internalServiceSecret.value, a, now)), reply))
    ensures r.Success? && r.value.sent.None? ==> r.value.returned.None?
  {
    if !Present(s.auditServiceUrl) then Success(Delivery(None, None))
    else if s.internalServiceSecret.None? then Failure(SecretNotConfigured)
    else Success(Delivery(Some(Post(n, s.auditServiceUrl.value, s.internalServiceSecret.value, a, now)), reply))
  }
}
