/**
 * The death-verification service's audit client: it stamps and hashes an
 * audit record and posts it through the signing internal client, turning a
 * failed post into a null result. As written its `generateHash` calls
 * `crypto.createHash` with no `crypto` in scope; `Record` and `SendAuditLog`
 * model the client with `import * as crypto from 'crypto'` added, and
 * `SendAuditLogAsWritten` the client as it stands.
 */
module DvAuditClient {
  import opened Wrappers
  import opened Js
  import opened Text
  import opened AuditRecord
  import InternalClient

  const AuditPath: string := "/api/audit"

  /** A post through the internal client: the path, the JSON body and the per-request headers. */
  datatype AxiosPost = AxiosPost(url: string, body: JsObject, headers: map<string, string>)

  /**
   * The record sent once `crypto` is imported: the caller's fields, then the
   * ISO timestamp of `now` and the SHA-256 hash of the stamped fields.
   */
  function Record(n: Natives, a: AuditData, now: int): (r: JsObject)
    ensures Lookup(r, "timestamp") == Some(JStr(n.isoString(now)))
    ensures Lookup(r, "cryptographicHash") == Some(JStr(RecordHash(n, a, n.isoString(now))))
    ensures forall k :: k != "timestamp" && k != "cryptographicHash" ==> Lookup(r, k) == Lookup(ToObject(a), k)
  {
    var timestamp := n.isoString(now);
    FullRecord(a, timestamp, RecordHash(n, a, timestamp))
  }

  /** The per-request headers, under their capitalised names. */
  function RequestHeaders(n: Natives, a: AuditData): (h: map<string, string>)
    ensures h.Keys == {"X-User-Id", "X-User-Email", "X-Correlation-Id"}
    ensures h["X-User-Id"] == OrEmpty(a.actorId)
    ensures h["X-User-Email"] == EmailHeader(n, a)
    ensures h["X-Correlation-Id"] == OrEmpty(a.correlationId)
  {
    map["X-User-Id" := OrEmpty(a.actorId),
        "X-User-Email" := EmailHeader(n, a),
        "X-Correlation-Id" := OrEmpty(a.correlationId)]
  }

  /** What one call did: the post it made and what it returned (None is `null`). */
  datatype Delivery = Delivery(sent: AxiosPost, returned: Option<Json>)

  /** How a call ends. */
  datatype Outcome =
    | Resolved(delivery: Delivery)
    | RejectedBeforePost   // the error thrown by `generateHash`, outside the `try`

  /**
   * `sendAuditLog` at time `now`; `cryptoBound` is whether `crypto` names the
   * Node module where `generateHash` runs, and `reply` the audit service's
   * answer (None for any failure of the post, which is caught and turned into
   * `null`). The hash is computed before the `try`, so with `crypto` unbound
   * the call rejects before anything is posted; with it bound nothing else
   * can fail and the call resolves.
   */
  function Send(n: Natives, a: AuditData, now: int, reply: Option<Json>, cryptoBound: bool): (r: Outcome)
    ensures r.Resolved? <==> cryptoBound
    ensures r.Resolved? ==> r.delivery.sent == AxiosPost(AuditPath, Record(n, a, now), RequestHeaders(n, a))
    ensures r.Resolved? ==> r.delivery.returned == reply
  {
    if cryptoBound then Resolved(Delivery(AxiosPost(AuditPath, Record(n, a, now), RequestHeaders(n, a)), reply))
    else RejectedBeforePost
  }

  /** `sendAuditLog` with `import * as crypto from 'crypto'` added. */
  function SendAuditLog(n: Natives, a: AuditData, now: int, reply: Option<Json>): (r: Delivery)
    ensures r.sent.url == AuditPath
    ensures r.sent.body == Record(n, a, now)
    ensures r.sent.headers == RequestHeaders(n, a)
    ensures r.returned == reply
  {
    Send(n, a, now, reply, true).delivery
  }

  /**
   * `sendAuditLog` as written: no import binds `crypto`, so every call
   * rejects before anything is posted, whatever the service would answer.
   */
  function SendAuditLogAsWritten(n: Natives, a: AuditData, now: int, reply: Option<Json>): (r: Outcome)
    ensures r == RejectedBeforePost
  {
    Send(n, a, now, reply, false)
  }

  /**
   * Once the interceptor signs a post carrying these headers, the user id and
   * e-mail slots of the signature are empty although the X-User-Id and
   * X-User-Email headers carry the actor: the interceptor reads the
   * lower-case header names only.
   */
  lemma SignedUserFieldsEmpty(n: Natives, secret: string, a: AuditData, body: JsObject, sentAt: nat)
    ensures var h := InternalClient.SignedHeaders(n, secret, RequestHeaders(n, a), "post", AuditPath, Some(JObj(body)), sentAt);
      && h["X-Internal-Signature"] ==
           n.hmacSha256Hex(secret, Join("\n", ["POST", AuditPath, Decimal(sentAt), n.sha256Hex(n.stringify(JObj(body))), "", ""]))
      && "X-User-Id" in h && h["X-User-Id"] == OrEmpty(a.actorId)
      && "X-User-Email" in h && h["X-User-Email"] == EmailHeader(n, a)
  {
    var hs := RequestHeaders(n, a);
    HeadersLowerCaseAbsent(n, a);
    UpperPost();
    InternalClient.CapitalisedHeadersNotSigned(n, secret, hs, "post", AuditPath, Some(JObj(body)), sentAt);
    assert InternalClient.Untouched(hs, "X-User-Id") && InternalClient.Untouched(hs, "X-User-Email");
  }

  lemma HeadersLowerCaseAbsent(n: Natives, a: AuditData)
    ensures "x-user-id" !in RequestHeaders(n, a) && "x-user-email" !in RequestHeaders(n, a)
    ensures "x-correlation-id" !in RequestHeaders(n, a)
  {
    var ks := RequestHeaders(n, a).Keys;
    assert "x-user-id"[0] != "X-User-Id"[0];
    assert "x-user-email"[0] != "X-User-Email"[0] && "x-user-email"[0] != "X-User-Id"[0] && "x-user-email"[0] != "X-Correlation-Id"[0];
  }

  lemma UpperPost()
    ensures Upper("post") == "POST"
  {
  }
}
