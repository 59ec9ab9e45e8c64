/**
 * The inbound HMAC middleware of the inheritance-rules service: health-check
 * bypass, missing credentials, replay window, signature comparison, and the
 * caller identity and correlation id it attaches to the request.
 */
module HmacGate {
  import opened Wrappers
  import opened Js
  import opened Text
  import opened Signing

  /** The one path that passes without any check. */
  const HealthPath: string := "/api/health"

  /** Five minutes in milliseconds. */
  const ReplayWindowMs: int := 5 * 60 * 1000

  /** What the middleware reads from an inbound request (header names arrive lower-cased). */
  datatype InboundRequest = InboundRequest(
    verb: string,
    originalUrl: string,
    baseUrl: string,
    path: string,
    signature: Option<string>,      // x-internal-signature
    timestamp: Option<string>,      // x-internal-timestamp
    userId: Option<string>,         // x-user-id
    userEmail: Option<string>,      // x-user-email
    correlationId: Option<string>)  // x-correlation-id

  datatype Rejection = MissingCredentials | StaleTimestamp | InvalidSignature

  /** The message of the UnauthorizedException thrown for each rejection. */
  function RejectionMessage(r: Rejection): string {
    match r
    case MissingCredentials => "Missing internal signature or timestamp"
    case StaleTimestamp => "Request timestamp too old"
    case InvalidSignature => "Invalid internal signature"
  }

  /**
   * Bypass and Accept both call `next()`; Reject throws 401. SecretUnset is
   * the TypeError `crypto.createHmac('sha256', undefined)` throws, a 500.
   */
  datatype Decision = Bypass | Accept | Reject(reason: Rejection) | SecretUnset

  /**
   * The replay test `now - parseInt(timestamp, 10) > 300000`. It is one-sided,
   * and a timestamp that parses to NaN makes the comparison false.
   */
  predicate Stale(now: int, timestamp: string) {
    match ParseInt(timestamp)
    case None => false
    case Some(t) => now - t > ReplayWindowMs
  }

  /** The signature the middleware expects, over its five-field string. */
  function ExpectedSignature(n: Natives, secret: string, req: InboundRequest, timestamp: string): string {
    n.hmacSha256Hex(secret, GateCanonical(req.verb, req.baseUrl + req.path, timestamp, req.userId, req.userEmail))
  }

  /**
   * The checks of `use`, in the order the middleware makes them, against a
   * given expected signature (only consulted once both headers are present).
   */
  function Check(now: int, req: InboundRequest, expected: string): (d: Decision)
    ensures d == Bypass <==> req.originalUrl == HealthPath
    ensures d == Reject(MissingCredentials) <==>
      req.originalUrl != HealthPath && !(Present(req.signature) && Present(req.timestamp))
    ensures d == Reject(StaleTimestamp) <==>
      req.originalUrl != HealthPath && Present(req.signature) && Present(req.timestamp)
      && Stale(now, req.timestamp.value)
    ensures d == Reject(InvalidSignature) <==>
      req.originalUrl != HealthPath && Present(req.signature) && Present(req.timestamp)
      && !Stale(now, req.timestamp.value) && req.signature.value != expected
    ensures d == Accept <==>
      req.originalUrl != HealthPath && Present(req.signature) && Present(req.timestamp)
      && !Stale(now, req.timestamp.value) && req.signature.value == expected
  {
    if req.originalUrl == HealthPath then Bypass
    else if !Present(req.signature) || !Present(req.timestamp) then Reject(MissingCredentials)
    else if Stale(now, req.timestamp.value) then Reject(StaleTimestamp)
    else if req.signature.value != expected then Reject(InvalidSignature)
    else Accept
  }

  /** The request passes the bypass, credential and replay checks, so the signature is computed. */
  predicate ReachesSignature(now: int, req: InboundRequest) {
    && req.originalUrl != HealthPath && Present(req.signature) && Present(req.timestamp)
    && !Stale(now, req.timestamp.value)
  }

  /**
   * The middleware as written, with `secret` the INTERNAL_SERVICE_SECRET it
   * reads (None when unset): the expected signature is over the five-field
   * string, and with no secret computing it throws.
   */
  function Decide(n: Natives, secret: Option<string>, now: int, req: InboundRequest): (d: Decision)
    ensures secret.Some? ==> d == Check(now, req, ExpectedSignature(n, secret.value, req, OrEmpty(req.timestamp)))
    ensures d == SecretUnset <==> secret.None? && ReachesSignature(now, req)
    ensures secret.None? && !ReachesSignature(now, req) ==> d.Bypass? || d.Reject?
  {
    if secret.None? then
      if ReachesSignature(now, req) then SecretUnset else Check(now, req, "")
    else Check(now, req, ExpectedSignature(n, secret.value, req, OrEmpty(req.timestamp)))
  }

  /**
   * The middleware as its design intends: the same checks, with the expected
   * signature over the outbound six-field string, body hash included.
   */
  function DecideWithBodyHash(n: Natives, secret: string, now: int, req: InboundRequest, bodyHash: string): (d: Decision)
    ensures d == Accept <==>
      && ReachesSignature(now, req)
      && req.signature.value == OutboundSignature(n, secret, req.verb, req.baseUrl + req.path, req.timestamp.value,
                                                  bodyHash, req.userId, req.userEmail)
    ensures forall t: nat :: SignedByClient(n, secret, req, bodyHash, t, now) ==> d == Accept
  {
    assert forall t: nat :: SignedByClient(n, secret, req, bodyHash, t, now) ==> !Stale(now, Decimal(t)) by {
      forall t: nat | SignedByClient(n, secret, req, bodyHash, t, now) ensures !Stale(now, Decimal(t)) {
        ParseDecimal(t);
      }
    }
    Check(now, req, OutboundSignature(n, secret, req.verb, req.baseUrl + req.path, OrEmpty(req.timestamp),
                                      bodyHash, req.userId, req.userEmail))
  }

  /** `{ userId, email: userEmail }`, attached as `req.user`. */
  datatype UserInfo = UserInfo(userId: string, email: Option<string>)

  /** The mutable request object the middleware decorates. */
  class ExpressRequest {
    const inbound: InboundRequest
    var user: Option<UserInfo>
    var correlationId: Option<string>

    constructor (inbound: InboundRequest)
      ensures this.inbound == inbound && user == None && correlationId == None
    {
      this.inbound := inbound;
      user := None;
      correlationId := None;
    }
  }

  /**
   * The middleware reads INTERNAL_SERVICE_SECRET on every call; the
   * configuration does not change while the service runs, so the value read
   * is a constant of the instance (None when the setting is absent).
   */
  class HmacAuthMiddleware {
    const natives: Natives
    const secret: Option<string>

    constructor (natives: Natives, secret: Option<string>)
      ensures this.natives == natives && this.secret == secret
    {
      this.natives := natives;
      this.secret := secret;
    }

    /**
     * `use(req, res, next)`: the outcome is the decision; only an accepted
     * request is decorated, with the user only when a user id came in and the
     * correlation id only when one came in.
     */
    method Use(req: ExpressRequest, now: int) returns (d: Decision)
      modifies req
      ensures d == Decide(natives, secret, now, req.inbound)
      ensures req.user ==
        if d == Accept && Present(req.inbound.userId)
        then Some(UserInfo(req.inbound.userId.value, req.inbound.userEmail))
        else old(req.user)
      ensures req.correlationId ==
        if d == Accept && Present(req.inbound.correlationId)
        then req.inbound.correlationId
        else old(req.correlationId)
    {
      d := Decide(natives, secret, now, req.inbound);
      if d == Accept {
        if Present(req.inbound.userId) {
          req.user := Some(UserInfo(req.inbound.userId.value, req.inbound.userEmail));
        }
        if Present(req.inbound.correlationId) {
          req.correlationId := req.inbound.correlationId;
        }
      }
    }
  }

  /** A request stamped `t` in `Date.now().toString()` form, otherwise well-formed. */
  function Stamped(req: InboundRequest, t: nat): InboundRequest {
    req.(timestamp := Some(Decimal(t)))
  }

  /**
   * The replay window, from the middleware's own comment: a request signed
   * 301000 ms ago is rejected as stale even with a valid signature; one signed
   * 299000 ms ago, exactly 300000 ms ago, or in the future is not stale.
   */
  lemma ReplayWindowEdges(t: nat)
    ensures Stale(t + 301000, Decimal(t))
    ensures !Stale(t + 299000, Decimal(t))
    ensures !Stale(t + 300000, Decimal(t))
    ensures forall now :: now <= t ==> !Stale(now, Decimal(t))
  {
    ParseDecimal(t);
  }

  /** A stale but correctly signed request is still refused, before the signature is looked at. */
  lemma StaleBeatsSignature(n: Natives, secret: string, req: InboundRequest, t: nat)
    requires req.originalUrl != HealthPath && Present(req.signature)
    requires req.signature.value == ExpectedSignature(n, secret, req, Decimal(t))
    ensures Decide(n, Some(secret), t + 301000, Stamped(req, t)) == Reject(StaleTimestamp)
  {
    ParseDecimal(t);
  }

  /** A timestamp with no leading digits (parseInt gives NaN) is never stale. */
  lemma UnparseableTimestampNotStale(now: int, timestamp: string)
    requires ParseInt(timestamp).None?
    ensures !Stale(now, timestamp)
  {
  }

  lemma DecimalNoNewline(t: nat)
    ensures NoNewline(Decimal(t))
  {
  }

  /** A request exactly as an outbound signer would send it at time `t`, received at `now`. */
  predicate SignedByClient(n: Natives, secret: string, req: InboundRequest, bodyHash: string, t: nat, now: int) {
    && req.originalUrl != HealthPath
    && req.timestamp == Some(Decimal(t))
    && t <= now <= t + ReplayWindowMs
    && req.signature == Some(OutboundSignature(n, secret, req.verb, req.baseUrl + req.path, Decimal(t),
                                               bodyHash, req.userId, req.userEmail))
    && req.signature.value != ""
  }

  /**
   * As written, a request signed by an outbound client inside the replay
   * window is refused with "Invalid internal signature": the client signs six
   * fields and the middleware recomputes five (given an injective HMAC and
   * newline-free fields).
   */
  lemma ClientSignedRequestRejected(n: Natives, secret: string, req: InboundRequest, bodyHash: string, t: nat, now: int)
    requires HmacInjective(n, secret)
    requires SignedByClient(n, secret, req, bodyHash, t, now)
    requires NoNewline(req.verb) && NoNewline(req.baseUrl + req.path) && NoNewline(bodyHash)
    requires OptNoNewline(req.userId) && OptNoNewline(req.userEmail)
    ensures Decide(n, Some(secret), now, req) == Reject(InvalidSignature)
  {
    ParseDecimal(t);
    DecimalNoNewline(t);
    OutboundNeverMatchesGate(req.verb, req.baseUrl + req.path, Decimal(t), bodyHash, req.userId, req.userEmail,
                             req.verb, req.baseUrl + req.path, Decimal(t), req.userId, req.userEmail);
  }

  /** With the body hash in the expected string, the same request is accepted. */
  lemma ClientSignedRequestAccepted(n: Natives, secret: string, req: InboundRequest, bodyHash: string, t: nat, now: int)
    requires SignedByClient(n, secret, req, bodyHash, t, now)
    ensures DecideWithBodyHash(n, secret, now, req, bodyHash) == Accept
  {
    ParseDecimal(t);
  }
}
