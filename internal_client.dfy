/**
 * The shared base of the verification service's internal HTTP clients:
 * construction from configuration, and the request interceptor that stamps
 * and signs every outgoing call.
 */
module InternalClient {
  import opened Wrappers
  import opened Js
  import opened Text
  import opened Signing

  /** Configuration lookup `configService.get(key)`. */
  function Get(config: map<string, string>, key: string): Option<string> {
    if key in config then Some(config[key]) else None
  }

  const SecretKey: string := "INTERNAL_SERVICE_SECRET"

  datatype ClientSettings = ClientSettings(baseUrl: string, secret: Option<string>)

  datatype ConstructionError =
    | BaseUrlNotConfigured(key: string)   // `${baseUrlConfigKey} is not configured.`
    | BaseUrlUndeclared                   // `axios.create({ baseURL })` names no binding in scope

  /**
   * The text of the base-URL key as the base constructor sees it: a subclass
   * declares `baseUrlConfigKey` as a class field, and a field initialiser runs
   * only after `super(configService)` returns, so during construction the key
   * is still `undefined` (None) and renders as "undefined".
   */
  function KeyText(keyDuringSuper: Option<string>): string {
    if keyDuringSuper.Some? then keyDuringSuper.value else "undefined"
  }

  /** `configService.get(this.baseUrlConfigKey)`: an unset key finds no setting. */
  function BaseUrlSetting(config: map<string, string>, keyDuringSuper: Option<string>): Option<string> {
    if keyDuringSuper.Some? then Get(config, keyDuringSuper.value) else None
  }

  /**
   * The constructor as written. No base URL throws "<key> is not configured.";
   * otherwise the shorthand property `{ baseURL }` refers to an identifier
   * declared nowhere (the local is `baseUrl`), so construction throws as well.
   */
  function ConstructAsWritten(config: map<string, string>, keyDuringSuper: Option<string>): (r: Result<ClientSettings, ConstructionError>)
    ensures r.Failure?
    ensures r == Failure(BaseUrlNotConfigured(KeyText(keyDuringSuper))) <==> !Present(BaseUrlSetting(config, keyDuringSuper))
    ensures keyDuringSuper.None? ==> r == Failure(BaseUrlNotConfigured("undefined"))
  {
    if !Present(BaseUrlSetting(config, keyDuringSuper)) then Failure(BaseUrlNotConfigured(KeyText(keyDuringSuper)))
    else Failure(BaseUrlUndeclared)
  }

  /**
   * The constructor as intended, with both defects removed: the subclass's key
   * is known while the base constructor runs (passed to `super`, say), and the
   * instance is made with `axios.create({ baseURL: baseUrl })`.
   */
  function Construct(config: map<string, string>, baseUrlKey: string): (r: Result<ClientSettings, ConstructionError>)
    ensures r.Success? <==> Present(Get(config, baseUrlKey))
    ensures r.Failure? ==> r.error == BaseUrlNotConfigured(baseUrlKey)
    ensures r.Success? ==> r.value.baseUrl == config[baseUrlKey] && r.value.secret == Get(config, SecretKey)
  {
    if !Present(Get(config, baseUrlKey)) then Failure(BaseUrlNotConfigured(baseUrlKey))
    else Success(ClientSettings(config[baseUrlKey], Get(config, SecretKey)))
  }

  /** `config.data ? JSON.stringify(config.data) : ''`, hashed with SHA-256. */
  function BodyHash(n: Natives, data: Option<Json>): (h: string)
    ensures data.Some? && Truthy(data.value) ==> h == n.sha256Hex(n.stringify(data.value))
    ensures !(data.Some? && Truthy(data.value)) ==> h == n.sha256Hex("")
  {
    n.sha256Hex(if data.Some? && Truthy(data.value) then n.stringify(data.value) else "")
  }

  /** `config.headers[name]` when the header is there. */
  function Header(headers: map<string, string>, name: string): Option<string> {
    if name in headers then Some(headers[name]) else None
  }

  /**
   * The headers after the request interceptor. It reads the lower-case names
   * x-user-id, x-user-email and x-correlation-id, signs, and writes the
   * capitalised names.
   */
  function SignedHeaders(n: Natives, secret: string, headers: map<string, string>,
                         verb: string, url: string, data: Option<Json>, now: nat): (r: map<string, string>)
    ensures "X-Internal-Signature" in r && "X-Internal-Timestamp" in r
    ensures r["X-Internal-Timestamp"] == Decimal(now)
    ensures r["X-Internal-Signature"] ==
      OutboundSignature(n, secret, verb, url, Decimal(now), BodyHash(n, data),
                        Header(headers, "x-user-id"), Header(headers, "x-user-email"))
    ensures Present(Header(headers, "x-correlation-id")) ==> "X-Correlation-Id" in r && r["X-Correlation-Id"] == headers["x-correlation-id"]
    ensures Present(Header(headers, "x-user-id")) ==> "X-User-Id" in r && r["X-User-Id"] == headers["x-user-id"]
    ensures Present(Header(headers, "x-user-email")) ==> "X-User-Email" in r && r["X-User-Email"] == headers["x-user-email"]
    ensures forall k :: k in headers && Untouched(headers, k) ==> k in r && r[k] == headers[k]
    ensures forall k :: k in r ==> k in headers || !Untouched(headers, k)
  {
    var userId := Header(headers, "x-user-id");
    var userEmail := Header(headers, "x-user-email");
    var correlationId := Header(headers, "x-correlation-id");
    var timestamp := Decimal(now);
    var signature := OutboundSignature(n, secret, verb, url, timestamp, BodyHash(n, data), userId, userEmail);
    var h1 := headers["X-Internal-Signature" := signature]["X-Internal-Timestamp" := timestamp];
    var h2 := if Present(correlationId) then h1["X-Correlation-Id" := correlationId.value] else h1;
    var h3 := if Present(userId) then h2["X-User-Id" := userId.value] else h2;
    if Present(userEmail) then h3["X-User-Email" := userEmail.value] else h3
  }

  /** The header names the interceptor may write for this request. */
  predicate Untouched(headers: map<string, string>, k: string) {
    && k != "X-Internal-Signature" && k != "X-Internal-Timestamp"
    && (k == "X-Correlation-Id" ==> !Present(Header(headers, "x-correlation-id")))
    && (k == "X-User-Id" ==> !Present(Header(headers, "x-user-id")))
    && (k == "X-User-Email" ==> !Present(Header(headers, "x-user-email")))
  }

  /**
   * Callers that set only the capitalised names (as the inheritance,
   * asset-vault, notification and audit clients do) get the user id and
   * e-mail slots of the signature left empty: the interceptor reads the
   * lower-case names, and the keys are matched by exact spelling.
   */
  lemma CapitalisedHeadersNotSigned(n: Natives, secret: string, headers: map<string, string>,
                                    verb: string, url: string, data: Option<Json>, now: nat)
    requires "x-user-id" !in headers && "x-user-email" !in headers
    ensures SignedHeaders(n, secret, headers, verb, url, data, now)["X-Internal-Signature"] ==
      n.hmacSha256Hex(secret, Join("\n", [Upper(verb), url, Decimal(now), BodyHash(n, data), "", ""]))
  {
  }

  /** An outgoing axios request configuration; the interceptor changes its headers in place. */
  class AxiosRequestConfig {
    const verb: string
    const url: string
    const data: Option<Json>
    var headers: map<string, string>

    constructor (verb: string, url: string, data: Option<Json>, headers: map<string, string>)
      ensures this.verb == verb && this.url == url && this.data == data && this.headers == headers
    {
      this.verb := verb;
      this.url := url;
      this.data := data;
      this.headers := headers;
    }
  }

  /** A constructed client: its base URL and signing secret (None when INTERNAL_SERVICE_SECRET is not set). */
  class AbstractInternalClient {
    const natives: Natives
    const baseUrl: string
    const secret: Option<string>

    constructor (natives: Natives, baseUrl: string, secret: Option<string>)
      ensures this.natives == natives && this.baseUrl == baseUrl && this.secret == secret
    {
      this.natives := natives;
      this.baseUrl := baseUrl;
      this.secret := secret;
    }

    /**
     * The request interceptor, at time `now` (Date.now()). With no secret,
     * `crypto.createHmac('sha256', undefined)` throws before any header is
     * written, and the request is rejected (`signed` is false).
     */
    method Intercept(config: AxiosRequestConfig, now: nat) returns (signed: bool)
      modifies config
      ensures signed <==> secret.Some?
      ensures signed ==> config.headers == SignedHeaders(natives, secret.value, old(config.headers), config.verb, config.url, config.data, now)
      ensures !signed ==> config.headers == old(config.headers)
    {
      var userId := Header(config.headers, "x-user-id");
      var userEmail := Header(config.headers, "x-user-email");
      var correlationId := Header(config.headers, "x-correlation-id");
      var timestamp := Decimal(now);
      var bodyHash := BodyHash(natives, config.data);
      if secret.None? {
        return false;
      }
      var signature := OutboundSignature(natives, secret.value, config.verb, config.url, timestamp, bodyHash, userId, userEmail);
      config.headers := config.headers["X-Internal-Signature" := signature];
      config.headers := config.headers["X-Internal-Timestamp" := timestamp];
      if Present(correlationId) { config.headers := config.headers["X-Correlation-Id" := correlationId.value]; }
      if Present(userId) { config.headers := config.headers["X-User-Id" := userId.value]; }
      if Present(userEmail) { config.headers := config.headers["X-User-Email" := userEmail.value]; }
      signed := true;
    }
  }
}
