/**
 * The gateway's JWT strategy. passport-jwt reads the token from the
 * `Authorization: Bearer` header and checks its signature and expiry; what
 * the model covers is the payload check that follows.
 */
module JwtStrategy {
  import opened Wrappers
  import opened Js
  import opened Nest

  /** Where the token is read from, and whether expiry is checked. */
  datatype StrategyOptions = StrategyOptions(fromBearerHeader: bool, ignoreExpiration: bool)

  const Options: StrategyOptions := StrategyOptions(true, false)

  /** The user the strategy attaches to the request. */
  datatype AuthUser = AuthUser(userId: Json, email: Json)

  const InvalidPayload: string := "Invalid JWT payload"

  /** `if (payload.key)`: the claim is there and truthy. */
  predicate TruthyClaim(payload: JsObject, key: string) {
    Lookup(payload, key).Some? && Truthy(Lookup(payload, key).value)
  }

  /**
   * `validate(payload)`: Unauthorized unless both `sub` and `email` are
   * truthy; otherwise exactly those two values, renamed.
   */
  function Validate(payload: JsObject): (r: Result<AuthUser, HttpError>)
    ensures r.Failure? <==> !TruthyClaim(payload, "sub") || !TruthyClaim(payload, "email")
    ensures r.Failure? ==> r.error == Unauthorized(InvalidPayload)
    ensures r.Success? ==>
      && Lookup(payload, "sub") == Some(r.value.userId) && Truthy(r.value.userId)
      && Lookup(payload, "email") == Some(r.value.email) && Truthy(r.value.email)
  {
    var sub := Lookup(payload, "sub");
    var email := Lookup(payload, "email");
    if sub.None? || !Truthy(sub.value) || email.None? || !Truthy(email.value) then
      Failure(Unauthorized(InvalidPayload))
    else
      Success(AuthUser(sub.value, email.value))
  }

  /** A payload that is truthy in `sub` and `email` is accepted whatever else it holds. */
  lemma ExtraClaimsIgnored(payload: JsObject, extra: JsObject)
    requires forall p :: p in extra ==> p.0 != "sub" && p.0 != "email"
    ensures Validate(extra + payload) == Validate(payload)
  {
    LookupConcat(extra, payload, "sub");
    LookupConcat(extra, payload, "email");
  }
}
