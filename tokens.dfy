/** JSON Web Tokens as app.js uses them: `jwt.sign({ id, email }, JWT_SECRET, { expiresIn: '1h' })`
    on login and `jwt.verify(token, JWT_SECRET, …)` in the access gate. The HMAC and the compact
    serialisation are not modelled: they are the parameters `mac`, `encode` and `decode` of a
    TokenService. Time is the caller's clock `now`, in whole seconds as the library counts it. */
module Tokens {
  import opened Wrappers
  import opened Claims

  /** `expiresIn: '1h'`, in seconds. */
  const ExpiresIn: int := 3600

  /** A decoded payload: the signed identity plus the `iat` and `exp` claims jwt.sign adds. */
  datatype Payload = Payload(claims: Identity, iat: int, exp: int)

  /** A token as the signer sees it: payload and signature (the fixed HS256 header is implicit). */
  datatype Jwt = Jwt(payload: Payload, signature: seq<bv8>)

  /** The server's secret and the primitives the JWT library uses with it. */
  datatype TokenService = TokenService(
    secret: string,
    mac: (string, Payload) -> seq<bv8>,
    encode: Jwt -> string,
    decode: string -> Option<Jwt>)

  /** Why jsonwebtoken's verify rejects a token; app.js maps each one to 403. */
  datatype VerifyError = Missing | Malformed | BadSignature | Expired

  /** The signature is the server's MAC of the payload. */
  predicate Authentic(svc: TokenService, token: Jwt) {
    svc.mac(svc.secret, token.payload) == token.signature
  }

  /** The serialisation is faithful on this token: a non-empty string that decodes back to it. */
  predicate RoundTrips(svc: TokenService, token: Jwt) {
    svc.encode(token) != "" && svc.decode(svc.encode(token)) == Some(token)
  }

  /** The token jwt.sign builds at time `now`. */
  function Issue(svc: TokenService, claims: Identity, now: int): (token: Jwt)
    ensures Authentic(svc, token)
    ensures token.payload.claims == claims
    ensures token.payload.iat == now && token.payload.exp == now + ExpiresIn
  {
    var payload := Payload(claims, now, now + ExpiresIn);
    Jwt(payload, svc.mac(svc.secret, payload))
  }

  /** jwt.sign: the serialised token. */
  function Sign(svc: TokenService, claims: Identity, now: int): (s: string)
    ensures RoundTrips(svc, Issue(svc, claims, now)) ==>
              s != "" && svc.decode(s) == Some(Issue(svc, claims, now))
  {
    svc.encode(Issue(svc, claims, now))
  }

  /** jwt.verify: an empty token, a malformed one, a bad signature and an expired token are
      errors, checked in that order; otherwise the decoded payload. The library counts a token
      as expired from the second `exp` on. */
  function Verify(svc: TokenService, token: string, now: int): (r: Result<Payload, VerifyError>)
    ensures token == "" ==> r == Err(Missing)
    ensures r.Ok? ==> svc.decode(token).Some? && Authentic(svc, svc.decode(token).value)
    ensures r.Ok? ==> r.value == svc.decode(token).value.payload && now < r.value.exp
    ensures r == Err(BadSignature) ==> svc.decode(token).Some? && !Authentic(svc, svc.decode(token).value)
  {
    if token == "" then Err(Missing)
    else
      match svc.decode(token)
      case None => Err(Malformed)
      case Some(jwt) =>
        if !Authentic(svc, jwt) then Err(BadSignature)
        else if now >= jwt.payload.exp then Err(Expired)
        else Ok(jwt.payload)
  }

  /** A token issued at `iat` verifies, within the hour, to exactly the claims it was issued for. */
  lemma SignedTokenVerifies(svc: TokenService, claims: Identity, iat: int, now: int)
    requires RoundTrips(svc, Issue(svc, claims, iat))
    requires now < iat + ExpiresIn
    ensures Verify(svc, Sign(svc, claims, iat), now) == Ok(Payload(claims, iat, iat + ExpiresIn))
  {
  }

  /** From one hour after issue on, the same token is rejected as expired. */
  lemma SignedTokenExpires(svc: TokenService, claims: Identity, iat: int, now: int)
    requires RoundTrips(svc, Issue(svc, claims, iat))
    requires now >= iat + ExpiresIn
    ensures Verify(svc, Sign(svc, claims, iat), now) == Err(Expired)
  {
  }
}
