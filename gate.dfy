/** What a route sends back: Express's `res.json(…)` (status 200 unless set), `res.status(…)`,
    `res.send(…)` and `res.sendStatus(…)`. */
module Http {
  import opened Tables

  datatype Body =
    | Message(message: string)          // { message }
    | AccessToken(accessToken: string)  // { accessToken }
    | LoginFailure(message: string)     // { success: false, message }
    | User(user: PublicClient)          // the client row of getUserByEmail
    | ClientProfile(profile: Profile)   // what getUserAndBookingsByEmail returns
    | Text(text: string)                // a plain-text body

  /** `Unanswered` is a handler whose promise rejects: nothing in the route sends a response. */
  datatype Response = Response(status: int, body: Body) | Unanswered(error: string)

  const Unauthorized := Response(401, Text("Unauthorized"))
  const Forbidden := Response(403, Text("Forbidden"))
  const InternalError := Response(500, Text("Internal Server Error"))
}

/** The `authenticateToken` middleware of app.js, which guards /profile, /updateUserInfo,
    /bookings, /updateBooking and /deleteBooking. */
module Gate {
  import opened Wrappers
  import opened Claims
  import opened Tokens
  import opened Header
  import opened Http

  /** Either the middleware answers (and the route handler never runs), or it calls `next()`
      with `req.user` set to the decoded payload. */
  datatype Decision = Halt(response: Response) | Next(user: Payload)

  /** No token: 401. A token that does not verify (empty, malformed, badly signed, expired): 403.
      Otherwise the handler runs as the identity the token carries. */
  function Authenticate(authorization: Option<string>, svc: TokenService, now: int): (d: Decision)
    ensures d == Halt(Unauthorized) <==> ExtractToken(authorization).None?
    ensures d == Halt(Forbidden) <==>
              ExtractToken(authorization).Some? && Verify(svc, ExtractToken(authorization).value, now).Err?
    ensures d.Halt? ==> d.response == Unauthorized || d.response == Forbidden
    ensures d.Next? ==> ExtractToken(authorization).Some? &&
                        Verify(svc, ExtractToken(authorization).value, now) == Ok(d.user)
  {
    match ExtractToken(authorization)
    case None => Halt(Unauthorized)
    case Some(token) =>
      match Verify(svc, token, now)
      case Err(_) => Halt(Forbidden)
      case Ok(payload) => Next(payload)
  }

  /** A caller admitted by the gate holds a token signed with the server's secret that has
      not expired. */
  lemma AdmittedMeansAuthentic(authorization: Option<string>, svc: TokenService, now: int)
    requires Authenticate(authorization, svc, now).Next?
    ensures var token := ExtractToken(authorization).value;
            svc.decode(token).Some? && Authentic(svc, svc.decode(token).value) &&
            svc.decode(token).value.payload == Authenticate(authorization, svc, now).user &&
            now < Authenticate(authorization, svc, now).user.exp
  {
  }

  /** A header that is absent, or not empty and without a space, is answered with 401. */
  lemma NoTokenIsUnauthorized(authorization: Option<string>, svc: TokenService, now: int)
    requires authorization.None? || (authorization.value != "" && ' ' !in authorization.value)
    ensures Authenticate(authorization, svc, now) == Halt(Unauthorized)
  {
  }

  /** An empty header short-circuits to an empty token, which verification rejects: 403. */
  lemma EmptyHeaderIsForbidden(svc: TokenService, now: int)
    ensures Authenticate(Some(""), svc, now) == Halt(Forbidden)
  {
  }

  /** `<any word> <token issued at iat>` within the hour lets the handler run as the token's
      identity; the scheme word is not checked. */
  lemma IssuedTokenIsAdmitted(scheme: string, svc: TokenService, claims: Identity, iat: int, now: int)
    requires ' ' !in scheme && ' ' !in Sign(svc, claims, iat)
    requires RoundTrips(svc, Issue(svc, claims, iat))
    requires now < iat + ExpiresIn
    ensures Authenticate(Some(scheme + " " + Sign(svc, claims, iat)), svc, now) ==
            Next(Payload(claims, iat, iat + ExpiresIn))
  {
    BearerHeaderYieldsToken(scheme, Sign(svc, claims, iat));
    SignedTokenVerifies(svc, claims, iat, now);
  }

  /** The same header an hour or more after issue is answered with 403. */
  lemma ExpiredTokenIsForbidden(scheme: string, svc: TokenService, claims: Identity, iat: int, now: int)
    requires ' ' !in scheme && ' ' !in Sign(svc, claims, iat)
    requires RoundTrips(svc, Issue(svc, claims, iat))
    requires now >= iat + ExpiresIn
    ensures Authenticate(Some(scheme + " " + Sign(svc, claims, iat)), svc, now) == Halt(Forbidden)
  {
    BearerHeaderYieldsToken(scheme, Sign(svc, claims, iat));
    SignedTokenExpires(svc, claims, iat, now);
  }

  /** One request and its response as the middleware and the handler see them. */
  class Exchange {
    /** `req.headers['authorization']`. */
    const authorization: Option<string>
    /** `req.user`, set by the middleware. */
    var user: Option<Payload>
    /** The response sent, if any. */
    var response: Option<Response>

    constructor (authorization: Option<string>)
      ensures this.authorization == authorization && user == None && response == None
    {
      this.authorization := authorization;
      user := None;
      response := None;
    }

    /** authenticateToken: send 401 or 403, or set `req.user` and return `true` for `next()`. */
    method AuthenticateToken(svc: TokenService, now: int) returns (next: bool)
      modifies this
      ensures next <==> Authenticate(authorization, svc, now).Next?
      ensures next ==> user == Some(Authenticate(authorization, svc, now).user) && response == old(response)
      ensures !next ==> response == Some(Authenticate(authorization, svc, now).response) && user == old(user)
    {
      var token := ExtractToken(authorization);
      if token.None? {
        response := Some(Unauthorized);
        return false;
      }
      var verified := Verify(svc, token.value, now);
      if verified.Err? {
        response := Some(Forbidden);
        return false;
      }
      user := Some(verified.value);
      next := true;
    }
  }
}
