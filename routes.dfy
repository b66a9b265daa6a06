/** The route handlers of app.js. Read-only routes are functions of the tables; routes that
    change the tables are methods over the Store; protected routes first run the
    authenticateToken middleware on their Exchange and take the client's identity from the
    token alone. Every handler's try/catch turns a failing store call into 500 with a fixed
    body, except /login, which has none. */
module Routes {
  import opened Wrappers
  import opened Hashing
  import opened Tables
  import opened Claims
  import opened Tokens
  import opened Header
  import opened Database
  import opened Http
  import opened Gate

  const UserNotFound := Response(404, Text("User not found"))
  const InvalidCredentials := Response(401, LoginFailure("Invalid credentials"))
  const NameAndPhoneRequired := Response(400, Text("Name and phone number are required."))

  /** JavaScript's `!v` for a body field that should be a string: undefined, null or "". */
  predicate Falsy(v: Option<string>): (r: bool)
    ensures v.None? ==> r
    ensures v.Some? ==> (r <==> |v.value| == 0)
    ensures v == Some("0") || v == Some(" ") ==> !r
  {
    v.None? || v.value == ""
  }

  // ---------------------------------------------------------------- public routes

  /** POST /clients, after newClient: 201 with its message; 400 for the duplicate-email error
      and for any error whose message is exactly that text; 500 with a fixed body otherwise,
      so no error detail reaches the caller. */
  function ClientsResponse(outcome: Result<string, string>): (r: Response)
    ensures r.Response?
    ensures r.status == 201 <==> outcome.Ok?
    ensures r.status == 201 ==> r.body == Message(outcome.value)
    ensures r.status == 400 <==> outcome == Err(EmailExists)
    ensures r.status == 400 ==> r.body == Text(EmailExists)
    ensures r.status != 201 && r.status != 400 ==> r == InternalError
  {
    match outcome
    case Ok(message) => Response(201, Message(message))
    case Err(message) =>
      if message == EmailExists then Response(400, Text(EmailExists)) else InternalError
  }

  /** POST /clients: register. A taken email is refused with 400 and a missing password with
      500, both leaving the tables as they were; otherwise exactly one client is added. */
  method ClientsRoute(store: Store, kdf: Kdf, salt: Salt, name: Option<string>, email: Option<string>,
                      phone: Option<string>, password: Option<string>)
    returns (r: Response)
    requires store.Valid()
    modifies store
    ensures store.Valid()
    ensures store.bookings == old(store.bookings)
    ensures EmailTaken(old(store.clients), email) ==>
              r == Response(400, Text(EmailExists)) && store.clients == old(store.clients)
    ensures !EmailTaken(old(store.clients), email) && password.None? ==>
              r == InternalError && store.clients == old(store.clients)
    ensures !EmailTaken(old(store.clients), email) && password.Some? ==>
              r == Response(201, Message(ClientCreated)) &&
              store.clients == old(store.clients) + [Client(old(store.nextClientId), name, email, phone,
                                                            Hash(kdf, password.value, salt))]
  {
    var outcome := store.NewClient(kdf, salt, name, email, phone, password);
    r := ClientsResponse(outcome);
  }

  /** POST /login: a token over exactly `{ id, email }` of the client, expiring in an hour; 401
      with "Invalid credentials" for an unknown email and a wrong password alike. A password
      left out of the body makes bcrypt.compare throw, and with no try/catch nothing answers. */
  function LoginRoute(clients: seq<Client>, kdf: Kdf, svc: TokenService, now: int,
                      email: Option<string>, password: Option<string>): (r: Response)
    ensures r.Unanswered? <==> ValidateUser(clients, kdf, email, password).Err?
    ensures r.Response? ==> r == InvalidCredentials || r.status == 200
    ensures r == InvalidCredentials <==> ValidateUser(clients, kdf, email, password) == Ok(Invalid)
    ensures r.Response? && r.status == 200 ==>
              ValidateUser(clients, kdf, email, password).Ok? &&
              ValidateUser(clients, kdf, email, password).value.Valid? &&
              r.body == AccessToken(Sign(svc, ValidateUser(clients, kdf, email, password).value.user, now))
  {
    match ValidateUser(clients, kdf, email, password)
    case Err(error) => Unanswered(error)
    case Ok(Valid(user)) => Response(200, AccessToken(Sign(svc, user, now)))
    case Ok(Invalid) => InvalidCredentials
  }

  /** Logging in with a stored email and its password yields a token that, presented as
      `Bearer <token>` within the hour, lets protected handlers run as that client. */
  lemma LoginThenAccess(clients: seq<Client>, kdf: Kdf, svc: TokenService, now: int, later: int,
                        email: string, password: string, k: int)
    requires UniqueEmails(clients)
    requires 0 <= k < |clients| && clients[k].email == Some(email)
    requires Matches(kdf, password, clients[k].password)
    requires RoundTrips(svc, Issue(svc, Identity(clients[k].id, email), now))
    requires ' ' !in Sign(svc, Identity(clients[k].id, email), now)
    requires later < now + ExpiresIn
    ensures var token := Sign(svc, Identity(clients[k].id, email), now);
            LoginRoute(clients, kdf, svc, now, Some(email), Some(password)) == Response(200, AccessToken(token)) &&
            Authenticate(Some("Bearer " + token), svc, later) ==
              Next(Payload(Identity(clients[k].id, email), now, now + ExpiresIn))
  {
    var token := Sign(svc, Identity(clients[k].id, email), now);
    ValidateUserIff(clients, kdf, email, password, k);
    IssuedTokenIsAdmitted("Bearer", svc, Identity(clients[k].id, email), now, later);
    assert "Bearer " + token == "Bearer" + " " + token;
  }

  /** GET /user/:email (no token needed): the client's name, email and phone, or 404. */
  function UserRoute(clients: seq<Client>, email: string): (r: Response)
    ensures r == UserNotFound <==> !EmailTaken(clients, Some(email))
    ensures r != UserNotFound ==> r.Response? && r.status == 200 && r.body.User?
    ensures r != UserNotFound ==>
              exists i :: 0 <= i < |clients| && clients[i].email == Some(email) &&
                          r.body.user == PublicClient(clients[i].name, clients[i].email, clients[i].phone)
  {
    match GetUserByEmail(clients, email)
    case Some(user) => Response(200, User(user))
    case None => UserNotFound
  }

  // ---------------------------------------------------------------- protected routes

  /** The /profile handler once the gate let it run: the profile of the token's email, or 404. */
  function ProfileResponse(clients: seq<Client>, bookings: seq<Booking>, user: Payload): (r: Response)
    ensures r == UserNotFound <==> !EmailTaken(clients, Some(user.claims.email))
    ensures r != UserNotFound ==> r.Response? && r.status == 200 && r.body.ClientProfile? &&
                                  r.body.profile.email == Some(user.claims.email)
  {
    match ProfileOf(clients, bookings, user.claims.email)
    case Some(profile) => Response(200, ClientProfile(profile))
    case None => UserNotFound
  }

  /** With unique emails, /profile shows the token holder's client record and exactly that
      client's bookings. */
  lemma ProfileShowsOwnBookings(clients: seq<Client>, bookings: seq<Booking>, user: Payload, k: int)
    requires UniqueEmails(clients)
    requires 0 <= k < |clients| && clients[k].email == Some(user.claims.email)
    ensures ProfileResponse(clients, bookings, user) ==
      Response(200, ClientProfile(Profile(clients[k].email, clients[k].name, clients[k].phone,
                                          Entries(OwnedBy(bookings, clients[k].id)))))
  {
    ProfileIsOwnBookings(clients, bookings, user.claims.email, k);
  }

  /** GET /profile. */
  method ProfileRoute(ex: Exchange, store: Store, svc: TokenService, now: int)
    modifies ex
    ensures var d := Authenticate(ex.authorization, svc, now);
            (d.Halt? ==> ex.response == Some(d.response)) &&
            (d.Next? ==> ex.user == Some(d.user) &&
                         ex.response == Some(ProfileResponse(store.clients, store.bookings, d.user)))
  {
    var next := ex.AuthenticateToken(svc, now);
    if next {
      ex.response := Some(ProfileResponse(store.clients, store.bookings, ex.user.value));
    }
  }

  /** POST /bookings: a booking for the token's client id, with the body's `serviceType` as its
      service name and the other fields as sent. */
  method BookingsRoute(ex: Exchange, store: Store, svc: TokenService, now: int,
                       serviceType: Option<string>, date: Option<string>, time: Option<string>,
                       location: Option<string>, notes: Option<string>)
    requires store.Valid()
    modifies ex, store
    ensures store.Valid()
    ensures var d := Authenticate(ex.authorization, svc, now);
            (d.Halt? ==> ex.response == Some(d.response) && unchanged(store)) &&
            (d.Next? ==> ex.user == Some(d.user) && store.clients == old(store.clients)) &&
            (d.Next? && HasClient(old(store.clients), d.user.claims.id) ==>
               ex.response == Some(Response(201, Message(BookingCreated))) &&
               store.bookings == old(store.bookings) +
                 [Booking(old(store.nextBookingId), d.user.claims.id,
                          BookingFields(serviceType, date, time, location, notes))]) &&
            (d.Next? && !HasClient(old(store.clients), d.user.claims.id) ==>
               ex.response == Some(InternalError) && store.bookings == old(store.bookings))
  {
    var next := ex.AuthenticateToken(svc, now);
    if next {
      var outcome := store.CreateBooking(ex.user.value.claims.id, BookingFields(serviceType, date, time, location, notes));
      if outcome.Ok? {
        ex.response := Some(Response(201, Message(outcome.value)));
      } else {
        ex.response := Some(InternalError);
      }
    }
  }

  /** POST /updateUserInfo: 400 when the name or the phone number is missing or empty;
      otherwise the update goes to the token's client id, never to one from the body. */
  method UpdateUserInfoRoute(ex: Exchange, store: Store, svc: TokenService, now: int,
                             name: Option<string>, phoneNumber: Option<string>)
    requires store.Valid()
    modifies ex, store
    ensures store.Valid()
    ensures var d := Authenticate(ex.authorization, svc, now);
            (d.Halt? ==> ex.response == Some(d.response) && unchanged(store)) &&
            (d.Next? && (Falsy(name) || Falsy(phoneNumber)) ==>
               ex.user == Some(d.user) && ex.response == Some(NameAndPhoneRequired) && unchanged(store)) &&
            (d.Next? && !Falsy(name) && !Falsy(phoneNumber) ==>
               ex.user == Some(d.user) && ex.response == Some(Response(200, Message(ClientUpdated))) &&
               store.clients == WithClientInfo(old(store.clients), d.user.claims.id, name, phoneNumber) &&
               store.bookings == old(store.bookings))
  {
    var next := ex.AuthenticateToken(svc, now);
    if next {
      var clientId := ex.user.value.claims.id;
      if Falsy(name) || Falsy(phoneNumber) {
        ex.response := Some(NameAndPhoneRequired);
        return;
      }
      var message := store.UpdateClientInfo(clientId, name, phoneNumber);
      ex.response := Some(Response(200, Message(message)));
    }
  }

  /** POST /updateBooking: the booking id comes from the body and is not compared with the
      token's identity, so any admitted caller overwrites any booking. */
  method UpdateBookingRoute(ex: Exchange, store: Store, svc: TokenService, now: int,
                            bookingId: Option<int>, fields: BookingFields)
    requires store.Valid()
    modifies ex, store
    ensures store.Valid()
    ensures var d := Authenticate(ex.authorization, svc, now);
            (d.Halt? ==> ex.response == Some(d.response) && unchanged(store)) &&
            (d.Next? ==> ex.user == Some(d.user) &&
                         ex.response == Some(Response(200, Message(BookingUpdated))) &&
                         store.bookings == Overwrite(old(store.bookings), bookingId, fields) &&
                         store.clients == old(store.clients))
  {
    var next := ex.AuthenticateToken(svc, now);
    if next {
      var message := store.UpdateBooking(bookingId, fields);
      ex.response := Some(Response(200, Message(message)));
    }
  }

  /** DELETE /deleteBooking/:bookingId: as for update, no ownership check. */
  method DeleteBookingRoute(ex: Exchange, store: Store, svc: TokenService, now: int, bookingId: int)
    requires store.Valid()
    modifies ex, store
    ensures store.Valid()
    ensures var d := Authenticate(ex.authorization, svc, now);
            (d.Halt? ==> ex.response == Some(d.response) && unchanged(store)) &&
            (d.Next? ==> ex.user == Some(d.user) &&
                         ex.response == Some(Response(200, Message(BookingDeleted))) &&
                         store.bookings == Without(old(store.bookings), bookingId) &&
                         store.clients == old(store.clients))
  {
    var next := ex.AuthenticateToken(svc, now);
    if next {
      var message := store.DeleteBooking(bookingId);
      ex.response := Some(Response(200, Message(message)));
    }
  }
}
