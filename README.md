# Booking backend: data layer and request decisions

This project models the core of a small booking backend. Clients register, log in, and get a
JSON Web Token. With that token they create, update and delete bookings and read their profile.
The model covers two parts:

- **The data layer (`database.js`)** works over two MySQL tables, `Clients` and `Bookings`. Here
  they are two sequences of rows in table order, held by a `Store` class together with their
  AUTO_INCREMENT counters.
  - The statements that change the tables (`newClient`, `createBooking`, `updateBooking`,
    `deleteBooking`, `updateClientInfo`) are methods of that class. Each method keeps the database
    invariant `Store.Valid()`: keys are increasing, no two clients share an email, and every
    booking names an existing client.
  - The queries (`validateUser`, `getUserByEmail`, `getClientIdByEmail`,
    `getUserAndBookingsByEmail`) are functions over the rows. `getAllClients` and
    `getAllBookings` are the two table fields themselves.
- **The request side (`app.js`)**:
  - `authenticateToken` is modelled twice: as a pure decision (`Gate.Authenticate`) and as the
    middleware that writes `req.user` or the response (`Gate.Exchange.AuthenticateToken`).
  - Each route handler maps the store's result to a status code and a body.

Module layout, leaves first:

| module | contents |
|---|---|
| `Wrappers` | `Option` for undefined/null/NULL values, `Result` for a call that returns or throws |
| `Claims` | `Identity`, the `{ id, email }` that validateUser returns and a token carries |
| `Hashing` | bcrypt as an uninterpreted key derivation `kdf`; `Hash` and `Matches`, with `Matches(p, Hash(p, s))` |
| `Tables` | row types, SQL `=` on nullable values, the database invariant, the queries, and the row transformations of UPDATE and DELETE |
| `Database` | class `Store`: an in-memory stand-in for the connection pool and the two tables |
| `Tokens` | `jwt.sign` / `jwt.verify` with the MAC and the serialisation as parameters, and the clock as `now` |
| `Header` | JavaScript's `split(' ')` and the token extraction `authHeader && authHeader.split(' ')[1]` |
| `Http`, `Gate` | response values; the access gate |
| `Routes` | the eight route handlers |
| `Scenarios` | two callers that reason only from the contracts: a duplicate registration, and a booking's way from creation to the profile to a repeated delete |

Modelling choices:

- **SQL NULL.** A JSON body field that is left out reaches mysql2 as `undefined`, and mysql2 sends
  that as SQL NULL. So every free-text column and body field is an `Option<string>`. A
  `WHERE Email = ?` comparison is `SqlEq`, under which NULL equals nothing. As a result, a
  registration without an email never collides with anything. Email uniqueness is therefore
  stated over non-null emails.
- **String comparison.** Emails compare by exact, case-sensitive match (a binary collation). The
  schema is not part of this model.
- **Foreign key.** `createBooking` inserts without any checks of its own. The model assumes a
  foreign key from `Bookings.ClientID` to `Clients.ClientID`; the schema is not in the source.
  When the key fails, the insert is refused and the route answers 500.
- **Empty `Authorization` header.** The code differs here from the usual reading of the header.
  An empty header makes `authHeader && …` evaluate to `""`, which is not `null`. So the empty
  token goes to `jwt.verify`, which rejects it, and the answer is 403, not 401. A non-empty header
  without a space has no second field, and that gives 401. A header with a second field that is
  empty, such as `"Bearer "`, also gives 403.
- **Missing password.** `bcrypt.hash` and `bcrypt.compare` throw when the password is undefined.
  For `/clients` this means 500 and no insert. `/login` has no `try/catch`, so the rejected
  promise leaves the route without a response (`Http.Unanswered`).
- **Ownership.** `/updateBooking` and `/deleteBooking` never compare the booking's `ClientID`
  with the token's identity. The route contracts say this outright: the new booking table does
  not depend on `req.user`.
- **Row order.** A SQL result has no fixed row order, and the join of getUserAndBookingsByEmail
  has no `ORDER BY`. The model takes table order. This decides which row is `rows[0]`, and it
  also decides the order of a profile's `bookings`, because the `map` and `filter` steps keep
  the order of the join rows.
- **Keys.** Keys come from counters that start at 1 and grow by one per insert. Whether MySQL
  spends a key on a failed insert is not modelled.

## Model

| member | source | states |
|---|---|---|
| `Database.Store.NewClient` | database.js:231-253 | a taken email yields "Email already exists" and changes nothing; a missing password yields bcrypt's error and changes nothing; otherwise exactly one client row is appended, with a fresh id, the given name, email and phone, and `Hash(password)` in place of the password; returns the fixed success message; emails stay unique |
| `Tables.RegistrationKeepsEmailsUnique` | database.js:234-246 | appending a client whose email is not taken keeps "no two clients share an email" |
| `Database.ClientAppendKeepsReferences` | database.js:242-246 | appending a client keeps every booking's ClientID pointing at a client |
| `Hashing.CompareIsRehash` | database.js:116 | `bcrypt.compare` against a digest of cost 10 accepts exactly when hashing the password again with the stored salt gives the stored digest |
| `Hashing.Hash` | database.js:241 | the stored digest matches the password it was made from (`Matches(p, Hash(p, s))`) and records cost 10 and the drawn salt |
| `Database.Store.CreateBooking` | database.js:214-227 | appends exactly one booking with a fresh id and the given client id and fields, unvalidated, when the client exists; otherwise fails and changes nothing; existing rows and the clients table are unchanged |
| `Database.Store.UpdateBooking` | database.js:40-53 | the booking table becomes `Overwrite(old, id, fields)`; the clients table is untouched; always returns the success message |
| `Tables.Overwrite` | database.js:42-47 | same length; every row keeps its BookingID and ClientID; rows whose id equals the given one get exactly the five new fields; all other rows keep theirs |
| `Tables.OverwriteMissingIsNoOp` | database.js:42-48 | an id that matches no booking leaves the table unchanged |
| `Database.Store.DeleteBooking` | database.js:29-38 | the booking table becomes `Without(old, id)`; the clients table is untouched; always returns the success message |
| `Tables.Without` | database.js:31 | a row survives exactly when it was there and its id differs from the deleted one |
| `Tables.DeleteIdempotent` | database.js:29-33 | deleting the same id twice equals deleting it once |
| `Tables.DeleteMissingIsNoOp` | database.js:29-33 | deleting an id that no booking has leaves the table as it was |
| `Tables.DeleteKeepsKeys` | database.js:31 | after a delete, booking keys are still positive, below the counter and increasing |
| `Database.Store.UpdateClientInfo` | database.js:88-101 | the clients table becomes `WithClientInfo(old, id, name, phone)`; bookings are untouched; always returns the success message |
| `Tables.WithClientInfo` | database.js:90-95 | only Name and PhoneNumber of the rows with that ClientID change; Email, Password and ids of all rows stay; rows with other ids, and every row when the id is unknown, are unchanged |
| `Tables.SqlEq` | database.js:108 | SQL `=` in a WHERE clause holds only between equal non-NULL values: NULL equals nothing, not even NULL |
| `Tables.FindByEmail` | database.js:108-113 | finds a client exactly when some client's email equals the given one (NULL matches none); the one found is in the table and has that email |
| `Tables.FoundIsOnly` | database.js:108-113 | with unique emails, the client found is the one client with that email |
| `Tables.ValidateUser` | database.js:105-128 | `{valid: true, user}` only for a client with that email whose stored hash matches the password, and `user` is that client's id and email; throws exactly when the email is known and the password is missing |
| `Tables.ValidateUserIff` | database.js:108-123 | with unique emails, a stored email and a given password yield `Valid({id, email})` if the password matches the stored hash, and `Invalid` otherwise |
| `Tables.FailuresIndistinguishable` | database.js:112-123 | an unknown email and a wrong password give the same `{valid: false}` |
| `Tables.GetUserByEmail` | database.js:133-146 | null exactly when no client has the email; otherwise Name, Email and PhoneNumber of such a client, and no password |
| `Tables.GetClientIdByEmail` | database.js:169-184 | null exactly when no client has the email; otherwise the ClientID of such a client |
| `Tables.OwnedBy` | database.js:60 | a booking appears exactly when it is in the table and its ClientID is the client's |
| `Tables.RowsFor` | database.js:57-62 | a client's LEFT JOIN rows all carry that client; a client without bookings gets exactly one row with NULL booking columns; otherwise there is one row per own booking, in table order, carrying that booking |
| `Tables.JoinRows` | database.js:57-62 | the join is empty exactly when no client has the email, and every row belongs to a client with that email |
| `Tables.ToEntry` | database.js:70-76 | an entry's `bookingID` is null exactly for the NULL-filled placeholder row; otherwise it is the booking's id, with the booking's five fields copied unmodified |
| `Tables.NonNull` | database.js:77 | keeps exactly the entries whose bookingID is not null |
| `Tables.ProfileOf` | database.js:56-86 | null exactly when no client has the email; otherwise a profile with that email |
| `Tables.JoinRowsOfOnly` | database.js:57-62 | with unique emails, the join rows are exactly those of the one matching client |
| `Tables.ProfileIsOwnBookings` | database.js:56-80 | with unique emails, the profile holds the client's email, name and phone, and its `bookings` are exactly that client's bookings with id and fields copied unmodified; a client without bookings gets `[]` |
| `Tables.CreatedBookingInProfile` | database.js:214-222 | after a booking is added for a client, that client's profile lists it last, with its fields unmodified, after the earlier ones |
| `Header.Split` | app.js:122 | `split(' ')` gives at least one field; no field contains the separator; joining the fields gives back the header |
| `Header.SplitIsSingleIff` | app.js:122 | a header splits into one field exactly when it contains no space |
| `Header.SplitAfterField` | app.js:122 | a space-free word followed by a space splits off as the first field |
| `Header.ExtractToken` | app.js:121-123 | no token exactly when the header is absent, or is non-empty and has no space; the token never contains a space; an empty header yields the empty token |
| `Header.BearerHeaderYieldsToken` | app.js:121-122 | `<scheme> <token>` yields the token for any space-free scheme word: "Bearer" is not checked |
| `Header.TrailingFieldsIgnored` | app.js:122 | fields after the second are ignored |
| `Tokens.Issue` | app.js:111 | the token carries exactly the given `{id, email}`, `iat = now` and `exp = now + 3600`, under the server's MAC |
| `Tokens.Sign` | app.js:111 | when the serialisation is faithful on the issued token, the string returned is non-empty and decodes back to exactly that token |
| `Tokens.Verify` | app.js:125 | an empty token is rejected; a token that verifies decoded to that payload, carries the server's MAC and has not expired; a bad-signature rejection means the MAC did not match |
| `Tokens.SignedTokenVerifies` | app.js:111-127 | a token issued at `iat` verifies to exactly its claims at any time before `iat + 3600` |
| `Tokens.SignedTokenExpires` | app.js:111-126 | the same token is rejected as expired from `iat + 3600` on |
| `Gate.Authenticate` | app.js:120-130 | 401 exactly when no token can be extracted; 403 exactly when a token is present and verification fails; otherwise the handler runs with `req.user` set to the verified payload |
| `Gate.AdmittedMeansAuthentic` | app.js:125-128 | an admitted caller presented a token with the server's MAC that has not expired, and `req.user` is its payload |
| `Gate.NoTokenIsUnauthorized` | app.js:121-123 | an absent header, or a non-empty header without a space, gets 401 |
| `Gate.EmptyHeaderIsForbidden` | app.js:121-126 | an empty header gets 403 |
| `Gate.IssuedTokenIsAdmitted` | app.js:111-128 | `<scheme> <token issued at iat>` before `iat + 3600` admits the caller as exactly the token's identity |
| `Gate.ExpiredTokenIsForbidden` | app.js:111-126 | the same header from `iat + 3600` on gets 403 |
| `Gate.Exchange.AuthenticateToken` | app.js:120-130 | sends the 401 or 403 of `Authenticate` and leaves `req.user` alone, or sets `req.user` to the verified payload, sends nothing and calls `next` |
| `Routes.ClientsResponse` | app.js:86-99 | 201 exactly on success, with the store's message; 400 exactly for the error "Email already exists"; every other error gives 500 with a fixed body, so no error detail leaks |
| `Routes.ClientsRoute` | app.js:86-99 | a taken email gets 400 and the clients table is unchanged; a missing password gets 500 and the table is unchanged; otherwise 201 and exactly one client appended |
| `Routes.LoginRoute` | app.js:104-116 | 200 with a token over exactly the validated `{id, email}` at time `now`; 401 "Invalid credentials" exactly when validation says invalid; no response exactly when validation throws |
| `Routes.LoginThenAccess` | app.js:104-130 | logging in with a stored email and a matching password yields a token; presenting it as `Bearer <token>` within the hour admits the caller as that client's id and email |
| `Routes.UserRoute` | app.js:52-65 | 404 exactly when no client has the email; otherwise 200 with that client's name, email and phone |
| `Routes.ProfileResponse` | app.js:155-161 | 404 exactly when no client has the token's email; otherwise 200 with that email's profile |
| `Routes.ProfileShowsOwnBookings` | app.js:155-161 | with unique emails, `/profile` returns the token holder's record and exactly that client's bookings |
| `Routes.ProfileRoute` | app.js:153-167 | the gate's 401/403, or the profile response for the email in the verified token |
| `Routes.BookingsRoute` | app.js:171-184 | the gate's 401/403 with no change; otherwise a booking for the token's client id, with body `serviceType` as service name, and 201; 500 and no change when the foreign key fails |
| `Routes.Falsy` | app.js:73 | `!v` on a string field: undefined, null and the empty string are falsy; every non-empty string, "0" and " " included, is truthy |
| `Routes.UpdateUserInfoRoute` | app.js:67-83 | the gate's 401/403 with no change; a missing or empty name or phone number gets 400 with no change; otherwise the update targets the token's client id and gets 200 |
| `Routes.UpdateBookingRoute` | app.js:26-35 | the gate's 401/403 with no change; otherwise `Overwrite(old, bookingId, fields)` and 200, whoever the caller is |
| `Routes.DeleteBookingRoute` | app.js:38-47 | the gate's 401/403 with no change; otherwise `Without(old, bookingId)` and 200, whoever the caller is |

## Left out

- The MySQL connection pool and its environment configuration: the `Store` class stands in for them.
- The column types and constraints of the schema, which is not part of this model. All free-text columns are nullable strings with no type conversion (for example, dates are not parsed).
- `runQueries`, its call at module load, and all logging.
- `getServiceIdByName`: no live route uses it.
- bcrypt's internals: the Blowfish-based key derivation is the parameter `kdf`, and the random salt is the parameter `salt`.
- bcrypt's 72-byte truncation of passwords is not modelled.
- The HMAC-SHA256 signature and the compact JWT serialisation are left out: they are the `mac`, `encode` and `decode` parameters of `Tokens.TokenService`. The wall clock is the parameter `now`. An unset `JWT_SECRET` is not modelled.
- Only string body fields (or absent ones) are modelled, plus an integer `bookingId`. Numbers, booleans, arrays and objects in the other fields are not modelled. For example, the model cannot express that `phoneNumber: 0` is falsy and gets 400 from `/updateUserInfo`, nor that a numeric `password` makes bcrypt reject (500 from `/clients`, no answer from `/login`).
- `bookingId` is taken as an integer in both places it occurs: the path parameter of `/deleteBooking` and the body field of `/updateBooking`. The string-to-number conversion that MySQL applies to a string `bookingId` is not modelled.
- The order of a profile's `bookings` is the model's choice (table order), not a guarantee of SQL. `Tables.ProfileIsOwnBookings` and `Tables.CreatedBookingInProfile` state that order, and MySQL may return the same bookings in another order.
- Express setup, static file serving, morgan, the error middleware, `listen`, and JSON (de)serialisation.
- What Express and Node do with the rejected promise of `/login` depends on their versions, which are not part of this model.
- The check-then-insert race in `newClient`: registration is modelled sequentially. Under concurrency two clients could share an email, which `Store.Valid()` rules out here.
- Connection or statement failures of the database are not modelled: the in-memory store never fails them. The routes still map any error that is not the duplicate-email one to 500 (`Routes.ClientsResponse`).
- The commented-out code in both files, and the front-end scripts `public/assets/js/main.js` and `public/assets/vendor/php-email-form/validate.js`.
