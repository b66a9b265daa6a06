/** The two tables of the booking database, `Clients` and `Bookings`, as sequences of rows in
    table order, and the read-only queries of database.js as functions over them. Columns that
    requests may leave undefined are nullable: mysql2 sends `undefined` as SQL NULL. */
module Tables {
  import opened Wrappers
  import opened Hashing
  import opened Claims

  /** SQL `a = b` in a WHERE clause: NULL equals nothing, not even NULL. Strings compare exactly. */
  predicate SqlEq<T(==)>(a: Option<T>, b: Option<T>): (r: bool)
    ensures r ==> a == b
    ensures a.None? || b.None? ==> !r
    ensures a.Some? && a == b ==> r
  {
    a.Some? && b.Some? && a.value == b.value
  }

  /** A row of `Clients`; `Password` holds the bcrypt digest. */
  datatype Client = Client(id: int, name: Option<string>, email: Option<string>, phone: Option<string>, password: Digest)

  /** The five columns of a booking that updateBooking overwrites together. */
  datatype BookingFields = BookingFields(
    serviceName: Option<string>, date: Option<string>, time: Option<string>,
    location: Option<string>, notes: Option<string>)

  /** A row of `Bookings`. */
  datatype Booking = Booking(id: int, clientId: int, fields: BookingFields)

  /** The result of validateUser: `{ valid: false }` or `{ valid: true, user }`. */
  datatype Validation = Invalid | Valid(user: Identity)

  /** The row getUserByEmail returns: Name, Email and PhoneNumber, nothing else. */
  datatype PublicClient = PublicClient(name: Option<string>, email: Option<string>, phoneNumber: Option<string>)

  /** One element of the profile's `bookings`; `bookingId` is NULL on the LEFT JOIN placeholder. */
  datatype BookingEntry = BookingEntry(bookingId: Option<int>, fields: BookingFields)

  /** What getUserAndBookingsByEmail returns for a known email. */
  datatype Profile = Profile(email: Option<string>, name: Option<string>, phoneNumber: Option<string>, bookings: seq<BookingEntry>)

  /** A row of `Clients LEFT JOIN Bookings`: the booking columns are all NULL when the client has none. */
  datatype JoinRow = JoinRow(client: Client, booking: Option<Booking>)

  // ---------------------------------------------------------------- invariants

  predicate EmailTaken(clients: seq<Client>, email: Option<string>) {
    exists i :: 0 <= i < |clients| && SqlEq(clients[i].email, email)
  }

  /** No two clients share a (non-null) email. */
  predicate UniqueEmails(clients: seq<Client>) {
    forall i, j :: 0 <= i < j < |clients| ==> !SqlEq(clients[i].email, clients[j].email)
  }

  predicate HasClient(clients: seq<Client>, id: int) {
    exists k :: 0 <= k < |clients| && clients[k].id == id
  }

  /** AUTO_INCREMENT keys: positive, below the next key to hand out, increasing in table order. */
  predicate ClientKeys(clients: seq<Client>, next: int) {
    (forall i :: 0 <= i < |clients| ==> 0 < clients[i].id < next) &&
    (forall i, j :: 0 <= i < j < |clients| ==> clients[i].id < clients[j].id)
  }

  predicate BookingKeys(bookings: seq<Booking>, next: int) {
    (forall i :: 0 <= i < |bookings| ==> 0 < bookings[i].id < next) &&
    (forall i, j :: 0 <= i < j < |bookings| ==> bookings[i].id < bookings[j].id)
  }

  /** The database invariant: keys, email uniqueness, and every booking's ClientID names a client. */
  predicate Consistent(clients: seq<Client>, bookings: seq<Booking>, nextClientId: int, nextBookingId: int) {
    ClientKeys(clients, nextClientId) && BookingKeys(bookings, nextBookingId) &&
    UniqueEmails(clients) &&
    forall i :: 0 <= i < |bookings| ==> HasClient(clients, bookings[i].clientId)
  }

  /** Appending a client whose email is not taken keeps emails unique. */
  lemma RegistrationKeepsEmailsUnique(clients: seq<Client>, c: Client)
    requires UniqueEmails(clients) && !EmailTaken(clients, c.email)
    ensures UniqueEmails(clients + [c])
  {
    var all := clients + [c];
    forall i, j | 0 <= i < j < |all| ensures !SqlEq(all[i].email, all[j].email) {
      if j == |clients| {
        assert all[i] == clients[i] && all[j] == c;
        assert !SqlEq(clients[i].email, c.email);
      }
    }
  }

  // ---------------------------------------------------------------- queries

  /** `SELECT … FROM Clients WHERE Email = ?`, first row: the first client with that email. */
  function FindByEmail(clients: seq<Client>, email: Option<string>): (r: Option<Client>)
    ensures r.None? <==> !EmailTaken(clients, email)
    ensures r.Some? ==> exists i :: 0 <= i < |clients| && clients[i] == r.value && SqlEq(r.value.email, email)
  {
    if clients == [] then None
    else if SqlEq(clients[0].email, email) then Some(clients[0])
    else
      var r := FindByEmail(clients[1..], email);
      assert forall i :: 0 < i < |clients| ==> clients[i] == clients[1..][i - 1];
      assert EmailTaken(clients[1..], email) ==> EmailTaken(clients, email);
      r
  }

  /** With unique emails the client found is the only one with that email. */
  lemma FoundIsOnly(clients: seq<Client>, email: Option<string>, k: int)
    requires UniqueEmails(clients)
    requires 0 <= k < |clients| && SqlEq(clients[k].email, email)
    ensures FindByEmail(clients, email) == Some(clients[k])
  {
    forall i | 0 <= i < |clients| && i != k ensures !SqlEq(clients[i].email, email) {
      if i < k { assert !SqlEq(clients[i].email, clients[k].email); }
      else { assert !SqlEq(clients[k].email, clients[i].email); }
    }
    var r := FindByEmail(clients, email);
    var i :| 0 <= i < |clients| && clients[i] == r.value && SqlEq(r.value.email, email);
  }

  /** validateUser: look the client up by email, then bcrypt.compare the password with the
      stored hash. bcrypt.compare throws when the password is missing. */
  function ValidateUser(clients: seq<Client>, kdf: Kdf, email: Option<string>, password: Option<string>): (r: Result<Validation, string>)
    ensures r.Err? <==> EmailTaken(clients, email) && password.None?
    ensures r.Ok? && r.value.Valid? ==>
              email == Some(r.value.user.email) &&
              password.Some? &&
              exists i :: 0 <= i < |clients| && clients[i].id == r.value.user.id && clients[i].email == email
                          && Matches(kdf, password.value, clients[i].password)
  {
    match FindByEmail(clients, email)
    case None => Ok(Invalid)
    case Some(c) =>
      if password.None? then Err("data and hash arguments required")
      else if Matches(kdf, password.value, c.password) then Ok(Valid(Identity(c.id, c.email.value)))
      else Ok(Invalid)
  }

  /** With unique emails, login succeeds exactly for the stored email and a password matching
      the stored hash, and hands out that client's id and email. */
  lemma ValidateUserIff(clients: seq<Client>, kdf: Kdf, email: string, password: string, k: int)
    requires UniqueEmails(clients)
    requires 0 <= k < |clients| && clients[k].email == Some(email)
    ensures ValidateUser(clients, kdf, Some(email), Some(password)) ==
      if Matches(kdf, password, clients[k].password) then Ok(Valid(Identity(clients[k].id, email))) else Ok(Invalid)
  {
    FoundIsOnly(clients, Some(email), k);
  }

  /** An unknown email and a wrong password give the caller the same answer. */
  lemma FailuresIndistinguishable(clients: seq<Client>, kdf: Kdf, email: Option<string>, password: string)
    requires !EmailTaken(clients, email) ||
             !Matches(kdf, password, FindByEmail(clients, email).value.password)
    ensures ValidateUser(clients, kdf, email, Some(password)) == Ok(Invalid)
  {
  }

  /** getUserByEmail: Name, Email and PhoneNumber of the first client with that email, or null. */
  function GetUserByEmail(clients: seq<Client>, email: string): (r: Option<PublicClient>)
    ensures r.None? <==> !EmailTaken(clients, Some(email))
    ensures r.Some? ==> r.value.email == Some(email)
    ensures r.Some? ==> exists i :: 0 <= i < |clients| && clients[i].email == Some(email) &&
                                    r.value == PublicClient(clients[i].name, clients[i].email, clients[i].phone)
  {
    match FindByEmail(clients, Some(email))
    case None => None
    case Some(c) => Some(PublicClient(c.name, c.email, c.phone))
  }

  /** getClientIdByEmail: the ClientID of the first client with that email, or null. */
  function GetClientIdByEmail(clients: seq<Client>, email: string): (r: Option<int>)
    ensures r.None? <==> !EmailTaken(clients, Some(email))
    ensures r.Some? ==> exists i :: 0 <= i < |clients| && clients[i].email == Some(email) && clients[i].id == r.value
  {
    match FindByEmail(clients, Some(email))
    case None => None
    case Some(c) => Some(c.id)
  }

  // ---------------------------------------------------------------- profile

  /** `Bookings b … ON c.ClientID = b.ClientID`: the client's bookings, in table order. */
  function OwnedBy(bookings: seq<Booking>, clientId: int): (r: seq<Booking>)
    ensures forall b :: b in r <==> b in bookings && b.clientId == clientId
  {
    if bookings == [] then []
    else
      assert bookings == [bookings[0]] + bookings[1..];
      if bookings[0].clientId == clientId then [bookings[0]] + OwnedBy(bookings[1..], clientId)
      else OwnedBy(bookings[1..], clientId)
  }

  /** The LEFT JOIN rows of one client: one per booking, or one NULL-filled placeholder. */
  function RowsFor(c: Client, bookings: seq<Booking>): (rows: seq<JoinRow>)
    ensures |rows| > 0
    ensures forall i :: 0 <= i < |rows| ==> rows[i].client == c
    ensures OwnedBy(bookings, c.id) == [] ==> rows == [JoinRow(c, None)]
    ensures OwnedBy(bookings, c.id) != [] ==>
              |rows| == |OwnedBy(bookings, c.id)| &&
              forall i :: 0 <= i < |rows| ==> rows[i].booking == Some(OwnedBy(bookings, c.id)[i])
  {
    var own := OwnedBy(bookings, c.id);
    if own == [] then [JoinRow(c, None)]
    else seq(|own|, i requires 0 <= i < |own| => JoinRow(c, Some(own[i])))
  }

  /** `Clients c LEFT JOIN Bookings b … WHERE c.Email = ?`, clients in table order. */
  function JoinRows(clients: seq<Client>, bookings: seq<Booking>, email: string): (rows: seq<JoinRow>)
    ensures |rows| == 0 <==> !EmailTaken(clients, Some(email))
    ensures forall i :: 0 <= i < |rows| ==> rows[i].client in clients && SqlEq(rows[i].client.email, Some(email))
  {
    if clients == [] then []
    else
      var here := if SqlEq(clients[0].email, Some(email)) then RowsFor(clients[0], bookings) else [];
      var rest := JoinRows(clients[1..], bookings, email);
      assert forall i :: 0 < i < |clients| ==> clients[i] == clients[1..][i - 1];
      assert EmailTaken(clients[1..], Some(email)) ==> EmailTaken(clients, Some(email));
      assert forall i :: |here| <= i < |here + rest| ==> (here + rest)[i] == rest[i - |here|];
      here + rest
  }

  /** The `rows.map(row => ({ bookingID: row.BookingID, … }))` step. */
  function ToEntry(row: JoinRow): (e: BookingEntry)
    ensures e.bookingId.Some? <==> row.booking.Some?
    ensures row.booking.Some? ==> e.bookingId == Some(row.booking.value.id) && e.fields == row.booking.value.fields
    ensures row.booking.None? ==> e.fields == BookingFields(None, None, None, None, None)
  {
    match row.booking
    case None => BookingEntry(None, BookingFields(None, None, None, None, None))
    case Some(b) => BookingEntry(Some(b.id), b.fields)
  }

  /** The `.filter(booking => booking.bookingID != null)` step. */
  function NonNull(entries: seq<BookingEntry>): (r: seq<BookingEntry>)
    ensures forall e :: e in r <==> e in entries && e.bookingId.Some?
  {
    if entries == [] then []
    else
      assert entries == [entries[0]] + entries[1..];
      if entries[0].bookingId.Some? then [entries[0]] + NonNull(entries[1..])
      else NonNull(entries[1..])
  }

  /** getUserAndBookingsByEmail: null when no row comes back; otherwise email, name and phone
      of the first row and the non-placeholder bookings of all rows. */
  function ProfileOf(clients: seq<Client>, bookings: seq<Booking>, email: string): (r: Option<Profile>)
    ensures r.None? <==> !EmailTaken(clients, Some(email))
    ensures r.Some? ==> r.value.email == Some(email)
  {
    var rows := JoinRows(clients, bookings, email);
    if |rows| > 0 then
      Some(Profile(rows[0].client.email, rows[0].client.name, rows[0].client.phone,
                   NonNull(seq(|rows|, i requires 0 <= i < |rows| => ToEntry(rows[i])))))
    else None
  }

  /** A booking as it appears in a profile: its id and its five fields, unmodified. */
  function Entries(bs: seq<Booking>): (r: seq<BookingEntry>)
    ensures |r| == |bs|
    ensures forall i :: 0 <= i < |bs| ==> r[i] == BookingEntry(Some(bs[i].id), bs[i].fields)
  {
    seq(|bs|, i requires 0 <= i < |bs| => BookingEntry(Some(bs[i].id), bs[i].fields))
  }

  lemma {:induction false} NonNullKeepsAll(entries: seq<BookingEntry>)
    requires forall i :: 0 <= i < |entries| ==> entries[i].bookingId.Some?
    ensures NonNull(entries) == entries
  {
    if entries != [] {
      NonNullKeepsAll(entries[1..]);
    }
  }

  /** With unique emails, the join rows are exactly those of the one matching client. */
  lemma {:induction false} JoinRowsOfOnly(clients: seq<Client>, bookings: seq<Booking>, email: string, k: int)
    requires UniqueEmails(clients)
    requires 0 <= k < |clients| && clients[k].email == Some(email)
    ensures JoinRows(clients, bookings, email) == RowsFor(clients[k], bookings)
  {
    var rest := clients[1..];
    assert forall i :: 0 < i < |clients| ==> clients[i] == rest[i - 1];
    if k == 0 {
      forall i | 0 <= i < |rest| ensures !SqlEq(rest[i].email, Some(email)) {
        assert !SqlEq(clients[0].email, clients[i + 1].email);
      }
      assert JoinRows(rest, bookings, email) == [];
    } else {
      assert !SqlEq(clients[0].email, clients[k].email);
      assert UniqueEmails(rest) by {
        forall i, j | 0 <= i < j < |rest| ensures !SqlEq(rest[i].email, rest[j].email) {
          assert !SqlEq(clients[i + 1].email, clients[j + 1].email);
        }
      }
      JoinRowsOfOnly(rest, bookings, email, k - 1);
    }
  }

  /** The profile of a client: its own name, email and phone, and exactly its bookings with
      their fields copied unmodified, in table order. A client with no bookings gets `[]`,
      not the NULL placeholder. */
  lemma ProfileIsOwnBookings(clients: seq<Client>, bookings: seq<Booking>, email: string, k: int)
    requires UniqueEmails(clients)
    requires 0 <= k < |clients| && clients[k].email == Some(email)
    ensures ProfileOf(clients, bookings, email) ==
      Some(Profile(clients[k].email, clients[k].name, clients[k].phone, Entries(OwnedBy(bookings, clients[k].id))))
  {
    var c := clients[k];
    JoinRowsOfOnly(clients, bookings, email, k);
    var rows := RowsFor(c, bookings);
    var mapped := seq(|rows|, i requires 0 <= i < |rows| => ToEntry(rows[i]));
    var own := OwnedBy(bookings, c.id);
    if own == [] {
      assert mapped == [BookingEntry(None, BookingFields(None, None, None, None, None))];
      assert NonNull(mapped) == [];
    } else {
      assert mapped == Entries(own);
      NonNullKeepsAll(mapped);
    }
  }

  /** A booking appended for a client is the last of that client's bookings. */
  lemma {:induction false} OwnedByAppend(bookings: seq<Booking>, b: Booking)
    ensures OwnedBy(bookings + [b], b.clientId) == OwnedBy(bookings, b.clientId) + [b]
  {
    if bookings == [] {
      assert [] + [b] == [b];
    } else {
      assert (bookings + [b])[1..] == bookings[1..] + [b];
      OwnedByAppend(bookings[1..], b);
    }
  }

  /** After a booking is added for a client, that client's profile ends with it, fields unmodified. */
  lemma CreatedBookingInProfile(clients: seq<Client>, bookings: seq<Booking>, email: string, k: int, b: Booking)
    requires UniqueEmails(clients)
    requires 0 <= k < |clients| && clients[k].email == Some(email) && b.clientId == clients[k].id
    ensures ProfileOf(clients, bookings + [b], email).Some?
    ensures ProfileOf(clients, bookings + [b], email).value.bookings ==
            ProfileOf(clients, bookings, email).value.bookings + [BookingEntry(Some(b.id), b.fields)]
  {
    ProfileIsOwnBookings(clients, bookings, email, k);
    ProfileIsOwnBookings(clients, bookings + [b], email, k);
    OwnedByAppend(bookings, b);
    var own := OwnedBy(bookings, b.clientId);
    assert Entries(own + [b]) == Entries(own) + [BookingEntry(Some(b.id), b.fields)];
  }

  // ---------------------------------------------------------------- updates

  /** `UPDATE Bookings SET ServiceName = ?, … WHERE BookingID = ?`: the rows whose key equals the
      given id get the new fields; keys and ClientIDs stay, and so does every other row. */
  function Overwrite(bookings: seq<Booking>, id: Option<int>, f: BookingFields): (r: seq<Booking>)
    ensures |r| == |bookings|
    ensures forall i :: 0 <= i < |r| ==> r[i].id == bookings[i].id && r[i].clientId == bookings[i].clientId
    ensures forall i :: 0 <= i < |r| ==> r[i].fields == if SqlEq(Some(bookings[i].id), id) then f else bookings[i].fields
  {
    seq(|bookings|, i requires 0 <= i < |bookings| =>
      if SqlEq(Some(bookings[i].id), id) then bookings[i].(fields := f) else bookings[i])
  }

  /** An id that matches no row changes nothing. */
  lemma OverwriteMissingIsNoOp(bookings: seq<Booking>, id: Option<int>, f: BookingFields)
    requires forall i :: 0 <= i < |bookings| ==> !SqlEq(Some(bookings[i].id), id)
    ensures Overwrite(bookings, id, f) == bookings
  {
    var r := Overwrite(bookings, id, f);
    assert forall i :: 0 <= i < |r| ==> r[i] == bookings[i];
  }

  /** `DELETE FROM Bookings WHERE BookingID = ?`. */
  function Without(bookings: seq<Booking>, id: int): (r: seq<Booking>)
    ensures forall b :: b in r <==> b in bookings && b.id != id
    ensures |r| <= |bookings|
  {
    if bookings == [] then []
    else
      assert bookings == [bookings[0]] + bookings[1..];
      if bookings[0].id == id then Without(bookings[1..], id)
      else [bookings[0]] + Without(bookings[1..], id)
  }

  /** Deleting twice is deleting once. */
  lemma {:induction false} DeleteIdempotent(bookings: seq<Booking>, id: int)
    ensures Without(Without(bookings, id), id) == Without(bookings, id)
  {
    if bookings != [] {
      DeleteIdempotent(bookings[1..], id);
    }
  }

  /** Deleting an id no row has leaves the table as it was. */
  lemma {:induction false} DeleteMissingIsNoOp(bookings: seq<Booking>, id: int)
    requires forall i :: 0 <= i < |bookings| ==> bookings[i].id != id
    ensures Without(bookings, id) == bookings
  {
    if bookings != [] {
      DeleteMissingIsNoOp(bookings[1..], id);
      assert [bookings[0]] + bookings[1..] == bookings;
    }
  }

  /** Deleting keeps keys increasing. */
  lemma {:induction false} DeleteKeepsKeys(bookings: seq<Booking>, id: int, next: int)
    requires BookingKeys(bookings, next)
    ensures BookingKeys(Without(bookings, id), next)
  {
    if bookings != [] {
      var rest := bookings[1..];
      assert forall i :: 0 < i < |bookings| ==> bookings[i] == rest[i - 1];
      DeleteKeepsKeys(rest, id, next);
      if bookings[0].id != id {
        var w := Without(rest, id);
        var r := [bookings[0]] + w;
        forall j | 0 < j < |r| ensures bookings[0].id < r[j].id {
          assert r[j] in w;
          assert r[j] in rest;
        }
      }
    }
  }

  /** `UPDATE Clients SET Name = ?, PhoneNumber = ? WHERE ClientID = ?`: Email, Password and
      keys stay, rows with other ids stay. */
  function WithClientInfo(clients: seq<Client>, id: int, name: Option<string>, phone: Option<string>): (r: seq<Client>)
    ensures |r| == |clients|
    ensures forall i :: 0 <= i < |r| ==>
      r[i].id == clients[i].id && r[i].email == clients[i].email && r[i].password == clients[i].password
    ensures forall i :: 0 <= i < |r| ==>
      if clients[i].id == id then r[i].name == name && r[i].phone == phone else r[i] == clients[i]
  {
    seq(|clients|, i requires 0 <= i < |clients| =>
      if clients[i].id == id then clients[i].(name := name, phone := phone) else clients[i])
  }
}
