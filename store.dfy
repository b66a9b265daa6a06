/** The mutating half of database.js: each exported function is one INSERT, UPDATE or DELETE
    (newClient a SELECT followed by an INSERT) over the tables held by a Store. Every method
    keeps the database invariant `Valid()`, of which email uniqueness is the part registration
    has to work for. */
module Database {
  import opened Wrappers
  import opened Hashing
  import opened Tables

  const EmailExists := "Email already exists"
  /** What bcrypt.hash throws when the password is undefined. */
  const HashArgumentsMissing := "data and salt arguments required"
  /** What MySQL reports when Bookings.ClientID names no client. */
  const ForeignKeyFails := "Cannot add or update a child row: a foreign key constraint fails"
  const ClientCreated := "Client successfully created."
  const ClientUpdated := "Client information updated successfully."
  const BookingCreated := "Booking successfully created."
  const BookingUpdated := "Booking updated successfully."
  const BookingDeleted := "Booking deleted successfully."

  class Store {
    /** `SELECT * FROM Clients` (getAllClients), in table order. */
    var clients: seq<Client>
    /** `SELECT * FROM Bookings` (getAllBookings), in table order. */
    var bookings: seq<Booking>
    /** The AUTO_INCREMENT counters of the two tables. */
    var nextClientId: int
    var nextBookingId: int

    ghost predicate Valid()
      reads this
    {
      0 < nextClientId && 0 < nextBookingId &&
      Consistent(clients, bookings, nextClientId, nextBookingId)
    }

    constructor ()
      ensures Valid()
      ensures clients == [] && bookings == []
      ensures nextClientId == 1 && nextBookingId == 1
    {
      clients := [];
      bookings := [];
      nextClientId := 1;
      nextBookingId := 1;
    }

    /** newClient: refuse a taken email, otherwise hash the password and insert the client.
        Only the hash is stored. */
    method NewClient(kdf: Kdf, salt: Salt, name: Option<string>, email: Option<string>,
                     phone: Option<string>, password: Option<string>)
      returns (r: Result<string, string>)
      requires Valid()
      modifies this
      ensures Valid()
      ensures bookings == old(bookings) && nextBookingId == old(nextBookingId)
      ensures EmailTaken(old(clients), email) ==> r == Err(EmailExists)
      ensures !EmailTaken(old(clients), email) && password.None? ==> r == Err(HashArgumentsMissing)
      ensures r.Err? ==> clients == old(clients) && nextClientId == old(nextClientId)
      ensures r.Ok? <==> !EmailTaken(old(clients), email) && password.Some?
      ensures r.Ok? ==> r.value == ClientCreated && nextClientId == old(nextClientId) + 1 &&
                        clients == old(clients) + [Client(old(nextClientId), name, email, phone,
                                                          Hash(kdf, password.value, salt))]
    {
      var existing := FindByEmail(clients, email);
      if existing.Some? {
        return Err(EmailExists);
      }
      if password.None? {
        return Err(HashArgumentsMissing);
      }
      var hashed := Hash(kdf, password.value, salt);
      var c := Client(nextClientId, name, email, phone, hashed);
      RegistrationKeepsEmailsUnique(clients, c);
      ClientAppendKeepsReferences(clients, bookings, c);
      clients := clients + [c];
      nextClientId := nextClientId + 1;
      r := Ok(ClientCreated);
    }

    /** createBooking: insert the booking as given, with no check on its fields; the ClientID
        foreign key must name a client. */
    method CreateBooking(clientId: int, fields: BookingFields) returns (r: Result<string, string>)
      requires Valid()
      modifies this
      ensures Valid()
      ensures clients == old(clients) && nextClientId == old(nextClientId)
      ensures r.Ok? <==> HasClient(clients, clientId)
      ensures r.Err? ==> r.error == ForeignKeyFails && bookings == old(bookings) && nextBookingId == old(nextBookingId)
      ensures r.Ok? ==> r.value == BookingCreated && nextBookingId == old(nextBookingId) + 1 &&
                        bookings == old(bookings) + [Booking(old(nextBookingId), clientId, fields)]
    {
      if !HasClient(clients, clientId) {
        return Err(ForeignKeyFails);
      }
      bookings := bookings + [Booking(nextBookingId, clientId, fields)];
      nextBookingId := nextBookingId + 1;
      r := Ok(BookingCreated);
    }

    /** updateBooking: overwrite the five fields of the booking with that id; an id that
        matches nothing changes nothing and still reports success. */
    method UpdateBooking(bookingId: Option<int>, fields: BookingFields) returns (message: string)
      requires Valid()
      modifies this
      ensures Valid()
      ensures message == BookingUpdated
      ensures bookings == Overwrite(old(bookings), bookingId, fields)
      ensures clients == old(clients) && nextClientId == old(nextClientId) && nextBookingId == old(nextBookingId)
    {
      bookings := Overwrite(bookings, bookingId, fields);
      message := BookingUpdated;
    }

    /** deleteBooking: remove the booking with that id, if any. */
    method DeleteBooking(bookingId: int) returns (message: string)
      requires Valid()
      modifies this
      ensures Valid()
      ensures message == BookingDeleted
      ensures bookings == Without(old(bookings), bookingId)
      ensures clients == old(clients) && nextClientId == old(nextClientId) && nextBookingId == old(nextBookingId)
    {
      DeleteKeepsKeys(bookings, bookingId, nextBookingId);
      var kept := Without(bookings, bookingId);
      forall i | 0 <= i < |kept| ensures HasClient(clients, kept[i].clientId) {
        assert kept[i] in bookings;
      }
      bookings := kept;
      message := BookingDeleted;
    }

    /** updateClientInfo: overwrite Name and PhoneNumber of the client with that id, if any. */
    method UpdateClientInfo(clientId: int, name: Option<string>, phone: Option<string>) returns (message: string)
      requires Valid()
      modifies this
      ensures Valid()
      ensures message == ClientUpdated
      ensures clients == WithClientInfo(old(clients), clientId, name, phone)
      ensures bookings == old(bookings) && nextClientId == old(nextClientId) && nextBookingId == old(nextBookingId)
    {
      var updated := WithClientInfo(clients, clientId, name, phone);
      forall i | 0 <= i < |bookings| ensures HasClient(updated, bookings[i].clientId) {
        var k :| 0 <= k < |clients| && clients[k].id == bookings[i].clientId;
        assert updated[k].id == bookings[i].clientId;
      }
      clients := updated;
      message := ClientUpdated;
    }
  }

  /** Clients are only ever appended to, so every booking keeps its client. */
  lemma ClientAppendKeepsReferences(clients: seq<Client>, bookings: seq<Booking>, c: Client)
    requires forall i :: 0 <= i < |bookings| ==> HasClient(clients, bookings[i].clientId)
    ensures forall i :: 0 <= i < |bookings| ==> HasClient(clients + [c], bookings[i].clientId)
  {
    forall i | 0 <= i < |bookings| ensures HasClient(clients + [c], bookings[i].clientId) {
      var k :| 0 <= k < |clients| && clients[k].id == bookings[i].clientId;
      assert (clients + [c])[k] == clients[k];
    }
  }
}
