/** Callers that reason only from the contracts of the store and the routes. */
module Scenarios {
  import opened Wrappers
  import opened Hashing
  import opened Tables
  import opened Database
  import opened Http
  import opened Routes

  /** The second registration with the same email is refused, and one client row remains. */
  method DuplicateRegistration(kdf: Kdf, salt1: Salt, salt2: Salt) {
    var store := new Store();
    var first := ClientsRoute(store, kdf, salt1, Some("Ann"), Some("a@b.com"), Some("555"), Some("pw1"));
    assert first == Response(201, Message(ClientCreated));
    assert store.clients[0].email == Some("a@b.com");
    var second := ClientsRoute(store, kdf, salt2, Some("Bob"), Some("a@b.com"), Some("556"), Some("pw2"));
    assert second == Response(400, Text(EmailExists));
    assert |store.clients| == 1 && store.clients[0].name == Some("Ann");
  }

  /** A booking shows up in its owner's profile with its fields as given; deleting it twice
      is the same as deleting it once. */
  method BookingLifecycle(kdf: Kdf, salt: Salt, fields: BookingFields) {
    var store := new Store();
    var registered := store.NewClient(kdf, salt, Some("Ann"), Some("a@b.com"), Some("555"), Some("pw"));
    assert store.clients[0].id == 1;
    var created := store.CreateBooking(1, fields);
    assert created == Ok(BookingCreated);
    assert store.bookings == [Booking(1, 1, fields)];
    ProfileIsOwnBookings(store.clients, store.bookings, "a@b.com", 0);
    assert OwnedBy(store.bookings, 1) == [Booking(1, 1, fields)];
    assert ProfileOf(store.clients, store.bookings, "a@b.com").value.bookings == [BookingEntry(Some(1), fields)];
    var gone := store.DeleteBooking(1);
    assert store.bookings == [];
    var again := store.DeleteBooking(1);
    assert again == BookingDeleted && store.bookings == [];
    ProfileIsOwnBookings(store.clients, store.bookings, "a@b.com", 0);
    assert ProfileOf(store.clients, store.bookings, "a@b.com").value.bookings == [];
  }
}
