/** The identity a client is known by once logged in: the `{ id, email }` object that
    validateUser hands out and that the access token carries as its payload. */
module Claims {
  datatype Identity = Identity(id: int, email: string)
}
