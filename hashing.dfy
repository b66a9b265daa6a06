/** Password hashing as the store uses it: `bcrypt.hash(password, 10)` on registration and
    `bcrypt.compare(password, stored)` on login. The key-derivation core of bcrypt is not
    modelled: it is a parameter `kdf`, and any total function will do. What the model relies
    on is only that a password matches its own hash. */
module Hashing {

  type Salt = seq<bv8>

  /** bcrypt's expensive key derivation: password, cost factor and salt to a checksum. */
  type Kdf = (string, nat, Salt) -> seq<bv8>

  /** The cost factor newClient passes to bcrypt.hash. */
  const SaltRounds: nat := 10

  /** A stored bcrypt hash: cost, salt and checksum (never the password itself). */
  datatype Digest = Digest(cost: nat, salt: Salt, checksum: seq<bv8>)

  /** bcrypt.compare: re-derive with the stored cost and salt and compare checksums. */
  predicate Matches(kdf: Kdf, password: string, stored: Digest) {
    kdf(password, stored.cost, stored.salt) == stored.checksum
  }

  /** bcrypt.hash with a freshly drawn salt (the randomness is the parameter `salt`). */
  function Hash(kdf: Kdf, password: string, salt: Salt): (h: Digest)
    ensures Matches(kdf, password, h)
    ensures h.cost == SaltRounds && h.salt == salt
  {
    Digest(SaltRounds, salt, kdf(password, SaltRounds, salt))
  }

  /** bcrypt.compare against a digest of the store's cost is the same as hashing the password
      again with the stored salt and comparing whole digests. */
  lemma CompareIsRehash(kdf: Kdf, password: string, stored: Digest)
    requires stored.cost == SaltRounds
    ensures Matches(kdf, password, stored) <==> Hash(kdf, password, stored.salt) == stored
  {
  }
}
