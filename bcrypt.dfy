/** The password hasher (`bcryptjs`), modelled symbolically. A digest is
    the term `Digest(cost, salt, secret)`: it records what it was computed
    from, so `compare` can be exact, and it has its own type, so a stored
    password can never be a plaintext string. The salt is the random value
    `bcrypt.hash` draws; it is a parameter of the model. */
module Bcrypt {

  /** The work factor every `bcrypt.hash(password, 10)` call in the controllers uses. */
  const COST: nat := 10

  datatype Salt = Salt(bits: nat)

  datatype Digest = Digest(cost: nat, salt: Salt, secret: string)

  /** `bcrypt.hash(password, 10)` with the salt it drew. */
  function Hash(password: string, salt: Salt): (h: Digest)
    ensures h.cost == COST && h.salt == salt
  {
    Digest(COST, salt, password)
  }

  /** `bcrypt.compare(password, hash)`: hashes the candidate again with the
      cost and salt recorded in `hash` and compares the results. */
  function Compare(password: string, h: Digest): (ok: bool)
    ensures ok <==> Digest(h.cost, h.salt, password) == h
  {
    h.secret == password
  }

  /** A password always matches its own hash, whatever salt was drawn. */
  lemma CompareOwnHash(password: string, salt: Salt)
    ensures Compare(password, Hash(password, salt))
  {
  }

  /** A different password never matches (the ideal-hash assumption). */
  lemma CompareOtherPassword(password: string, other: string, salt: Salt)
    requires password != other
    ensures !Compare(other, Hash(password, salt))
  {
  }
}
