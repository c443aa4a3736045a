/** The password-hashing library the store calls (bcrypt): `hash(plaintext, salt)` and
    `compare(plaintext, hash)`. Its internals are not modelled; the library is a pair of
    functions, and the properties the store relies on are predicates over that pair. The
    salt, which bcrypt draws at random, is an argument. */
module PasswordHash {

  datatype Hasher = Hasher(hash: (string, string) -> string, compare: (string, string) -> bool)

  /** `compare` accepts the plaintext a hash was made from, and no hash is its own plaintext. */
  ghost predicate Sound(h: Hasher) {
    forall plain, salt :: h.compare(plain, h.hash(plain, salt)) && h.hash(plain, salt) != plain
  }

  /** `compare` accepts no plaintext but the one a hash was made from. This idealises bcrypt,
      which reads only the first 72 bytes of a password. */
  ghost predicate Binding(h: Hasher) {
    forall plain, other, salt :: h.compare(other, h.hash(plain, salt)) ==> other == plain
  }
}
