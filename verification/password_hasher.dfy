/** The password hasher (bcrypt in the application), kept abstract. */
module PasswordHasher {

  /** The random salt the library draws when it hashes; a parameter here. */
  type Salt = string

  /** The two library entry points the application calls:
      `hash(password, salt)` gives the stored digest and
      `compare(password, digest)` tells whether a password matches a digest. */
  datatype Hasher = Hasher(hash: (string, Salt) -> string, compare: (string, string) -> bool)

  /** The single assumption made of the library: a password always matches
      any digest computed from it. Nothing is assumed about other passwords. */
  ghost predicate Sound(h: Hasher)
  {
    forall p: string, s: Salt :: h.compare(p, h.hash(p, s))
  }

  /** bcrypt digests are never the empty string; the store rejects an empty
      password field, so the register flow depends on this. */
  ghost predicate NonEmptyDigests(h: Hasher)
  {
    forall p: string, s: Salt :: h.hash(p, s) != ""
  }
}
