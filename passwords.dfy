/**
 * Werkzeug's salted password hashing, kept abstract: the key derivation
 * (PBKDF2 over SHA-256) is a function supplied by the caller, and the random
 * salt is a parameter.
 */
module Passwords {

  /** The key derivation: from a salt and a password to a digest. */
  type Kdf = (string, string) -> string

  /** The method name `generate_password_hash` is called with. */
  const Method: string := "pbkdf2:sha256"

  /** What the password column stores: method, salt and digest, never the password itself. */
  datatype PasswordHash = PasswordHash(algorithm: string, salt: string, digest: string)

  /**
   * `check_password_hash`: derive again with the stored salt and compare
   * digests.
   */
  predicate CheckPasswordHash(kdf: Kdf, h: PasswordHash, password: string)
  {
    kdf(h.salt, password) == h.digest
  }

  /** `generate_password_hash(password, method="pbkdf2:sha256")` with the given salt. */
  function GeneratePasswordHash(kdf: Kdf, password: string, salt: string): (h: PasswordHash)
    ensures h.algorithm == Method && h.salt == salt
    ensures CheckPasswordHash(kdf, h, password)
    ensures forall other :: CheckPasswordHash(kdf, h, other) <==> kdf(salt, other) == kdf(salt, password)
  {
    PasswordHash(Method, salt, kdf(salt, password))
  }
}
