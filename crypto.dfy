/**
 * Password hashing (bcrypt in Node, `password_hash` in PHP) as an ideal one-way
 * function: a digest is verified by the password it was made from and by no other.
 */
module Crypto {

  /** A stored password digest; salt and cost factor are not modelled. */
  datatype Digest = Bcrypt(secret: string)

  /** `bcrypt.hash(password, 10)` and `password_hash($password, PASSWORD_BCRYPT)`. */
  function Hash(password: string): Digest
  {
    Bcrypt(password)
  }

  /** `bcrypt.compare` and `password_verify`. */
  function Verify(password: string, d: Digest): bool
  {
    d.secret == password
  }

  /** A password verifies against its own digest and no other password does. */
  lemma VerifyMatchesHash(password: string, attempt: string)
    ensures Verify(attempt, Hash(password)) <==> attempt == password
  {
  }
}
