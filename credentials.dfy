/**
 * The library calls the schemas make and cannot see into: `validator.isEmail`,
 * `bcrypt.hash(password, 8)` and `bcrypt.compare`. They are carried as
 * uninterpreted functions; the salt that makes a bcrypt hash random is a
 * parameter.
 */
module Credentials {

  type Salt = nat

  datatype Library = Library(
    isEmail: string -> bool,
    hash: (string, Salt) -> string,
    compare: (string, string) -> bool)
  {
    /** What bcrypt guarantees: a password matches every hash made from it. */
    ghost predicate Sound() {
      forall p, s :: compare(p, hash(p, s))
    }
  }

  /** The plaintext and salt a stored hash was made from (never stored). */
  datatype Secret = Secret(plain: string, salt: Salt)
}
