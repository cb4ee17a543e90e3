/**
 * bcrypt and JSON Web Tokens, as functions handed to the handlers. The model does not
 * implement either; it only records what the handlers rely on (`Sound`).
 */
module Crypto {
  import opened Maybe

  /** The token payload `{ userId, role }`. */
  datatype Claims = Claims(userId: nat, role: string)

  /**
   * `hash(password, rounds)` is `bcrypt.hash`, `compare(password, hash)` is `bcrypt.compare`,
   * `sign(claims, secret, expiresIn)` is `jwt.sign`, and `decode` reads a token's payload back.
   * A randomly salted hash is represented by the particular function passed in.
   */
  datatype Crypto = Crypto(
    hash: (string, nat) -> string,
    compare: (string, string) -> bool,
    sign: (Claims, string, string) -> string,
    decode: string -> Option<Claims>)

  /** bcrypt cost factor used at signup. */
  const SaltRounds: nat := 10

  /** Lifetime given to every issued token. */
  const TokenLifetime: string := "2h"

  /**
   * A password matches its own hash; a signed token is never empty and carries back the
   * claims it was signed with.
   */
  ghost predicate Sound(c: Crypto)
  {
    && (forall p: string, n: nat :: c.compare(p, c.hash(p, n)))
    && (forall cl: Claims, secret: string, exp: string :: c.sign(cl, secret, exp) != "")
    && (forall cl: Claims, secret: string, exp: string :: c.decode(c.sign(cl, secret, exp)) == Some(cl))
  }
}
