/**
 * Symbolic models of the foreign cryptographic primitives the credential
 * flows call: bcrypt for passwords, SHA-256 (FIPS 180-4) for reset-token
 * digests, and JSON Web Tokens (RFC 7519) for sessions. Each output is a
 * constructor over its inputs, so two outputs differ exactly when their
 * inputs do; only Compare and VerifyJwt look inside. Timing behaviour and
 * the encodings (hex, base64url) are not represented.
 */
module Crypto {
  import opened Options

  /** The cost factor passed to bcrypt.genSalt. */
  const SaltRounds: nat := 10

  /** The random part of what bcrypt.genSalt(SaltRounds) returns. */
  datatype Salt = Salt(nonce: nat)

  /** A bcrypt hash: it embeds the cost factor and the salt, and is a function of the secret. */
  datatype BcryptHash = BcryptHash(rounds: nat, salt: Salt, secret: string)

  /** bcrypt.hash(password, salt) for a salt from genSalt(SaltRounds). */
  function Hash(password: string, salt: Salt): BcryptHash
  {
    BcryptHash(SaltRounds, salt, password)
  }

  /** bcrypt.compare(candidate, h) for a well-formed hash `h`. */
  predicate Compare(candidate: string, h: BcryptHash)
  {
    candidate == h.secret
  }

  /** A hash verifies exactly the password it was computed from. */
  lemma CompareHash(password: string, candidate: string, salt: Salt)
    ensures Compare(candidate, Hash(password, salt)) <==> candidate == password
  {
  }

  /** Two salts give two different stored hashes that both verify. */
  lemma HashIsSalted(password: string, s1: Salt, s2: Salt)
    requires s1 != s2
    ensures Hash(password, s1) != Hash(password, s2)
    ensures Compare(password, Hash(password, s1)) && Compare(password, Hash(password, s2))
  {
  }

  /** A SHA-256 digest (stored hex-encoded by the source). */
  datatype Sha256Digest = Sha256(preimage: string)

  function Digest(s: string): Sha256Digest
  {
    Sha256(s)
  }

  /** The model treats SHA-256 as collision-free. */
  lemma DigestInjective(a: string, b: string)
    ensures Digest(a) == Digest(b) <==> a == b
  {
  }

  /** The key used when JWT_SECRET is unset or empty. */
  const DefaultJwtSecret: string := "your_jwt_secret"

  /** The `expiresIn: '30d'` option, in seconds. */
  const TokenLifetime: nat := 30 * 24 * 60 * 60

  /** A signed JWT: its `sub`-like `id` claim, `iat` and `exp` (seconds), and the key it is signed with. */
  datatype Jwt = Jwt(id: nat, iat: nat, exp: nat, key: string)

  /** `process.env.JWT_SECRET || 'your_jwt_secret'`. */
  function SigningKey(envSecret: Option<string>): (k: string)
    ensures k != ""
    ensures envSecret.Some? && envSecret.value != "" ==> k == envSecret.value
    ensures envSecret.None? || envSecret.value == "" ==> k == DefaultJwtSecret
  {
    if envSecret.Some? && envSecret.value != "" then envSecret.value else DefaultJwtSecret
  }

  /** jwt.sign({ id }, key, { expiresIn: '30d' }) at time `nowMs` (milliseconds). */
  function Sign(id: nat, key: string, nowMs: nat): (t: Jwt)
    ensures t.id == id && t.key == key
    ensures 1000 * t.iat <= nowMs < 1000 * t.iat + 1000
    ensures t.exp == t.iat + TokenLifetime
  {
    Jwt(id, nowMs / 1000, nowMs / 1000 + TokenLifetime, key)
  }

  /** jwt.verify(t, key) at time `nowMs`: the signature must match and, as
      section 4.1.4 of RFC 7519 requires, the token is rejected once the
      current time in seconds reaches `exp`. */
  function VerifyJwt(t: Jwt, key: string, nowMs: nat): (r: Option<nat>)
    ensures r.Some? <==> t.key == key && nowMs < 1000 * t.exp
    ensures r.Some? ==> r.value == t.id
  {
    if t.key == key && nowMs / 1000 < t.exp then Some(t.id) else None
  }

  /** A token verifies under its own key for thirty days less one second
      after issue, is rejected from thirty days on, and is always rejected
      under any other key. */
  lemma TokenValidity(id: nat, key: string, issuedMs: nat, nowMs: nat, otherKey: string)
    requires issuedMs <= nowMs
    ensures nowMs <= issuedMs + 1000 * (TokenLifetime - 1) ==> VerifyJwt(Sign(id, key, issuedMs), key, nowMs) == Some(id)
    ensures nowMs >= issuedMs + 1000 * TokenLifetime ==> VerifyJwt(Sign(id, key, issuedMs), key, nowMs).None?
    ensures otherKey != key ==> VerifyJwt(Sign(id, key, issuedMs), otherKey, nowMs).None?
  {
  }
}
