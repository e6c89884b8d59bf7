/** Passwords and tokens as the core sees them. bcrypt is a hash with a
    matching check; jsonwebtoken is a pair of functions, `sign` and
    `verify`, supplied by the caller, of which only the round trip is
    assumed. */
module Credentials {
  import opened JsValues

  /** `bcrypt.hash(p, salt)`, without the salt. */
  datatype PasswordHash = Digest(secret: string)

  function Hash(plain: string): PasswordHash
  {
    Digest(plain)
  }

  /** `bcrypt.compare(candidate, hash)`. */
  predicate Matches(candidate: string, h: PasswordHash) {
    Hash(candidate) == h
  }

  /** A hash matches exactly the password it was made from. */
  lemma MatchesIff(candidate: string, plain: string)
    ensures Matches(candidate, Hash(plain)) <==> candidate == plain
  {
  }

  /** The claims a verified token yields. */
  datatype Claims = Claims(id: string, isAdmin: bool)

  /** The payload and options handed to `jwt.sign`. */
  datatype TokenPayload = TokenPayload(id: string, isAdmin: bool, expiresIn: string)

  /** `jwt.verify(token, secret)`: a missing or empty token is refused
      before the verifier is consulted. */
  function JwtVerify(verify: string -> Option<Claims>, token: Option<string>): Option<Claims>
  {
    if token.None? || token.value == "" then None else verify(token.value)
  }

  /** What is assumed of the signer and the verifier: a signed payload
      verifies to its id and admin flag, and the token is a non-empty word
      that fits in an `Authorization` header. */
  ghost predicate IssuerSound(sign: TokenPayload -> string, verify: string -> Option<Claims>) {
    forall p :: sign(p) != "" && ' ' !in sign(p) && verify(sign(p)) == Some(Claims(p.id, p.isAdmin))
  }

  /** `createToken(id, isAdmin = true)`: a one-day token; an absent flag
      means an admin token. */
  function CreateToken(sign: TokenPayload -> string, id: string, isAdmin: Option<bool>): string
  {
    sign(TokenPayload(id, if isAdmin.None? then true else isAdmin.value, "1d"))
  }

  /** A token made without a flag verifies as an admin token for that id. */
  lemma CreatedTokenVerifies(sign: TokenPayload -> string, verify: string -> Option<Claims>, id: string, isAdmin: Option<bool>)
    requires IssuerSound(sign, verify)
    ensures JwtVerify(verify, Some(CreateToken(sign, id, isAdmin))) ==
            Some(Claims(id, isAdmin.None? || isAdmin.value))
  {
    var p := TokenPayload(id, if isAdmin.None? then true else isAdmin.value, "1d");
    assert sign(p) != "" && verify(sign(p)) == Some(Claims(p.id, p.isAdmin));
  }
}
