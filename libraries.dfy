/**
 * The foreign libraries the server calls, as function values: zod's e-mail
 * pattern, mongoose's ObjectId and Date casts, bcrypt and jsonwebtoken. The
 * model assumes nothing of them except where a lemma names a hypothesis.
 */
module Libraries {
  import opened Wrappers
  import opened Text

  /** The JWT claims the server signs: `{ userId }` plus the registered `iat` and
      `exp` claims (section 4.1.4 of RFC 7519). A token signed elsewhere with the
      same secret may carry no `userId`. */
  datatype Claims = Claims(userId: Option<string>, iat: int, exp: int)

  /** Why `jwt.verify` throws. The gate never tells these apart. */
  datatype TokenError = Malformed | BadSignature | Expired

  datatype ServerLibs = ServerLibs(
    isEmail: string -> bool,                             // zod's `.email()` check
    isObjectId: string -> bool,                          // mongoose.Types.ObjectId.isValid
    isDate: string -> bool,                              // the string casts to a Date
    hash: (string, string) -> string,                    // bcrypt.hash(plain, salt)
    compare: (string, string) -> bool,                   // bcrypt.compare(plain, digest)
    sign: (Claims, string) -> string,                    // jwt.sign(claims, secret)
    verify: (string, string, int) -> Result<Claims, TokenError>)  // jwt.verify(token, secret) at a time

  /** What jsonwebtoken guarantees: a token it signed verifies under the same
      secret to the signed claims until `exp` and as expired from then on, and a
      token is written in base64url and dots, so it has no white space around it. */
  ghost predicate JwtSound(libs: ServerLibs) {
    && (forall c, k, t :: libs.verify(libs.sign(c, k), k, t) == if t < c.exp then Ok(c) else Err(Expired))
    && (forall c, k :: Trimmed(libs.sign(c, k)))
  }

  /** What bcrypt guarantees: a password matches every digest made from it. */
  ghost predicate BcryptSound(libs: ServerLibs) {
    forall p, salt :: libs.compare(p, libs.hash(p, salt))
  }
}
