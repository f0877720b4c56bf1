/** JwtUtil of org.mentalk.common.security: issues and reads the signed,
    expiring identity tokens. The HMAC signature is abstracted to the key a token
    was signed with: a token verifies under a key exactly when it was signed with
    that key. The clock is a parameter (`now`, in seconds). */
module Jwt {
  import opened Wrappers
  import opened Enums
  import opened Decimal
  import opened ErrorCodes
  import opened ExceptionHandling

  /** Token lifetime: 1440 minutes (24 hours). */
  const EXP_MINUTES := 1440
  const SECONDS_PER_MINUTE := 60
  const LIFETIME_SECONDS := EXP_MINUTES * SECONDS_PER_MINUTE

  /** Section 3.2 of RFC 7518: a key used with HS256 must be at least 256 bits. */
  const MIN_KEY_BYTES := 32

  type Bytes = seq<bv8>

  /** The component and its one piece of state, the HMAC secret key. */
  datatype JwtUtil = JwtUtil(secretKey: Bytes)

  /** The claims of a token: `sub` (the member id as decimal text), `role` (the
      role's name), `iat` and `exp`. */
  datatype Claims = Claims(subject: string, role: string, issuedAt: int, expiration: int)

  /** A compact signed token: its claims and the key that signed them. */
  datatype Token = Token(claims: Claims, signingKey: Bytes)

  /** The constructor: `Keys.hmacShaKeyFor` refuses a key shorter than 256 bits. */
  function NewJwtUtil(secret: Bytes): (r: Result<JwtUtil, Exception>)
    ensures r.Success? <==> |secret| >= MIN_KEY_BYTES
    ensures r.Success? ==> r.value.secretKey == secret
    ensures r.Failure? ==> r.error.JwtException?
  {
    if |secret| < MIN_KEY_BYTES then Failure(JwtException("WeakKeyException"))
    else Success(JwtUtil(secret))
  }

  /** `createToken(id, role)` at time `now`. Signing with HS256 fails for a weak
      key; that JwtException is rethrown as JWT_CREATION_ERROR. */
  function CreateToken(util: JwtUtil, id: int, role: Role, now: int): (r: Result<Token, Exception>)
    ensures r.Failure? <==> |util.secretKey| < MIN_KEY_BYTES
    ensures r.Failure? ==> r.error == ApiException(JWT_CREATION_ERROR)
    ensures r.Success? ==> r.value.signingKey == util.secretKey
    ensures r.Success? ==> r.value.claims.issuedAt == now
    ensures r.Success? ==> r.value.claims.expiration == now + EXP_MINUTES * 60
  {
    if |util.secretKey| < MIN_KEY_BYTES then Failure(ApiException(JWT_CREATION_ERROR))
    else
      var claims := Claims(LongToString(id), RoleName(role), now, now + LIFETIME_SECONDS);
      Success(Token(claims, util.secretKey))
  }

  /** `getClaims`: parsing checks the signature, then the expiry. */
  function GetClaims(util: JwtUtil, token: Token, now: int): (r: Result<Claims, Exception>)
    ensures r.Failure? ==> r.error.JwtException?
  {
    if token.signingKey != util.secretKey then Failure(JwtException("SignatureException"))
    else if now >= token.claims.expiration then Failure(JwtException("ExpiredJwtException"))
    else Success(token.claims)
  }

  /** `validateToken`: true when `getClaims` succeeds; it catches JwtException,
      the only kind `getClaims` raises, so it never throws. */
  function ValidateToken(util: JwtUtil, token: Token, now: int): (valid: bool)
    ensures valid <==> token.signingKey == util.secretKey && now < token.claims.expiration
  {
    match GetClaims(util, token, now)
    case Success(_) => true
    case Failure(_) => false
  }

  /** `getId`: `Long.valueOf` of the subject; the parser's JwtException propagates
      and a subject that is not a number raises NumberFormatException. */
  function GetId(util: JwtUtil, token: Token, now: int): (r: Result<int, Exception>)
    ensures GetClaims(util, token, now).Failure? ==> r == Failure(GetClaims(util, token, now).error)
    ensures r.Success? ==> ValidateToken(util, token, now)
                           && ParseLong(GetClaims(util, token, now).value.subject) == Some(r.value)
    ensures GetClaims(util, token, now).Success? && ParseLong(GetClaims(util, token, now).value.subject).None? ==>
              r == Failure(OtherException("NumberFormatException"))
  {
    match GetClaims(util, token, now)
    case Failure(e) => Failure(e)
    case Success(claims) =>
      match ParseLong(claims.subject)
      case None => Failure(OtherException("NumberFormatException"))
      case Some(id) => Success(id)
  }

  /** `getRole`: `Role.valueOf` of the role claim; an unknown name raises
      IllegalArgumentException. */
  function GetRole(util: JwtUtil, token: Token, now: int): (r: Result<Role, Exception>)
    ensures GetClaims(util, token, now).Failure? ==> r == Failure(GetClaims(util, token, now).error)
    ensures r.Success? ==> ValidateToken(util, token, now)
                           && RoleValueOf(GetClaims(util, token, now).value.role) == Some(r.value)
    ensures GetClaims(util, token, now).Success? && RoleValueOf(GetClaims(util, token, now).value.role).None? ==>
              r == Failure(OtherException("IllegalArgumentException"))
  {
    match GetClaims(util, token, now)
    case Failure(e) => Failure(e)
    case Success(claims) =>
      match RoleValueOf(claims.role)
      case None => Failure(OtherException("IllegalArgumentException"))
      case Some(role) => Success(role)
  }

  /** A component built by the constructor never fails to sign. */
  lemma ConstructedUtilSigns(secret: Bytes, id: int, role: Role, now: int)
    requires NewJwtUtil(secret).Success?
    ensures CreateToken(NewJwtUtil(secret).value, id, role, now).Success?
  {
  }

  /** `getId(createToken(id, role)) == id` while the token is alive. */
  lemma GetIdRoundTrip(util: JwtUtil, id: int, role: Role, now: int, t: int)
    requires |util.secretKey| >= MIN_KEY_BYTES
    requires t < now + LIFETIME_SECONDS
    ensures CreateToken(util, id, role, now).Success?
    ensures GetId(util, CreateToken(util, id, role, now).value, t) == Success(id)
  {
    LongRoundTrip(id);
  }

  /** `getRole(createToken(id, role)) == role` while the token is alive. */
  lemma GetRoleRoundTrip(util: JwtUtil, id: int, role: Role, now: int, t: int)
    requires |util.secretKey| >= MIN_KEY_BYTES
    requires t < now + LIFETIME_SECONDS
    ensures CreateToken(util, id, role, now).Success?
    ensures GetRole(util, CreateToken(util, id, role, now).value, t) == Success(role)
  {
    ValueOfName(role);
  }

  /** A fresh token validates at every time before `iat + 1440 min` and at no
      time from then on. */
  lemma ValidUntilExpiry(util: JwtUtil, id: int, role: Role, now: int, t: int)
    requires |util.secretKey| >= MIN_KEY_BYTES
    ensures CreateToken(util, id, role, now).Success?
    ensures ValidateToken(util, CreateToken(util, id, role, now).value, t) <==> t < now + EXP_MINUTES * 60
  {
  }

  /** A token signed under another key is rejected at every time. */
  lemma ForeignTokenRejected(util: JwtUtil, other: JwtUtil, id: int, role: Role, now: int, t: int)
    requires other.secretKey != util.secretKey
    requires CreateToken(other, id, role, now).Success?
    ensures !ValidateToken(util, CreateToken(other, id, role, now).value, t)
    ensures GetId(util, CreateToken(other, id, role, now).value, t).Failure?
  {
  }
}
