/** AuthService of org.mentalk.auth: the email-existence check, login with email
    and password, email recovery by phone number, and password reset. */
module Auth {
  import opened Wrappers
  import opened Enums
  import opened Domain
  import opened ErrorCodes
  import opened ExceptionHandling
  import opened IdentityStore
  import opened LocalAccounts
  import opened Jwt

  /** JwtDto: the issued token and the role it was issued for. */
  datatype JwtDto = JwtDto(token: Token, role: Role)

  /** `localLogin`: the account with the email, the password check against its
      hash, then a token for the account's member. */
  ghost function LocalLoginSpec(db: Db, encoder: PasswordEncoder, jwt: JwtUtil, email: string, password: string, now: int): Result<JwtDto, Exception>
    requires ValidDb(db)
  {
    var key := AccountWithEmail(db.accounts, email);
    if key.None? then Failure(ApiException(EMAIL_NOT_FOUND))
    else
      var account := db.accounts[key.value];
      if !encoder.matches(password, account.hashedPassword) then Failure(ApiException(INVALID_PASSWORD))
      else
        var role := db.members[account.memberId].role;
        var token := CreateToken(jwt, account.memberId, role, now);
        if token.Failure? then Failure(token.error) else Success(JwtDto(token.value, role))
  }

  /** `findEmail`: the member with the phone, then that member's account. */
  ghost function FindEmailSpec(db: Db, phoneNumber: string): Result<string, Exception>
  {
    var member := MemberWithPhone(db.members, phoneNumber);
    if member.None? then Failure(ApiException(MEMBER_NOT_FOUND))
    else
      var account := AccountOfMember(db.accounts, member.value);
      if account.None? then Failure(ApiException(ACCOUNT_NOT_FOUND))
      else Success(db.accounts[account.value].email)
  }

  /** `resetPassword`: the account with the email gets the encoded new password
      and is saved. */
  ghost function ResetPasswordSpec(db: Db, encoder: PasswordEncoder, email: string, password: string): Step<()>
  {
    var key := AccountWithEmail(db.accounts, email);
    if key.None? then Step(Failure(ApiException(ACCOUNT_NOT_FOUND)), db)
    else
      var account := db.accounts[key.value];
      Unit(SaveAccountSpec(db, key, Some(account.memberId), Some(account.email), Some(encoder.encode(password))))
  }

  /** The check the tests call `checkEmailInUse`: ALREADY_EMAIL_IN_USE exactly
      when the email is taken. */
  function CheckEmailInUseSpec(accounts: map<nat, AccountRecord>, email: string): (r: Result<(), Exception>)
    ensures r.Failure? <==> EmailTaken(accounts, email)
    ensures r.Failure? ==> r.error == ApiException(ALREADY_EMAIL_IN_USE)
  {
    if EmailTaken(accounts, email) then Failure(ApiException(ALREADY_EMAIL_IN_USE)) else Success(())
  }

  /** An unknown email is refused before any password is checked. */
  lemma LoginUnknownEmail(db: Db, encoder: PasswordEncoder, jwt: JwtUtil, email: string, password: string, now: int)
    requires ValidDb(db) && !EmailTaken(db.accounts, email)
    ensures LocalLoginSpec(db, encoder, jwt, email, password, now) == Failure(ApiException(EMAIL_NOT_FOUND))
  {
  }

  /** A password that does not match the stored hash is refused; no token is
      issued. */
  lemma LoginWrongPassword(db: Db, encoder: PasswordEncoder, jwt: JwtUtil, email: string, password: string, now: int, key: nat)
    requires ValidDb(db) && key in db.accounts && db.accounts[key].email == email
    requires !encoder.matches(password, db.accounts[key].hashedPassword)
    ensures LocalLoginSpec(db, encoder, jwt, email, password, now) == Failure(ApiException(INVALID_PASSWORD))
  {
    LookupsAreUnique(db, key);
  }

  /** Login succeeds exactly for a stored email whose hash the password matches
      (and a key strong enough to sign); the token then carries the account's
      member id and that member's role, reads back to both, stays valid for the
      token lifetime, and the response repeats the role. */
  lemma LoginSuccess(db: Db, encoder: PasswordEncoder, jwt: JwtUtil, email: string, password: string, now: int, key: nat, t: int)
    requires ValidDb(db) && key in db.accounts && db.accounts[key].email == email
    requires |jwt.secretKey| >= MIN_KEY_BYTES
    requires now <= t < now + LIFETIME_SECONDS
    ensures var r := LocalLoginSpec(db, encoder, jwt, email, password, now);
            var account := db.accounts[key];
            var role := db.members[account.memberId].role;
            && (r.Success? <==> encoder.matches(password, account.hashedPassword))
            && (r.Success? ==> r.value.role == role
                               && GetId(jwt, r.value.token, t) == Success(account.memberId)
                               && GetRole(jwt, r.value.token, t) == Success(role)
                               && ValidateToken(jwt, r.value.token, t))
  {
    LookupsAreUnique(db, key);
    var account := db.accounts[key];
    var role := db.members[account.memberId].role;
    GetIdRoundTrip(jwt, account.memberId, role, now, t);
    GetRoleRoundTrip(jwt, account.memberId, role, now, t);
    ValidUntilExpiry(jwt, account.memberId, role, now, t);
  }

  /** Email recovery: MEMBER_NOT_FOUND without a member holding the phone,
      ACCOUNT_NOT_FOUND when that member has no account, and otherwise the email
      of the member's one account. */
  lemma FindEmailOutcome(db: Db, phoneNumber: string)
    requires ValidDb(db)
    ensures var r := FindEmailSpec(db, phoneNumber);
            && (r == Failure(ApiException(MEMBER_NOT_FOUND)) <==> !PhoneTaken(db.members, phoneNumber))
            && (r == Failure(ApiException(ACCOUNT_NOT_FOUND)) <==>
                  exists m :: m in db.members && db.members[m].phoneNumber == phoneNumber
                              && !MemberHasAccount(db.accounts, m))
            && (r.Success? <==> exists k :: k in db.accounts && db.accounts[k].memberId in db.members
                                        && db.members[db.accounts[k].memberId].phoneNumber == phoneNumber
                                        && db.accounts[k].email == r.value)
  {
    var member := MemberWithPhone(db.members, phoneNumber);
    if member.Some? {
      LookupsAreUnique(db, member.value);
      var account := AccountOfMember(db.accounts, member.value);
      if account.Some? {
        LookupsAreUnique(db, account.value);
      }
    }
  }

  /** Password reset: ACCOUNT_NOT_FOUND with the store unchanged for an unknown
      email; otherwise that one account's hash becomes the encoded new password
      and nothing else changes. */
  lemma ResetPasswordOutcome(db: Db, encoder: PasswordEncoder, email: string, password: string)
    requires ValidDb(db)
    ensures var s := ResetPasswordSpec(db, encoder, email, password);
            && (!EmailTaken(db.accounts, email) ==> s == Step(Failure(ApiException(ACCOUNT_NOT_FOUND)), db))
            && (EmailTaken(db.accounts, email) ==>
                  var key := AccountWithEmail(db.accounts, email).value;
                  s.result.Success?
                  && s.db == db.(accounts := db.accounts[key := db.accounts[key].(hashedPassword := encoder.encode(password))]))
            && ValidDb(s.db)
  {
    var key := AccountWithEmail(db.accounts, email);
    if key.Some? {
      var account := db.accounts[key.value];
      SaveAccountPreservesValid(db, key, Some(account.memberId), Some(account.email), Some(encoder.encode(password)));
    }
  }

  /** With an encoder that matches a password against its own encoding, the new
      password logs in after a reset. */
  lemma LoginAfterReset(db: Db, encoder: PasswordEncoder, jwt: JwtUtil, email: string, password: string, now: int)
    requires ValidDb(db) && Sound(encoder) && EmailTaken(db.accounts, email)
    requires |jwt.secretKey| >= MIN_KEY_BYTES
    ensures ValidDb(ResetPasswordSpec(db, encoder, email, password).db)
    ensures LocalLoginSpec(ResetPasswordSpec(db, encoder, email, password).db, encoder, jwt, email, password, now).Success?
  {
    ResetPasswordOutcome(db, encoder, email, password);
    var key := AccountWithEmail(db.accounts, email).value;
    var after := ResetPasswordSpec(db, encoder, email, password).db;
    assert after.accounts[key].email == email;
    LookupsAreUnique(after, key);
    assert encoder.matches(password, encoder.encode(password));
  }

  /** With an encoder whose encodings match only their own password, any other
      password, the one replaced included, is refused after a reset. */
  lemma OtherPasswordFailsAfterReset(db: Db, encoder: PasswordEncoder, jwt: JwtUtil, email: string, password: string, other: string, now: int)
    requires ValidDb(db) && Exact(encoder) && EmailTaken(db.accounts, email)
    requires other != password
    ensures ValidDb(ResetPasswordSpec(db, encoder, email, password).db)
    ensures LocalLoginSpec(ResetPasswordSpec(db, encoder, email, password).db, encoder, jwt, email, other, now)
              == Failure(ApiException(INVALID_PASSWORD))
  {
    ResetPasswordOutcome(db, encoder, email, password);
    var key := AccountWithEmail(db.accounts, email).value;
    var after := ResetPasswordSpec(db, encoder, email, password).db;
    assert after.accounts[key].hashedPassword == encoder.encode(password);
    assert !encoder.matches(other, encoder.encode(password));
    LoginWrongPassword(after, encoder, jwt, email, other, now, key);
  }

  /** With an encoder that matches a password against its own encoding, an
      account stored with the encoding of a password logs in with it, and the
      token names the account's member. */
  lemma LoginWithStoredPassword(db: Db, encoder: PasswordEncoder, jwt: JwtUtil, key: nat, password: string, now: int)
    requires ValidDb(db) && Sound(encoder) && |jwt.secretKey| >= MIN_KEY_BYTES
    requires key in db.accounts && db.accounts[key].hashedPassword == encoder.encode(password)
    ensures var r := LocalLoginSpec(db, encoder, jwt, db.accounts[key].email, password, now);
            r.Success? && GetId(jwt, r.value.token, now) == Success(db.accounts[key].memberId)
  {
    assert encoder.matches(password, encoder.encode(password));
    LoginSuccess(db, encoder, jwt, db.accounts[key].email, password, now, key, now);
  }

  /** AuthService over the shared store. */
  class AuthService {
    const store: Store
    const encoder: PasswordEncoder
    const jwt: JwtUtil

    constructor (store: Store, encoder: PasswordEncoder, jwt: JwtUtil)
      ensures this.store == store && this.encoder == encoder && this.jwt == jwt
    {
      this.store := store;
      this.encoder := encoder;
      this.jwt := jwt;
    }

    /** `isEmailExists(email)`: whether some account has the email; reads only. */
    method IsEmailExists(email: string) returns (b: bool)
      ensures b <==> EmailTaken(store.accounts, email)
    {
      b := store.ExistsByEmail(email);
    }

    /** The throwing email check the tests call `checkEmailInUse`. */
    method CheckEmailInUse(email: string) returns (r: Result<(), Exception>)
      ensures r == CheckEmailInUseSpec(store.accounts, email)
    {
      var exists_ := IsEmailExists(email);
      if exists_ {
        return Failure(ApiException(ALREADY_EMAIL_IN_USE));
      }
      return Success(());
    }

    /** `localLogin(dto)` at time `now`; reads only. */
    method LocalLogin(email: string, password: string, now: int) returns (r: Result<JwtDto, Exception>)
      requires store.Valid()
      ensures r == LocalLoginSpec(store.State(), encoder, jwt, email, password, now)
    {
      var found := store.FindByEmail(email);
      if found.None? {
        return Failure(ApiException(EMAIL_NOT_FOUND));
      }
      var account := found.value;
      if !encoder.matches(password, account.hashedPassword.value) {
        return Failure(ApiException(INVALID_PASSWORD));
      }
      var memberId := account.memberId.value;
      var role := store.members[memberId].role;
      var token := CreateToken(jwt, memberId, role, now);
      if token.Failure? {
        return Failure(token.error);
      }
      return Success(JwtDto(token.value, role));
    }

    /** `findEmail(phoneNumber)`; reads only. */
    method FindEmail(phoneNumber: string) returns (r: Result<string, Exception>)
      requires store.Valid()
      ensures r == FindEmailSpec(store.State(), phoneNumber)
    {
      var member := store.FindByPhoneNumber(phoneNumber);
      if member.None? {
        return Failure(ApiException(MEMBER_NOT_FOUND));
      }
      var account := store.FindByMemberId(member.value.id.value);
      if account.None? {
        return Failure(ApiException(ACCOUNT_NOT_FOUND));
      }
      return Success(account.value.email.value);
    }

    /** `resetPassword(email, password)`. */
    method ResetPassword(email: string, password: string) returns (r: Result<(), Exception>)
      requires store.Valid()
      modifies store
      ensures store.Valid()
      ensures Step(r, store.State()) == ResetPasswordSpec(old(store.State()), encoder, email, password)
    {
      ResetPasswordOutcome(store.State(), encoder, email, password);
      var found := store.FindByEmail(email);
      if found.None? {
        return Failure(ApiException(ACCOUNT_NOT_FOUND));
      }
      var account := found.value;
      var hashedPassword := encoder.encode(password);
      account.ChangePassword(hashedPassword);
      // Rewriting an account under its own member and email cannot collide.
      var _ := store.SaveAccount(account);
      return Success(());
    }
  }
}
