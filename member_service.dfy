/** MemberService of org.mentalk.member: signup (find or create the member by
    phone number, then create the local account, as one transaction) and the
    change of a member's role to MENTOR. */
module Members {
  import opened Wrappers
  import opened Enums
  import opened Domain
  import opened ErrorCodes
  import opened ExceptionHandling
  import opened IdentityStore
  import opened LocalAccounts
  import opened Jwt
  import opened Auth

  /** The member a signup attaches the account to: the one holding the phone,
      or else the one it creates under the next identity. */
  ghost function SignupMemberKey(db: Db, phoneNumber: string): nat
  {
    var found := MemberWithPhone(db.members, phoneNumber);
    if found.Some? then found.value else db.nextMemberId
  }

  /** `signup(dto)`: find or create the member (a new one has role USER), then
      `createLocalAccount`; any failure rolls the whole call back. */
  ghost function SignupSpec(db: Db, encoder: PasswordEncoder, name: string, phoneNumber: string, email: string, password: string): Step<()>
  {
    var found := MemberWithPhone(db.members, phoneNumber);
    var member := if found.Some? then Step(Success(found.value), db)
                  else PersistMember(db, Some(name), Some(phoneNumber), Some(USER));
    if member.result.Failure? then Step(Failure(member.result.error), db)
    else
      var account := CreateLocalAccountSpec(member.db, encoder, member.result.value, email, password);
      if account.result.Failure? then Step(account.result, db) else account
  }

  /** `changeRoleToMentor(memberId)` at time `now`: the member's role becomes
      MENTOR and is saved, then a token for (id, MENTOR) is issued; a failure to
      sign rolls the change back. */
  function ChangeRoleSpec(db: Db, jwt: JwtUtil, memberId: nat, now: int): Step<JwtDto>
  {
    if memberId !in db.members then Step(Failure(ApiException(MEMBER_NOT_FOUND)), db)
    else
      var row := db.members[memberId];
      var saved := MergeMember(db, memberId, Some(row.name), Some(row.phoneNumber), Some(MENTOR));
      if saved.result.Failure? then Step(Failure(saved.result.error), db)
      else
        var token := CreateToken(jwt, memberId, MENTOR, now);
        if token.Failure? then Step(Failure(token.error), db)
        else Step(Success(JwtDto(token.value, MENTOR)), saved.db)
  }

  /** In a valid store no account refers to the identity the next member gets. */
  lemma NextMemberHasNoAccount(db: Db)
    requires ValidDb(db)
    ensures !MemberHasAccount(db.accounts, db.nextMemberId)
  {
  }

  /** Signup either fails and leaves the store as it was, or succeeds exactly when
      the member it attaches to has no account and the email is unused. On
      success it creates a USER member only when no member had the phone, adds
      one account holding the encoded password for that member, and changes no
      session. The refusals come in the service's order: ALREADY_ACCOUNT_REGISTERED
      before ALREADY_EMAIL_IN_USE. The store's invariant, unique phone numbers
      among them, is kept. */
  lemma SignupOutcome(db: Db, encoder: PasswordEncoder, name: string, phoneNumber: string, email: string, password: string)
    requires ValidDb(db)
    ensures var s := SignupSpec(db, encoder, name, phoneNumber, email, password);
            var key := SignupMemberKey(db, phoneNumber);
            && ValidDb(s.db)
            && (s.result.Failure? ==> s.db == db)
            && (s.result.Success? <==> !MemberHasAccount(db.accounts, key) && !EmailTaken(db.accounts, email))
            && (MemberHasAccount(db.accounts, key) ==> s.result == Failure(ApiException(ALREADY_ACCOUNT_REGISTERED)))
            && (!MemberHasAccount(db.accounts, key) && EmailTaken(db.accounts, email) ==>
                  s.result == Failure(ApiException(ALREADY_EMAIL_IN_USE)))
            && (s.result.Success? ==>
                  && s.db.members == (if PhoneTaken(db.members, phoneNumber) then db.members
                                      else db.members[key := MemberRecord(name, phoneNumber, USER)])
                  && s.db.accounts == db.accounts[db.nextAccountId := AccountRecord(key, email, encoder.encode(password))]
                  && s.db.sessions == db.sessions
                  && key in s.db.members && s.db.members[key].phoneNumber == phoneNumber)
  {
    var found := MemberWithPhone(db.members, phoneNumber);
    var member := if found.Some? then Step(Success(found.value), db)
                  else PersistMember(db, Some(name), Some(phoneNumber), Some(USER));
    if found.None? {
      SaveMemberPreservesValid(db, None, Some(name), Some(phoneNumber), Some(USER));
      NextMemberHasNoAccount(db);
      assert member.result == Success(db.nextMemberId);
      assert member.db.accounts == db.accounts;
    }
    CreateLocalAccountOutcome(member.db, encoder, member.result.value, email, password);
  }

  /** The account a successful signup adds, and the member it belongs to. */
  lemma SignupAccount(db: Db, encoder: PasswordEncoder, name: string, phoneNumber: string, email: string, password: string)
    requires ValidDb(db)
    requires SignupSpec(db, encoder, name, phoneNumber, email, password).result.Success?
    ensures var after := SignupSpec(db, encoder, name, phoneNumber, email, password).db;
            var key := SignupMemberKey(db, phoneNumber);
            && ValidDb(after)
            && db.nextAccountId in after.accounts
            && after.accounts[db.nextAccountId] == AccountRecord(key, email, encoder.encode(password))
            && key in after.members && after.members[key].phoneNumber == phoneNumber
  {
    SignupOutcome(db, encoder, name, phoneNumber, email, password);
  }

  /** After a signup, email recovery by the same phone number finds the new email. */
  lemma SignupThenFindEmail(db: Db, encoder: PasswordEncoder, name: string, phoneNumber: string, email: string, password: string)
    requires ValidDb(db)
    requires SignupSpec(db, encoder, name, phoneNumber, email, password).result.Success?
    ensures FindEmailSpec(SignupSpec(db, encoder, name, phoneNumber, email, password).db, phoneNumber) == Success(email)
  {
    SignupAccount(db, encoder, name, phoneNumber, email, password);
    var after := SignupSpec(db, encoder, name, phoneNumber, email, password).db;
    var key := SignupMemberKey(db, phoneNumber);
    LookupsAreUnique(after, key);
    LookupsAreUnique(after, db.nextAccountId);
  }

  /** After a signup, the same email and password log in, and the token names
      the member holding the phone number. */
  lemma SignupThenLogin(db: Db, encoder: PasswordEncoder, jwt: JwtUtil, name: string, phoneNumber: string,
                        email: string, password: string, now: int)
    requires ValidDb(db) && Sound(encoder) && |jwt.secretKey| >= MIN_KEY_BYTES
    requires SignupSpec(db, encoder, name, phoneNumber, email, password).result.Success?
    ensures var after := SignupSpec(db, encoder, name, phoneNumber, email, password).db;
            && ValidDb(after)
            && var r := LocalLoginSpec(after, encoder, jwt, email, password, now);
            && r.Success?
            && GetId(jwt, r.value.token, now) == Success(SignupMemberKey(db, phoneNumber))
  {
    SignupAccount(db, encoder, name, phoneNumber, email, password);
    var after := SignupSpec(db, encoder, name, phoneNumber, email, password).db;
    var account := after.accounts[db.nextAccountId];
    assert account.email == email && account.memberId == SignupMemberKey(db, phoneNumber);
    LoginWithStoredPassword(after, encoder, jwt, db.nextAccountId, password, now);
  }

  /** A second signup with the same phone number is refused as already
      registered, whatever its email, and writes nothing. */
  lemma SecondSignupRefused(db: Db, encoder: PasswordEncoder, name: string, phoneNumber: string, email: string, password: string,
                            name2: string, email2: string, password2: string)
    requires ValidDb(db)
    requires SignupSpec(db, encoder, name, phoneNumber, email, password).result.Success?
    ensures var after := SignupSpec(db, encoder, name, phoneNumber, email, password).db;
            SignupSpec(after, encoder, name2, phoneNumber, email2, password2)
            == Step(Failure(ApiException(ALREADY_ACCOUNT_REGISTERED)), after)
  {
    SignupAccount(db, encoder, name, phoneNumber, email, password);
    var after := SignupSpec(db, encoder, name, phoneNumber, email, password).db;
    var key := SignupMemberKey(db, phoneNumber);
    LookupsAreUnique(after, key);
    assert after.accounts[db.nextAccountId].memberId == key;
    SignupOutcome(after, encoder, name2, phoneNumber, email2, password2);
  }

  /** Changing a role: MEMBER_NOT_FOUND for an unknown id, JWT_CREATION_ERROR for
      a key too weak to sign, and in both cases the store is unchanged;
      otherwise only that member's role becomes MENTOR, and the response carries
      MENTOR. The store's invariant is kept. */
  lemma ChangeRoleOutcome(db: Db, jwt: JwtUtil, memberId: nat, now: int)
    requires ValidDb(db)
    ensures var s := ChangeRoleSpec(db, jwt, memberId, now);
            && ValidDb(s.db)
            && (memberId !in db.members ==> s == Step(Failure(ApiException(MEMBER_NOT_FOUND)), db))
            && (memberId in db.members && |jwt.secretKey| < MIN_KEY_BYTES ==>
                  s == Step(Failure(ApiException(JWT_CREATION_ERROR)), db))
            && (s.result.Success? <==> memberId in db.members && |jwt.secretKey| >= MIN_KEY_BYTES)
            && (s.result.Success? ==>
                  s.result.value.role == MENTOR
                  && s.db == db.(members := db.members[memberId := db.members[memberId].(role := MENTOR)]))
  {
    if memberId in db.members {
      var row := db.members[memberId];
      SaveMemberPreservesValid(db, Some(memberId), Some(row.name), Some(row.phoneNumber), Some(MENTOR));
    }
  }

  /** The token issued on a role change reads back as the member's id and MENTOR
      for the whole token lifetime. */
  lemma ChangeRoleTokenCarriesMentor(db: Db, jwt: JwtUtil, memberId: nat, now: int, t: int)
    requires ValidDb(db)
    requires ChangeRoleSpec(db, jwt, memberId, now).result.Success?
    requires t < now + LIFETIME_SECONDS
    ensures var token := ChangeRoleSpec(db, jwt, memberId, now).result.value.token;
            GetId(jwt, token, t) == Success(memberId) && GetRole(jwt, token, t) == Success(MENTOR)
  {
    ChangeRoleOutcome(db, jwt, memberId, now);
    GetIdRoundTrip(jwt, memberId, MENTOR, now, t);
    GetRoleRoundTrip(jwt, memberId, MENTOR, now, t);
  }

  /** Changing the same member's role twice leaves the store the first change left. */
  lemma ChangeRoleIdempotent(db: Db, jwt: JwtUtil, memberId: nat, now: int, later: int)
    requires ValidDb(db)
    ensures var once := ChangeRoleSpec(db, jwt, memberId, now).db;
            ChangeRoleSpec(once, jwt, memberId, later).db == once
  {
    ChangeRoleOutcome(db, jwt, memberId, now);
    var once := ChangeRoleSpec(db, jwt, memberId, now).db;
    ChangeRoleOutcome(once, jwt, memberId, later);
    if memberId in db.members && |jwt.secretKey| >= MIN_KEY_BYTES {
      assert once.members[memberId := once.members[memberId].(role := MENTOR)] == once.members;
    }
  }

  /** MemberService over the shared store; `accountService` works on the same one. */
  class MemberService {
    const store: Store
    const accountService: LocalAccountService
    const jwt: JwtUtil

    constructor (accountService: LocalAccountService, jwt: JwtUtil)
      ensures store == accountService.store && this.accountService == accountService && this.jwt == jwt
    {
      this.store := accountService.store;
      this.accountService := accountService;
      this.jwt := jwt;
    }

    /** `signup(dto)`; a failure restores the store the call started from. */
    method Signup(name: string, phoneNumber: string, email: string, password: string) returns (r: Result<(), Exception>)
      requires store.Valid() && accountService.store == store
      modifies store
      ensures store.Valid()
      ensures Step(r, store.State()) == SignupSpec(old(store.State()), accountService.encoder, name, phoneNumber, email, password)
    {
      var snapshot := store.State();
      var found := store.FindByPhoneNumber(phoneNumber);
      var memberId: nat;
      if found.Some? {
        memberId := found.value.id.value;
      } else {
        var member := new Member(None, Some(name), Some(phoneNumber), Some(USER));
        var saved := store.SaveMember(member);
        memberId := member.id.value;
      }
      r := accountService.CreateLocalAccount(memberId, email, password);
      if r.Failure? {
        store.Restore(snapshot);
      }
    }

    /** `changeRoleToMentor(memberId)` at time `now`; a failure to sign restores
        the store the call started from. */
    method ChangeRoleToMentor(memberId: nat, now: int) returns (r: Result<JwtDto, Exception>)
      requires store.Valid()
      modifies store
      ensures store.Valid()
      ensures Step(r, store.State()) == ChangeRoleSpec(old(store.State()), jwt, memberId, now)
    {
      var snapshot := store.State();
      ChangeRoleOutcome(snapshot, jwt, memberId, now);
      var found := store.FindMemberById(memberId);
      if found.None? {
        return Failure(ApiException(MEMBER_NOT_FOUND));
      }
      var member := found.value;
      member.ChangeRole(MENTOR);
      // Rewriting a member under its own phone number cannot collide.
      var saved := store.SaveMember(member);
      var token := CreateToken(jwt, member.id.value, member.role.value, now);
      if token.Failure? {
        store.Restore(snapshot);
        return Failure(token.error);
      }
      return Success(JwtDto(token.value, member.role.value));
    }
  }
}
