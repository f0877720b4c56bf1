/** Creating a member's local (email and password) account, and the password
    encoder it hashes with. */
module LocalAccounts {
  import opened Wrappers
  import opened Domain
  import opened ErrorCodes
  import opened ExceptionHandling
  import opened IdentityStore

  /** Spring's PasswordEncoder: a one-way `encode` and the `matches` check of a
      raw password against a stored hash. The hashing itself is not modelled. */
  datatype PasswordEncoder = PasswordEncoder(encode: string -> string, matches: (string, string) -> bool)

  /** What BCrypt promises: a password matches its own encoding. */
  ghost predicate Sound(encoder: PasswordEncoder)
  {
    forall raw :: encoder.matches(raw, encoder.encode(raw))
  }

  /** Collision freedom: an encoding matches only the password it was made from.
      BCrypt gives this only for passwords within its 72-byte input limit, and
      only up to hash collisions. */
  ghost predicate Exact(encoder: PasswordEncoder)
  {
    forall raw, other :: encoder.matches(raw, encoder.encode(other)) ==> raw == other
  }

  /** The outcome of a save, with the identity it returned dropped. */
  function Unit(s: Step<nat>): Step<()>
  {
    Step(if s.result.Success? then Success(()) else Failure(s.result.error), s.db)
  }

  /** `createLocalAccount`: the member check, then the email check, then the
      insert of an account holding the encoded password. */
  function CreateLocalAccountSpec(db: Db, encoder: PasswordEncoder, memberId: nat, email: string, password: string): Step<()>
  {
    if MemberHasAccount(db.accounts, memberId) then Step(Failure(ApiException(ALREADY_ACCOUNT_REGISTERED)), db)
    else if EmailTaken(db.accounts, email) then Step(Failure(ApiException(ALREADY_EMAIL_IN_USE)), db)
    else Unit(PersistAccount(db, Some(memberId), Some(email), Some(encoder.encode(password))))
  }

  /** A member that already has an account is refused first, whatever the email:
      nothing is written. */
  lemma AlreadyRegisteredWins(db: Db, encoder: PasswordEncoder, memberId: nat, email: string, password: string)
    requires MemberHasAccount(db.accounts, memberId)
    ensures CreateLocalAccountSpec(db, encoder, memberId, email, password)
            == Step(Failure(ApiException(ALREADY_ACCOUNT_REGISTERED)), db)
  {
  }

  /** An email already in use is refused next, and nothing is written. */
  lemma EmailInUseRejected(db: Db, encoder: PasswordEncoder, memberId: nat, email: string, password: string)
    requires !MemberHasAccount(db.accounts, memberId) && EmailTaken(db.accounts, email)
    ensures CreateLocalAccountSpec(db, encoder, memberId, email, password)
            == Step(Failure(ApiException(ALREADY_EMAIL_IN_USE)), db)
  {
  }

  /** The call succeeds exactly for a stored member without an account and an
      unused email; it then adds one account, holding the member, the email and
      the encoded password, under a fresh identity, and changes nothing else. A
      refused call writes nothing, and the store's invariant is kept. */
  lemma CreateLocalAccountOutcome(db: Db, encoder: PasswordEncoder, memberId: nat, email: string, password: string)
    requires ValidDb(db)
    ensures var s := CreateLocalAccountSpec(db, encoder, memberId, email, password);
            && (s.result.Success? <==> memberId in db.members && !MemberHasAccount(db.accounts, memberId)
                                       && !EmailTaken(db.accounts, email))
            && (s.result.Success? ==>
                  db.nextAccountId !in db.accounts
                  && s.db == db.(accounts := db.accounts[db.nextAccountId := AccountRecord(memberId, email, encoder.encode(password))],
                                 nextAccountId := db.nextAccountId + 1))
            && (s.result.Failure? ==> s.db == db)
            && ValidDb(s.db)
  {
    SaveAccountPreservesValid(db, None, Some(memberId), Some(email), Some(encoder.encode(password)));
  }

  /** LocalAccountService, sharing the store with the other services. */
  class LocalAccountService {
    const store: Store
    const encoder: PasswordEncoder

    constructor (store: Store, encoder: PasswordEncoder)
      ensures this.store == store && this.encoder == encoder
    {
      this.store := store;
      this.encoder := encoder;
    }

    /** `createLocalAccount(dto)`, with the dto's member given by its id. */
    method CreateLocalAccount(memberId: nat, email: string, password: string) returns (r: Result<(), Exception>)
      requires store.Valid()
      modifies store
      ensures store.Valid()
      ensures Step(r, store.State()) == CreateLocalAccountSpec(old(store.State()), encoder, memberId, email, password)
    {
      CreateLocalAccountOutcome(store.State(), encoder, memberId, email, password);
      var registered := store.ExistsByMemberId(memberId);
      if registered {
        return Failure(ApiException(ALREADY_ACCOUNT_REGISTERED));
      }
      var inUse := store.ExistsByEmail(email);
      if inUse {
        return Failure(ApiException(ALREADY_EMAIL_IN_USE));
      }
      var hashedPassword := encoder.encode(password);
      var account := new LocalAccount(None, Some(memberId), Some(email), Some(hashedPassword));
      var saved := store.SaveAccount(account);
      if saved.Failure? {
        return Failure(saved.error);
      }
      return Success(());
    }
  }
}
