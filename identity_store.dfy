/** The relational store behind MemberRepository, LocalAccountRepository and
    SessionRepository: three tables keyed by generated ids, with the schema's
    NOT NULL, UNIQUE and foreign-key constraints. The constraints are checked
    when a row is written; a violation raises DataIntegrityViolationException
    and writes nothing. */
module IdentityStore {
  import opened Wrappers
  import opened Enums
  import opened Domain
  import opened ExceptionHandling

  /** The whole store as a value: the three tables and the next identity of each. */
  datatype Db = Db(
    members: map<nat, MemberRecord>,
    accounts: map<nat, AccountRecord>,
    sessions: map<nat, SessionRecord>,
    nextMemberId: nat,
    nextAccountId: nat,
    nextSessionId: nat)

  /** An operation's outcome and the store it leaves. */
  datatype Step<T> = Step(result: Result<T, Exception>, db: Db)

  const EmptyDb := Db(map[], map[], map[], 1, 1, 1)

  // ---- The schema's constraints ----

  /** UNIQUE(member.phone_number). */
  ghost predicate PhoneNumbersUnique(members: map<nat, MemberRecord>)
  {
    forall i, j :: i in members && j in members && members[i].phoneNumber == members[j].phoneNumber ==> i == j
  }

  /** UNIQUE(local_account.member_id): at most one account per member. */
  ghost predicate OneAccountPerMember(accounts: map<nat, AccountRecord>)
  {
    forall i, j :: i in accounts && j in accounts && accounts[i].memberId == accounts[j].memberId ==> i == j
  }

  /** UNIQUE(local_account.email). */
  ghost predicate EmailsUnique(accounts: map<nat, AccountRecord>)
  {
    forall i, j :: i in accounts && j in accounts && accounts[i].email == accounts[j].email ==> i == j
  }

  /** The store's invariant: the unique keys, the foreign keys, and identities
      below the next one to be issued. */
  ghost predicate ValidDb(db: Db)
  {
    PhoneNumbersUnique(db.members)
    && OneAccountPerMember(db.accounts)
    && EmailsUnique(db.accounts)
    && (forall i :: i in db.accounts ==> db.accounts[i].memberId in db.members)
    && (forall i :: i in db.sessions ==> db.sessions[i].mentorId in db.members)
    && (forall i :: i in db.members ==> i < db.nextMemberId)
    && (forall i :: i in db.accounts ==> i < db.nextAccountId)
    && (forall i :: i in db.sessions ==> i < db.nextSessionId)
  }

  // ---- Queries ----

  predicate PhoneTaken(members: map<nat, MemberRecord>, phone: string)
  {
    exists i :: i in members && members[i].phoneNumber == phone
  }

  /** `existsByEmail`. */
  predicate EmailTaken(accounts: map<nat, AccountRecord>, email: string)
  {
    exists i :: i in accounts && accounts[i].email == email
  }

  /** `existsByMemberId`. */
  predicate MemberHasAccount(accounts: map<nat, AccountRecord>, memberId: nat)
  {
    exists i :: i in accounts && accounts[i].memberId == memberId
  }

  /** A member other than `key` has the phone number. */
  predicate PhoneTakenByOther(members: map<nat, MemberRecord>, key: nat, phone: string)
  {
    exists j :: j in members && j != key && members[j].phoneNumber == phone
  }

  /** An account other than `key` has the member or the email. */
  predicate AccountTakenByOther(accounts: map<nat, AccountRecord>, key: nat, memberId: nat, email: string)
  {
    exists j :: j in accounts && j != key && (accounts[j].memberId == memberId || accounts[j].email == email)
  }

  /** `findByPhoneNumber`: the key of the member with that phone, or None. */
  ghost function MemberWithPhone(members: map<nat, MemberRecord>, phone: string): (r: Option<nat>)
    ensures r.Some? ==> r.value in members && members[r.value].phoneNumber == phone
    ensures r.None? <==> !PhoneTaken(members, phone)
  {
    if PhoneTaken(members, phone) then
      var i :| i in members && members[i].phoneNumber == phone;
      Some(i)
    else None
  }

  /** `findByEmail`: the key of the account with that email, or None. */
  ghost function AccountWithEmail(accounts: map<nat, AccountRecord>, email: string): (r: Option<nat>)
    ensures r.Some? ==> r.value in accounts && accounts[r.value].email == email
    ensures r.None? <==> !EmailTaken(accounts, email)
  {
    if EmailTaken(accounts, email) then
      var i :| i in accounts && accounts[i].email == email;
      Some(i)
    else None
  }

  /** `findByMemberId`: the key of the member's account, or None. */
  ghost function AccountOfMember(accounts: map<nat, AccountRecord>, memberId: nat): (r: Option<nat>)
    ensures r.Some? ==> r.value in accounts && accounts[r.value].memberId == memberId
    ensures r.None? <==> !MemberHasAccount(accounts, memberId)
  {
    if MemberHasAccount(accounts, memberId) then
      var i :| i in accounts && accounts[i].memberId == memberId;
      Some(i)
    else None
  }

  /** Under the unique keys each lookup names the one matching row. */
  lemma LookupsAreUnique(db: Db, i: nat)
    requires ValidDb(db)
    ensures i in db.members ==> MemberWithPhone(db.members, db.members[i].phoneNumber) == Some(i)
    ensures i in db.accounts ==> AccountWithEmail(db.accounts, db.accounts[i].email) == Some(i)
    ensures i in db.accounts ==> AccountOfMember(db.accounts, db.accounts[i].memberId) == Some(i)
  {
  }

  // ---- Writes (JpaRepository.save) ----

  const Violation := DataIntegrityViolationException

  /** Saving a new Member: `@PrePersist` defaults the role, then the NOT NULL and
      UNIQUE(phone_number) checks, then the insert under a fresh identity. */
  function PersistMember(db: Db, name: Option<string>, phone: Option<string>, role: Option<Role>): Step<nat>
  {
    var persistedRole := PrePersistRole(role);
    if name.None? || phone.None? then Step(Failure(Violation), db)
    else if PhoneTaken(db.members, phone.value) then Step(Failure(Violation), db)
    else
      var key := db.nextMemberId;
      var row := MemberRecord(name.value, phone.value, persistedRole.value);
      Step(Success(key), db.(members := db.members[key := row], nextMemberId := key + 1))
  }

  /** Saving a Member that is already stored: its row is rewritten under the
      same constraints. */
  function MergeMember(db: Db, key: nat, name: Option<string>, phone: Option<string>, role: Option<Role>): Step<nat>
    requires key in db.members
  {
    if name.None? || phone.None? || role.None? then Step(Failure(Violation), db)
    else if PhoneTakenByOther(db.members, key, phone.value) then Step(Failure(Violation), db)
    else Step(Success(key), db.(members := db.members[key := MemberRecord(name.value, phone.value, role.value)]))
  }

  /** `memberRepository.save(member)`: an entity whose id is stored is merged,
      any other is persisted. */
  function SaveMemberSpec(db: Db, id: Option<nat>, name: Option<string>, phone: Option<string>, role: Option<Role>): Step<nat>
  {
    if id.Some? && id.value in db.members then MergeMember(db, id.value, name, phone, role)
    else PersistMember(db, name, phone, role)
  }

  /** Saving a new LocalAccount: NOT NULL, the foreign key to its member, then
      UNIQUE(member_id) and UNIQUE(email), then the insert. */
  function PersistAccount(db: Db, memberId: Option<nat>, email: Option<string>, hash: Option<string>): Step<nat>
  {
    if memberId.None? || email.None? || hash.None? then Step(Failure(Violation), db)
    else if memberId.value !in db.members then Step(Failure(Violation), db)
    else if MemberHasAccount(db.accounts, memberId.value) || EmailTaken(db.accounts, email.value) then
      Step(Failure(Violation), db)
    else
      var key := db.nextAccountId;
      var row := AccountRecord(memberId.value, email.value, hash.value);
      Step(Success(key), db.(accounts := db.accounts[key := row], nextAccountId := key + 1))
  }

  /** Saving a LocalAccount that is already stored: its row is rewritten under
      the same constraints. */
  function MergeAccount(db: Db, key: nat, memberId: Option<nat>, email: Option<string>, hash: Option<string>): Step<nat>
    requires key in db.accounts
  {
    if memberId.None? || email.None? || hash.None? then Step(Failure(Violation), db)
    else if memberId.value !in db.members then Step(Failure(Violation), db)
    else if AccountTakenByOther(db.accounts, key, memberId.value, email.value) then Step(Failure(Violation), db)
    else
      var row := AccountRecord(memberId.value, email.value, hash.value);
      Step(Success(key), db.(accounts := db.accounts[key := row]))
  }

  /** `localAccountRepository.save(account)`. */
  function SaveAccountSpec(db: Db, id: Option<nat>, memberId: Option<nat>, email: Option<string>, hash: Option<string>): Step<nat>
  {
    if id.Some? && id.value in db.accounts then MergeAccount(db, id.value, memberId, email, hash)
    else PersistAccount(db, memberId, email, hash)
  }

  /** `sessionRepository.save(session)` for a new session: the foreign key to
      its mentor, then the insert. */
  function PersistSession(db: Db, row: SessionRecord): Step<nat>
  {
    if row.mentorId !in db.members then Step(Failure(Violation), db)
    else
      var key := db.nextSessionId;
      Step(Success(key), db.(sessions := db.sessions[key := row], nextSessionId := key + 1))
  }

  // ---- Properties of the writes ----

  /** Saving a member keeps the invariant; a refused save writes nothing. */
  lemma SaveMemberPreservesValid(db: Db, id: Option<nat>, name: Option<string>, phone: Option<string>, role: Option<Role>)
    requires ValidDb(db)
    ensures ValidDb(SaveMemberSpec(db, id, name, phone, role).db)
    ensures SaveMemberSpec(db, id, name, phone, role).result.Failure? ==> SaveMemberSpec(db, id, name, phone, role).db == db
  {
    var s := SaveMemberSpec(db, id, name, phone, role);
    if s.result.Success? {
      if id.Some? && id.value in db.members {
        PutMemberKeepsValid(db, id.value, MemberRecord(name.value, phone.value, role.value), db.nextMemberId);
      } else {
        var row := MemberRecord(name.value, phone.value, PrePersistRole(role).value);
        PutMemberKeepsValid(db, db.nextMemberId, row, db.nextMemberId + 1);
      }
    }
  }

  /** Writing `row` under `key` collides with no other member's phone number. */
  ghost predicate MemberFits(db: Db, key: nat, row: MemberRecord)
  {
    forall j :: j in db.members && j != key ==> db.members[j].phoneNumber != row.phoneNumber
  }

  /** Writing a member row that fits keeps the invariant. */
  lemma PutMemberKeepsValid(db: Db, key: nat, row: MemberRecord, next: nat)
    requires ValidDb(db) && MemberFits(db, key, row) && key < next && db.nextMemberId <= next
    ensures ValidDb(db.(members := db.members[key := row], nextMemberId := next))
  {
    var m := db.members[key := row];
    forall i, j | i in m && j in m && m[i].phoneNumber == m[j].phoneNumber
      ensures i == j
    {
    }
  }

  /** Writing `row` under `key` collides with no other account and refers to a
      stored member. */
  ghost predicate AccountFits(db: Db, key: nat, row: AccountRecord)
  {
    row.memberId in db.members
    && forall j :: j in db.accounts && j != key ==> db.accounts[j].memberId != row.memberId && db.accounts[j].email != row.email
  }

  /** Writing an account row that fits keeps the invariant. */
  lemma PutAccountKeepsValid(db: Db, key: nat, row: AccountRecord, next: nat)
    requires ValidDb(db) && AccountFits(db, key, row) && key < next && db.nextAccountId <= next
    ensures ValidDb(db.(accounts := db.accounts[key := row], nextAccountId := next))
  {
    var a := db.accounts[key := row];
    forall i, j | i in a && j in a && a[i].memberId == a[j].memberId
      ensures i == j
    {
    }
    forall i, j | i in a && j in a && a[i].email == a[j].email
      ensures i == j
    {
    }
  }

  /** Saving an account keeps the invariant; a refused save writes nothing. */
  lemma SaveAccountPreservesValid(db: Db, id: Option<nat>, memberId: Option<nat>, email: Option<string>, hash: Option<string>)
    requires ValidDb(db)
    ensures ValidDb(SaveAccountSpec(db, id, memberId, email, hash).db)
    ensures SaveAccountSpec(db, id, memberId, email, hash).result.Failure? ==> SaveAccountSpec(db, id, memberId, email, hash).db == db
  {
    var s := SaveAccountSpec(db, id, memberId, email, hash);
    if s.result.Success? {
      var row := AccountRecord(memberId.value, email.value, hash.value);
      if id.Some? && id.value in db.accounts {
        PutAccountKeepsValid(db, id.value, row, db.nextAccountId);
      } else {
        PutAccountKeepsValid(db, db.nextAccountId, row, db.nextAccountId + 1);
      }
    }
  }

  /** Saving a session keeps the invariant; a refused save writes nothing. */
  lemma PersistSessionPreservesValid(db: Db, row: SessionRecord)
    requires ValidDb(db)
    ensures ValidDb(PersistSession(db, row).db)
    ensures PersistSession(db, row).result.Failure? ==> PersistSession(db, row).db == db
  {
  }

  /** A second member with a phone already stored is refused. */
  lemma DuplicatePhoneRejected(db: Db, name: Option<string>, phone: string, role: Option<Role>)
    requires PhoneTaken(db.members, phone)
    ensures PersistMember(db, name, Some(phone), role) == Step(Failure(DataIntegrityViolationException), db)
  {
  }

  /** A member saved with a null role is stored as USER. */
  lemma NullRoleStoredAsUser(db: Db, name: string, phone: string)
    requires !PhoneTaken(db.members, phone)
    ensures PersistMember(db, Some(name), Some(phone), None).result == Success(db.nextMemberId)
    ensures PersistMember(db, Some(name), Some(phone), None).db.members[db.nextMemberId].role == USER
  {
  }

  /** A member with a null name or phone is refused. */
  lemma NullMemberFieldsRejected(db: Db, name: Option<string>, phone: Option<string>, role: Option<Role>)
    requires name.None? || phone.None?
    ensures PersistMember(db, name, phone, role) == Step(Failure(DataIntegrityViolationException), db)
  {
  }

  /** A new account whose member or email is already used by an account, or
      with a null field, is refused and nothing is written. */
  lemma AccountCollisionRejected(db: Db, memberId: Option<nat>, email: Option<string>, hash: Option<string>)
    requires memberId.None? || email.None? || hash.None?
             || MemberHasAccount(db.accounts, memberId.value) || EmailTaken(db.accounts, email.value)
    ensures PersistAccount(db, memberId, email, hash) == Step(Failure(DataIntegrityViolationException), db)
  {
  }

  /** The store the repositories share. */
  class Store {
    var members: map<nat, MemberRecord>
    var accounts: map<nat, AccountRecord>
    var sessions: map<nat, SessionRecord>
    var nextMemberId: nat
    var nextAccountId: nat
    var nextSessionId: nat

    function State(): Db
      reads this
    {
      Db(members, accounts, sessions, nextMemberId, nextAccountId, nextSessionId)
    }

    ghost predicate Valid()
      reads this
    {
      ValidDb(State())
    }

    /** An empty store whose identities start at 1. */
    constructor ()
      ensures Valid() && State() == EmptyDb
    {
      members, accounts, sessions := map[], map[], map[];
      nextMemberId, nextAccountId, nextSessionId := 1, 1, 1;
    }

    // -- MemberRepository --

    /** `findById`: a fresh entity holding the stored row, or None. */
    method FindMemberById(key: nat) returns (m: Option<Member>)
      ensures m.None? <==> key !in members
      ensures m.Some? ==> fresh(m.value) && m.value.Holds(key, members[key])
    {
      if key in members {
        var row := members[key];
        var entity := new Member(Some(key), Some(row.name), Some(row.phoneNumber), Some(row.role));
        return Some(entity);
      }
      return None;
    }

    /** `findByPhoneNumber`: a fresh entity holding the member with that phone. */
    method FindByPhoneNumber(phone: string) returns (m: Option<Member>)
      requires Valid()
      ensures m.None? <==> MemberWithPhone(members, phone).None?
      ensures m.Some? ==> fresh(m.value)
      ensures m.Some? ==> var key := MemberWithPhone(members, phone).value; m.value.Holds(key, members[key])
    {
      if exists i :: i in members && members[i].phoneNumber == phone {
        var key :| key in members && members[key].phoneNumber == phone;
        var row := members[key];
        var entity := new Member(Some(key), Some(row.name), Some(row.phoneNumber), Some(row.role));
        return Some(entity);
      }
      return None;
    }

    /** `save(member)`: an entity whose id is stored is merged, any other is
        persisted and receives its new id. */
    method SaveMember(m: Member) returns (r: Result<nat, Exception>)
      requires Valid()
      modifies this, m
      ensures Valid()
      ensures Step(r, State()) == SaveMemberSpec(old(State()), old(m.id), old(m.name), old(m.phoneNumber), old(m.role))
      ensures m.name == old(m.name) && m.phoneNumber == old(m.phoneNumber)
      ensures r.Success? ==> m.id == Some(r.value) && m.role == PrePersistRole(old(m.role))
    {
      SaveMemberPreservesValid(State(), m.id, m.name, m.phoneNumber, m.role);
      if m.id.Some? && m.id.value in members {
        r := MergeMemberRow(m.id.value, m);
      } else {
        r := PersistMemberRow(m);
      }
    }

    /** Merging a stored member: the row under `key` is rewritten. */
    method MergeMemberRow(key: nat, m: Member) returns (r: Result<nat, Exception>)
      requires key in members && m.id == Some(key)
      modifies this
      ensures Step(r, State()) == MergeMember(old(State()), key, m.name, m.phoneNumber, m.role)
    {
      if m.name.None? || m.phoneNumber.None? || m.role.None? || PhoneTakenByOther(members, key, m.phoneNumber.value) {
        return Failure(Violation);
      }
      members := members[key := MemberRecord(m.name.value, m.phoneNumber.value, m.role.value)];
      return Success(key);
    }

    /** Persisting a new member: `@PrePersist`, the checks, then the insert. */
    method PersistMemberRow(m: Member) returns (r: Result<nat, Exception>)
      modifies this, m
      ensures Step(r, State()) == PersistMember(old(State()), old(m.name), old(m.phoneNumber), old(m.role))
      ensures m.name == old(m.name) && m.phoneNumber == old(m.phoneNumber) && m.role == PrePersistRole(old(m.role))
      ensures r.Success? ==> m.id == Some(r.value)
    {
      m.PrePersist();
      if m.name.None? || m.phoneNumber.None? || PhoneTaken(members, m.phoneNumber.value) {
        return Failure(Violation);
      }
      var key := nextMemberId;
      members := members[key := MemberRecord(m.name.value, m.phoneNumber.value, m.role.value)];
      nextMemberId := key + 1;
      m.id := Some(key);
      return Success(key);
    }

    // -- LocalAccountRepository --

    /** `existsByMemberId`; reads only. */
    method ExistsByMemberId(memberId: nat) returns (b: bool)
      ensures b <==> MemberHasAccount(accounts, memberId)
    {
      b := exists i :: i in accounts && accounts[i].memberId == memberId;
    }

    /** `existsByEmail`; reads only. */
    method ExistsByEmail(email: string) returns (b: bool)
      ensures b <==> EmailTaken(accounts, email)
    {
      b := exists i :: i in accounts && accounts[i].email == email;
    }

    /** `findByEmail`: a fresh entity holding the account with that email. */
    method FindByEmail(email: string) returns (a: Option<LocalAccount>)
      requires Valid()
      ensures a.None? <==> AccountWithEmail(accounts, email).None?
      ensures a.Some? ==> fresh(a.value)
      ensures a.Some? ==> var key := AccountWithEmail(accounts, email).value; a.value.Holds(key, accounts[key])
    {
      if exists i :: i in accounts && accounts[i].email == email {
        var key :| key in accounts && accounts[key].email == email;
        var row := accounts[key];
        var entity := new LocalAccount(Some(key), Some(row.memberId), Some(row.email), Some(row.hashedPassword));
        return Some(entity);
      }
      return None;
    }

    /** `findByMemberId`: a fresh entity holding the member's account. */
    method FindByMemberId(memberId: nat) returns (a: Option<LocalAccount>)
      requires Valid()
      ensures a.None? <==> AccountOfMember(accounts, memberId).None?
      ensures a.Some? ==> fresh(a.value)
      ensures a.Some? ==> var key := AccountOfMember(accounts, memberId).value; a.value.Holds(key, accounts[key])
    {
      if exists i :: i in accounts && accounts[i].memberId == memberId {
        var key :| key in accounts && accounts[key].memberId == memberId;
        var row := accounts[key];
        var entity := new LocalAccount(Some(key), Some(row.memberId), Some(row.email), Some(row.hashedPassword));
        return Some(entity);
      }
      return None;
    }

    /** `save(account)`: an entity whose id is stored is merged, any other is
        persisted and receives its new id. */
    method SaveAccount(a: LocalAccount) returns (r: Result<nat, Exception>)
      requires Valid()
      modifies this, a
      ensures Valid()
      ensures Step(r, State()) == SaveAccountSpec(old(State()), old(a.id), a.memberId, a.email, a.hashedPassword)
      ensures a.memberId == old(a.memberId) && a.email == old(a.email) && a.hashedPassword == old(a.hashedPassword)
      ensures r.Success? ==> a.id == Some(r.value)
    {
      SaveAccountPreservesValid(State(), a.id, a.memberId, a.email, a.hashedPassword);
      if a.id.Some? && a.id.value in accounts {
        r := MergeAccountRow(a.id.value, a);
      } else {
        r := PersistAccountRow(a);
      }
    }

    /** Merging a stored account: the row under `key` is rewritten. */
    method MergeAccountRow(key: nat, a: LocalAccount) returns (r: Result<nat, Exception>)
      requires key in accounts && a.id == Some(key)
      modifies this
      ensures Step(r, State()) == MergeAccount(old(State()), key, a.memberId, a.email, a.hashedPassword)
    {
      if a.memberId.None? || a.email.None? || a.hashedPassword.None? || a.memberId.value !in members
         || AccountTakenByOther(accounts, key, a.memberId.value, a.email.value) {
        return Failure(Violation);
      }
      accounts := accounts[key := AccountRecord(a.memberId.value, a.email.value, a.hashedPassword.value)];
      return Success(key);
    }

    /** Persisting a new account: the checks, then the insert. */
    method PersistAccountRow(a: LocalAccount) returns (r: Result<nat, Exception>)
      modifies this, a
      ensures Step(r, State()) == PersistAccount(old(State()), a.memberId, a.email, a.hashedPassword)
      ensures a.memberId == old(a.memberId) && a.email == old(a.email) && a.hashedPassword == old(a.hashedPassword)
      ensures r.Success? ==> a.id == Some(r.value)
    {
      if a.memberId.None? || a.email.None? || a.hashedPassword.None? || a.memberId.value !in members
         || MemberHasAccount(accounts, a.memberId.value) || EmailTaken(accounts, a.email.value) {
        return Failure(Violation);
      }
      var key := nextAccountId;
      accounts := accounts[key := AccountRecord(a.memberId.value, a.email.value, a.hashedPassword.value)];
      nextAccountId := key + 1;
      a.id := Some(key);
      return Success(key);
    }

    // -- SessionRepository --

    /** `save(session)` of a new session. */
    method SaveSession(row: SessionRecord) returns (r: Result<nat, Exception>)
      requires Valid()
      modifies this
      ensures Valid()
      ensures Step(r, State()) == PersistSession(old(State()), row)
    {
      if row.mentorId !in members {
        return Failure(Violation);
      }
      var key := nextSessionId;
      sessions := sessions[key := row];
      nextSessionId := key + 1;
      return Success(key);
    }

    // -- Transactions --

    /** Rolling a transaction back puts back the state it started from. */
    method Restore(snapshot: Db)
      requires ValidDb(snapshot)
      modifies this
      ensures Valid() && State() == snapshot
    {
      members, accounts, sessions := snapshot.members, snapshot.accounts, snapshot.sessions;
      nextMemberId, nextAccountId, nextSessionId := snapshot.nextMemberId, snapshot.nextAccountId, snapshot.nextSessionId;
    }
  }
}
