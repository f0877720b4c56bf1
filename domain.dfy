/** The persisted entities: Member and LocalAccount as the mutable objects the
    services load, change and save, and the rows the store keeps for them and
    for Session. */
module Domain {
  import opened Wrappers
  import opened Enums

  /** A member row: every column is NOT NULL, so no field is optional. */
  datatype MemberRecord = MemberRecord(name: string, phoneNumber: string, role: Role)

  /** A local-account row; `memberId` is the unique foreign key to its member. */
  datatype AccountRecord = AccountRecord(memberId: nat, email: string, hashedPassword: string)

  /** A session row; `mentorId` is the foreign key to the member who offers it. */
  datatype SessionRecord = SessionRecord(mentorId: nat, sessionType: SessionType, title: string, content: string)

  /** The role `prePersist` leaves: USER in place of null, any other role kept. */
  function PrePersistRole(role: Option<Role>): (r: Option<Role>)
    ensures r.Some?
    ensures role.Some? ==> r == role
    ensures role.None? ==> r == Some(USER)
  {
    if role.None? then Some(USER) else role
  }

  /** Running `prePersist` a second time changes nothing. */
  lemma PrePersistIdempotent(role: Option<Role>)
    ensures PrePersistRole(PrePersistRole(role)) == PrePersistRole(role)
  {
  }

  /** The Member entity; null fields are None and `id` is None until persisted. */
  class Member {
    var id: Option<nat>
    var name: Option<string>
    var phoneNumber: Option<string>
    var role: Option<Role>

    /** `Member.builder()...build()`. */
    constructor (id: Option<nat>, name: Option<string>, phoneNumber: Option<string>, role: Option<Role>)
      ensures this.id == id && this.name == name && this.phoneNumber == phoneNumber && this.role == role
    {
      this.id := id;
      this.name := name;
      this.phoneNumber := phoneNumber;
      this.role := role;
    }

    /** The entity holds row `r` stored under `key`. */
    predicate Holds(key: nat, r: MemberRecord)
      reads this
    {
      id == Some(key) && name == Some(r.name) && phoneNumber == Some(r.phoneNumber) && role == Some(r.role)
    }

    /** `@PrePersist prePersist()`: a null role becomes USER. */
    method PrePersist()
      modifies this
      ensures role == PrePersistRole(old(role))
      ensures id == old(id) && name == old(name) && phoneNumber == old(phoneNumber)
    {
      role := if role == None then Some(USER) else role;
    }

    /** `changeRole(role)`: replaces the role and nothing else. */
    method ChangeRole(newRole: Role)
      modifies this
      ensures role == Some(newRole)
      ensures id == old(id) && name == old(name) && phoneNumber == old(phoneNumber)
    {
      role := Some(newRole);
    }
  }

  /** The LocalAccount entity; `memberId` stands for the one-to-one `member`
      reference. */
  class LocalAccount {
    var id: Option<nat>
    var memberId: Option<nat>
    var email: Option<string>
    var hashedPassword: Option<string>

    /** `LocalAccount.builder()...build()`. */
    constructor (id: Option<nat>, memberId: Option<nat>, email: Option<string>, hashedPassword: Option<string>)
      ensures this.id == id && this.memberId == memberId && this.email == email
      ensures this.hashedPassword == hashedPassword
    {
      this.id := id;
      this.memberId := memberId;
      this.email := email;
      this.hashedPassword := hashedPassword;
    }

    /** The entity holds row `r` stored under `key`. */
    predicate Holds(key: nat, r: AccountRecord)
      reads this
    {
      id == Some(key) && memberId == Some(r.memberId) && email == Some(r.email)
      && hashedPassword == Some(r.hashedPassword)
    }

    /** `changePassword(hashedPassword)`: replaces the hash and nothing else; a
        later call overwrites an earlier one. */
    method ChangePassword(newHash: string)
      modifies this
      ensures hashedPassword == Some(newHash)
      ensures id == old(id) && memberId == old(memberId) && email == old(email)
    {
      hashedPassword := Some(newHash);
    }
  }
}
