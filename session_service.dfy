/** SessionService of org.mentalk.session: a mentor opens a session. */
module Sessions {
  import opened Wrappers
  import opened Enums
  import opened Domain
  import opened ErrorCodes
  import opened ExceptionHandling
  import opened IdentityStore

  /** `createSession(dto)`: the mentor is looked up by id, then the session is
      saved for that mentor with the dto's type, title and content. The mentor's
      role is not looked at. */
  function CreateSessionSpec(db: Db, mentorId: nat, sessionType: SessionType, title: string, content: string): Step<nat>
  {
    if mentorId !in db.members then Step(Failure(ApiException(MEMBER_NOT_FOUND)), db)
    else PersistSession(db, SessionRecord(mentorId, sessionType, title, content))
  }

  /** An unknown mentor fails with MEMBER_NOT_FOUND and saves nothing. Otherwise
      exactly one session is added, under the identity the call returns, holding
      the mentor and the dto's fields; members, accounts and the other sessions
      are unchanged and the store's invariant is kept. */
  lemma CreateSessionOutcome(db: Db, mentorId: nat, sessionType: SessionType, title: string, content: string)
    requires ValidDb(db)
    ensures var s := CreateSessionSpec(db, mentorId, sessionType, title, content);
            && ValidDb(s.db)
            && (mentorId !in db.members ==> s == Step(Failure(ApiException(MEMBER_NOT_FOUND)), db))
            && (mentorId in db.members ==>
                  && s.result == Success(db.nextSessionId)
                  && db.nextSessionId !in db.sessions
                  && s.db == db.(sessions := db.sessions[db.nextSessionId := SessionRecord(mentorId, sessionType, title, content)],
                                 nextSessionId := db.nextSessionId + 1))
  {
    PersistSessionPreservesValid(db, SessionRecord(mentorId, sessionType, title, content));
  }

  /** The outcome does not depend on the mentor's role: a member with role USER
      can open a session as well as a MENTOR; only the route table gates it. */
  lemma RoleNotChecked(db: Db, mentorId: nat, role: Role, sessionType: SessionType, title: string, content: string)
    requires mentorId in db.members
    ensures var other := db.(members := db.members[mentorId := db.members[mentorId].(role := role)]);
            CreateSessionSpec(other, mentorId, sessionType, title, content).result
            == CreateSessionSpec(db, mentorId, sessionType, title, content).result
  {
  }

  /** SessionService over the shared store. */
  class SessionService {
    const store: Store

    constructor (store: Store)
      ensures this.store == store
    {
      this.store := store;
    }

    /** `createSession(dto)`; the result is the new session's id. */
    method CreateSession(mentorId: nat, sessionType: SessionType, title: string, content: string) returns (r: Result<nat, Exception>)
      requires store.Valid()
      modifies store
      ensures store.Valid()
      ensures Step(r, store.State()) == CreateSessionSpec(old(store.State()), mentorId, sessionType, title, content)
    {
      var mentor := store.FindMemberById(mentorId);
      if mentor.None? {
        return Failure(ApiException(MEMBER_NOT_FOUND));
      }
      r := store.SaveSession(SessionRecord(mentor.value.id.value, sessionType, title, content));
    }
  }
}
