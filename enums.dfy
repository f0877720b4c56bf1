/** The enums of org.mentalk.common.enums that the identity subsystem uses. */
module Enums {
  import opened Wrappers

  /** Member roles. `name()` and `valueOf` convert to and from the constant's name. */
  datatype Role = USER | MENTOR

  /** `Role.name()`. */
  function RoleName(r: Role): string
  {
    match r
    case USER => "USER"
    case MENTOR => "MENTOR"
  }

  /** `Role.valueOf(s)`: the constant whose name is exactly `s`; any other string
      raises IllegalArgumentException, modelled as None. */
  function RoleValueOf(s: string): (r: Option<Role>)
    ensures r.Some? ==> RoleName(r.value) == s
  {
    if s == "USER" then Some(USER)
    else if s == "MENTOR" then Some(MENTOR)
    else None
  }

  /** `valueOf` inverts `name()`, so the name identifies the role. */
  lemma ValueOfName(r: Role)
    ensures RoleValueOf(RoleName(r)) == Some(r)
  {
  }

  /** A session's type. Only the constant MENTORING is named in the code that is
      modelled; a type is carried through unchanged, so it is kept by its name. */
  datatype SessionType = SessionType(name: string)

  const MENTORING := SessionType("MENTORING")
}
