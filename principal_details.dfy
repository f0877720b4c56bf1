/** PrincipalDetails of org.mentalk.security: the authenticated identity the
    token filter places in the request context, as Spring Security sees it. */
module Principal {
  import opened Wrappers
  import opened Enums
  import Decimal

  const ROLE_PREFIX := "ROLE_"

  datatype PrincipalDetails = PrincipalDetails(id: int, role: Role)

  /** `getAuthorities`: one authority, "ROLE_" followed by the role's name. */
  function Authorities(p: PrincipalDetails): (a: seq<string>)
    ensures |a| == 1 && |a[0]| > |ROLE_PREFIX| && a[0][..|ROLE_PREFIX|] == ROLE_PREFIX
  {
    [ROLE_PREFIX + RoleName(p.role)]
  }

  /** `getPassword`: always null. */
  function Password(p: PrincipalDetails): (password: Option<string>)
    ensures password.None?
  {
    None
  }

  /** `getUsername`: the id's decimal text. */
  function Username(p: PrincipalDetails): (name: string)
    ensures Decimal.ParseLong(name) == Some(p.id)
  {
    Decimal.LongRoundTrip(p.id);
    Decimal.LongToString(p.id)
  }

  /** The role an authority string names, if it is a role authority. */
  function RoleOfAuthority(authority: string): (r: Option<Role>)
    ensures r.Some? ==> authority == ROLE_PREFIX + RoleName(r.value)
  {
    if |authority| >= |ROLE_PREFIX| && authority[..|ROLE_PREFIX|] == ROLE_PREFIX then
      var r := RoleValueOf(authority[|ROLE_PREFIX|..]);
      assert r.Some? ==> authority == ROLE_PREFIX + authority[|ROLE_PREFIX|..];
      r
    else None
  }

  /** What `hasRole(r)` asks of a principal: that "ROLE_" + r is among its
      authorities. */
  predicate HasRole(p: PrincipalDetails, r: Role)
  {
    ROLE_PREFIX + RoleName(r) in Authorities(p)
  }

  /** The authority names the principal's role and no other, so `hasRole(r)`
      holds exactly for the principal's own role. */
  lemma HasRoleIffOwnRole(p: PrincipalDetails, r: Role)
    ensures HasRole(p, r) <==> p.role == r
    ensures RoleOfAuthority(Authorities(p)[0]) == Some(p.role)
  {
    var a := ROLE_PREFIX + RoleName(p.role);
    assert a[|ROLE_PREFIX|..] == RoleName(p.role);
    ValueOfName(p.role);
    if HasRole(p, r) {
      assert ROLE_PREFIX + RoleName(r) == a;
      assert (ROLE_PREFIX + RoleName(r))[|ROLE_PREFIX|..] == RoleName(r);
      ValueOfName(r);
    }
  }
}
