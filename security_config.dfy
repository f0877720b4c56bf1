/** SecurityConfig of org.mentalk.common.config: the ordered authorization rule
    table and the two failure responses of the security filter chain. The
    request's authenticated identity, which the token filter sets, is a
    parameter: None for an anonymous request. */
module SecurityConfig {
  import opened Wrappers
  import opened Enums
  import opened ErrorCodes
  import opened Principal
  import ExceptionHandling
  import Responses

  datatype HttpMethod = GET | POST | PUT | PATCH | DELETE | HEAD | OPTIONS

  datatype Request = Request(verb: HttpMethod, path: string)

  // Path patterns used by the table: any path, one exact path, and a subtree
  // pattern written base/** in the configuration, which matches the base path
  // itself and every path below it.
  datatype PathPattern = AnyPath | Exact(path: string) | Subtree(base: string)

  /** A matcher with an optional HTTP method (None matches every method). */
  datatype RequestMatcher = RequestMatcher(verb: Option<HttpMethod>, pattern: PathPattern)

  datatype Access = PermitAll | HasRoleAccess(role: Role) | Authenticated

  datatype Rule = Rule(matcher: RequestMatcher, access: Access)

  /** The table of `authorizeHttpRequests`, in order. */
  const Rules: seq<Rule> := [
    Rule(RequestMatcher(None, Subtree("/api/auth")), PermitAll),
    Rule(RequestMatcher(Some(POST), Exact("/api/members")), PermitAll),
    Rule(RequestMatcher(Some(POST), Exact("/api/sessions")), HasRoleAccess(MENTOR)),
    Rule(RequestMatcher(None, AnyPath), Authenticated)
  ]

  predicate StartsWith(s: string, prefix: string)
  {
    |prefix| <= |s| && s[..|prefix|] == prefix
  }

  predicate PathMatches(pattern: PathPattern, path: string)
  {
    match pattern
    case AnyPath => true
    case Exact(p) => path == p
    case Subtree(base) => path == base || StartsWith(path, base + "/")
  }

  predicate Matches(m: RequestMatcher, req: Request)
  {
    (m.verb.None? || m.verb.value == req.verb) && PathMatches(m.pattern, req.path)
  }

  /** The index of the first rule whose matcher accepts the request. */
  function FirstMatch(rules: seq<Rule>, req: Request): (r: Option<nat>)
    ensures r.Some? ==> r.value < |rules| && Matches(rules[r.value].matcher, req)
    ensures r.Some? ==> forall j :: 0 <= j < r.value ==> !Matches(rules[j].matcher, req)
    ensures r.None? ==> forall j :: 0 <= j < |rules| ==> !Matches(rules[j].matcher, req)
  {
    if rules == [] then None
    else if Matches(rules[0].matcher, req) then Some(0)
    else
      match FirstMatch(rules[1..], req)
      case None => None
      case Some(i) => Some(i + 1)
  }

  /** Whether a rule's access requirement admits the identity; `hasRole` looks
      for the "ROLE_" authority of PrincipalDetails. */
  predicate Granted(access: Access, identity: Option<PrincipalDetails>)
  {
    match access
    case PermitAll => true
    case Authenticated => identity.Some?
    case HasRoleAccess(r) => identity.Some? && HasRole(identity.value, r)
  }

  /** The outcome of the authorization step: pass, 401 or 403. */
  datatype Decision = Permit | Unauthenticated | AccessDenied

  /** First match wins. A refusal of an anonymous request goes to the
      authentication entry point (401); a refusal of an authenticated one goes to
      the access-denied handler (403). */
  function Authorize(req: Request, identity: Option<PrincipalDetails>): (r: Decision)
    ensures r == Permit <==> FirstMatch(Rules, req).Some? && Granted(Rules[FirstMatch(Rules, req).value].access, identity)
    ensures r == Unauthenticated ==> identity.None?
    ensures r == AccessDenied ==> identity.Some?
  {
    var first := FirstMatch(Rules, req);
    var granted := first.Some? && Granted(Rules[first.value].access, identity);
    if granted then Permit
    else if identity.None? then Unauthenticated
    else AccessDenied
  }

  /** The body and status the entry point writes. */
  function EntryPointResponse<T>(): ExceptionHandling.HttpResponse<T>
  {
    ExceptionHandling.HttpResponse(401, Responses.Failure(Code(UNAUTHORIZED), Message(UNAUTHORIZED)))
  }

  /** The body and status the access-denied handler writes. */
  function AccessDeniedResponse<T>(): ExceptionHandling.HttpResponse<T>
  {
    ExceptionHandling.HttpResponse(403, Responses.Failure(Code(FORBIDDEN), Message(FORBIDDEN)))
  }

  /** The response of a refused request; None when the request passes on. */
  function DenialResponse<T>(d: Decision): (r: Option<ExceptionHandling.HttpResponse<T>>)
    ensures r.None? <==> d == Permit
    ensures r.Some? ==> !r.value.body.success
    ensures d == Unauthenticated ==> r.Some? && r.value.status == 401 && r.value.body.payload.ErrorBody? && FromCode(r.value.body.payload.code) == Some(UNAUTHORIZED)
    ensures d == AccessDenied ==> r.Some? && r.value.status == 403 && r.value.body.payload.ErrorBody? && FromCode(r.value.body.payload.code) == Some(FORBIDDEN)
  {
    FromCodeOfCode(UNAUTHORIZED);
    FromCodeOfCode(FORBIDDEN);
    match d
    case Permit => None
    case Unauthenticated => Some(EntryPointResponse())
    case AccessDenied => Some(AccessDeniedResponse())
  }

  /** The hard-coded statuses agree with the ErrorCode table, and 401 and 403
      carry distinct codes. */
  lemma DenialResponsesDistinct<T>()
    ensures EntryPointResponse<T>().status == Status(UNAUTHORIZED)
    ensures AccessDeniedResponse<T>().status == Status(FORBIDDEN)
    ensures EntryPointResponse<T>().body.payload.code != AccessDeniedResponse<T>().body.payload.code
  {
    CodesDistinct(UNAUTHORIZED, FORBIDDEN);
  }

  /** A path that differs from a prefix at some position does not start with it. */
  lemma NotUnder(path: string, prefix: string, k: nat)
    requires k < |prefix| && k < |path| && path[k] != prefix[k]
    ensures !StartsWith(path, prefix)
  {
  }

  /** /api/auth and every path under it are public, whatever the method and
      identity. */
  lemma AuthRoutesPublic(verb: HttpMethod, path: string, identity: Option<PrincipalDetails>)
    requires path == "/api/auth" || StartsWith(path, "/api/auth/")
    ensures Authorize(Request(verb, path), identity) == Permit
  {
    assert Matches(Rules[0].matcher, Request(verb, path));
  }

  /** Member registration (POST /api/members) is public. */
  lemma SignupRoutePublic(identity: Option<PrincipalDetails>)
    ensures Authorize(Request(POST, "/api/members"), identity) == Permit
  {
    NotUnder("/api/members", "/api/auth/", 5);
    assert !Matches(Rules[0].matcher, Request(POST, "/api/members"));
  }

  /** POST /api/sessions: 401 without identity, 403 for a non-mentor, pass for a
      mentor. */
  lemma SessionCreationNeedsMentor(identity: Option<PrincipalDetails>)
    ensures identity.None? ==> Authorize(Request(POST, "/api/sessions"), identity) == Unauthenticated
    ensures identity.Some? && identity.value.role != MENTOR ==>
              Authorize(Request(POST, "/api/sessions"), identity) == AccessDenied
    ensures identity.Some? && identity.value.role == MENTOR ==>
              Authorize(Request(POST, "/api/sessions"), identity) == Permit
  {
    var req := Request(POST, "/api/sessions");
    NotUnder(req.path, "/api/auth/", 5);
    assert !Matches(Rules[0].matcher, req);
    assert !Matches(Rules[1].matcher, req);
    assert FirstMatch(Rules, req) == Some(2);
    if identity.Some? {
      HasRoleIffOwnRole(identity.value, MENTOR);
    }
  }

  /** A request no earlier rule claims falls to the default rule: it passes with
      any identity of any role and is refused with 401 without one, never 403. */
  lemma DefaultRuleNeedsIdentity(req: Request, identity: Option<PrincipalDetails>)
    requires !(req.path == "/api/auth" || StartsWith(req.path, "/api/auth/"))
    requires req != Request(POST, "/api/members") && req != Request(POST, "/api/sessions")
    ensures Authorize(req, identity) == (if identity.Some? then Permit else Unauthenticated)
  {
    assert !Matches(Rules[0].matcher, req);
    assert !Matches(Rules[1].matcher, req);
    assert !Matches(Rules[2].matcher, req);
    assert Matches(Rules[3].matcher, req);
  }

  /** Promotion to mentor (PUT /api/members/role/mentor) is not covered by the
      public POST /api/members rule. */
  lemma RoleChangeNeedsIdentity(identity: Option<PrincipalDetails>)
    ensures Authorize(Request(PUT, "/api/members/role/mentor"), identity) ==
              (if identity.Some? then Permit else Unauthenticated)
  {
    var path := "/api/members/role/mentor";
    NotUnder(path, "/api/auth/", 5);
    DefaultRuleNeedsIdentity(Request(PUT, path), identity);
  }

  /** 403 arises only for an authenticated non-mentor creating a session. */
  lemma ForbiddenOnlyForSessionCreation(req: Request, identity: Option<PrincipalDetails>)
    requires Authorize(req, identity) == AccessDenied
    ensures req == Request(POST, "/api/sessions")
    ensures identity.Some? && identity.value.role != MENTOR
  {
    assert Matches(Rules[3].matcher, req);
    var i := FirstMatch(Rules, req);
    assert i.value == 2;
    assert Matches(Rules[2].matcher, req);
    HasRoleIffOwnRole(identity.value, MENTOR);
  }
}
