/** The access decision of `AuthGuard.canActivate` (src/auth-guard.ts):
    the resolved session is stored on the request, then a fixed chain of
    rules (public, optional, signed in, roles) allows the request or denies
    it with a 401 or a 403. */
module Access {
  import opened Wrappers

  /** Request headers after `fromNodeHeaders`: header name to value. */
  type Headers = map<string, string>

  /** The shape of `session.user.role`: a string, an array of strings, or
      anything else (absent, `null`, a number, ...). */
  datatype RoleValue = RoleString(name: string) | RoleArray(names: seq<string>) | OtherRole

  datatype User = User(id: string, role: RoleValue)

  /** A session issued by the authentication provider; the guard only looks at its user. */
  datatype Session = Session(user: User)

  /** The route's metadata as the reflector resolves it (handler overrides class):
      the `PUBLIC` and `OPTIONAL` flags (truthiness) and the `ROLES` list. */
  datatype RouteMetadata = RouteMetadata(isPublic: bool, isOptional: bool, requiredRoles: Option<seq<string>>)

  /** `UnauthorizedException` (HTTP 401) or `ForbiddenException` (HTTP 403). */
  datatype DenialKind = Unauthorized | Forbidden

  /** `true` returned, or an exception thrown with a `{ code, message }` body. */
  datatype Decision = Allow | Deny(kind: DenialKind, code: string, message: string)

  const UnauthorizedDenial: Decision := Deny(Unauthorized, "UNAUTHORIZED", "Unauthorized")
  const ForbiddenDenial: Decision := Deny(Forbidden, "FORBIDDEN", "Insufficient permissions")

  /** `xs.includes(x)` on an array of strings. */
  function Includes(xs: seq<string>, x: string): (r: bool)
    ensures r <==> x in xs
  {
    if xs == [] then false else xs[0] == x || Includes(xs[1..], x)
  }

  /** `held.some((role) => required.includes(role))`. */
  function AnyIncluded(held: seq<string>, required: seq<string>): (r: bool)
    ensures r <==> exists i :: 0 <= i < |held| && held[i] in required
  {
    if held == [] then false
    else if Includes(required, held[0]) then true
    else
      var rest := AnyIncluded(held[1..], required);
      assert forall i :: 1 <= i < |held| ==> held[i] == held[1..][i - 1];
      rest
  }

  /** The set of roles a role value grants: independent of how the guard searches. */
  function RolesHeld(role: RoleValue): (s: set<string>)
    ensures role.OtherRole? ==> s == {}
  {
    match role
    case RoleString(name) => {name}
    case RoleArray(names) => set x | x in names
    case OtherRole => {}
  }

  /** The local `hasRole` of the guard: an array role matches when one of its
      elements is required, a string role when it is itself required, any
      other shape never. */
  function HasRole(role: RoleValue, required: seq<string>): (r: bool)
    ensures r <==> exists x :: x in RolesHeld(role) && x in required
  {
    match role
    case RoleArray(names) =>
      var r := AnyIncluded(names, required);
      assert r ==> exists i :: 0 <= i < |names| && names[i] in RolesHeld(role) && names[i] in required;
      r
    case RoleString(name) => Includes(required, name)
    case OtherRole => false
  }

  /** Whether the required-roles metadata asks for anything (`requiredRoles && requiredRoles.length > 0`). */
  predicate RestrictsRoles(requiredRoles: Option<seq<string>>) {
    requiredRoles.Some? && |requiredRoles.value| > 0
  }

  /** When a request may proceed, stated without the order of the checks:
      a public route always; a route marked optional when nobody is signed
      in; otherwise a signed-in user whose roles meet the requirement. */
  ghost predicate Permitted(session: Option<Session>, route: RouteMetadata) {
    route.isPublic
    || (session.None? && route.isOptional)
    || (session.Some? &&
        (!RestrictsRoles(route.requiredRoles) ||
         exists x :: x in RolesHeld(session.value.user.role) && x in route.requiredRoles.value))
  }

  /** The decision chain of `canActivate`, first matching rule wins. */
  function Decide(session: Option<Session>, route: RouteMetadata): (d: Decision)
    ensures d.Allow? <==> Permitted(session, route)
    ensures d.Deny? && session.None? ==> d == UnauthorizedDenial
    ensures d.Deny? && session.Some? ==> d == ForbiddenDenial
  {
    if route.isPublic then Allow
    else if route.isOptional && session.None? then Allow
    else if session.None? then UnauthorizedDenial
    else if RestrictsRoles(route.requiredRoles) then
      var hasRole := HasRole(session.value.user.role, route.requiredRoles.value);
      if hasRole then Allow else ForbiddenDenial
    else Allow
  }

  /** A public route is let through whoever asks, before any role is looked at. */
  lemma PublicAlwaysAllows(session: Option<Session>, route: RouteMetadata)
    requires route.isPublic
    ensures Decide(session, route) == Allow
  {
  }

  /** The optional flag only waives the presence of a session: once a
      session exists, the decision is the same as without the flag. */
  lemma OptionalDoesNotWaiveRoles(session: Session, route: RouteMetadata)
    ensures Decide(Some(session), route.(isOptional := true)) == Decide(Some(session), route.(isOptional := false))
  {
  }

  /** Without a session the only outcomes are allow (public or optional) and 401. */
  lemma NoSessionOutcome(route: RouteMetadata)
    ensures Decide(None, route) == if route.isPublic || route.isOptional then Allow else UnauthorizedDenial
  {
  }

  /** With a session and no role restriction, every role value is let through. */
  lemma NoRolesRequiredAllows(session: Session, route: RouteMetadata)
    requires !RestrictsRoles(route.requiredRoles)
    ensures Decide(Some(session), route) == Allow
  {
  }

  /** The cases exercised by the guard's own tests. */
  lemma GuardScenarios()
    ensures Decide(Some(Session(User("u1", RoleString("user")))), RouteMetadata(false, false, Some(["admin"]))) == ForbiddenDenial
    ensures Decide(Some(Session(User("u1", RoleString("admin")))), RouteMetadata(false, false, Some(["admin"]))) == Allow
    ensures Decide(Some(Session(User("u1", RoleArray(["editor", "admin"])))), RouteMetadata(false, false, Some(["admin"]))) == Allow
    ensures Decide(Some(Session(User("u1", RoleString("user")))), RouteMetadata(false, false, None)) == Allow
    ensures Decide(None, RouteMetadata(false, false, None)) == UnauthorizedDenial
  {
  }

  /** The headers handed to the session lookup: `request.headers`, else the
      socket handshake's headers, else an empty collection. */
  function LookupHeaders(headers: Option<Headers>, handshakeHeaders: Option<Headers>): (h: Headers)
    ensures headers.Some? ==> h == headers.value
    ensures headers.None? && handshakeHeaders.Some? ==> h == handshakeHeaders.value
    ensures headers.None? && handshakeHeaders.None? ==> h == map[]
  {
    headers.GetOr(handshakeHeaders.GetOr(map[]))
  }

  /** A request as the guard sees it, HTTP or socket alike. */
  class Request {
    const headers: Option<Headers>
    /** `request.handshake?.headers` */
    const handshakeHeaders: Option<Headers>
    var session: Option<Session>
    var user: Option<User>

    constructor(headers: Option<Headers>, handshakeHeaders: Option<Headers>)
      ensures this.headers == headers && this.handshakeHeaders == handshakeHeaders
      ensures session == None && user == None
    {
      this.headers := headers;
      this.handshakeHeaders := handshakeHeaders;
      session := None;
      user := None;
    }
  }

  /** What the provider's `getSession` settles with: a session or `null`, or a rejection. */
  datatype SessionLookup = Found(session: Option<Session>) | LookupFailed(error: string)

  /** What `canActivate` does: decide, or pass a provider rejection on unchanged. */
  datatype Activation = Decided(decision: Decision) | ProviderError(error: string)

  class AuthGuard {
    /** `options.auth.api.getSession`, applied to the looked-up headers. */
    const getSession: Headers -> SessionLookup

    constructor(getSession: Headers -> SessionLookup)
      ensures this.getSession == getSession
    {
      this.getSession := getSession;
    }

    /** Resolves the session, stores it and its user on the request whatever
        the outcome, and then applies the decision chain. */
    method CanActivate(request: Request, route: RouteMetadata) returns (a: Activation)
      modifies request
      ensures match getSession(LookupHeaders(request.headers, request.handshakeHeaders))
        case LookupFailed(e) =>
          a == ProviderError(e) && request.session == old(request.session) && request.user == old(request.user)
        case Found(s) =>
          && request.session == s
          && request.user == (if s.Some? then Some(s.value.user) else None)
          && a == Decided(Decide(s, route))
    {
      var lookup := getSession(LookupHeaders(request.headers, request.handshakeHeaders));
      if lookup.LookupFailed? {
        return ProviderError(lookup.error);
      }
      var session := lookup.session;
      request.session := session;
      request.user := if session.Some? then Some(session.value.user) else None;
      a := Decided(Decide(session, route));
    }
  }
}
