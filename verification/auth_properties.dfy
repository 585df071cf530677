/** Properties of the access guard that relate several of its operations:
    how the claim predicates relate, how the two gates order their checks
    and where they redirect, and what a reload of storage sees after
    `logout` and `updateUserData`. */
module AuthProperties {
  import opened Wrappers
  import opened JsValues
  import opened AuthMiddleware

  /** The in-memory token is the one in storage: true right after the
      constructor, kept by `updateUserData`, broken by `logout`. */
  predicate Coherent(s: Session)
  {
    s.token == Lookup(s.storage, TokenKey)
  }

  /** The session with its `userType` claim replaced (`Some`) or deleted
      (`None`). */
  function WithUserType(s: Session, v: Option<Value>): (r: Session)
  {
    match v
    case Some(x) => s.(userData := s.userData["userType" := x])
    case None => s.(userData := s.userData - {"userType"})
  }

  /** The token carried by an `Authorization` header value, if it is a
      bearer header. */
  function BearerToken(authorization: string): (r: Option<string>)
  {
    if |BearerPrefix| <= |authorization| && authorization[..|BearerPrefix|] == BearerPrefix
    then Some(authorization[|BearerPrefix|..])
    else None
  }

  // ---- Claim predicates ----

  /** Since `userType` holds one value, being both a buyer and a seller is
      the same as having the type "both". */
  lemma BothIffBuyerAndSeller(s: Session)
    ensures IsBoth(s) <==> IsBuyer(s) && IsSeller(s)
  {
  }

  /** `isAdmin()` looks at the role only: setting or deleting the user
      type never changes it. */
  lemma AdminIgnoresUserType(s: Session, v: Option<Value>)
    ensures IsAdmin(WithUserType(s, v)) == IsAdmin(s)
  {
  }

  /** The type gate is never more permissive than `requireAuth()`: a
      session it lets through passes `requireAuth()` with any target. */
  lemma TypeGateImpliesAuthGate(s: Session, allowedTypes: seq<string>, r: Option<string>, r': Option<string>)
    ensures RequireUserType(s, allowedTypes, r).passed ==> RequireAuth(s, r').passed
  {
  }

  // ---- requireUserType ----

  /** Admin bypass: an authenticated admin passes the type gate for every
      list of allowed types, the empty one included. */
  lemma AdminBypass(s: Session, allowedTypes: seq<string>, r: Option<string>)
    requires IsAuthenticated(s) && IsAdmin(s)
    ensures RequireUserType(s, allowedTypes, r) == Gate(true, None)
  {
  }

  /** Unauthenticated, the type gate refuses exactly as `requireAuth()`
      with no argument does: to the login page, whatever target the caller
      gave. */
  lemma UnauthenticatedGoesToLogin(s: Session, allowedTypes: seq<string>, r: Option<string>)
    requires !IsAuthenticated(s)
    ensures RequireUserType(s, allowedTypes, r) == RequireAuth(s, None)
    ensures RequireUserType(s, allowedTypes, r) == Gate(false, Some(LoginPage))
  {
  }

  /** A concrete case: with nothing in storage, a caller asking for
      "home.html" is still sent to "login.html" by the type gate, while
      `requireAuth("home.html")` would have sent it to "home.html". */
  lemma CallerTargetIgnoredWhenUnauthenticated()
    ensures var s := Session(None, map[], map[]);
            && RequireUserType(s, ["buyer"], Some("home.html")).redirect == Some("login.html")
            && RequireAuth(s, Some("home.html")).redirect == Some("home.html")
  {
  }

  /** Widening the allowed list never turns a pass into a refusal. */
  lemma WiderAllowedStillPasses(s: Session, a: seq<string>, b: seq<string>, r: Option<string>, r': Option<string>)
    requires forall x :: x in a ==> x in b
    ensures RequireUserType(s, a, r).passed ==> RequireUserType(s, b, r').passed
  {
  }

  /** For an authenticated session, a string role listed in `allowed`
      passes on its own, whatever the user type; a non-admin whose string
      type and role are both unlisted is refused to the caller's target, or
      to "unauthorized.html". For example, a non-admin "editor" with type
      "buyer" passes for ["editor"] and is refused for ["seller"]. */
  lemma RoleAloneCanPass(s: Session, allowedTypes: seq<string>, r: Option<string>)
    ensures IsAuthenticated(s) && StringProp(s.userData, "role").Some? && StringProp(s.userData, "role").value in allowedTypes ==>
              RequireUserType(s, allowedTypes, r) == Gate(true, None)
    ensures IsAuthenticated(s) && !IsAdmin(s) &&
            !(StringProp(s.userData, "userType").Some? && StringProp(s.userData, "userType").value in allowedTypes) &&
            !(StringProp(s.userData, "role").Some? && StringProp(s.userData, "role").value in allowedTypes) ==>
              RequireUserType(s, allowedTypes, r) == Gate(false, Some(ArgOr(r, UnauthorizedPage)))
    ensures var e := Session(Some("t"), map["id" := Str("7"), "userType" := Str("buyer"), "role" := Str("editor")], map[]);
            && !IsAdmin(e)
            && RequireUserType(e, ["editor"], None).passed
            && !RequireUserType(e, ["seller"], None).passed
            && RequireUserType(e, ["seller"], None).redirect == Some(UnauthorizedPage)
  {
  }

  // ---- Constructor, logout and reload ----

  /** The constructor yields a coherent session. */
  lemma LoadIsCoherent(storage: Storage, parse: string -> Option<Object>)
    ensures Load(storage, parse).Success? ==> Coherent(Load(storage, parse).value)
  {
  }

  /** Empty storage loads to a session with no token and an empty record,
      without consulting the parser, and that session is not
      authenticated. */
  lemma EmptyStorageLoadsSignedOut(parse: string -> Option<Object>)
    ensures Load(map[], parse) == Success(Session(None, map[], map[]))
    ensures !IsAuthenticated(Load(map[], parse).value)
  {
  }

  /** After `logout`, reloading from storage gives a signed-out session
      with an empty record, whatever the parser. */
  lemma LogoutThenReload(s: Session, r: Option<string>, parse: string -> Option<Object>)
    ensures var storage := Logout(s, r).next.storage;
            && Load(storage, parse) == Success(Session(None, map[], storage))
            && !IsAuthenticated(Load(storage, parse).value)
  {
  }

  /** `logout` does not touch the in-memory session: an authenticated
      session stays authenticated in memory, and is no longer coherent
      with storage, although a reload would be signed out. */
  lemma LogoutLeavesMemoryStale(s: Session, r: Option<string>)
    requires IsAuthenticated(s)
    ensures IsAuthenticated(Logout(s, r).next)
    ensures !Coherent(Logout(s, r).next)
  {
  }

  // ---- updateUserData ----

  /** Writing through: when `stringify` produces non-empty text that
      `parse` reads back, reloading after `updateUserData` gives exactly
      the updated in-memory session. */
  lemma UpdateThenReload(s: Session, n: Object, parse: string -> Option<Object>, stringify: Object -> string)
    requires Coherent(s)
    requires stringify(Spread(s.userData, n)) != ""
    requires parse(stringify(Spread(s.userData, n))) == Some(Spread(s.userData, n))
    ensures Load(UpdateUserData(s, n, stringify).storage, parse) == Success(UpdateUserData(s, n, stringify))
    ensures Coherent(UpdateUserData(s, n, stringify))
  {
  }

  /** Two updates in a row are one update with the merged record. */
  lemma UpdatesCompose(s: Session, a: Object, b: Object, stringify: Object -> string)
    ensures UpdateUserData(UpdateUserData(s, a, stringify), b, stringify) == UpdateUserData(s, Spread(a, b), stringify)
  {
    var t1 := UpdateUserData(UpdateUserData(s, a, stringify), b, stringify);
    var t2 := UpdateUserData(s, Spread(a, b), stringify);
    assert t1.userData == t2.userData;
    assert t1.storage == t2.storage;
  }

  /** Repeating an update changes nothing. */
  lemma UpdateIdempotent(s: Session, a: Object, stringify: Object -> string)
    ensures UpdateUserData(UpdateUserData(s, a, stringify), a, stringify) == UpdateUserData(s, a, stringify)
  {
    UpdatesCompose(s, a, a, stringify);
    assert Spread(a, a) == a;
  }

  /** An update that does not mention `id`, `userType` or `role` leaves
      authentication and every claim predicate as they were. */
  lemma UpdateKeepsClaims(s: Session, n: Object, stringify: Object -> string)
    requires "id" !in n && "userType" !in n && "role" !in n
    ensures var t := UpdateUserData(s, n, stringify);
            && IsAuthenticated(t) == IsAuthenticated(s)
            && IsBuyer(t) == IsBuyer(s) && IsSeller(t) == IsSeller(s)
            && IsBoth(t) == IsBoth(s) && IsAdmin(t) == IsAdmin(s)
  {
  }

  // ---- getAuthHeader and validateToken ----

  /** The token can be read back from the header whenever there is one. */
  lemma HeaderCarriesToken(s: Session)
    requires s.token.Some?
    ensures BearerToken(GetAuthHeader(s)["Authorization"]) == s.token
  {
  }

  /** Without a token the header is not empty: it carries the text
      "null", the same header a session whose token is "null" sends. */
  lemma AbsentTokenSentAsNull(s: Session)
    ensures GetAuthHeader(s.(token := None)) == GetAuthHeader(s.(token := Some("null")))
    ensures BearerToken(GetAuthHeader(s.(token := None))["Authorization"]) == Some("null")
  {
    HeaderCarriesToken(s.(token := Some("null")));
  }

  /** Fail-closed: a network failure never validates, and without a
      truthy token no request is sent whatever the server would say. */
  lemma ValidateFailsClosed(s: Session, reply: Reply)
    ensures !ValidateToken(s, NetworkFailure).valid
    ensures s.token.None? || s.token.value == "" ==> ValidateToken(s, reply) == Validation(false, None)
  {
  }

  /** `validateToken()` looks at the token only: replacing the user data
      never changes its answer or its request, so a session with a truthy
      token but no `id` is not authenticated, yet validates when the server
      accepts the token. */
  lemma ValidateIgnoresUserData(s: Session, u: Object, reply: Reply)
    ensures ValidateToken(s.(userData := u), reply) == ValidateToken(s, reply)
    ensures s.token.Some? && s.token.value != "" && "id" !in s.userData ==>
              !IsAuthenticated(s) && ValidateToken(s, Responded(true)).valid
  {
  }

  /** Every authenticated session sends its validation request, with the
      same bearer value `getAuthHeader()` would send. */
  lemma AuthenticatedSessionsAreChecked(s: Session, reply: Reply)
    requires IsAuthenticated(s)
    ensures ValidateToken(s, reply).request == Some(Request(ValidateUrl, GetAuthHeader(s)["Authorization"]))
  {
  }
}
