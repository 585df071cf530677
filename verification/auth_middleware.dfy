/** The client-side access guard: a session cached in the browser's local
    storage (an auth token and a user-data record), predicates over the
    cached claims, gates that answer with a boolean and the page the
    browser is sent to on refusal, and the two operations that write the
    cache back. Navigation is returned as a redirect target instead of
    being performed; JSON parsing and serialisation, and the server's
    answer to token validation, are parameters. */
module AuthMiddleware {
  import opened Wrappers
  import opened JsValues

  /** `localStorage`: string keys to string values. */
  type Storage = map<string, string>

  const TokenKey := "authToken"
  const UserDataKey := "userData"

  /** Defaults of the `redirectTo` parameters. */
  const LoginPage := "login.html"
  const UnauthorizedPage := "unauthorized.html"

  const ApiBaseUrl := "https://coj-agf0.onrender.com"
  const ValidateUrl := ApiBaseUrl + "/api/auth/validate"
  const BearerPrefix := "Bearer "

  /** The roles that pass every type check. */
  const AdminRoles: seq<string> := ["super_admin", "content_admin", "marketplace_admin"]

  /** The guard's in-memory state together with the storage it was read
      from and writes to. */
  datatype Session = Session(token: Option<string>, userData: Object, storage: Storage)

  /** The constructor's only failure: the stored user-data text does not
      parse to a plain object. */
  datatype LoadError = MalformedUserData(text: string)

  /** A gate's answer and where it sends the browser. */
  datatype Gate = Gate(passed: bool, redirect: Option<string>)

  /** A state change and where it sends the browser. */
  datatype Step = Step(next: Session, redirect: Option<string>)

  /** The request `validateToken` sends. */
  datatype Request = Request(url: string, authorization: string)

  /** What came back from the validation endpoint: a response with its
      `ok` flag, or a thrown network error. */
  datatype Reply = Responded(ok: bool) | NetworkFailure

  /** `validateToken`'s answer and the request it sent, if any. */
  datatype Validation = Validation(valid: bool, request: Option<Request>)

  // `localStorage.getItem(key)` is `Lookup(storage, key)`, `None` being `null`.

  /** `localStorage.setItem(key, text)`. */
  function SetItem(storage: Storage, key: string, text: string): (r: Storage)
    ensures r.Keys == storage.Keys + {key}
    ensures r[key] == text
    ensures forall k :: k in storage && k != key ==> r[k] == storage[k]
  {
    storage[key := text]
  }

  /** `localStorage.removeItem(key)`. */
  function RemoveItem(storage: Storage, key: string): (r: Storage)
    ensures r.Keys == storage.Keys - {key}
    ensures forall k :: k in r ==> r[k] == storage[k]
  {
    storage - {key}
  }

  /** A JavaScript default parameter: an omitted argument takes `default`. */
  function ArgOr(arg: Option<string>, default: string): (r: string)
    ensures arg.Some? ==> r == arg.value
    ensures arg.None? ==> r == default
  {
    arg.GetOr(default)
  }

  /** The constructor. The token is the stored `authToken` item, or `null`.
      The user data is `JSON.parse(item || '{}')`: an absent or empty item
      gives the empty record, any other text goes to `parse`, which answers
      `None` where `JSON.parse` throws or yields something other than a
      plain object. */
  function Load(storage: Storage, parse: string -> Option<Object>): (r: Result<Session, LoadError>)
    ensures r.Failure? <==> UserDataKey in storage && storage[UserDataKey] != "" && parse(storage[UserDataKey]).None?
    ensures r.Success? ==> r.value.token == Lookup(storage, TokenKey) && r.value.storage == storage
    ensures r.Success? && (UserDataKey !in storage || storage[UserDataKey] == "") ==> r.value.userData == map[]
    ensures r.Success? && UserDataKey in storage && storage[UserDataKey] != "" ==>
              Some(r.value.userData) == parse(storage[UserDataKey])
  {
    var token := Lookup(storage, TokenKey);
    var item := Lookup(storage, UserDataKey);
    if !Truthy(Nullable(item)) then
      Success(Session(token, map[], storage))
    else
      match parse(item.value)
      case None => Failure(MalformedUserData(item.value))
      case Some(u) => Success(Session(token, u, storage))
  }

  /** `isAuthenticated()`: a truthy token and a truthy `id`. */
  function IsAuthenticated(s: Session): (r: bool)
    ensures r <==> s.token.Some? && s.token.value != "" && "id" in s.userData && Truthy(Some(s.userData["id"]))
  {
    Truthy(Nullable(s.token)) && Truthy(Lookup(s.userData, "id"))
  }

  /** `isBuyer()`. */
  function IsBuyer(s: Session): (r: bool)
    ensures r <==> StringProp(s.userData, "userType").Some? && StringProp(s.userData, "userType").value in {"buyer", "both"}
  {
    var t := Lookup(s.userData, "userType");
    IsString(t, "buyer") || IsString(t, "both")
  }

  /** `isSeller()`. */
  function IsSeller(s: Session): (r: bool)
    ensures r <==> StringProp(s.userData, "userType").Some? && StringProp(s.userData, "userType").value in {"seller", "both"}
  {
    var t := Lookup(s.userData, "userType");
    IsString(t, "seller") || IsString(t, "both")
  }

  /** `isBoth()`. */
  function IsBoth(s: Session): (r: bool)
    ensures r <==> StringProp(s.userData, "userType") == Some("both")
  {
    IsString(Lookup(s.userData, "userType"), "both")
  }

  /** `isAdmin()`: the role is one of the three admin roles. */
  function IsAdmin(s: Session): (r: bool)
    ensures r <==> StringProp(s.userData, "role").Some? && StringProp(s.userData, "role").value in {"super_admin", "content_admin", "marketplace_admin"}
  {
    Includes(AdminRoles, Lookup(s.userData, "role"))
  }

  /** `requireAuth(redirectTo = 'login.html')`: pass when authenticated,
      otherwise refuse and send the browser to `redirectTo`. */
  function RequireAuth(s: Session, redirectTo: Option<string>): (g: Gate)
    ensures g.passed <==> IsAuthenticated(s)
    ensures g.passed ==> g.redirect.None?
    ensures !g.passed ==> g.redirect == Some(ArgOr(redirectTo, LoginPage))
  {
    if !IsAuthenticated(s) then Gate(false, Some(ArgOr(redirectTo, LoginPage)))
    else Gate(true, None)
  }

  /** `requireUserType(allowedTypes, redirectTo = 'unauthorized.html')`.
      Authentication is checked first through `requireAuth()` with its own
      default target; then the user type or the role must be among
      `allowedTypes`, unless the user is an admin. */
  function RequireUserType(s: Session, allowedTypes: seq<string>, redirectTo: Option<string>): (g: Gate)
    ensures g.passed <==>
              IsAuthenticated(s) &&
              ((StringProp(s.userData, "userType").Some? && StringProp(s.userData, "userType").value in allowedTypes) ||
               (StringProp(s.userData, "role").Some? && StringProp(s.userData, "role").value in allowedTypes) ||
               IsAdmin(s))
    ensures g.passed ==> g.redirect.None?
    ensures !IsAuthenticated(s) ==> g.redirect == Some(LoginPage)
    ensures IsAuthenticated(s) && !g.passed ==> g.redirect == Some(ArgOr(redirectTo, UnauthorizedPage))
  {
    var auth := RequireAuth(s, None);
    if !auth.passed then auth
    else if Includes(allowedTypes, Lookup(s.userData, "userType")) || Includes(allowedTypes, Lookup(s.userData, "role")) then
      Gate(true, None)
    else if IsAdmin(s) then
      Gate(true, None)
    else
      Gate(false, Some(ArgOr(redirectTo, UnauthorizedPage)))
  }

  /** `logout(redirectTo = 'login.html')`: removes both storage items and
      navigates; the in-memory token and user data are left as they were. */
  function Logout(s: Session, redirectTo: Option<string>): (st: Step)
    ensures st.next.storage.Keys == s.storage.Keys - {TokenKey, UserDataKey}
    ensures forall k :: k in st.next.storage ==> st.next.storage[k] == s.storage[k]
    ensures st.next.token == s.token && st.next.userData == s.userData
    ensures st.redirect == Some(ArgOr(redirectTo, LoginPage))
  {
    var storage := RemoveItem(RemoveItem(s.storage, TokenKey), UserDataKey);
    Step(s.(storage := storage), Some(ArgOr(redirectTo, LoginPage)))
  }

  /** `getAuthHeader()`: a bearer header built from the token even when
      there is none, plus the JSON content type. */
  function GetAuthHeader(s: Session): (h: map<string, string>)
    ensures h.Keys == {"Authorization", "Content-Type"}
    ensures h["Content-Type"] == "application/json"
    ensures s.token.Some? ==> h["Authorization"] == "Bearer " + s.token.value
    ensures s.token.None? ==> h["Authorization"] == "Bearer null"
  {
    map["Authorization" := BearerPrefix + TemplateString(s.token), "Content-Type" := "application/json"]
  }

  /** `validateToken()`: without a truthy token it answers false and sends
      nothing; otherwise it sends a bearer request and answers the
      response's `ok`, and false when the request throws. */
  function ValidateToken(s: Session, reply: Reply): (v: Validation)
    ensures v.request.None? <==> s.token.None? || s.token.value == ""
    ensures v.request.Some? ==> v.request.value == Request(ValidateUrl, "Bearer " + s.token.value)
    ensures v.valid <==> v.request.Some? && reply == Responded(true)
  {
    if !Truthy(Nullable(s.token)) then Validation(false, None)
    else
      var request := Request(ValidateUrl, BearerPrefix + TemplateString(s.token));
      match reply
      case Responded(ok) => Validation(ok, Some(request))
      case NetworkFailure => Validation(false, Some(request))
  }

  /** `updateUserData(newData)`: a right-biased merge into the in-memory
      record, written through to storage as `stringify` of the result. */
  function UpdateUserData(s: Session, newData: Object, stringify: Object -> string): (t: Session)
    ensures t.userData.Keys == s.userData.Keys + newData.Keys
    ensures forall k :: k in newData ==> t.userData[k] == newData[k]
    ensures forall k :: k in s.userData && k !in newData ==> t.userData[k] == s.userData[k]
    ensures t.storage.Keys == s.storage.Keys + {UserDataKey}
    ensures t.storage[UserDataKey] == stringify(t.userData)
    ensures forall k :: k in s.storage && k != UserDataKey ==> t.storage[k] == s.storage[k]
    ensures t.token == s.token
  {
    var merged := Spread(s.userData, newData);
    Session(s.token, merged, SetItem(s.storage, UserDataKey, stringify(merged)))
  }
}
