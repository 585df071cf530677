# Access guard of the church site's client — a Dafny model

This project models `auth-middleware.js`. That file is the browser-side authentication guard. It reads a cached session from
`localStorage`, which holds an auth token under `authToken` and a JSON user-data record under `userData`. Pages use the guard to check
the session's claims: `isAuthenticated`, `isBuyer`, `isSeller`, `isBoth` and `isAdmin`. They gate access with
`requireAuth` and `requireUserType`, which return a boolean and redirect the browser on refusal. The guard also logs out,
merges new claims into the cached record, builds a bearer header and asks the server to validate the token.

The model is functional. `AuthMiddleware.Session` is an immutable value holding:
- the in-memory token (`None` is JavaScript `null`);
- the in-memory user-data record, a map from property names to `JsValues.Value`;
- the storage map it was read from and writes to.

Gates return a `Gate(passed, redirect)` value. Navigation is a returned redirect target, not a side effect. `logout` returns a
`Step(next, redirect)`. A JavaScript default parameter is an `Option<string>` argument, where `None` means the
argument was omitted.

JavaScript semantics are written out in `JsValues`:
- truthiness (`!!v`), where `undefined`, `null`, `false`, `0` and `""` are falsy;
- `===` against a string literal;
- `Array.prototype.includes` over a string array;
- object spread;
- the template-literal rendering of a string-or-`null`.

`JSON.parse` and `JSON.stringify` are host built-ins, so they are parameters. The server's answer to token validation
is a parameter too: `Reply = Responded(ok) | NetworkFailure`.

Modules:
- `Wrappers` (wrappers.dfy) holds `Option` and `Result`.
- `JsValues` (js_values.dfy) holds the JavaScript value semantics above.
- `AuthMiddleware` (auth_middleware.dfy) holds the guard's state and operations.
- `AuthProperties` (auth_properties.dfy) holds lemmas that relate several operations.

Three behaviours of the code that are easy to misread:
- Without a token, `getAuthHeader()` sends `Bearer null`, not an empty or undefined token. `localStorage.getItem` returns
  `null`, and a template literal renders it as `null` (auth-middleware.js:6, 73).
- Malformed stored user data has no safe default. `JSON.parse` throws in the constructor (auth-middleware.js:7), so
  `Load` returns `Failure(MalformedUserData(..))`. Only an absent or empty item gives the empty record.
- `isAuthenticated` tests the `id` claim for truthiness, not for non-emptiness. A numeric id `0` or a `false` id fails, and a
  non-zero number passes (auth-middleware.js:12).

## Model

| member | source | states |
|---|---|---|
| `AuthMiddleware.Load` | auth-middleware.js:5-8 | The token is the stored `authToken` item or null. An absent or empty `userData` item gives the empty record without parsing. Any other text gives exactly what the parser yields. Loading fails if and only if that text does not parse to an object. |
| `AuthMiddleware.IsAuthenticated` | auth-middleware.js:11-13 | True iff the token is present and non-empty, and the `id` property is present and truthy. |
| `AuthMiddleware.IsBuyer` | auth-middleware.js:16-18 | True iff `userType` is the string "buyer" or "both". |
| `AuthMiddleware.IsSeller` | auth-middleware.js:20-22 | True iff `userType` is the string "seller" or "both". |
| `AuthMiddleware.IsBoth` | auth-middleware.js:24-26 | True iff `userType` is the string "both". |
| `AuthMiddleware.IsAdmin` | auth-middleware.js:28-30 | True iff `role` is one of "super_admin", "content_admin" or "marketplace_admin". |
| `AuthMiddleware.RequireAuth` | auth-middleware.js:33-39 | Passes iff authenticated, and then gives no redirect. A refusal redirects to the caller's target, or to "login.html" when none is given. |
| `AuthMiddleware.RequireUserType` | auth-middleware.js:42-61 | Passes iff authenticated and one of these holds: the string userType is allowed, the string role is allowed, or the user is an admin. A pass gives no redirect. Unauthenticated, it always redirects to "login.html". Authenticated but not permitted, it redirects to the caller's target, or to "unauthorized.html" when none is given. |
| `AuthMiddleware.Logout` | auth-middleware.js:64-68 | Storage loses exactly the `authToken` and `userData` keys, and every other item is unchanged. The in-memory token and record are unchanged. The redirect is the caller's target, or "login.html" when none is given. |
| `AuthMiddleware.GetAuthHeader` | auth-middleware.js:71-76 | Exactly two headers. `Content-Type` is `application/json`. `Authorization` is "Bearer " followed by the token, or "Bearer null" when there is no token. |
| `AuthMiddleware.ValidateToken` | auth-middleware.js:79-93 | A request is sent iff the token is truthy, and it goes to the validation URL with the bearer token. The result is valid iff a request was sent and the response was ok. A thrown error gives false. |
| `AuthMiddleware.UpdateUserData` | auth-middleware.js:96-99 | The new record has every key of the update with the update's value, and every other old key keeps its old value. Storage's `userData` item is the serialisation of the new record, and every other item is unchanged. The token is unchanged. |
| `JsValues.Truthy` | auth-middleware.js:12 | A value is falsy iff it is `undefined`, `null`, `false`, `0` or the empty string. The same test serves `!!` at line 12, `!` at line 80 and `||` at line 7. |
| `JsValues.IsString` | auth-middleware.js:17 | `v === lit` holds iff `v` is a string equal to `lit`. A missing or non-string value never matches. The same test serves lines 21 and 25. |
| `AuthMiddleware.SetItem` | auth-middleware.js:98 | The key is present with the new text, and every other item is unchanged. |
| `AuthMiddleware.RemoveItem` | auth-middleware.js:65-66 | Exactly the given key is gone, and every other item is unchanged. |
| `AuthMiddleware.ArgOr` | auth-middleware.js:33 | An omitted argument takes the default, and a given one is used as is. The same rule serves lines 42 and 64. |
| `JsValues.Includes` | auth-middleware.js:49 | `allowed.includes(v)` holds iff `v` is a string that occurs in the array. |
| `JsValues.Spread` | auth-middleware.js:97 | The keys are the union of both objects' keys. The right operand wins on shared keys, and the left operand supplies the rest. |
| `JsValues.TemplateString` | auth-middleware.js:73 | A string renders as itself, and `null` renders as "null". |
| `AuthProperties.BothIffBuyerAndSeller` | auth-middleware.js:16-26 | `isBoth` holds iff both `isBuyer` and `isSeller` hold. |
| `AuthProperties.AdminIgnoresUserType` | auth-middleware.js:28-30 | Setting or deleting `userType` never changes `isAdmin`. |
| `AuthProperties.TypeGateImpliesAuthGate` | auth-middleware.js:42-43 | A session that passes the type gate also passes `requireAuth`. |
| `AuthProperties.AdminBypass` | auth-middleware.js:53-56 | An authenticated admin passes with no redirect for every allowed list, including the empty one. |
| `AuthProperties.UnauthenticatedGoesToLogin` | auth-middleware.js:43 | Unauthenticated, the type gate answers exactly what `requireAuth()` with no argument answers: refusal to "login.html", whatever target was given. |
| `AuthProperties.CallerTargetIgnoredWhenUnauthenticated` | auth-middleware.js:42-43 | With empty storage, a caller target of "home.html" still yields "login.html" from the type gate. `requireAuth("home.html")` would yield "home.html". |
| `AuthProperties.WiderAllowedStillPasses` | auth-middleware.js:49-51 | Enlarging the allowed list never turns a pass into a refusal. |
| `AuthProperties.RoleAloneCanPass` | auth-middleware.js:49-60 | For every authenticated session, a string role in the allowed list passes with no redirect, whatever the user type. An authenticated non-admin whose string type and role are both unlisted is refused to the caller's target, or to "unauthorized.html". A witness: a non-admin "editor" of type "buyer" passes for ["editor"] and is refused for ["seller"]. |
| `AuthProperties.LoadIsCoherent` | auth-middleware.js:6 | After construction, the in-memory token equals the stored one. |
| `AuthProperties.EmptyStorageLoadsSignedOut` | auth-middleware.js:5-8 | Empty storage loads to no token and an empty record, whatever the parser. That session is not authenticated. |
| `AuthProperties.LogoutThenReload` | auth-middleware.js:64-67 | Reloading after logout yields no token, an empty record and an unauthenticated session. |
| `AuthProperties.LogoutLeavesMemoryStale` | auth-middleware.js:64-68 | After logout, an authenticated session is still authenticated in memory, and its token no longer matches storage. |
| `AuthProperties.UpdateThenReload` | auth-middleware.js:96-99 | For a session whose in-memory token matches the stored one: if the serialisation of the merged record is non-empty and parses back to that record, reloading after the update gives exactly the updated in-memory session, and its token still matches storage. |
| `AuthProperties.UpdatesCompose` | auth-middleware.js:97 | Two successive updates equal one update with their spread. |
| `AuthProperties.UpdateIdempotent` | auth-middleware.js:97-98 | Repeating an update changes nothing. |
| `AuthProperties.UpdateKeepsClaims` | auth-middleware.js:96-99 | An update that does not touch `id`, `userType` or `role` keeps authentication and every claim predicate unchanged. |
| `AuthProperties.HeaderCarriesToken` | auth-middleware.js:71-76 | When a token exists, it can be read back from the `Authorization` header. |
| `AuthProperties.AbsentTokenSentAsNull` | auth-middleware.js:73 | A session without a token sends the same header as one whose token is the text "null". |
| `AuthProperties.ValidateFailsClosed` | auth-middleware.js:80-92 | A network failure never validates. Without a truthy token, the result is false with no request, whatever the server would say. |
| `AuthProperties.ValidateIgnoresUserData` | auth-middleware.js:79-88 | For every session, user data and reply, replacing the user data changes neither the answer nor the request. So every session with a truthy token and no `id` is unauthenticated, yet it validates when the server accepts the token. |
| `AuthProperties.AuthenticatedSessionsAreChecked` | auth-middleware.js:79-88 | Every authenticated session sends its validation request. The request carries the same bearer value as `getAuthHeader()`. |

## Left out

- js/firebase-config.js: nearly every function passes straight through to the Firebase SDK, which is not part of this model. That covers upload, sermon and media CRUD, counters and the auth helper's sign-in and sign-out. Two pieces carry local logic and are left out with the rest: `authHelper.isAdmin` (js/firebase-config.js:139-143), which belongs to the Firebase sign-in path and not to this guard, and `deleteSermon` swallowing a storage error before deleting the document (js/firebase-config.js:101-105). The floating-point upload percentage and the `Date.now()` file-name prefix are left out with it.
- The livestream controller (go live, stop, save recording, history) is not part of this model.
- `JSON.parse` and `JSON.stringify` are parameters, not implementations. `Load` returns a failure where `JSON.parse` throws.
- AuthMiddleware.Load: also returns a failure for stored text that is well-formed JSON but not a plain object (`'42'`, `'[]'`, `'null'`). The constructor accepts those texts, and what follows is not modelled: `null` makes every later claim read throw a TypeError, and the others read every claim as `undefined`.
- AuthMiddleware.UpdateUserData: always writes through. In the source, line 97 reassigns the in-memory record before line 98 serialises and stores it. `JSON.stringify` can throw (a circular or BigInt value in `newData`), and so can `localStorage.setItem` (quota exceeded). Either leaves the in-memory record updated, the stored text unchanged and an exception with the caller, and the model does not represent that outcome. The stored text's property order (the spread's insertion order) is also not modelled, because `Object` is an unordered map.
- Property values: numbers are integers (no fractions, `NaN` or `-0`), nested objects and arrays are one opaque truthy `Compound` value, and a property set to `undefined` by an update is not representable. JSON serialisation would drop such a property.
- `AuthMiddleware.RequireUserType`: `allowedTypes` is a sequence of strings. An array holding non-strings, such as `undefined`, would match absent claims in JavaScript.
- The network half of `validateToken` is the `Reply` parameter: the `fetch`, its asynchrony and the `console.error` logging are not modelled.
- `window.location.href` assignment is a returned redirect target. Navigation itself and what runs after it are not modelled.
- Inherited object properties (prototype lookups) are not modelled. The guard reads only `id`, `userType` and `role`.
- The global instance and the module export wiring (auth-middleware.js:102-110) are not modelled.
