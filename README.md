# Pet.Jira login-key exchange, modelled in Dafny

The web application lets a user sign in with a one-time login key. Some other
part of the system stores the user's Jira credentials in a login cache under a
fresh GUID. The browser then requests `/login?key=<guid>`. `AuthenticationMiddleware`
looks the key up, signs the user in with a 30-day cookie session, removes the key
and redirects to the Home page. An unknown key is redirected to `/error`.
A `/logout` request evicts the user's theme from the per-user theme cache, signs
out and redirects to `/`. Every other request goes on to the next middleware.
`IdentityService` reads the credentials back out of the signed-in principal's claims.

Files:

- `wrappers.dfy`: `Option`, for C#'s nullable results.
- `identity.dfy` (module `Identity`): claims, `ClaimsIdentity.Name` (the value of the first claim
  whose type equals the identity's name claim type ignoring case, as `FindFirst` compares), and `IdentityService`'s
  `GetCurrentUser` / `CurrentUser` as functions of the principal, with lemmas.
- `caching.dfy` (module `Caching`): the two in-memory caches as a class over a `map` field,
  with `TryGetValue` and `TryRemove`.
- `authentication.dfy` (module `Authentication`): `HttpContext` (the request, the current user
  and the response's session), the `AuthenticationMiddleware` class whose `Invoke` changes the
  caches and the session in place, the function `Invoked` that specifies it, and the
  properties of single requests and of request sequences.

Modelling choices:

- The clock (`DateTime.UtcNow`) is the parameter `now`, counted in ticks. `AddDays(30)` throws
  `ArgumentOutOfRangeException` when the result would pass `DateTime.MaxValue`. The model
  keeps that exception, and nothing changes when it happens.
- `Guid.Parse` and `WebConstants.Pages.Home` are not defined here. They are supplied as
  `Env.parseGuid` (None where `Guid.Parse` throws `FormatException`) and `Env.home`.
- `PathString` equality and `ClaimsIdentity.FindFirst` ignore case, so `/LOGIN?key=...` is a
  login exchange and a Name claim type in upper case still names the user. ASCII letters are
  folded. Other case mappings are not modelled. `IdentityService` reads the UserData claim with
  `==`, which compares exactly, and the model does the same.
- The current user (`context.User`) is an input of each request. The lemma
  `LogoutAfterRedeemEvictsThatUser` connects it to the session an earlier login issued.

Behaviour of the code worth noting:

- Redemption is a lookup (`TryGetValue`, line 35 of `AuthenticationMiddleware.cs`) followed,
  after sign-in, by a separate `TryRemove` (line 59). It is not an atomic take.
- A key that does not parse is not redirected to `/error`. `Guid.Parse` throws a
  `FormatException`, and the model's outcome is `Thrown(FormatException)`.
- The session is issued with `AllowRefresh = true`, so the cookie handler may slide its expiry.
- No expiry of cache entries is visible in the middleware.

## Model

| member | source | states |
|---|---|---|
| `Identity.FirstValueOf` | src/Pet.Jira.Web/Authentication/IdentityService.cs:28-30 | The result is None exactly when no claim has the type; otherwise it is the value of the first claim of that type. |
| `Identity.FirstValueIsHeadOfValues` | src/Pet.Jira.Web/Authentication/IdentityService.cs:28-30 | The first value of a type is the head of the in-order list of values of that type, so claims of other types play no part. |
| `Identity.LaterClaimsIgnored` | src/Pet.Jira.Web/Authentication/IdentityService.cs:28-30 | Claims appended after a claim of the type never change the first value; with none before, the first value comes from what follows. |
| `Identity.FirstValueOfIgnoringCase` | src/Pet.Jira.Web/Authentication/IdentityService.cs:27 | The identity name lookup: None exactly when no claim type equals the name type ignoring case; otherwise the value of the first claim that does. |
| `Identity.GetCurrentUser` | src/Pet.Jira.Web/Authentication/IdentityService.cs:21-32 | Username is the identity's name. Password is None iff no claim is UserData, else the value of the first UserData claim. |
| `Identity.CurrentUser` | src/Pet.Jira.Web/Authentication/IdentityService.cs:19 | The synchronous property returns what GetCurrentUser returns. |
| `Identity.PasswordIgnoresOtherClaimTypes` | src/Pet.Jira.Web/Authentication/IdentityService.cs:28-30 | Two principals whose UserData claim values agree in order get the same password, whatever their other claims. |
| `Identity.PasswordIgnoresLaterClaims` | src/Pet.Jira.Web/Authentication/IdentityService.cs:28-30 | Once a UserData claim is present, later claims (later UserData claims included) leave the password unchanged. |
| `Caching.MemoryCache.TryGetValue` | src/Pet.Jira.Web/Authentication/AuthenticationMiddleware.cs:35 | Finds a value iff the key is cached, returns the cached value, and changes nothing. |
| `Caching.MemoryCache.TryRemove` | src/Pet.Jira.Web/Authentication/AuthenticationMiddleware.cs:59 | Removes exactly that key (an absent key is a no-op) and returns what was stored there. |
| `Authentication.HttpContext.SignIn` | src/Pet.Jira.Web/Authentication/AuthenticationMiddleware.cs:49-57 | The response carries a session with the given scheme, principal and properties. |
| `Authentication.HttpContext.SignOut` | src/Pet.Jira.Web/Authentication/AuthenticationMiddleware.cs:67 | The response's session is cleared. |
| `Authentication.AuthenticationMiddleware.constructor` | src/Pet.Jira.Web/Authentication/AuthenticationMiddleware.cs:20-28 | The middleware keeps the login cache and the theme cache it is given. |
| `Authentication.AuthenticationMiddleware.Invoke` | src/Pet.Jira.Web/Authentication/AuthenticationMiddleware.cs:30-75 | The new login cache, theme cache, session and outcome are exactly those `Invoked` gives for the old state, the request, the user and the clock. |
| `Authentication.KnownKeyIsRedeemed` | src/Pet.Jira.Web/Authentication/AuthenticationMiddleware.cs:32-61 | A cached key signs in with exactly the Name and UserData claims of the login. The session is persistent and refreshable and expires now + 30 days. Only that key leaves the login cache, the theme cache is untouched, and the response redirects Home. If now + 30 days overflows DateTime, the request throws and nothing changes. |
| `Authentication.UnknownKeyIsRejected` | src/Pet.Jira.Web/Authentication/AuthenticationMiddleware.cs:35-38 | A key not in the login cache redirects to /error with both caches and the session unchanged. |
| `Authentication.MalformedKeyThrows` | src/Pet.Jira.Web/Authentication/AuthenticationMiddleware.cs:34 | A key Guid.Parse rejects throws FormatException before any lookup. Nothing changes and there is no /error redirect. |
| `Authentication.LogoutEvictsTheme` | src/Pet.Jira.Web/Authentication/AuthenticationMiddleware.cs:64-69 | Logout removes exactly the current user's theme entry (absent is fine), clears the session, redirects to / and leaves the login cache as it was. |
| `Authentication.OtherRequestsPassThrough` | src/Pet.Jira.Web/Authentication/AuthenticationMiddleware.cs:71-74 | Any other request, /login without a key included, goes to the next middleware with both caches and the session unchanged. |
| `Authentication.RequestsTakeExactlyOneBranch` | src/Pet.Jira.Web/Authentication/AuthenticationMiddleware.cs:32-74 | Every request is a login exchange, a logout, or passed on, and never two of these. |
| `Authentication.RoutingIgnoresCase` | src/Pet.Jira.Web/Authentication/AuthenticationMiddleware.cs:32 | Two requests whose paths differ only in letter case, and which agree on having a key, take the same branch. |
| `Authentication.PathsIgnoreCase` | src/Pet.Jira.Web/Authentication/AuthenticationMiddleware.cs:32 | Examples: /LOGIN with a key is a login exchange, /Logout is a logout, and /login without a key is neither. |
| `Authentication.RedeemedCredentialsRoundTrip` | src/Pet.Jira.Web/Authentication/AuthenticationMiddleware.cs:41-47 | GetCurrentUser on the issued session's principal gives back exactly the stored username and password. |
| `Authentication.LogoutAfterRedeemEvictsThatUser` | src/Pet.Jira.Web/Authentication/AuthenticationMiddleware.cs:66 | A later logout by the principal a redeemed session carries is admissible and evicts exactly the theme of that login's username. |
| `Authentication.ReplayOnlyShrinksLogins` | src/Pet.Jira.Web/Authentication/AuthenticationMiddleware.cs:59 | Over any sequence of requests the login cache only loses entries; no entry is added or changed. |
| `Authentication.KeyIsSingleUse` | src/Pet.Jira.Web/Authentication/AuthenticationMiddleware.cs:35-38 | After a key is redeemed, a later login exchange with the same GUID redirects to /error, whatever requests come in between. |

## Left out

- Concurrency. The lookup and the remove are separate calls, so two concurrent redemptions of one key could both succeed. The model handles requests one at a time and claims nothing about concurrent ones.
- `KeyIsSingleUse` holds for the middleware alone. The code that mints keys can store the same key again, and that code is not part of this model.
- Cache expiry, time-to-live and background sweeping are not visible in the middleware or its callers. The caches are plain maps.
- The exact `Guid.Parse` format rules, and how the framework reads the `key` query parameter (key names without case, several values joined). The model takes the parameter's raw value and an abstract parser.
- Case folding of non-ASCII characters, in `PathString` comparison and in `FindFirst`'s claim type comparison.
- Cookie signing and encryption, and the transport effects of `SignInAsync`/`SignOutAsync`. The session is a value on the context.
- The exception handler that turns a thrown exception into an error page. The model stops at the thrown exception.
- What the next middleware does with a passed-through request.
- `AuthenticationMiddleware.Invoke` requires a non-null user name on `/logout`, because the theme cache's behaviour on a null key is not visible. Sign-outs by anonymous users are therefore not modelled.
- Principals with more than one identity. `ClaimsPrincipal` has exactly one, so its claims are that identity's claims.
- `AuthenticationStateProvider` is not part of this model. Its result is the principal given to `GetCurrentUser`.
- Null usernames or passwords in a stored login. The `Claim` constructor rejects null values, so `Login` holds plain strings.
- Startup wiring, the worklog day component and the issue DTO mapping are framework plumbing or UI, with no behaviour this model states.
