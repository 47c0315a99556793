/**
  AuthenticationMiddleware: the request step that redeems a one-time login key
  for a cookie session (/login?key=...), signs out and forgets the user's theme
  (/logout), and hands every other request to the next middleware.
 */
module Authentication {
  import opened Wrappers
  import opened Identity
  import opened Caching

  const LoginPath: string := "/login"
  const LogoutPath: string := "/logout"
  const ErrorPage: string := "/error"
  const SignedOutPage: string := "/"
  /** CookieAuthenticationDefaults.AuthenticationScheme. */
  const CookieScheme: string := "Cookies"

  /** DateTime is a count of 100-nanosecond ticks, at most DateTime.MaxValue.Ticks. */
  const TicksPerDay: int := 864_000_000_000
  const MaxTicks: int := 3_155_378_975_999_999_999
  type Ticks = t: int | 0 <= t <= MaxTicks

  /** A session lasts 30 days from sign-in. */
  const SessionLifetime: int := 30 * TicksPerDay

  /** A 128-bit GUID; only its identity matters here. */
  newtype Guid = n: int | 0 <= n < 0x1_0000_0000_0000_0000_0000_0000_0000_0000

  /** What the login cache holds under a one-time key. */
  datatype Login = Login(username: string, password: string)

  datatype AuthenticationProperties = AuthenticationProperties(expiresUtc: Ticks, isPersistent: bool, allowRefresh: bool)

  /** The session cookie the response carries: scheme, principal and properties given to SignInAsync. */
  datatype Session = Session(scheme: string, principal: ClaimsPrincipal, properties: AuthenticationProperties)

  /** The request path and the value of its `key` query parameter, if it has one. */
  datatype Request = Request(path: string, key: Option<string>)

  datatype Exception = FormatException | ArgumentOutOfRangeException

  /** How the middleware finishes: a redirect, a call of the next middleware, or an exception. */
  datatype Outcome = Redirect(location: string) | Next | Thrown(exception: Exception)

  /**
    What the middleware depends on but this model does not define: the Home page
    (WebConstants.Pages.Home) and Guid.Parse, which yields None where it throws.
   */
  datatype Env = Env(home: string, parseGuid: string -> Option<Guid>)

  /** The caches, the response's session and the outcome after one request. */
  datatype Effect<Theme> = Effect(logins: map<Guid, Login>, themes: map<string, Theme>, session: Option<Session>, outcome: Outcome)

  /** The request is a login exchange: path /login (PathString equality ignores case) with a key parameter. */
  predicate IsLoginExchange(request: Request)
  {
    SameIgnoringCase(request.path, LoginPath) && request.key.Some?
  }

  predicate IsLogout(request: Request)
  {
    !IsLoginExchange(request) && SameIgnoringCase(request.path, LogoutPath)
  }

  /** Any other request, /login without a key included, is handed to the next middleware. */
  predicate PassesOn(request: Request)
  {
    !IsLoginExchange(request) && !SameIgnoringCase(request.path, LogoutPath)
  }

  /** A logout needs a signed-in user name to evict the theme for. */
  predicate LogoutHasUser(request: Request, user: ClaimsPrincipal)
  {
    IsLogout(request) ==> user.identity.Name().Some?
  }

  /** The two claims a redeemed login is signed in with. */
  function LoginClaims(login: Login): seq<Claim>
  {
    [Claim(NameClaimType, login.username), Claim(UserDataClaimType, login.password)]
  }

  /** The session issued for a login at time now (which must leave room for 30 days). */
  function IssueSession(login: Login, now: Ticks): Session
    requires now <= MaxTicks - SessionLifetime
  {
    var identity := ClaimsIdentity(LoginClaims(login), Some(CookieScheme), NameClaimType);
    Session(CookieScheme, ClaimsPrincipal(identity), AuthenticationProperties(now + SessionLifetime, true, true))
  }

  /**
    One run of Invoke, as a function of the caches, the request, the current
    user, the response's session and the clock.
   */
  function Invoked<Theme>(env: Env, logins: map<Guid, Login>, themes: map<string, Theme>,
                          request: Request, user: ClaimsPrincipal, session: Option<Session>, now: Ticks): Effect<Theme>
    requires LogoutHasUser(request, user)
  {
    if IsLoginExchange(request) then
      match env.parseGuid(request.key.value)
      case None => Effect(logins, themes, session, Thrown(FormatException))
      case Some(key) =>
        if key !in logins then Effect(logins, themes, session, Redirect(ErrorPage))
        else if now > MaxTicks - SessionLifetime then Effect(logins, themes, session, Thrown(ArgumentOutOfRangeException))
        else Effect(logins - {key}, themes, Some(IssueSession(logins[key], now)), Redirect(env.home))
    else if SameIgnoringCase(request.path, LogoutPath) then
      Effect(logins, themes - {user.identity.Name().value}, None, Redirect(SignedOutPage))
    else
      Effect(logins, themes, session, Next)
  }

  /** The per-request context: the request, the user the cookie identified, and the response's session. */
  class HttpContext {
    const request: Request
    const user: ClaimsPrincipal
    var session: Option<Session>

    constructor (request: Request, user: ClaimsPrincipal, session: Option<Session>)
      ensures this.request == request && this.user == user && this.session == session
    {
      this.request := request;
      this.user := user;
      this.session := session;
    }

    /** SignInAsync: the response now carries a session for principal. */
    method SignIn(scheme: string, principal: ClaimsPrincipal, properties: AuthenticationProperties)
      modifies this
      ensures session == Some(Session(scheme, principal, properties))
    {
      session := Some(Session(scheme, principal, properties));
    }

    /** SignOutAsync: the response clears the session. */
    method SignOut()
      modifies this
      ensures session == None
    {
      session := None;
    }
  }

  class AuthenticationMiddleware<Theme> {
    const loginCache: MemoryCache<Guid, Login>
    const themeCache: MemoryCache<string, Theme>
    const env: Env

    constructor (loginCache: MemoryCache<Guid, Login>, themeCache: MemoryCache<string, Theme>, env: Env)
      ensures this.loginCache == loginCache && this.themeCache == themeCache && this.env == env
    {
      this.loginCache := loginCache;
      this.themeCache := themeCache;
      this.env := env;
    }

    /** Invoke: handles /login?key=..., /logout, or passes the request on; the effect is exactly Invoked's. */
    method Invoke(context: HttpContext, now: Ticks) returns (outcome: Outcome)
      requires LogoutHasUser(context.request, context.user)
      modifies loginCache, themeCache, context
      ensures var e := Invoked(env, old(loginCache.entries), old(themeCache.entries),
                               context.request, context.user, old(context.session), now);
              && loginCache.entries == e.logins
              && themeCache.entries == e.themes
              && context.session == e.session
              && outcome == e.outcome
    {
      var request := context.request;
      if SameIgnoringCase(request.path, LoginPath) && request.key.Some? {
        var parsed := env.parseGuid(request.key.value);
        if parsed.None? {
          return Thrown(FormatException);
        }
        var key := parsed.value;
        var login := loginCache.TryGetValue(key);
        if login.None? {
          return Redirect(ErrorPage);
        }
        if now > MaxTicks - SessionLifetime {
          return Thrown(ArgumentOutOfRangeException);
        }
        var issued := IssueSession(login.value, now);
        context.SignIn(issued.scheme, issued.principal, issued.properties);
        var removed := loginCache.TryRemove(key);
        return Redirect(env.home);
      } else if SameIgnoringCase(request.path, LogoutPath) {
        var removed := themeCache.TryRemove(context.user.identity.Name().value);
        context.SignOut();
        return Redirect(SignedOutPage);
      } else {
        return Next;
      }
    }
  }

  // Properties of one request

  /**
    A login exchange whose key parses and is in the login cache signs in with
    exactly the Name and UserData claims of the stored login, a persistent,
    refreshable session expiring 30 days from now, removes that key and nothing
    else, and redirects to the Home page; if the 30 days do not fit in a DateTime,
    AddDays throws before anything changes.
   */
  lemma KnownKeyIsRedeemed<Theme>(env: Env, logins: map<Guid, Login>, themes: map<string, Theme>,
                                  request: Request, user: ClaimsPrincipal, session: Option<Session>, now: Ticks, key: Guid)
    requires IsLoginExchange(request) && env.parseGuid(request.key.value) == Some(key)
    requires key in logins
    ensures var e := Invoked(env, logins, themes, request, user, session, now);
            if now + SessionLifetime <= MaxTicks then
              && e.outcome == Redirect(env.home)
              && e.session.Some?
              && e.session.value.scheme == CookieScheme
              && e.session.value.principal.Claims()
                 == [Claim(NameClaimType, logins[key].username), Claim(UserDataClaimType, logins[key].password)]
              && e.session.value.properties == AuthenticationProperties(now + 30 * TicksPerDay, true, true)
              && key !in e.logins
              && (forall g :: g != key ==> (g in e.logins <==> g in logins))
              && (forall g :: g in e.logins ==> e.logins[g] == logins[g])
              && e.themes == themes
            else
              e == Effect(logins, themes, session, Thrown(ArgumentOutOfRangeException))
  {
  }

  /** A login exchange whose key parses but is not in the login cache redirects to /error and changes nothing. */
  lemma UnknownKeyIsRejected<Theme>(env: Env, logins: map<Guid, Login>, themes: map<string, Theme>,
                                    request: Request, user: ClaimsPrincipal, session: Option<Session>, now: Ticks, key: Guid)
    requires IsLoginExchange(request) && env.parseGuid(request.key.value) == Some(key)
    requires key !in logins
    ensures Invoked(env, logins, themes, request, user, session, now) == Effect(logins, themes, session, Redirect(ErrorPage))
  {
  }

  /**
    A key that Guid.Parse rejects throws before any cache lookup: nothing
    changes and no /error redirect is issued.
   */
  lemma MalformedKeyThrows<Theme>(env: Env, logins: map<Guid, Login>, themes: map<string, Theme>,
                                  request: Request, user: ClaimsPrincipal, session: Option<Session>, now: Ticks)
    requires IsLoginExchange(request) && env.parseGuid(request.key.value).None?
    ensures Invoked(env, logins, themes, request, user, session, now) == Effect(logins, themes, session, Thrown(FormatException))
  {
  }

  /**
    A logout evicts the current user's theme (an absent theme is no error),
    clears the session, redirects to / and leaves the login cache alone.
   */
  lemma LogoutEvictsTheme<Theme>(env: Env, logins: map<Guid, Login>, themes: map<string, Theme>,
                                 request: Request, user: ClaimsPrincipal, session: Option<Session>, now: Ticks)
    requires IsLogout(request) && LogoutHasUser(request, user)
    ensures var e := Invoked(env, logins, themes, request, user, session, now);
            && e.outcome == Redirect(SignedOutPage)
            && e.session.None?
            && e.logins == logins
            && user.identity.Name().value !in e.themes
            && (forall name :: name != user.identity.Name().value ==> (name in e.themes <==> name in themes))
            && (forall name :: name in e.themes ==> e.themes[name] == themes[name])
  {
  }

  /** Every other request, /login without a key included, goes to the next middleware with nothing changed. */
  lemma OtherRequestsPassThrough<Theme>(env: Env, logins: map<Guid, Login>, themes: map<string, Theme>,
                                        request: Request, user: ClaimsPrincipal, session: Option<Session>, now: Ticks)
    requires PassesOn(request)
    ensures Invoked(env, logins, themes, request, user, session, now) == Effect(logins, themes, session, Next)
  {
  }

  /** Examples of the routing: /LOGIN?key=... is a login exchange, /Logout a logout, a keyless /login neither. */
  lemma PathsIgnoreCase()
    ensures IsLoginExchange(Request("/LOGIN", Some("k")))
    ensures IsLogout(Request("/Logout", None))
    ensures !IsLoginExchange(Request("/login", None))
  {
    assert SameIgnoringCase("/LOGIN", LoginPath) by {
      assert forall i :: 0 <= i < 6 ==> AsciiUpper("/LOGIN"[i]) == AsciiUpper(LoginPath[i]);
    }
    assert SameIgnoringCase("/Logout", LogoutPath) by {
      assert forall i :: 0 <= i < 7 ==> AsciiUpper("/Logout"[i]) == AsciiUpper(LogoutPath[i]);
    }
    assert !SameIgnoringCase("/Logout", LoginPath);
  }

  /** Every request takes exactly one of the three branches: login exchange, logout, or the next middleware. */
  lemma RequestsTakeExactlyOneBranch(request: Request)
    ensures (if IsLoginExchange(request) then 1 else 0) + (if IsLogout(request) then 1 else 0)
            + (if PassesOn(request) then 1 else 0) == 1
  {
  }

  /** Two requests whose paths differ only in letter case, and which both have a key or both lack one, are routed alike. */
  lemma RoutingIgnoresCase(a: Request, b: Request)
    requires SameIgnoringCase(a.path, b.path) && a.key.Some? == b.key.Some?
    ensures IsLoginExchange(a) == IsLoginExchange(b)
    ensures IsLogout(a) == IsLogout(b)
  {
  }

  /**
    The credentials stored under a redeemed key come back out of the issued
    session unchanged through IdentityService.GetCurrentUser.
   */
  lemma RedeemedCredentialsRoundTrip<Theme>(env: Env, logins: map<Guid, Login>, themes: map<string, Theme>,
                                            request: Request, user: ClaimsPrincipal, session: Option<Session>, now: Ticks, key: Guid)
    requires IsLoginExchange(request) && env.parseGuid(request.key.value) == Some(key)
    requires key in logins && now + SessionLifetime <= MaxTicks
    ensures var e := Invoked(env, logins, themes, request, user, session, now);
            && e.session.Some?
            && GetCurrentUser(e.session.value.principal) == User(Some(logins[key].username), Some(logins[key].password))
  {
    var login := logins[key];
    var claims := LoginClaims(login);
    assert IsFirstOfType(claims, NameClaimType, 0);
    assert IsFirstOfType(claims, UserDataClaimType, 1) by {
      assert NameClaimType != UserDataClaimType by {
        assert |NameClaimType| != |UserDataClaimType|;
      }
    }
  }

  /**
    A later logout by the user a redeemed session identifies evicts that
    login's theme entry.
   */
  lemma LogoutAfterRedeemEvictsThatUser<Theme>(env: Env, logins: map<Guid, Login>, themes: map<string, Theme>,
                                               request: Request, user: ClaimsPrincipal, session: Option<Session>, now: Ticks, key: Guid,
                                               logout: Request, later: Ticks)
    requires IsLoginExchange(request) && env.parseGuid(request.key.value) == Some(key)
    requires key in logins && now + SessionLifetime <= MaxTicks
    requires IsLogout(logout)
    ensures var e := Invoked(env, logins, themes, request, user, session, now);
            var signedIn := e.session.value.principal;
            && LogoutHasUser(logout, signedIn)
            && Invoked(env, e.logins, e.themes, logout, signedIn, e.session, later).themes == themes - {logins[key].username}
  {
    RedeemedCredentialsRoundTrip(env, logins, themes, request, user, session, now, key);
  }

  // Sequences of requests

  /** One request as the middleware sees it. */
  datatype Visit = Visit(request: Request, user: ClaimsPrincipal, session: Option<Session>, now: Ticks)

  predicate Admissible(visits: seq<Visit>)
  {
    forall i :: 0 <= i < |visits| ==> LogoutHasUser(visits[i].request, visits[i].user)
  }

  /** The login and theme caches after the middleware has handled visits one after the other. */
  function Replay<Theme>(env: Env, logins: map<Guid, Login>, themes: map<string, Theme>, visits: seq<Visit>): (map<Guid, Login>, map<string, Theme>)
    requires Admissible(visits)
  {
    if |visits| == 0 then (logins, themes)
    else
      var v := visits[0];
      var e := Invoked(env, logins, themes, v.request, v.user, v.session, v.now);
      Replay(env, e.logins, e.themes, visits[1..])
  }

  /** The middleware never adds to the login cache or changes an entry: it only removes redeemed keys. */
  lemma {:induction false} ReplayOnlyShrinksLogins<Theme>(env: Env, logins: map<Guid, Login>, themes: map<string, Theme>, visits: seq<Visit>)
    requires Admissible(visits)
    ensures var after := Replay(env, logins, themes, visits).0;
            after.Keys <= logins.Keys && forall g :: g in after ==> after[g] == logins[g]
  {
    if |visits| > 0 {
      var v := visits[0];
      var e := Invoked(env, logins, themes, v.request, v.user, v.session, v.now);
      assert e.logins.Keys <= logins.Keys && forall g :: g in e.logins ==> e.logins[g] == logins[g];
      ReplayOnlyShrinksLogins(env, e.logins, e.themes, visits[1..]);
    }
  }

  /**
    A key is single use: once a login exchange has redeemed it, a later login
    exchange with a key that parses to the same GUID, after any requests in
    between, is redirected to /error.
   */
  lemma KeyIsSingleUse<Theme>(env: Env, logins: map<Guid, Login>, themes: map<string, Theme>,
                              first: Visit, between: seq<Visit>, retry: Visit, key: Guid)
    requires IsLoginExchange(first.request) && env.parseGuid(first.request.key.value) == Some(key)
    requires key in logins && first.now + SessionLifetime <= MaxTicks
    requires Admissible(between)
    requires IsLoginExchange(retry.request) && env.parseGuid(retry.request.key.value) == Some(key)
    ensures var e := Invoked(env, logins, themes, first.request, first.user, first.session, first.now);
            var caches := Replay(env, e.logins, e.themes, between);
            Invoked(env, caches.0, caches.1, retry.request, retry.user, retry.session, retry.now).outcome == Redirect(ErrorPage)
  {
    var e := Invoked(env, logins, themes, first.request, first.user, first.session, first.now);
    assert key !in e.logins;
    ReplayOnlyShrinksLogins(env, e.logins, e.themes, between);
  }
}
