/**
  The plugin's replacement for WordPress's pluggable `wp_set_auth_cookie`: given a
  user, a remember flag, a secure flag and an optional session token, it fixes the
  cookie lifetime, picks the auth cookie's name and scheme, reuses or creates a
  session token, signs the auth and logged-in cookie values, and sends three or
  four cookies, every one HttpOnly with SameSite=None.

  Everything the PHP function reads from WordPress is an explicit input here: the
  clock, `is_ssl()`, the home URL's scheme, the PHP version, the cookie name,
  path and domain constants, the four filters, the session-token manager and the
  cookie signer. The last two are opaque producers and are passed as functions.
 */
module AuthCookie {
  import opened SetCookie

  const DayInSeconds: int := 86400
  const HourInSeconds: int := 3600

  /** Default lifetime of a remembered login, before the expiration filter. */
  const RememberedLength: int := 14 * DayInSeconds
  /** Default lifetime of a login that is not remembered. */
  const SessionLength: int := 2 * DayInSeconds
  /** How long after `expiration` a remembered cookie stays in the browser. */
  const GraceWindow: int := 12 * HourInSeconds

  /** The `$secure` argument: the empty string (the default, meaning "ask
      is_ssl()") or a value standing for its PHP truthiness. */
  datatype SecureArg = Unspecified | Given(flag: bool)

  datatype Scheme = Auth | SecureAuth | LoggedIn {
    function Name(): string {
      match this
      case Auth => "auth"
      case SecureAuth => "secure_auth"
      case LoggedIn => "logged_in"
    }
  }

  /** WordPress's cookie constants. */
  datatype CookieConstants = CookieConstants(
    authCookie: string,         // AUTH_COOKIE
    secureAuthCookie: string,   // SECURE_AUTH_COOKIE
    loggedInCookie: string,     // LOGGED_IN_COOKIE
    pluginsCookiePath: string,  // PLUGINS_COOKIE_PATH
    adminCookiePath: string,    // ADMIN_COOKIE_PATH
    cookiePath: string,         // COOKIEPATH
    siteCookiePath: string,     // SITECOOKIEPATH
    cookieDomain: string)       // COOKIE_DOMAIN

  /** The arguments of `wp_set_auth_cookie`; the empty token asks for a new one. */
  datatype Request = Request(userId: int, remember: bool, secure: SecureArg, token: string)

  /** What the function reads from WordPress and PHP while it runs. */
  datatype Environment = Environment(
    now: int,                   // time()
    isSsl: bool,                // is_ssl()
    homeScheme: string,         // scheme of get_option('home'), "" when absent
    phpMajor: int,
    phpMinor: int,
    // auth_cookie_expiration(length, user_id, remember)
    expirationFilter: (int, int, bool) -> int,
    // secure_auth_cookie(secure, user_id)
    secureAuthFilter: (bool, int) -> bool,
    // secure_logged_in_cookie(secure_logged_in_cookie, user_id, secure)
    secureLoggedInFilter: (bool, int, bool) -> bool,
    // send_auth_cookies(true, expire, expiration, user_id, scheme, token)
    sendFilter: (int, int, int, string, string) -> bool,
    // WP_Session_Tokens::get_instance(user_id)->create(expiration)
    createToken: (int, int) -> string,
    // wp_generate_auth_cookie(user_id, expiration, scheme, token)
    generateCookie: (int, int, string, string) -> string)

  /** The side effects before the send gate, in the order they happen. */
  datatype Event =
    | SessionTokenCreated(userId: int, expiration: int, token: string)
    // the `set_auth_cookie` and `set_logged_in_cookie` actions
    | SetAuthCookieAction(value: string, expire: int, expiration: int,
                          userId: int, scheme: string, token: string)
    | SetLoggedInCookieAction(value: string, expire: int, expiration: int,
                              userId: int, scheme: string, token: string)

  /** `expiration` is when the login ends server-side; `expire` is the cookie's
      Expires time, 0 for a cookie that lasts until the browser closes. */
  datatype Lifetime = Lifetime(expiration: int, expire: int)

  /** Everything fixed before the `send_auth_cookies` gate. */
  datatype Session = Session(
    lifetime: Lifetime,
    secure: bool,           // the filtered $secure
    secureLoggedIn: bool,   // the filtered $secure_logged_in_cookie
    scheme: Scheme,
    authCookieName: string,
    authValue: string,
    loggedInValue: string,
    token: string,
    tokenCreated: bool,
    events: seq<Event>)

  datatype Outcome = Outcome(session: Session, sent: bool, calls: seq<SetCookieCall>)

  function DefaultLength(remember: bool): int {
    if remember then RememberedLength else SessionLength
  }

  /** wpo365-samesite.php lines 36-57: the filtered length from now, plus the
      grace window on the browser side for a remembered login and a session
      cookie otherwise. */
  function CookieLifetime(userId: int, remember: bool, now: int,
                          filter: (int, int, bool) -> int): (t: Lifetime)
    ensures t.expiration - now == filter(DefaultLength(remember), userId, remember)
    ensures remember ==> t.expire - t.expiration == GraceWindow
    ensures !remember ==> t.expire == 0
  {
    if remember then
      var expiration := now + filter(RememberedLength, userId, remember);
      Lifetime(expiration, expiration + GraceWindow)
    else
      Lifetime(now + filter(SessionLength, userId, remember), 0)
  }

  /** wpo365-samesite.php lines 59-61: only the empty string (compared
      strictly) defers to is_ssl(). */
  function ResolveSecure(arg: SecureArg, isSsl: bool): (secure: bool)
    ensures arg.Unspecified? ==> secure == isSsl
    ensures arg.Given? ==> secure == arg.flag
  {
    match arg
    case Unspecified => isSsl
    case Given(flag) => flag
  }

  /** wpo365-samesite.php lines 87-93. */
  function AuthScheme(secure: bool): (s: Scheme)
    ensures s != LoggedIn
    ensures s == SecureAuth <==> secure
  {
    if secure then SecureAuth else Auth
  }

  /** wpo365-samesite.php lines 88 and 91: the auth cookie's name goes with its
      scheme. */
  function AuthCookieName(consts: CookieConstants, secure: bool): (name: string)
    ensures AuthScheme(secure) == SecureAuth ==> name == consts.secureAuthCookie
    ensures AuthScheme(secure) == Auth ==> name == consts.authCookie
  {
    if secure then consts.secureAuthCookie else consts.authCookie
  }

  /** wpo365-samesite.php lines 159-160: PHP evaluates `&&` before `||`. */
  function SameSiteAsOption(major: int, minor: int): (useOptions: bool)
    ensures useOptions <==> VersionAtLeast(major, minor, 7, 3)
  {
    major > 7 || (major >= 7 && minor >= 3)
  }

  /** Lexicographic comparison of (major, minor) version pairs. */
  predicate VersionAtLeast(major: int, minor: int, wantMajor: int, wantMinor: int) {
    major > wantMajor || (major == wantMajor && minor >= wantMinor)
  }

  function CookieAt(name: string, value: string, path: string, expire: int,
                    domain: string, secure: bool): Directive {
    Directive(name, value, expire, path, domain, secure, true, SameSiteNone)
  }

  /** wpo365-samesite.php lines 163-169 and 171-177: the cookies sent, in order.
      The auth cookie goes to the plugins and admin paths, the logged-in cookie
      to COOKIEPATH and, when it differs, to SITECOOKIEPATH. All share the
      Expires time, the domain, the auth cookie's secure flag, HttpOnly and
      SameSite=None. */
  function CookiePlan(consts: CookieConstants, authName: string, authValue: string,
                      loggedInValue: string, expire: int, secure: bool): (ds: seq<Directive>)
    ensures |ds| == if consts.cookiePath != consts.siteCookiePath then 4 else 3
    ensures forall i :: 0 <= i < |ds| ==>
              && ds[i].expires == expire
              && ds[i].domain == consts.cookieDomain
              && ds[i].secure == secure
              && ds[i].httpOnly
              && ds[i].sameSite == SameSiteNone
    ensures ds[0].name == authName && ds[0].value == authValue
    ensures ds[0].path == consts.pluginsCookiePath
    ensures ds[1].name == authName && ds[1].value == authValue
    ensures ds[1].path == consts.adminCookiePath
    ensures forall i :: 2 <= i < |ds| ==>
              ds[i].name == consts.loggedInCookie && ds[i].value == loggedInValue
    ensures ds[2].path == consts.cookiePath
    ensures |ds| == 4 ==> ds[3].path == consts.siteCookiePath
  {
    var domain := consts.cookieDomain;
    var always := [
      CookieAt(authName, authValue, consts.pluginsCookiePath, expire, domain, secure),
      CookieAt(authName, authValue, consts.adminCookiePath, expire, domain, secure),
      CookieAt(consts.loggedInCookie, loggedInValue, consts.cookiePath, expire, domain, secure)
    ];
    if consts.cookiePath != consts.siteCookiePath then
      always + [CookieAt(consts.loggedInCookie, loggedInValue, consts.siteCookiePath,
                         expire, domain, secure)]
    else
      always
  }

  /** wpo365-samesite.php lines 36-135: lifetime, secure flags, auth cookie name
      and scheme, the session token and the two signed values, with the side
      effects so far. */
  function PrepareSession(req: Request, env: Environment, consts: CookieConstants): (s: Session)
    // lifetime
    ensures s.lifetime == CookieLifetime(req.userId, req.remember, env.now, env.expirationFilter)
    // secure defaulting, filtering and the auth cookie's name and scheme
    ensures s.secure == env.secureAuthFilter(ResolveSecure(req.secure, env.isSsl), req.userId)
    ensures s.secure ==> s.authCookieName == consts.secureAuthCookie && s.scheme == SecureAuth
    ensures !s.secure ==> s.authCookieName == consts.authCookie && s.scheme == Auth
    // the logged-in flag: secure and an https home URL, then filtered
    ensures s.secureLoggedIn ==
              env.secureLoggedInFilter(ResolveSecure(req.secure, env.isSsl)
                                         && env.homeScheme == "https", req.userId, s.secure)
    // token reuse or creation, bound to the expiration
    ensures s.tokenCreated <==> req.token == ""
    ensures s.tokenCreated ==> s.token == env.createToken(req.userId, s.lifetime.expiration)
    ensures !s.tokenCreated ==> s.token == req.token
    // both values come from the same user, expiration and token
    ensures s.authValue ==
              env.generateCookie(req.userId, s.lifetime.expiration, s.scheme.Name(), s.token)
    ensures s.loggedInValue ==
              env.generateCookie(req.userId, s.lifetime.expiration, LoggedIn.Name(), s.token)
    // the side effects so far, in order: token creation if any, then the two actions
    ensures s.events ==
              (if s.tokenCreated
               then [SessionTokenCreated(req.userId, s.lifetime.expiration, s.token)]
               else [])
              + [SetAuthCookieAction(s.authValue, s.lifetime.expire, s.lifetime.expiration,
                                     req.userId, s.scheme.Name(), s.token),
                 SetLoggedInCookieAction(s.loggedInValue, s.lifetime.expire,
                                         s.lifetime.expiration, req.userId,
                                         LoggedIn.Name(), s.token)]
  {
    var lifetime := CookieLifetime(req.userId, req.remember, env.now, env.expirationFilter);
    var requested := ResolveSecure(req.secure, env.isSsl);
    var secure := env.secureAuthFilter(requested, req.userId);
    var secureLoggedIn :=
      env.secureLoggedInFilter(requested && env.homeScheme == "https", req.userId, secure);
    var scheme := AuthScheme(secure);
    var tokenCreated := req.token == "";
    var token := if tokenCreated then env.createToken(req.userId, lifetime.expiration)
                 else req.token;
    var authValue := env.generateCookie(req.userId, lifetime.expiration, scheme.Name(), token);
    var loggedInValue :=
      env.generateCookie(req.userId, lifetime.expiration, LoggedIn.Name(), token);
    var created :=
      if tokenCreated then [SessionTokenCreated(req.userId, lifetime.expiration, token)] else [];
    var events := created + [
      SetAuthCookieAction(authValue, lifetime.expire, lifetime.expiration,
                          req.userId, scheme.Name(), token),
      SetLoggedInCookieAction(loggedInValue, lifetime.expire, lifetime.expiration,
                              req.userId, LoggedIn.Name(), token)
    ];
    Session(lifetime, secure, secureLoggedIn, scheme, AuthCookieName(consts, secure),
            authValue, loggedInValue, token, tokenCreated, events)
  }

  /** `wp_set_auth_cookie($user_id, $remember, $secure, $token)`,
      wpo365-samesite.php lines 34-179. */
  function SetAuthCookie(req: Request, env: Environment, consts: CookieConstants): (r: Outcome)
    ensures r.session == PrepareSession(req, env, consts)
    // the send gate
    ensures r.sent == env.sendFilter(r.session.lifetime.expire, r.session.lifetime.expiration,
                                     req.userId, r.session.scheme.Name(), r.session.token)
    ensures !r.sent ==> r.calls == []
    ensures r.sent ==>
              Sent(r.calls) == CookiePlan(consts, r.session.authCookieName, r.session.authValue,
                                          r.session.loggedInValue, r.session.lifetime.expire,
                                          r.session.secure)
    // the version gate
    ensures forall i :: 0 <= i < |r.calls| ==>
              r.calls[i].WithOptions? == SameSiteAsOption(env.phpMajor, env.phpMinor)
  {
    var s := PrepareSession(req, env, consts);
    var sent := env.sendFilter(s.lifetime.expire, s.lifetime.expiration, req.userId,
                               s.scheme.Name(), s.token);
    var calls :=
      if sent then
        EncodeAll(CookiePlan(consts, s.authCookieName, s.authValue, s.loggedInValue,
                             s.lifetime.expire, s.secure),
                  SameSiteAsOption(env.phpMajor, env.phpMinor))
      else [];
    Outcome(s, sent, calls)
  }
}
