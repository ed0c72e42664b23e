/**
  Properties of `AuthCookie.SetAuthCookie` that relate several calls, or that
  single out the WordPress defaults among the filter results.
 */
module AuthCookieProperties {
  import opened SetCookie
  import opened AuthCookie

  /** The paths of the cookies named `name`, in the order they are sent. */
  function PathsOf(ds: seq<Directive>, name: string): (paths: seq<string>)
    ensures forall p :: p in paths <==>
              exists i :: 0 <= i < |ds| && ds[i].name == name && ds[i].path == p
  {
    if ds == [] then []
    else (if ds[0].name == name then [ds[0].path] else []) + PathsOf(ds[1..], name)
  }

  /** Filters left at WordPress's defaults return the value they are given. */
  ghost predicate DefaultExpirationFilter(f: (int, int, bool) -> int) {
    forall length, userId, remember :: f(length, userId, remember) == length
  }

  /** With no `auth_cookie_expiration` filter, a remembered login lasts 14 days and
      its cookie 12 hours more; any other login lasts 2 days in a session cookie. */
  lemma DefaultLifetime(req: Request, env: Environment, consts: CookieConstants)
    requires DefaultExpirationFilter(env.expirationFilter)
    ensures var t := PrepareSession(req, env, consts).lifetime;
            && (req.remember ==> t.expiration == env.now + 1209600
                                 && t.expire == t.expiration + 43200)
            && (!req.remember ==> t.expiration == env.now + 172800 && t.expire == 0)
  {
  }

  /** For a present-day clock and a non-negative filtered length, the cookie is a
      session cookie exactly when the login is not remembered, and a remembered
      cookie outlives the login. */
  lemma SessionCookieIffNotRemembered(req: Request, env: Environment, consts: CookieConstants)
    requires env.now >= 0
    requires env.expirationFilter(DefaultLength(req.remember), req.userId, req.remember) >= 0
    ensures var t := PrepareSession(req, env, consts).lifetime;
            && (t.expire == 0 <==> !req.remember)
            && (req.remember ==> env.now <= t.expiration < t.expire)
  {
  }

  /** An empty `$secure` takes is_ssl(); with no `secure_auth_cookie` filter the
      auth cookie is then the secure one exactly on HTTPS requests. */
  lemma SecureDefaultsToSsl(req: Request, env: Environment, consts: CookieConstants)
    requires req.secure == Unspecified
    requires env.secureAuthFilter(env.isSsl, req.userId) == env.isSsl
    ensures var s := PrepareSession(req, env, consts);
            && s.secure == env.isSsl
            && (env.isSsl ==> s.scheme.Name() == "secure_auth"
                              && s.authCookieName == consts.secureAuthCookie)
            && (!env.isSsl ==> s.scheme.Name() == "auth"
                               && s.authCookieName == consts.authCookie)
  {
  }

  /** The home URL's scheme and the `secure_logged_in_cookie` filter change the
      computed logged-in secure flag and nothing else: every cookie, the logged-in
      ones included, carries the auth cookie's secure flag. */
  lemma SecureLoggedInIsNeverSent(req: Request, env: Environment, consts: CookieConstants,
                                  homeScheme: string, filter: (bool, int, bool) -> bool)
    ensures var r := SetAuthCookie(req, env, consts);
            var r' := SetAuthCookie(req, env.(homeScheme := homeScheme,
                                             secureLoggedInFilter := filter), consts);
            r' == r.(session := r.session.(secureLoggedIn := r'.session.secureLoggedIn))
  {
  }

  /** A supplied token is used unchanged: the token manager is not consulted and no
      token creation appears among the effects. */
  lemma SuppliedTokenIsReused(req: Request, env: Environment, consts: CookieConstants,
                              create: (int, int) -> string)
    requires req.token != ""
    ensures var r := SetAuthCookie(req, env, consts);
            && r.session.token == req.token
            && !r.session.tokenCreated
            && |r.session.events| == 2
            && SetAuthCookie(req, env.(createToken := create), consts) == r
            && forall i :: 0 <= i < |r.session.events| ==>
                 !r.session.events[i].SessionTokenCreated?
  {
  }

  /** An empty token makes the manager create one for the user, bound to the
      expiration, before anything else happens. */
  lemma EmptyTokenIsCreated(req: Request, env: Environment, consts: CookieConstants)
    requires req.token == ""
    ensures var s := PrepareSession(req, env, consts);
            && s.tokenCreated
            && |s.events| == 3
            && s.events[0] == SessionTokenCreated(req.userId, s.lifetime.expiration, s.token)
  {
  }

  /** The `send_auth_cookies` filter decides only whether cookies are sent: the
      token, its creation and the two actions happen either way, so a veto rolls
      nothing back and sends nothing. */
  lemma VetoRollsNothingBack(req: Request, env: Environment, consts: CookieConstants,
                             send: (int, int, int, string, string) -> bool)
    ensures var r := SetAuthCookie(req, env, consts);
            var r' := SetAuthCookie(req, env.(sendFilter := send), consts);
            && r'.session == r.session
            && (!r'.sent ==> r'.calls == [])
            && (r'.sent && r.sent ==> r'.calls == r.calls)
  {
  }

  /** The auth and logged-in values are signed over the same user, expiration and
      token, under the auth scheme and `logged_in` respectively, and the two
      actions announce them with those same arguments. */
  lemma CookieValuesDifferOnlyInScheme(req: Request, env: Environment, consts: CookieConstants)
    ensures |PrepareSession(req, env, consts).events| >= 2
    ensures var s := PrepareSession(req, env, consts);
            var auth := s.events[|s.events| - 2];
            var loggedIn := s.events[|s.events| - 1];
            && auth.SetAuthCookieAction? && loggedIn.SetLoggedInCookieAction?
            && auth.value == s.authValue && loggedIn.value == s.loggedInValue
            && auth.expire == loggedIn.expire == s.lifetime.expire
            && auth.expiration == loggedIn.expiration == s.lifetime.expiration
            && auth.userId == loggedIn.userId == req.userId
            && auth.token == loggedIn.token == s.token
            && s.authValue == env.generateCookie(req.userId, s.lifetime.expiration,
                                                 auth.scheme, s.token)
            && s.loggedInValue == env.generateCookie(req.userId, s.lifetime.expiration,
                                                     loggedIn.scheme, s.token)
            && auth.scheme == s.scheme.Name()
            && loggedIn.scheme == "logged_in"
            && auth.scheme != loggedIn.scheme
  {
  }

  /** A signer that ignores the scheme gives both cookies the same value. */
  lemma SchemeBlindSignerGivesOneValue(req: Request, env: Environment, consts: CookieConstants)
    requires forall u, e, sc, t :: env.generateCookie(u, e, sc, t) == env.generateCookie(u, e, "", t)
    ensures var s := PrepareSession(req, env, consts);
            s.authValue == s.loggedInValue
  {
    var s := PrepareSession(req, env, consts);
    assert env.generateCookie(req.userId, s.lifetime.expiration, s.scheme.Name(), s.token)
        == env.generateCookie(req.userId, s.lifetime.expiration, "", s.token);
  }

  /** Both `setcookie` forms send the same cookies in the same order: the PHP
      version changes the encoding of the calls and nothing the browser sees. */
  lemma CallFormsSendSameCookies(req: Request, env: Environment, consts: CookieConstants,
                                 major: int, minor: int)
    ensures var r := SetAuthCookie(req, env, consts);
            var r' := SetAuthCookie(req, env.(phpMajor := major, phpMinor := minor), consts);
            Sent(r'.calls) == Sent(r.calls)
  {
  }

  /** Every cookie sent is HttpOnly, SameSite=None, on COOKIE_DOMAIN, expires at
      `expire` and has the filtered auth secure flag, and there are 3 or 4. */
  lemma SentCookieAttributes(req: Request, env: Environment, consts: CookieConstants)
    requires SetAuthCookie(req, env, consts).sent
    ensures var r := SetAuthCookie(req, env, consts);
            var ds := Sent(r.calls);
            && |ds| == (if consts.cookiePath == consts.siteCookiePath then 3 else 4)
            && forall i :: 0 <= i < |ds| ==>
                 && ds[i].httpOnly
                 && ds[i].sameSite == "None"
                 && ds[i].domain == consts.cookieDomain
                 && ds[i].expires == r.session.lifetime.expire
                 && ds[i].secure == r.session.secure
  {
  }

  /** Nothing stops a non-secure SameSite=None cookie: with `$secure` false and no
      filter turning it on, every cookie is sent without Secure. */
  lemma InsecureSameSiteNoneIsSent(req: Request, env: Environment, consts: CookieConstants)
    requires req.secure == Given(false)
    requires !env.secureAuthFilter(false, req.userId)
    requires SetAuthCookie(req, env, consts).sent
    ensures var ds := Sent(SetAuthCookie(req, env, consts).calls);
            && |ds| >= 3
            && forall i :: 0 <= i < |ds| ==> !ds[i].secure && ds[i].sameSite == "None"
  {
  }

  lemma PlanPaths(consts: CookieConstants, authName: string, authValue: string,
                  loggedInValue: string, expire: int, secure: bool)
    requires authName != consts.loggedInCookie
    ensures var ds := CookiePlan(consts, authName, authValue, loggedInValue, expire, secure);
            && PathsOf(ds, authName) == [consts.pluginsCookiePath, consts.adminCookiePath]
            && PathsOf(ds, consts.loggedInCookie) ==
                 if consts.cookiePath == consts.siteCookiePath then [consts.cookiePath]
                 else [consts.cookiePath, consts.siteCookiePath]
  {
    var ds := CookiePlan(consts, authName, authValue, loggedInValue, expire, secure);
    var li := consts.loggedInCookie;
    var tail := if |ds| == 4 then [ds[3].path] else [];
    assert PathsOf(ds[3..], li) == tail by {
      if |ds| == 4 {
        assert ds[3..][1..] == [];
      }
    }
    assert PathsOf(ds[2..], li) == [ds[2].path] + tail by {
      assert ds[2..][1..] == ds[3..];
    }
    assert PathsOf(ds[1..], li) == [ds[2].path] + tail by {
      assert ds[1..][1..] == ds[2..];
    }
    assert PathsOf(ds[3..], authName) == [];
    assert PathsOf(ds[2..], authName) == [] by {
      assert ds[2..][1..] == ds[3..];
    }
    assert PathsOf(ds[1..], authName) == [ds[1].path] by {
      assert ds[1..][1..] == ds[2..];
    }
  }

  /** The auth cookie is sent to the plugins and admin paths; the logged-in cookie
      once when COOKIEPATH equals SITECOOKIEPATH and to both paths otherwise. */
  lemma SentCookiePaths(req: Request, env: Environment, consts: CookieConstants)
    requires consts.authCookie != consts.loggedInCookie
    requires consts.secureAuthCookie != consts.loggedInCookie
    requires SetAuthCookie(req, env, consts).sent
    ensures var r := SetAuthCookie(req, env, consts);
            var ds := Sent(r.calls);
            && PathsOf(ds, r.session.authCookieName)
                 == [consts.pluginsCookiePath, consts.adminCookiePath]
            && PathsOf(ds, consts.loggedInCookie) ==
                 if consts.cookiePath == consts.siteCookiePath then [consts.cookiePath]
                 else [consts.cookiePath, consts.siteCookiePath]
  {
    var s := SetAuthCookie(req, env, consts).session;
    PlanPaths(consts, s.authCookieName, s.authValue, s.loggedInValue, s.lifetime.expire, s.secure);
  }
}
