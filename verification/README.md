# wpo365-samesite: the SameSite=None `wp_set_auth_cookie`

The plugin replaces WordPress's pluggable `wp_set_auth_cookie` with a copy that
sends every authentication cookie with `SameSite=None`, so a login survives
inside a cross-site iframe. This project models that one function as a pure
Dafny function. It takes a request (user id, remember flag, `$secure`, `$token`),
an environment holding everything the PHP code reads from WordPress, and the
WordPress cookie constants. It returns the session state fixed before the
`send_auth_cookies` gate, whether cookies are sent, and the ordered `setcookie`
calls.

- `set_cookie.dfy`, module `SetCookie`: the two argument forms of PHP's
  `setcookie`. One passes an options array (PHP 7.3 and later). The other is
  positional, with `"; SameSite=None"` appended to the path. `Interpret` maps
  each call to the cookie directive its arguments describe.
- `auth_cookie.dfy`, module `AuthCookie`: the inputs and outputs.
  `CookieLifetime` computes the lifetime, with the grace window for remembered
  logins. `AuthScheme` picks the scheme. `SameSiteAsOption` is the PHP-version
  gate. `CookiePlan` lists the three or four cookies. `PrepareSession` and
  `SetAuthCookie` model the function itself.
- `auth_cookie_properties.dfy`, module `AuthCookieProperties`: lemmas that
  relate several calls. They cover:
  - the default lifetimes;
  - which inputs have no effect on the output;
  - token reuse;
  - the send veto;
  - both call forms sending the same cookies;
  - the paths each cookie goes to.

The WordPress producers `WP_Session_Tokens::create` and `wp_generate_auth_cookie`
are fields of type function in `Environment`, with no assumptions about them.
So are the four filters (`auth_cookie_expiration`, `secure_auth_cookie`,
`secure_logged_in_cookie`, `send_auth_cookies`). Properties about "no filter
installed" state the default as a precondition, e.g. the filter returns the
value it is given. The side effects before the send gate are kept in order in
`Session.events`: the token creation and the `set_auth_cookie` and
`set_logged_in_cookie` actions.

A hardened session-cookie issuer would differ from this routine in several
ways. The model follows the code:
- No cookie is refused for having `secure = false` with `SameSite=None`.
  `InsecureSameSiteNoneIsSent` shows such cookies are sent.
- The logged-in cookies carry the auth cookie's `$secure`, not
  `$secure_logged_in_cookie`. That flag is computed and filtered, but
  `SecureLoggedInIsNeverSent` shows it never reaches a cookie.
- The user id is not validated, and no storage error is modelled. The code has
  neither.
- The legacy positional `setcookie` form is modelled, not omitted.

## Model

| member | source | states |
|---|---|---|
| SetCookie.EncodeWithOptions | wpo365-samesite.php:163-168 | The options-array call carries the directive's name and value, and interpreting it gives back exactly that directive: expires, path, domain, secure, httponly and SameSite. |
| SetCookie.EncodeLegacy | wpo365-samesite.php:171-176 | The positional call passes name, value, expire, domain, secure and httponly in the same order. Its path is the cookie path followed by "; SameSite=None". Interpreting it gives back the same directive, SameSite=None included. |
| SetCookie.Encode | wpo365-samesite.php:162-177 | Either form of one directive has the requested form and sends exactly that directive. |
| SetCookie.EncodeAll | wpo365-samesite.php:162-177 | A list of directives becomes one call per directive, in the same order, all in the chosen form, each sending its directive. |
| AuthCookie.CookieLifetime | wpo365-samesite.php:36-57 | `expiration` is `now` plus the filtered default length (14 days if remembered, 2 days if not). A remembered cookie expires 12 hours after `expiration`. Any other cookie has `expire` 0, a session cookie. |
| AuthCookie.ResolveSecure | wpo365-samesite.php:59-61 | Only an unspecified `$secure` (the empty string, compared strictly) defers to `is_ssl()`. A given value is kept as it is, even when it is false. |
| AuthCookie.AuthCookieName | wpo365-samesite.php:87-93 | The auth cookie's name goes with its scheme: SECURE_AUTH_COOKIE when the scheme is `secure_auth`, AUTH_COOKIE when it is `auth`. |
| AuthCookie.AuthScheme | wpo365-samesite.php:87-93 | The auth scheme is `secure_auth` exactly when the filtered `$secure` holds, otherwise `auth`. It is never `logged_in`. |
| AuthCookie.SameSiteAsOption | wpo365-samesite.php:157-160 | The options-array form is used exactly when the PHP version (major, minor) is at least (7, 3) in lexicographic order. |
| AuthCookie.CookiePlan | wpo365-samesite.php:163-169 | Exactly 3 cookies, or 4 when COOKIEPATH differs from SITECOOKIEPATH. In order: the auth cookie at PLUGINS_COOKIE_PATH, then at ADMIN_COOKIE_PATH, then the logged-in cookie at COOKIEPATH, and if present at SITECOOKIEPATH. Every one has the same expire, COOKIE_DOMAIN, the auth secure flag, HttpOnly and SameSite=None. |
| AuthCookie.PrepareSession | wpo365-samesite.php:36-135 | An empty `$secure` becomes `is_ssl()`, and the filtered value picks SECURE_AUTH_COOKIE/`secure_auth` or AUTH_COOKIE/`auth`. The logged-in flag is the unfiltered secure value combined with an https home URL, then filtered. A token is created for the user at `expiration` exactly when the supplied one is empty; otherwise the supplied one is kept. Both values are signed over the same user, expiration and token, under the auth scheme and `logged_in`. The recorded side effects are, in order: the token creation for the user at `expiration`, when there is one, then `set_auth_cookie` with the auth value, expire, expiration, user, auth scheme and token, then `set_logged_in_cookie` with the same arguments under the logged-in value and `logged_in`. |
| AuthCookie.SetAuthCookie | wpo365-samesite.php:34-179 | The session is prepared first. The send filter gets expire, expiration, user, scheme and token. When it refuses, no call is made. Otherwise the calls send exactly the cookie plan, all in the form the PHP version selects. |
| AuthCookieProperties.DefaultLifetime | wpo365-samesite.php:46-56 | With no expiration filter, a remembered login lasts 1209600 s and its cookie 43200 s more. A login that is not remembered lasts 172800 s in a session cookie. |
| AuthCookieProperties.SessionCookieIffNotRemembered | wpo365-samesite.php:36-57 | Assume a non-negative clock and filtered length. Then the cookie is a session cookie (expire 0) if and only if the login is not remembered, and a remembered cookie expires strictly after the login does. |
| AuthCookieProperties.SecureDefaultsToSsl | wpo365-samesite.php:59-93 | An empty `$secure` with no secure filter gives secure equal to `is_ssl()`. The auth cookie is then the secure one, scheme `secure_auth`, exactly on HTTPS. |
| AuthCookieProperties.SecureLoggedInIsNeverSent | wpo365-samesite.php:64-85 | Changing the home URL scheme or the `secure_logged_in_cookie` filter changes the computed logged-in flag and nothing else in the outcome: no sent cookie depends on it. |
| AuthCookieProperties.SuppliedTokenIsReused | wpo365-samesite.php:95-98 | A non-empty supplied token is used unchanged. Replacing the token manager changes nothing. No token creation happens: the only side effects are the two actions. |
| AuthCookieProperties.EmptyTokenIsCreated | wpo365-samesite.php:95-98 | An empty token makes the manager create one for the user at `expiration`. This is the first of exactly three side effects, before the two actions. |
| AuthCookieProperties.VetoRollsNothingBack | wpo365-samesite.php:153-155 | Any send filter leaves the session unchanged: token, token creation, values and actions. A refusing filter yields no calls. Two accepting filters yield the same calls. |
| AuthCookieProperties.CookieValuesDifferOnlyInScheme | wpo365-samesite.php:100-135 | The `set_auth_cookie` and `set_logged_in_cookie` actions carry the two signed values with the same expire, expiration, user and token. The first carries the session's auth scheme and the second `logged_in`, so their schemes differ. Each value is the signer applied to those arguments. |
| AuthCookieProperties.SchemeBlindSignerGivesOneValue | wpo365-samesite.php:100-101 | If the signer ignores the scheme argument, the auth and logged-in values are equal: the scheme is the only input in which they differ. |
| AuthCookieProperties.CallFormsSendSameCookies | wpo365-samesite.php:157-177 | Changing the PHP version changes the form of the calls, never the cookies they send or their order. |
| AuthCookieProperties.SentCookieAttributes | wpo365-samesite.php:163-176 | Whenever cookies are sent, the calls describe 3 or 4 directives (4 exactly when the two cookie paths differ). Each is HttpOnly and SameSite=None, on COOKIE_DOMAIN, with the computed expire and the filtered auth secure flag. |
| AuthCookieProperties.InsecureSameSiteNoneIsSent | wpo365-samesite.php:163-176 | With `$secure` false and a secure filter that keeps it false, at least three cookies are still sent when the send filter accepts, each SameSite=None without Secure. Nothing refuses them. |
| AuthCookieProperties.PlanPaths | wpo365-samesite.php:163-169 | Assume the auth cookie name differs from the logged-in one. Then the auth cookie's paths are exactly [plugins path, admin path]. The logged-in cookie's paths are [COOKIEPATH], or [COOKIEPATH, SITECOOKIEPATH] when the two differ. |
| AuthCookieProperties.SentCookiePaths | wpo365-samesite.php:163-177 | The same path lists hold for the cookies actually sent by `SetAuthCookie`, in either call form. |

## Left out

- The HTTP `Set-Cookie` header that `setcookie` writes: the model stops at the list of calls and the directive each sends.
- `time()`, `is_ssl()`, `get_option('home')` with `parse_url`, and `phpversion()` with `explode`/`intval`: they are inputs (`now`, `isSsl`, `homeScheme`, `phpMajor`, `phpMinor`). A home URL without a scheme is the empty string.
- The filters' dispatch (`apply_filters`): each filter is a function input. The `secure_auth_cookie` and `secure_logged_in_cookie` filters receive and return booleans, i.e. the truthiness of the PHP values.
- What PHP's `setcookie` writes for an empty value: it turns the call into a deletion, with the value `deleted`, an expiry in the past and `Max-Age=0`. `wp_generate_auth_cookie` returns an empty value for an unknown user. The model keeps the directive the arguments describe. Whether a browser keeps a cookie is not modelled either; current browsers drop SameSite=None without Secure.
- `$remember` is a boolean here. PHP tests its truthiness at line 36 but passes the raw value to the `auth_cookie_expiration` filter.
- The `auth_cookie_expiration` filter returns an integer here. A filter returning a string or a float would give an `$expiration` derived from it by PHP's arithmetic conversions.
- `SecureArg`: a `$secure` other than the empty string is modelled by its truthiness. A non-empty string passed to the filter as-is is not distinguished from the boolean it stands for.
- `WP_Session_Tokens::create` and `wp_generate_auth_cookie`: opaque producers passed as functions. The token store and the HMAC are not modelled.
- The `set_auth_cookie` and `set_logged_in_cookie` actions: only recorded as events with their arguments. What hooked code does is not modelled.
- PHP integer width: `time()` plus the filtered length is unbounded here. PHP's overflow to float past 2^63 is not modelled.
- The `ABSPATH` guard and the `function_exists` check that makes the function pluggable: plugin-loading plumbing.
- AuthCookie.CookiePlan: COOKIEPATH and SITECOOKIEPATH are compared as strings. PHP's `!=` at lines 167 and 175 is loose, so two numeric strings are compared as numbers: "1" and "01", or "10" and "1e1", count as equal in PHP, which sends 3 cookies where the model sends 4. For every path that is not a numeric string the two agree; WordPress's own paths end in "/" and are never numeric.
- A non-string `$token` (e.g. `null`, which is not `=== ''`): only strings are modelled.
