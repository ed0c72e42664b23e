/**
  The two shapes of PHP's `setcookie` call that the plugin uses, and the cookie
  directive each of them asks the HTTP layer to send.

  A `Directive` is the logical cookie: name, value, the Expires time (0 meaning a
  session cookie), Path, Domain, the Secure and HttpOnly flags (sections 4.1.2.5
  and 4.1.2.6 of RFC 6265) and the SameSite value (section 4.1.2.7 of
  draft-ietf-httpbis-rfc6265bis; the empty string when no SameSite attribute is
  sent).

  PHP 7.3 and later accept an options array that carries SameSite directly. Older
  versions only take positional arguments, and the plugin smuggles the attribute
  in by appending "; SameSite=None" to the path, which PHP copies verbatim into
  the Set-Cookie header.
 */
module SetCookie {

  const SameSiteNone: string := "None"

  /** What the legacy call appends to the path to get a SameSite attribute through. */
  const LegacySameSiteSuffix: string := "; SameSite=None"

  datatype Directive = Directive(
    name: string,
    value: string,
    expires: int,
    path: string,
    domain: string,
    secure: bool,
    httpOnly: bool,
    sameSite: string)

  /** The options array of `setcookie($name, $value, $options)`. */
  datatype CookieOptions = CookieOptions(
    expires: int,
    path: string,
    domain: string,
    secure: bool,
    httpOnly: bool,
    sameSite: string)

  /** One call of `setcookie`, in either of its two argument forms. */
  datatype SetCookieCall =
    | WithOptions(name: string, value: string, options: CookieOptions)
    | Positional(name: string, value: string, expire: int, path: string,
                 domain: string, secure: bool, httpOnly: bool)

  predicate EndsWith(s: string, suffix: string) {
    |suffix| <= |s| && s[|s| - |suffix|..] == suffix
  }

  /** The directive a call's arguments describe. A positional call whose path
      ends in the legacy suffix describes SameSite=None and the path before the
      suffix. What PHP then writes for an empty value, and whether a browser
      keeps the cookie, are not part of this. */
  function Interpret(call: SetCookieCall): Directive {
    match call
    case WithOptions(name, value, o) =>
      Directive(name, value, o.expires, o.path, o.domain, o.secure, o.httpOnly, o.sameSite)
    case Positional(name, value, expire, path, domain, secure, httpOnly) =>
      if EndsWith(path, LegacySameSiteSuffix) then
        Directive(name, value, expire, path[..|path| - |LegacySameSiteSuffix|],
                  domain, secure, httpOnly, SameSiteNone)
      else
        Directive(name, value, expire, path, domain, secure, httpOnly, "")
  }

  /** The options-array form of a directive. */
  function EncodeWithOptions(d: Directive): (call: SetCookieCall)
    ensures call.WithOptions? && call.name == d.name && call.value == d.value
    ensures Interpret(call) == d
  {
    WithOptions(d.name, d.value,
                CookieOptions(d.expires, d.path, d.domain, d.secure, d.httpOnly, d.sameSite))
  }

  /** The positional form of a SameSite=None directive: the same name, value,
      expiry, domain and flags, in the same order, with the suffix on the path. */
  function EncodeLegacy(d: Directive): (call: SetCookieCall)
    requires d.sameSite == SameSiteNone
    ensures call.Positional?
    ensures call.name == d.name && call.value == d.value && call.expire == d.expires
    ensures call.path == d.path + LegacySameSiteSuffix
    ensures call.domain == d.domain && call.secure == d.secure && call.httpOnly == d.httpOnly
    ensures Interpret(call) == d
  {
    var path := d.path + LegacySameSiteSuffix;
    assert path[|path| - |LegacySameSiteSuffix|..] == LegacySameSiteSuffix;
    assert path[..|path| - |LegacySameSiteSuffix|] == d.path;
    Positional(d.name, d.value, d.expires, path, d.domain, d.secure, d.httpOnly)
  }

  function Encode(d: Directive, withOptions: bool): (call: SetCookieCall)
    requires withOptions || d.sameSite == SameSiteNone
    ensures call.WithOptions? == withOptions
    ensures Interpret(call) == d
  {
    if withOptions then EncodeWithOptions(d) else EncodeLegacy(d)
  }

  /** The calls that send `ds`, in order, all in one form. */
  function EncodeAll(ds: seq<Directive>, withOptions: bool): (calls: seq<SetCookieCall>)
    requires withOptions || forall i :: 0 <= i < |ds| ==> ds[i].sameSite == SameSiteNone
    ensures |calls| == |ds|
    ensures forall i :: 0 <= i < |ds| ==>
              calls[i].WithOptions? == withOptions && Interpret(calls[i]) == ds[i]
  {
    if ds == [] then []
    else [Encode(ds[0], withOptions)] + EncodeAll(ds[1..], withOptions)
  }

  /** The directives a sequence of calls sends, in order. */
  function Sent(calls: seq<SetCookieCall>): seq<Directive> {
    seq(|calls|, i requires 0 <= i < |calls| => Interpret(calls[i]))
  }
}
