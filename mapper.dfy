/** The form-to-store mapping of `saveCookie` and `removeCookie`: form
    normalisation, name validation, SameSite lookup, and the parameters of
    the set and remove calls. */
module Mapper {
  import opened Store
  import opened Text

  /** The expiry field as `new Date(value).getTime()` reads it: left empty, not
      a date (NaN), or a time in milliseconds. */
  datatype ExpiryInput = Empty | Unparsable | LocalMillis(ms: int)

  /** The cookie form as the user left it. */
  datatype CookieForm = CookieForm(
    name: string,
    value: string,
    domain: string,
    path: string,
    secure: bool,
    httpOnly: bool,
    session: bool,
    sameSite: string,
    expires: ExpiryInput)

  /** `cookieData.expirationDate`: unset, NaN, or whole seconds. */
  datatype Expiration = NoExpiry | NotANumber | AtSeconds(seconds: int)

  /** The normalised `cookieData` built from the form. */
  datatype CookieData = CookieData(
    name: string,
    value: string,
    domain: string,
    path: string,
    secure: bool,
    httpOnly: bool,
    sameSite: SameSite,
    expiration: Expiration)

  datatype FormError = EmptyName | InvalidName

  datatype Result<T, E> = Ok(value: T) | Err(error: E)

  /** The store's own spelling of each SameSite value. */
  function SameSiteName(s: SameSite): (name: string)
  {
    match s
    case NoRestriction => "no_restriction"
    case Lax => "lax"
    case Strict => "strict"
    case Unspecified => "unspecified"
  }

  predicate IsStoreName(choice: string)
  {
    choice == "no_restriction" || choice == "lax" || choice == "strict" || choice == "unspecified"
  }

  /** The `sameSiteMapping` lookup with its fallback: the store's four names
      map to themselves, the legacy "none" to no_restriction, anything else to
      lax. */
  function SameSiteOf(choice: string): (r: SameSite)
    ensures IsStoreName(choice) ==> SameSiteName(r) == choice
    ensures choice == "none" ==> r == NoRestriction
    ensures !IsStoreName(choice) && choice != "none" ==> r == Lax
  {
    if choice == "no_restriction" then NoRestriction
    else if choice == "lax" then Lax
    else if choice == "strict" then Strict
    else if choice == "none" then NoRestriction
    else if choice == "unspecified" then Unspecified
    else Lax
  }

  /** A character of the cookie-name token set `[A-Za-z0-9!#$&^_`|~-]`. */
  predicate IsTokenChar(c: char)
  {
    ('a' <= c <= 'z') || ('A' <= c <= 'Z') || ('0' <= c <= '9')
    || c == '!' || c == '#' || c == '$' || c == '&' || c == '^' || c == '_'
    || c == '`' || c == '|' || c == '~' || c == '-'
  }

  /** The name regex `^[A-Za-z0-9!#$&^_`|~-]+$`. */
  predicate ValidName(name: string)
  {
    |name| > 0 && forall k :: 0 <= k < |name| ==> IsTokenChar(name[k])
  }

  /** The two name checks in order: emptiness first, then the token set. */
  function NameError(name: string): (r: Option<FormError>)
    ensures r.None? <==> ValidName(name)
    ensures r == Some(EmptyName) <==> name == ""
  {
    if name == "" then Some(EmptyName)
    else if !AllTokenChars(name) then Some(InvalidName)
    else None
  }

  function AllTokenChars(s: string): (r: bool)
    ensures r <==> forall k :: 0 <= k < |s| ==> IsTokenChar(s[k])
  {
    if s == [] then true
    else
      var r := IsTokenChar(s[0]) && AllTokenChars(s[1..]);
      assert forall k :: 1 <= k < |s| ==> s[k] == s[1..][k - 1];
      r
  }

  /** `Math.floor(ms / 1000)`: the whole seconds at or before `ms`. */
  function FloorSeconds(ms: int): (s: int)
    ensures s * 1000 <= ms < s * 1000 + 1000
  {
    ms / 1000
  }

  /** The expiry a form asks for: none for a session cookie or an empty
      field, otherwise the whole seconds of the entered local time. */
  function ExpirationOf(session: bool, expires: ExpiryInput): (e: Expiration)
    ensures session || expires.Empty? ==> e == NoExpiry
    ensures !session && expires.Unparsable? ==> e == NotANumber
    ensures !session && expires.LocalMillis? ==>
              e.AtSeconds? && e.seconds * 1000 <= expires.ms < e.seconds * 1000 + 1000
  {
    if session then NoExpiry
    else match expires
      case Empty => NoExpiry
      case Unparsable => NotANumber
      case LocalMillis(ms) => AtSeconds(FloorSeconds(ms))
  }

  /** The `cookieData` object: name, domain and path trimmed, a blank domain
      replaced by the selected domain and a blank path by "/", SameSite looked
      up, and the expiry the form asks for. */
  function Normalise(form: CookieForm, selectedDomain: string): (d: CookieData)
    ensures d.name == Trim(form.name) && d.value == form.value
    ensures d.secure == form.secure && d.httpOnly == form.httpOnly
    ensures Blank(form.domain) ==> d.domain == selectedDomain
    ensures !Blank(form.domain) ==> d.domain == Trim(form.domain) && d.domain != ""
    ensures Blank(form.path) ==> d.path == "/"
    ensures !Blank(form.path) ==> d.path == Trim(form.path) && d.path != ""
    ensures d.sameSite == SameSiteOf(form.sameSite)
    ensures d.expiration == ExpirationOf(form.session, form.expires)
  {
    TrimEmptyIffBlank(form.domain);
    TrimEmptyIffBlank(form.path);
    var domain := Trim(form.domain);
    var path := Trim(form.path);
    CookieData(
      Trim(form.name),
      form.value,
      if domain == "" then selectedDomain else domain,
      if path == "" then "/" else path,
      form.secure,
      form.httpOnly,
      SameSiteOf(form.sameSite),
      ExpirationOf(form.session, form.expires))
  }

  /** Normalisation followed by the name checks; a rejected name ends the
      save before the store is touched. */
  function Prepare(form: CookieForm, selectedDomain: string): (r: Result<CookieData, FormError>)
    ensures r.Ok? <==> ValidName(Trim(form.name))
    ensures r.Ok? ==> r.value == Normalise(form, selectedDomain)
    ensures r == Err(EmptyName) <==> Blank(form.name)
  {
    TrimEmptyIffBlank(form.name);
    var d := Normalise(form, selectedDomain);
    match NameError(d.name)
    case Some(e) => Err(e)
    case None => Ok(d)
  }

  /** `targetDomain`: the domain without one leading ".". */
  function StripLeadingDot(domain: string): (host: string)
    ensures HasPrefix(domain, ".") ==> domain == "." + host
    ensures !HasPrefix(domain, ".") ==> host == domain
  {
    if HasPrefix(domain, ".") then domain[1..] else domain
  }

  /** The URL the popup builds for a host and path. */
  function CookieUrl(secure: bool, host: string, path: string): (url: string)
  {
    "http" + (if secure then "s" else "") + "://" + host + path
  }

  /** The `cookieDetails` of the set call. */
  function SetParams(d: CookieData): (p: SetDetails)
    ensures p.name == d.name && p.value == d.value && p.path == d.path
    ensures p.secure == d.secure && p.httpOnly == d.httpOnly && p.sameSite == d.sameSite
    ensures p.url == CookieUrl(d.secure, StripLeadingDot(d.domain), d.path)
    ensures p.domain.Some? <==> HasPrefix(d.domain, ".")
    ensures p.domain.Some? ==> p.domain.value == d.domain
    ensures p.expirationDate.Some? <==> d.expiration.AtSeconds? && d.expiration.seconds != 0
    ensures p.expirationDate.Some? ==> p.expirationDate.value == d.expiration.seconds
  {
    var targetDomain := StripLeadingDot(d.domain);
    var url := CookieUrl(d.secure, targetDomain, d.path);
    SetDetails(
      url, d.name, d.value, d.path, d.secure, d.httpOnly, d.sameSite,
      if d.domain != targetDomain then Some(d.domain) else None,
      // NaN and 0 are falsy, so neither is sent
      match d.expiration
      case AtSeconds(s) => if s != 0 then Some(s) else None
      case _ => None)
  }

  /** The host part of a URL the popup built, given the path it appended. */
  function UrlHost(url: string, path: string): (host: string)
  {
    var start := if HasPrefix(url, "https://") then 8 else 7;
    if start <= |url| - |path| then url[start..|url| - |path|] else ""
  }

  /** The cookie a store that accepts set parameters as given would record:
      the explicit domain, or the URL's host for a host-only cookie, and a
      session cookie when no expiry is sent. */
  function StoredCookie(p: SetDetails): (c: Cookie)
  {
    Cookie(
      p.name, p.value,
      match p.domain
      case Some(domain) => domain
      case None => UrlHost(p.url, p.path),
      p.path, p.secure, p.httpOnly, p.expirationDate.None?)
  }

  /** Set parameters read back from a store that echoes them give the saved
      cookie's name, value, domain, path and flags; the scheme of the URL
      carries `secure`; it is a session cookie exactly when no nonzero expiry
      was set. */
  lemma SetRoundTrip(d: CookieData)
    ensures var p := SetParams(d);
            var c := StoredCookie(p);
            && c.name == d.name && c.value == d.value && c.domain == d.domain && c.path == d.path
            && c.secure == d.secure && c.httpOnly == d.httpOnly
            && (c.session <==> !(d.expiration.AtSeconds? && d.expiration.seconds != 0))
            && (HasPrefix(p.url, "https://") <==> d.secure)
  {
    UrlHostOfCookieUrl(d.secure, StripLeadingDot(d.domain), d.path);
  }

  /** The host and the scheme can be read back from a URL the popup built. */
  lemma UrlHostOfCookieUrl(secure: bool, host: string, path: string)
    ensures var url := CookieUrl(secure, host, path);
            UrlHost(url, path) == host && (HasPrefix(url, "https://") <==> secure)
  {
    var url := CookieUrl(secure, host, path);
    var scheme := if secure then "https://" else "http://";
    CookieUrlScheme(secure, host, path);
    assert url[..|scheme|] == scheme;
    assert url[|scheme|..|url| - |path|] == host;
    if !secure {
      assert url[4] == ':';
    }
  }

  /** The popup's URL is the host and path behind the scheme `secure` picks. */
  lemma CookieUrlScheme(secure: bool, host: string, path: string)
    ensures CookieUrl(secure, host, path) == (if secure then "https://" else "http://") + host + path
  {
    if secure {
      assert "http" + "s" + "://" == "https://";
    } else {
      assert "http" + "" + "://" == "http://";
    }
  }

  /** A form with the session box ticked never sends an expiry, whatever the
      expiry field holds. */
  lemma SessionSendsNoExpiry(form: CookieForm, selectedDomain: string)
    requires form.session
    ensures SetParams(Normalise(form, selectedDomain)).expirationDate.None?
  {
  }

  /** `removeCookie`'s two calls: the http URL first, then the https URL, both
      for the domain without its leading "." and the same name. */
  function RemovalCalls(name: string, domain: string, path: string): (calls: seq<StoreCall>)
    ensures |calls| == 2 && calls[0].Remove? && calls[1].Remove?
    ensures calls[0].name == name && calls[1].name == name
    ensures HasPrefix(calls[0].url, "http://") && HasPrefix(calls[1].url, "https://")
    ensures calls[0].url[7..] == calls[1].url[8..] == StripLeadingDot(domain) + path
  {
    var targetDomain := StripLeadingDot(domain);
    [Remove("http://" + targetDomain + path, name), Remove("https://" + targetDomain + path, name)]
  }

  /** Removing a saved cookie by the identity the store reports for it hits
      the very URL and name it was set through, whichever scheme that was. */
  lemma RemovalHitsSetUrl(d: CookieData)
    ensures var p := SetParams(d);
            var c := StoredCookie(p);
            Remove(p.url, p.name) in RemovalCalls(c.name, c.domain, c.path)
  {
    SetRoundTrip(d);
    var host := StripLeadingDot(d.domain);
    CookieUrlScheme(d.secure, host, d.path);
    var calls := RemovalCalls(d.name, d.domain, d.path);
    assert calls[if d.secure then 1 else 0] == Remove(SetParams(d).url, d.name);
  }
}
