/** The popup controller `CookieManager`: its state, the search filter, and
    the store calls that loading, saving, deleting and clearing issue. Store
    answers and the user's confirmations are parameters; the calls issued
    are recorded, in order, in the ghost `trace`. */
module Manager {
  import opened Store
  import opened Text
  import opened Domains
  import opened Mapper

  /** The notifications `showSuccess` and `showError` display. */
  datatype Notice =
    | NameEmpty
    | NameInvalid
    | LoadFailed
    | SaveFailed
    | CookieAdded
    | CookieUpdated
    | CookieDeleted
    | Cleared(count: nat)

  function NoticeOf(e: FormError): (n: Notice)
  {
    match e
    case EmptyName => NameEmpty
    case InvalidName => NameInvalid
  }

  /** The `filterCookies` predicate: the lower-cased name or value contains
      the lower-cased term. */
  predicate Matches(c: Cookie, term: string)
  {
    Contains(Lower(c.name), Lower(term)) || Contains(Lower(c.value), Lower(term))
  }

  /** `cookies.filter(Matches)`. */
  function Filter(cs: seq<Cookie>, term: string): (r: seq<Cookie>)
    ensures |r| <= |cs|
    ensures forall c :: c in r <==> c in cs && Matches(c, term)
  {
    if cs == [] then []
    else (if Matches(cs[0], term) then [cs[0]] else []) + Filter(cs[1..], term)
  }

  /** Filtering keeps the original order: the filter of a concatenation is
      the concatenation of the filters. */
  lemma {:induction false} FilterAppend(a: seq<Cookie>, b: seq<Cookie>, term: string)
    ensures Filter(a + b, term) == Filter(a, term) + Filter(b, term)
  {
    if a == [] {
      assert a + b == b;
    } else {
      assert (a + b)[0] == a[0];
      assert (a + b)[1..] == a[1..] + b;
      FilterAppend(a[1..], b, term);
    }
  }

  /** `cookies.find(c => c.name === name)`: the first cookie with that name. */
  function FirstNamed(cs: seq<Cookie>, name: string): (r: Option<Cookie>)
    ensures r.None? <==> forall k :: 0 <= k < |cs| ==> cs[k].name != name
    ensures r.Some? ==> exists k :: 0 <= k < |cs| && cs[k] == r.value && r.value.name == name
                                    && forall j :: 0 <= j < k ==> cs[j].name != name
  {
    if cs == [] then None
    else if cs[0].name == name then Some(cs[0])
    else
      var r := FirstNamed(cs[1..], name);
      assert forall k :: 1 <= k < |cs| ==> cs[k] == cs[1..][k - 1];
      r
  }

  /** The removals `clearAllCookies` issues: one `removeCookie` per cookie, in
      list order. */
  function RemoveAllCalls(cs: seq<Cookie>): (calls: seq<StoreCall>)
    ensures |calls| == 2 * |cs|
  {
    if cs == [] then []
    else
      var c := cs[|cs| - 1];
      RemoveAllCalls(cs[..|cs| - 1]) + RemovalCalls(c.name, c.domain, c.path)
  }

  /** Clearing issues exactly two removals per cookie: for the i-th cookie,
      its http removal at position 2i and its https removal at 2i + 1. */
  lemma {:induction false} RemoveAllCallsLayout(cs: seq<Cookie>, i: nat)
    requires i < |cs|
    ensures var calls, own := RemoveAllCalls(cs), RemovalCalls(cs[i].name, cs[i].domain, cs[i].path);
            calls[2 * i] == own[0] && calls[2 * i + 1] == own[1]
  {
    var init := cs[..|cs| - 1];
    if i < |cs| - 1 {
      RemoveAllCallsLayout(init, i);
      assert init[i] == cs[i];
    }
  }

  /** The removals an edit issues before the set: the old cookie's. */
  function EditRemoval(editing: Option<Cookie>): (calls: seq<StoreCall>)
  {
    match editing
    case Some(c) => RemovalCalls(c.name, c.domain, c.path)
    case None => []
  }

  /** `loadCookies` reads only when a domain is selected. */
  function LoadCalls(domain: string): (calls: seq<StoreCall>)
  {
    if domain == "" then [] else [GetAll(domain)]
  }

  /** The list after a load: the store's answer, or the old list when nothing
      was read or the read failed. */
  function Loaded(current: seq<Cookie>, domain: string, fetched: Option<seq<Cookie>>): (cs: seq<Cookie>)
  {
    if domain == "" || fetched.None? then current else fetched.value
  }

  function LoadNotices(domain: string, fetched: Option<seq<Cookie>>): (notices: seq<Notice>)
  {
    if domain != "" && fetched.None? then [LoadFailed] else []
  }

  class CookieManager {
    var selectedDomain: string
    var domainOptions: seq<DomainOption>
    var cookies: seq<Cookie>
    var editingCookie: Option<Cookie>
    ghost var trace: seq<StoreCall>

    constructor ()
      ensures selectedDomain == "" && domainOptions == [] && cookies == []
      ensures editingCookie == None && trace == []
    {
      selectedDomain := "";
      domainOptions := [];
      cookies := [];
      editingCookie := None;
      trace := [];
    }

    /** `getCurrentDomain` given the active tab's hostname (None when there is
        no tab or URL): build the options and select the default. */
    method GetCurrentDomain(hostname: Option<string>)
      modifies this
      ensures hostname.None? ==> selectedDomain == old(selectedDomain) && domainOptions == old(domainOptions)
      ensures hostname.Some? ==> domainOptions == DomainOptions(hostname.value)
      ensures hostname.Some? ==> selectedDomain == DefaultSelection(hostname.value, DomainOptions(hostname.value))
      ensures cookies == old(cookies) && editingCookie == old(editingCookie) && trace == old(trace)
    {
      if hostname.Some? {
        var h := hostname.value;
        domainOptions := GenerateDomainOptions(h);
        var parent := FirstParent(domainOptions);
        if parent.Some? {
          selectedDomain := parent.value;
        } else {
          selectedDomain := h;
        }
      }
    }

    /** `loadCookies` given the store's answer (None when the read fails). */
    method LoadCookies(fetched: Option<seq<Cookie>>) returns (notices: seq<Notice>)
      modifies this
      ensures trace == old(trace) + LoadCalls(selectedDomain)
      ensures cookies == Loaded(old(cookies), selectedDomain, fetched)
      ensures notices == LoadNotices(selectedDomain, fetched)
      ensures selectedDomain == old(selectedDomain) && domainOptions == old(domainOptions)
      ensures editingCookie == old(editingCookie)
    {
      notices := [];
      if selectedDomain == "" {
        return;
      }
      trace := trace + [GetAll(selectedDomain)];
      match fetched
      case Some(cs) =>
        cookies := cs;
      case None =>
        notices := [LoadFailed];
    }

    /** `init`: resolve the domain, then load its cookies. */
    method Init(hostname: Option<string>, fetched: Option<seq<Cookie>>) returns (notices: seq<Notice>)
      modifies this
      ensures hostname.Some? ==> selectedDomain == DefaultSelection(hostname.value, DomainOptions(hostname.value))
      ensures hostname.None? ==> selectedDomain == old(selectedDomain)
      ensures hostname.Some? ==> domainOptions == DomainOptions(hostname.value)
      ensures hostname.None? ==> domainOptions == old(domainOptions)
      ensures editingCookie == old(editingCookie)
      ensures trace == old(trace) + LoadCalls(selectedDomain)
      ensures cookies == Loaded(old(cookies), selectedDomain, fetched)
      ensures notices == LoadNotices(selectedDomain, fetched)
    {
      GetCurrentDomain(hostname);
      notices := LoadCookies(fetched);
    }

    /** The domain selector's change handler: select and reload. */
    method SelectDomain(value: string, fetched: Option<seq<Cookie>>) returns (notices: seq<Notice>)
      modifies this
      ensures selectedDomain == value && domainOptions == old(domainOptions)
      ensures editingCookie == old(editingCookie)
      ensures trace == old(trace) + LoadCalls(value)
      ensures cookies == Loaded(old(cookies), value, fetched)
      ensures notices == LoadNotices(value, fetched)
    {
      selectedDomain := value;
      notices := LoadCookies(fetched);
    }

    /** `filterCookies`: the cookies rendered for a search term. A blank term
        shows the whole list; the loaded list itself is never changed. */
    method FilterCookies(term: string) returns (shown: seq<Cookie>)
      ensures Blank(term) ==> shown == cookies
      ensures !Blank(term) ==> shown == Filter(cookies, term)
    {
      TrimEmptyIffBlank(term);
      if Trim(term) == "" {
        return cookies;
      }
      shown := Filter(cookies, term);
    }

    /** `showCookieModal`: None opens the form for a new cookie. */
    method ShowCookieModal(cookie: Option<Cookie>)
      modifies this`editingCookie
      ensures editingCookie == cookie
    {
      editingCookie := cookie;
    }

    /** `hideCookieModal` ends any edit session. */
    method HideCookieModal()
      modifies this`editingCookie
      ensures editingCookie == None
    {
      editingCookie := None;
    }

    /** `editCookie`: opens the first loaded cookie with that name for editing;
        an unknown name does nothing. */
    method EditCookie(name: string)
      modifies this`editingCookie
      ensures FirstNamed(cookies, name).Some? ==> editingCookie == FirstNamed(cookies, name)
      ensures FirstNamed(cookies, name).None? ==> editingCookie == old(editingCookie)
    {
      var cookie := FirstNamed(cookies, name);
      if cookie.Some? {
        ShowCookieModal(cookie);
      }
    }

    /** `removeCookie`: the http and then the https removal. Either may fail;
        the failure is swallowed, so the pair is always issued in full. */
    method RemoveCookie(name: string, domain: string, path: string)
      modifies this`trace
      ensures trace == old(trace) + RemovalCalls(name, domain, path)
    {
      var targetDomain := StripLeadingDot(domain);
      trace := trace + [Remove("http://" + targetDomain + path, name)];
      trace := trace + [Remove("https://" + targetDomain + path, name)];
    }

    /** `deleteCookie`: after confirmation, removes the first loaded cookie with
        that name under its own domain and path, then reloads. */
    method DeleteCookie(name: string, confirmed: bool, fetched: Option<seq<Cookie>>) returns (notices: seq<Notice>)
      modifies this
      ensures !confirmed || FirstNamed(old(cookies), name).None? ==>
                trace == old(trace) && cookies == old(cookies) && notices == []
      ensures confirmed && FirstNamed(old(cookies), name).Some? ==>
                var c := FirstNamed(old(cookies), name).value;
                && trace == old(trace) + RemovalCalls(c.name, c.domain, c.path) + LoadCalls(selectedDomain)
                && cookies == Loaded(old(cookies), selectedDomain, fetched)
                && notices == LoadNotices(selectedDomain, fetched) + [CookieDeleted]
      ensures selectedDomain == old(selectedDomain) && editingCookie == old(editingCookie)
      ensures domainOptions == old(domainOptions)
    {
      notices := [];
      if !confirmed {
        return;
      }
      var cookie := FirstNamed(cookies, name);
      if cookie.Some? {
        var c := cookie.value;
        RemoveCookie(c.name, c.domain, c.path);
        notices := LoadCookies(fetched);
        notices := notices + [CookieDeleted];
      }
    }

    /** `clearAllCookies`: after confirmation, one `removeCookie` per loaded
        cookie, then a reload and a count of the cookies attempted. */
    method ClearAllCookies(confirmed: bool, fetched: Option<seq<Cookie>>) returns (notices: seq<Notice>)
      modifies this
      ensures !confirmed ==> trace == old(trace) && cookies == old(cookies) && notices == []
      ensures confirmed ==>
                && trace == old(trace) + RemoveAllCalls(old(cookies)) + LoadCalls(selectedDomain)
                && cookies == Loaded(old(cookies), selectedDomain, fetched)
                && notices == LoadNotices(selectedDomain, fetched) + [Cleared(|old(cookies)|)]
      ensures selectedDomain == old(selectedDomain) && editingCookie == old(editingCookie)
      ensures domainOptions == old(domainOptions)
    {
      notices := [];
      if !confirmed {
        return;
      }
      var all := cookies;
      RemoveEach(all);
      notices := LoadCookies(fetched);
      notices := notices + [Cleared(|all|)];
    }

    /** The `removeCookie` calls of `clearAllCookies`, one cookie after
        another in list order. */
    method RemoveEach(all: seq<Cookie>)
      modifies this`trace
      ensures trace == old(trace) + RemoveAllCalls(all)
    {
      for i := 0 to |all|
        invariant trace == old(trace) + RemoveAllCalls(all[..i])
      {
        var c := all[i];
        RemoveCookie(c.name, c.domain, c.path);
        assert all[..i + 1][..i] == all[..i];
      }
      assert all[..|all|] == all;
    }

    /** `saveCookie` given the form's validity, the form, whether the store
        accepted the set call (a null result or a rejection is a failure) and
        the reload's answer. A rejected form or name touches nothing. */
    method SaveCookie(formValid: bool, form: CookieForm, setAccepted: bool, fetched: Option<seq<Cookie>>)
      returns (notices: seq<Notice>)
      modifies this
      ensures selectedDomain == old(selectedDomain) && domainOptions == old(domainOptions)
      ensures !formValid ==>
                trace == old(trace) && cookies == old(cookies) && editingCookie == old(editingCookie) && notices == []
      ensures formValid && Prepare(form, old(selectedDomain)).Err? ==>
                && trace == old(trace) && cookies == old(cookies) && editingCookie == old(editingCookie)
                && notices == [NoticeOf(Prepare(form, old(selectedDomain)).error)]
      ensures formValid && Prepare(form, old(selectedDomain)).Ok? ==>
                var sent := old(trace) + EditRemoval(old(editingCookie)) + [Set(SetParams(Prepare(form, old(selectedDomain)).value))];
                && (setAccepted ==> trace == sent + LoadCalls(selectedDomain))
                && (setAccepted ==> cookies == Loaded(old(cookies), selectedDomain, fetched) && editingCookie == None)
                && (setAccepted ==> notices == LoadNotices(selectedDomain, fetched) + [CookieAdded])
                && (!setAccepted ==> trace == sent && cookies == old(cookies) && editingCookie == old(editingCookie))
                && (!setAccepted ==> notices == [SaveFailed])
    {
      notices := [];
      if !formValid {
        return;
      }
      var prepared := Prepare(form, selectedDomain);
      if prepared.Err? {
        notices := [NoticeOf(prepared.error)];
        return;
      }
      notices := WriteCookie(prepared.value, setAccepted, fetched);
    }

    /** The `try` block of `saveCookie`: an edit removes the old cookie before
        the set; a refused set leaves the modal open; on success the modal
        closes before the message is chosen, so the message always says
        "added". */
    method WriteCookie(cookieData: CookieData, setAccepted: bool, fetched: Option<seq<Cookie>>)
      returns (notices: seq<Notice>)
      modifies this
      ensures selectedDomain == old(selectedDomain) && domainOptions == old(domainOptions)
      ensures setAccepted ==>
                && trace == old(trace) + EditRemoval(old(editingCookie)) + [Set(SetParams(cookieData))] + LoadCalls(selectedDomain)
                && cookies == Loaded(old(cookies), selectedDomain, fetched) && editingCookie == None
                && notices == LoadNotices(selectedDomain, fetched) + [CookieAdded]
      ensures !setAccepted ==>
                && trace == old(trace) + EditRemoval(old(editingCookie)) + [Set(SetParams(cookieData))]
                && cookies == old(cookies) && editingCookie == old(editingCookie)
                && notices == [SaveFailed]
      ensures CookieUpdated !in notices
    {
      if editingCookie.Some? {
        var previous := editingCookie.value;
        RemoveCookie(previous.name, previous.domain, previous.path);
      }
      trace := trace + [Set(SetParams(cookieData))];
      if !setAccepted {
        notices := [SaveFailed];
        return;
      }
      HideCookieModal();
      notices := LoadCookies(fetched);
      notices := notices + [if editingCookie.Some? then CookieUpdated else CookieAdded];
    }
  }
}
