# Cookie manager popup — Dafny model

This project models the core of the `CookieManager` controller in `popup.js`,
the popup of a browser extension that lists, adds, edits and deletes the
cookies of the active tab's domain. It covers the following:

- **Domain-scope resolution.** `generateDomainOptions` turns a hostname into
  an ordered list of options: the current host, the parent domains, and the
  two-label root unless an option already has its value. `getCurrentDomain`
  then picks the default selection.
- **Form normalisation.** `saveCookie` trims the form, fills in defaults,
  looks up SameSite, checks the name against the cookie token set and
  encodes the expiry.
- **Set and remove parameters.** The set URL is built from the domain
  without its leading dot. A `domain` property is sent only for a
  dot-prefixed domain. `removeCookie` makes two removals, over http and
  then https.
- **The controller's state.** The fields `selectedDomain`, `domainOptions`,
  `cookies` and `editingCookie` live in a class. The calls it makes to the
  browser cookie store are kept in a ghost `trace`, in the order they are
  issued. The store's answers, `confirm()` and `form.checkValidity()` are
  method parameters.
- **The search filter and `truncateText`.**

Modules:

- `Store` (store.dfy): the store's records and calls.
- `Text` (text.dfy): JavaScript's `split`, `join`, `trim`, ASCII
  `toLowerCase` and `includes`, plus `truncateText`.
- `Domains` (domains.dfy): domain-scope resolution.
- `Mapper` (mapper.dfy): form to store parameters.
- `Manager` (manager.dfy): the controller class.

For three or more labels the code adds no `root` entry: the last parent
already has the root's value (a dot and the last two labels), so the value
check at popup.js:69 suppresses it. A root entry appears exactly for
two-label hostnames (`Domains.RootIffTwoLabels`).

The model also keeps one quirk of `saveCookie`. `hideCookieModal` clears
`editingCookie` before the success message is chosen, so a successful save
always reports "added", never "updated" (`Manager.CookieManager.WriteCookie`).

## Model

| member | source | states |
|---|---|---|
| `Text.SpaceRunEnd` | popup.js:304-307 | scanning forward from i stops at the first character that is not JavaScript whitespace, or at the end, and everything skipped is whitespace |
| `Text.SpaceRunStart` | popup.js:304-307 | scanning backward from j stops after the last character that is not JavaScript whitespace, or at the lower bound, and everything skipped is whitespace |
| `Text.TrimPadded` | popup.js:304-307 | `trim` returns a piece of the input with only whitespace before and after it in the input; a nonempty result neither starts nor ends with whitespace |
| `Text.TrimEmptyIffBlank` | popup.js:304-313 | `trim` gives the empty string exactly when the input is all whitespace, so the fallback defaults and the empty-name check fire exactly for blank fields |
| `Text.Lower` | popup.js:234-235 | `toLowerCase` keeps the length and lower-cases each character in place |
| `Text.Contains` | popup.js:234-235 | `includes`: true exactly when the substring occurs at some index of the string |
| `Text.Split` | popup.js:43 | `split(".")` always yields at least one part |
| `Text.SplitPartsLackSeparator` | popup.js:43 | no part produced by `split` contains the separator |
| `Text.JoinSplit` | popup.js:43-56 | joining the split parts with the same separator gives the hostname back |
| `Text.JoinAt` | popup.js:56 | joining a list equals joining its first k items, the separator, and joining the rest |
| `Text.Truncate` | popup.js:496-499 | text of at most maxLength characters is returned unchanged; longer text becomes its first maxLength characters followed by "...", so the result never exceeds maxLength + 3 |
| `Domains.ParentOptions` | popup.js:53-63 | the parent loop from label i yields one option per label up to the second-to-last; the k-th is a parent whose value is "." plus the labels from i + k on, joined by dots |
| `Domains.GenerateDomainOptions` | popup.js:41-80 | the push loop over the labels and the de-duplicated root push build exactly the option list `DomainOptions` defines |
| `Domains.FirstParent` | popup.js:26 | `find` by level: None exactly when there is no parent option; otherwise the value of a parent option with no parent before it |
| `Domains.OptionsStartWithCurrent` | popup.js:46-51 | the first option is always the bare hostname at level current |
| `Domains.OneLabel` | popup.js:53-77 | a one-label hostname yields only the current option |
| `Domains.TwoLabels` | popup.js:66-77 | a two-label hostname yields the current option and then root "." + hostname, with no parents |
| `Domains.ManyLabels` | popup.js:53-77 | with N >= 3 labels the options are current and then N - 2 parents, the k-th being "." plus labels k.. joined; no root entry is added |
| `Domains.RootIffTwoLabels` | popup.js:66-77 | a root option is present if and only if the hostname has exactly two labels |
| `Domains.SuffixInHost` | popup.js:56 | a parent value is the suffix of the hostname that starts at the dot before label k |
| `Domains.ParentsAreSuffixes` | popup.js:54-63 | every option at index 1 to N - 2 is a parent whose value is a suffix of the hostname starting at one of its dots |
| `Domains.ParentAt` | popup.js:53-63 | with N >= 3 labels, the option at index k (1 <= k <= N - 2) is the parent "." plus labels k.. joined |
| `Domains.SuffixNarrowing` | popup.js:55 | for k < k', the value built from labels k' on is a strictly shorter tail of the value built from labels k on |
| `Domains.ParentsNarrowing` | popup.js:55-63 | parents are ordered most specific first: each later parent value is a strictly shorter suffix of every earlier one |
| `Domains.WildcardPrefix` | popup.js:56-68 | every parent and root value starts with "." |
| `Domains.WildcardPrefixTwo` | popup.js:66-68 | for a two-label hostname, the root value starts with "." |
| `Domains.WildcardPrefixMany` | popup.js:55-56 | for three or more labels, every parent value starts with "." |
| `Domains.DefaultSelectionShape` | popup.js:25-31 | with three or more labels the default selection is the hostname minus its first label, keeping the dot; otherwise it is the hostname itself |
| `Domains.DefaultSelectionMany` | popup.js:25-31 | with three or more labels the first parent is the default, and it is the hostname from its first dot on |
| `Domains.DefaultSelectionFew` | popup.js:25-31 | with one or two labels there is no parent, so the hostname itself is the default |
| `Mapper.SameSiteOf` | popup.js:294-310 | the store's four SameSite names map to themselves, "none" maps to no_restriction, and any other choice falls back to lax |
| `Mapper.NameError` | popup.js:313-322 | no error exactly when the name matches the token regex; the empty-name error is reported exactly for the empty name |
| `Mapper.AllTokenChars` | popup.js:319 | true exactly when every character is an ASCII letter, a digit, or one of ! # $ & ^ _ ~ -, the backtick or the vertical bar |
| `Mapper.FloorSeconds` | popup.js:329 | the result is the whole number of seconds at or before the millisecond time (floor, not rounding) |
| `Mapper.ExpirationOf` | popup.js:325-330 | a session cookie or an empty expiry field gives no expiry; an unparsable field gives NaN; otherwise the expiry is the whole seconds at or before the entered time |
| `Mapper.Normalise` | popup.js:303-330 | name, domain and path are trimmed; a blank domain becomes the selected domain and a blank path "/"; SameSite is looked up; the expiry is the one the session box and the expiry field ask for |
| `Mapper.Prepare` | popup.js:303-322 | the save proceeds exactly when the trimmed name is valid; a blank name is reported as empty; a proceeding save carries the normalised data |
| `Mapper.StripLeadingDot` | popup.js:338-342 | exactly one leading "." is removed, and nothing else changes |
| `Mapper.SetParams` | popup.js:338-365 | the URL is http or https per `secure`, then the domain without its dot, then the path; `domain` is sent if and only if the domain starts with "."; `expirationDate` is sent if and only if it is a nonzero number of seconds |
| `Mapper.SetRoundTrip` | popup.js:338-365 | a store that records the parameters as given yields the saved name, value, domain, path, secure and httpOnly; the URL's scheme carries `secure`; the cookie is a session cookie exactly when no expiry was sent |
| `Mapper.UrlHostOfCookieUrl` | popup.js:345 | the host can be read back from the built URL given its path, and the URL starts with "https://" exactly for a secure cookie |
| `Mapper.CookieUrlScheme` | popup.js:345 | the built URL is "https://" or "http://", as `secure` says, followed by the host and the path |
| `Mapper.SessionSendsNoExpiry` | popup.js:325-330 | a form with the session box ticked never sends an expiry, whatever the expiry field holds |
| `Mapper.RemovalCalls` | popup.js:429-449 | exactly two removals with the same name: first over http, then over https, both for the domain without its leading dot plus the path |
| `Mapper.RemovalHitsSetUrl` | popup.js:338-345 | removing a saved cookie by the (name, domain, path) the store records for it targets the URL and name it was set through, whichever scheme that was |
| `Manager.Filter` | popup.js:232-236 | the result is at most as long as the list, and a cookie is in it exactly when it is in the list and its lower-cased name or value contains the lower-cased term |
| `Manager.FilterAppend` | popup.js:232-236 | filtering keeps the original order: the filter of a concatenation is the concatenation of the filters |
| `Manager.FirstNamed` | popup.js:388 | `find` by name: None exactly when no cookie has that name; otherwise a cookie with that name that no earlier cookie's name matches |
| `Manager.RemoveAllCalls` | popup.js:418 | clearing issues exactly two removals per loaded cookie |
| `Manager.RemoveAllCallsLayout` | popup.js:418 | clearing issues exactly two removals per loaded cookie; the i-th cookie's http and https removals sit at positions 2i and 2i + 1 |
| `Manager.CookieManager.constructor` | popup.js:2-9 | every field starts empty, with no edit session and no store calls |
| `Manager.CookieManager.GetCurrentDomain` | popup.js:17-39 | with a hostname, the options are `DomainOptions` of it and the selection is the default selection; without one nothing changes; no store call is made |
| `Manager.CookieManager.LoadCookies` | popup.js:94-113 | with a domain selected, one read for that domain; the list becomes the answer, or on failure stays as it was and a load error is shown; with no domain, nothing happens |
| `Manager.CookieManager.Init` | popup.js:11-15 | with a hostname, the options become its option list and the selection its default; then the load for the selection is issued; the edit session is untouched |
| `Manager.CookieManager.SelectDomain` | popup.js:220-223 | the chosen value becomes the selection and is loaded; the options and the edit session are untouched |
| `Manager.CookieManager.FilterCookies` | popup.js:226-238 | a whitespace-only term shows the whole list; any other term shows `Filter` of the loaded list; the list is never modified |
| `Manager.CookieManager.ShowCookieModal` | popup.js:240-254 | the edit session becomes the given cookie, or none for a new cookie |
| `Manager.CookieManager.HideCookieModal` | popup.js:256-259 | the edit session is cleared |
| `Manager.CookieManager.EditCookie` | popup.js:387-392 | the first loaded cookie with the name becomes the edit session; an unknown name changes nothing |
| `Manager.CookieManager.RemoveCookie` | popup.js:429-449 | the trace grows by exactly the http and https removal pair; failures are swallowed |
| `Manager.CookieManager.DeleteCookie` | popup.js:394-410 | without confirmation or a matching cookie nothing happens; otherwise the first matching cookie's removal pair, a reload, and the deleted message; the selection, the options and the edit session never change |
| `Manager.CookieManager.ClearAllCookies` | popup.js:412-427 | without confirmation nothing happens; otherwise one removal pair per loaded cookie in list order, a reload, and a message counting the cookies attempted; the selection, the options and the edit session never change |
| `Manager.CookieManager.RemoveEach` | popup.js:418-420 | the trace grows by each loaded cookie's http and https removal pair, one cookie after another in list order; nothing else changes |
| `Manager.CookieManager.SaveCookie` | popup.js:287-336 | an invalid form or a rejected name makes no store call and changes no state; a rejected name shows its message; a valid save removes an edited cookie's old identity before the set call |
| `Manager.CookieManager.WriteCookie` | popup.js:332-385 | an edit's old-cookie removal pair precedes the set; a refused set (null result) shows a save error and keeps the edit session; a successful one ends the session, reloads and reports "added", never "updated" |

## Left out

- `Mapper.SameSiteOf`: a lookup key that names an inherited object property (`constructor`, `toString`, `__proto__`) returns a truthy non-string in JavaScript. The model maps it to lax. The select element never offers such a value.
- `Manager.Filter`: `toLowerCase` is modelled for ASCII letters only; Unicode case mapping is not modelled.
- `Text.Truncate`: lengths are counted in characters, not UTF-16 code units.
- Date handling: `new Date(...).getTime()` depends on the time zone. The parsed expiry is an input: empty, unparsable (NaN) or milliseconds. The `toISOString` and `toLocaleString` display conversions are not modelled.
- The cookie store itself is not modelled. Its answers are parameters, and the calls made to it are trace entries. Without a store model, claims about what a later read returns (for example, that an edited cookie's old identity is gone) are not stated. `Mapper.StoredCookie` assumes a store that records set parameters unchanged.
- `clearAllCookies` starts all removals at once through `Promise.all`, so the real issue order interleaves the http and https calls of different cookies. The model issues them one cookie after another. Races between overlapping loads are not modelled.
- The `catch` branches of `deleteCookie` and `clearAllCookies` cannot be reached. `removeCookie` swallows its errors and `loadCookies` catches its own, so those error messages do not appear in the model.
- DOM rendering and wiring are UI only and are not modelled: `updateDomainSelector`, `renderCookies`, `bindEvents` (apart from the domain-selector change, `SelectDomain`), `fillCookieForm`, `resetCookieForm`, `escapeHtml`, the notification toasts and the CSS injection. Notifications are returned as `Notice` values.
- `getCurrentDomain` reads the tab through `chrome.tabs.query` and `new URL(...)`. The model takes the resulting hostname (or its absence) as input. The error message written into the page and the `currentUrl` field, which is written but never read, are not modelled.
- `loadCookies` has two branches, for dotted and exact domains, that make the same call; the model has one.
- `confirm()` and `form.checkValidity()` are boolean inputs; `reportValidity` only displays.
- Option labels always equal the option value, and descriptions are fixed per level. Neither is modelled.
- `init` is started by the constructor without being awaited. It is modelled as a separate `Init` method.
- background.js is not part of this model. It only relays a read request to the store and logs change events.
