# Consent and routing core of a single-page consulting website

The site is one React component (`src/App.tsx`). Nearly all of it is static
marketing and legal markup. Two small pieces hold state, and this project
models them in Dafny:

- **The router** (`parseRoute`, the `useRoute` hook). `ParseRoute` maps an
  address to one of four pages: `/impressum`, `/datenschutz`, `/cookies`, or
  home. It lower-cases the address, tests the three prefixes in that order,
  and falls back to home. The `Router` class holds the current route. Its
  `Navigate` pushes a browser-history entry only when the new path differs
  exactly from the current address. It always re-resolves the route and
  requests a scroll to the top. `HandlePopState` re-resolves the route after
  the browser moves through its history. The browser's session history is a
  class of its own (`BrowserHistory`): a list of paths and a cursor. The
  router keeps one invariant: the route shown is `ParseRoute` of the current
  address.
- **The cookie-consent state** (`App`'s `showBanner`, `showSettings` and
  `consent`, plus the `localStorage` slot `cookie-consent`). The
  `ConsentState` class has the startup check, `saveConsent`, "accept all",
  "necessary only", "save selection", the three category checkboxes, and
  opening and closing the settings dialog. The slot is a `LocalStorage`
  object mapping keys to items. A later page load can run a fresh startup
  check over the same object. Each handler's contract also equates the
  object's state, taken as a `Session` value, with a pure transition `Step`
  (or `Load` for the startup check). The lemmas about `Run`, which applies a
  whole sequence of actions, therefore hold for any series of handler calls.

Files: `ascii.dfy` (lower-casing and `startsWith`), `routing.dfy`
(`ParseRoute` and its lemmas), `browser.dfy` (session history),
`navigation.dfy` (the router), `consent.dfy` (the consent state and storage),
`shell.dfy` (the choice of page body), `scenarios.dfy` (client methods that
walk through typical visits using only the contracts).

Three behaviours of the code that a reader might not expect are modelled as
written:

- Closing the settings dialog does not throw away checkbox edits. The
  checkboxes write straight into the in-memory decision. Closing only skips
  the write to storage (`CloseSettings`, and the scenario
  `CloseWithoutSaving`).
- The startup check does not force `necessary` on. A current-version record
  with `necessary: false` is loaded as stored (`LoadKeepsNecessaryOff`). Every
  in-session handler keeps `necessary` as it was, or sets it on.
- `navigate` compares paths case-sensitively, while routing ignores case. So
  `/Cookies` after `/cookies` pushes a new entry for the same page
  (`CaseSensitiveNavigation`).

## Model

`Browser.BrowserHistory.Location` (the current address, `getPathname` at
src/App.tsx:16) and `Consent.LocalStorage.GetItem` (`localStorage.getItem`
at src/App.tsx:58) are plain accessors that the contracts below use; they
carry no contract of their own.

| member | source | states |
|---|---|---|
| `Ascii.LowerChar` | src/App.tsx:19 | the result is never an ASCII capital nor the Kelvin sign; an ASCII capital maps to its lower-case letter, the Kelvin sign to `k`, and every other character is unchanged |
| `Ascii.ToLower` | src/App.tsx:19 | the result has the input's length and each character is the lower-cased input character |
| `Ascii.ToLowerIdempotent` | src/App.tsx:19 | lower-casing an already lower-cased string changes nothing |
| `Ascii.ToLowerOfCaseVariants` | src/App.tsx:19 | strings that differ only in ASCII letter case lower-case to the same string |
| `Ascii.ToLowerIsCaseVariant` | src/App.tsx:19 | a string and its lower-cased form differ only in letter case |
| `Routing.PrefixesExclusive` | src/App.tsx:20-22 | no address selects two of the three routes, so the order of the tests never decides the outcome |
| `Routing.ParseRoute` | src/App.tsx:18-24 | total; gives a route other than home exactly when the lower-cased address starts with that route's prefix, and home exactly when it starts with none |
| `Routing.ParseRouteIgnoresCase` | src/App.tsx:19 | addresses that differ only in ASCII letter case give the same route |
| `Routing.ParseRouteOfLowered` | src/App.tsx:19 | resolving the lower-cased address gives the same route as the address |
| `Routing.PrefixContinuationSelects` | src/App.tsx:20-22 | matching is by prefix: a route's prefix followed by any text selects that route |
| `Routing.LinkIsCaseVariant` | src/App.tsx:153-167 | each link the site renders differs from its route's prefix only in letter case |
| `Routing.PrefixSelects` | src/App.tsx:20-22 | a route's own prefix selects that route |
| `Routing.SiteLinksResolve` | src/App.tsx:153-167 | the capitalised links `/Impressum`, `/Datenschutz` and `/Cookies` select their pages |
| `Routing.PrefixMatchExample` | src/App.tsx:20 | `/impressumFoo` selects the legal-notice page |
| `Routing.ShortPathsAreHome` | src/App.tsx:18-24 | an address shorter than every prefix, such as `""` or `/`, gives home |
| `Browser.BrowserHistory.PushState` | src/App.tsx:37 | forward entries are dropped, the path is appended and becomes the current address |
| `Browser.BrowserHistory.Go` | src/App.tsx:29-31 | the cursor moves by the delta exactly when the target entry exists; the entries never change |
| `Navigation.Router.constructor` | src/App.tsx:27 | the initial route is the route of the loaded address |
| `Navigation.Router.Navigate` | src/App.tsx:35-41 | pushes an entry exactly when the path differs case-sensitively from the current address, so the back stack grows by at most one; afterwards the address is the path, the route is its `ParseRoute`, and one more scroll is requested |
| `Navigation.Router.HandlePopState` | src/App.tsx:30 | the route becomes `ParseRoute` of the current address, and nothing else changes |
| `Navigation.Router.Traverse` | src/App.tsx:29-32 | back or forward moves within the session without changing its entries or requesting a scroll, and the route again matches the address |
| `Consent.StoredConsent` | src/App.tsx:57-74 | the slot yields a decision exactly when it holds a current-version record, and that decision is the stored one |
| `Consent.VersionGate` | src/App.tsx:62-66 | a record of any other version reads as no decision, whatever decision it holds |
| `Consent.SaveThenLoad` | src/App.tsx:76-84 | what a save writes reads back as the same decision |
| `Consent.LoadKeepsNecessaryOff` | src/App.tsx:63 | a current-version record with `necessary` off is loaded unchanged |
| `Consent.SaveReloads` | src/App.tsx:76-84 | every save (accept all, necessary only, save selection) closes banner and dialog, and a page loaded over the resulting storage restores the saved decision with the banner hidden |
| `Consent.RunKeepsNecessary` | src/App.tsx:86-102 | through any sequence of in-session actions, `necessary` stays on once it is on |
| `Consent.RunTouchesOnlyConsentKey` | src/App.tsx:77-80 | no sequence of actions adds, removes or changes any storage key other than `cookie-consent` |
| `Consent.RunNeverReshowsBanner` | src/App.tsx:82 | within a session the banner never reappears once hidden; only a new page load can show it again |
| `Consent.EditsAreNotPersisted` | src/App.tsx:296-350 | checkbox edits and opening or closing the dialog, in any number and order, leave storage unchanged |
| `Consent.CloseKeepsEdit` | src/App.tsx:248 | open, tick a box, close: the tick stays in memory, the dialog is closed and storage is unchanged |
| `Consent.LocalStorage.SetItem` | src/App.tsx:77-80 | replaces the item under the key and leaves every other key alone |
| `Consent.ConsentState.constructor` | src/App.tsx:48-55 | before the startup check, banner and dialog are hidden and the decision is "necessary only" |
| `Consent.ConsentState.CheckStoredConsent` | src/App.tsx:57-74 | a current-version record becomes the decision and hides the banner; an absent, empty, unparsable or other-version item keeps the decision and shows the banner; storage and the dialog are untouched |
| `Consent.ConsentState.SaveConsent` | src/App.tsx:76-84 | writes exactly `{version: "1.0", consent: c}` under `cookie-consent` and no other key; the slot then reads back as `c`; the decision becomes `c`; banner and dialog are closed whatever they were |
| `Consent.ConsentState.AcceptAll` | src/App.tsx:86-93 | saves every category switched on and closes banner and dialog |
| `Consent.ConsentState.AcceptNecessary` | src/App.tsx:95-102 | saves only `necessary` switched on and closes banner and dialog |
| `Consent.ConsentState.SaveSelection` | src/App.tsx:366 | saves the decision as currently edited, leaves it unchanged in memory, and closes banner and dialog |
| `Consent.ConsentState.SetAnalytics` | src/App.tsx:300 | sets only the analytics flag in memory; `necessary`, the other flags, storage and both visibility flags are unchanged |
| `Consent.ConsentState.SetMarketing` | src/App.tsx:323 | sets only the marketing flag in memory; everything else is unchanged |
| `Consent.ConsentState.SetFunctional` | src/App.tsx:346 | sets only the functional flag in memory; everything else is unchanged |
| `Consent.ConsentState.OpenSettings` | src/App.tsx:174 | opens the dialog; the decision, the banner and storage are unchanged (the banner's button at line 215 does the same) |
| `Consent.ConsentState.CloseSettings` | src/App.tsx:248 | closes the dialog without writing storage or touching the banner; edits stay in memory |
| `Shell.PageFor` | src/App.tsx:1055 | the legal-notice, privacy and cookie-policy bodies are shown exactly for their routes, and the home page exactly for Home |
| `Routing.KelvinSignSelectsCookies` | src/App.tsx:19-22 | `/coo` + U+212A KELVIN SIGN + `ies` selects the cookie-policy page, because the Kelvin sign lower-cases to `k` |
| `Shell.PageForInjective` | src/App.tsx:1055 | different routes render different page bodies |
| `Shell.ShownPage` | src/App.tsx:1055 | the page body shown follows the lower-cased address's prefix, with the home page for every other address |

## Left out

- Page markup, styling, icons and the static legal and marketing text. The
  four page bodies are opaque constants (`Shell.Page`).
- JSON encoding and decoding. A storage item is modelled as what the startup
  check can tell apart after parsing (`StoredValue`). A current-version record
  whose `consent` is missing or has fields that are not booleans cannot be
  expressed: the real code would load that value as it is.
- Full Unicode `toLowerCase`. Non-ASCII letters are not lower-cased, except
  the Kelvin sign (U+212A), which becomes `k` as in JavaScript, so
  `/coo\u212Aies` selects the cookie-policy page as in the source. Other
  non-ASCII capitals stay unchanged. None of them lower-cases to a single
  ASCII letter, so they cannot complete a route prefix. `İ` (U+0130) becomes
  `i` followed by a combining dot, which is not the `m` or `e` that follows
  `i` in a prefix, so it gives home in both the model and the source. Strings
  whose lower-case form has a different length are not modelled.
- URL handling by `pushState`. The path passed is taken to be the new
  `location.pathname` verbatim. The site only passes `/`, `/Impressum`,
  `/Datenschutz` and `/Cookies`.
- `history.go(0)` (a reload) and leaving the session with back or forward.
  `Go` leaves the history unchanged in both cases.
- `window.scrollTo` is recorded only as a count of scroll requests;
  `event.preventDefault` in `handleNav` is a browser side effect, so a link
  click is modelled as a call to `Navigate`.
- Adding and removing the popstate listener, React's effect timing and
  re-rendering. The startup check is a method the page calls once after
  construction.
- Storage shared between tabs, and storage reads and writes that throw (for
  example when the browser blocks site storage). The source does not catch a
  failing read: `localStorage.getItem` at src/App.tsx:58 is outside the
  `try` block, so the error escapes the startup effect. In the model,
  `GetItem` and `SetItem` always succeed, and `CheckStoredConsent` always
  ends in a defined state.
- `getPathname`'s fallback to `/` when there is no `window` (rendering
  outside a browser): the model always has a browser history.
