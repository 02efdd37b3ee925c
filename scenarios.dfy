/** Client code that drives the router and the consent state through the
    situations a visitor meets; each assertion follows from the contracts
    alone. */
module Scenarios {
  import opened Routing
  import opened Browser
  import opened Navigation
  import opened Consent

  /** Empty storage: the banner appears; "accept all" stores every
      category switched on and hides it. */
  method FirstVisitAcceptAll() {
    var storage := new LocalStorage(map[]);
    var state := new ConsentState(storage);
    state.CheckStoredConsent();
    assert state.showBanner && state.consent == NecessaryOnly;
    state.AcceptAll();
    assert storage.items[ConsentStorageKey] ==
           Parsed(Some("1.0"), CookieConsent(true, true, true, true));
    assert !state.showBanner && !state.showSettings;
  }

  /** A record of an older version shows the banner again. */
  method OutdatedRecordShowsBanner(c: CookieConsent) {
    var storage := new LocalStorage(map[ConsentStorageKey := Parsed(Some("0.9"), c)]);
    var state := new ConsentState(storage);
    state.CheckStoredConsent();
    assert state.showBanner && state.consent == NecessaryOnly;
  }

  /** A later page load over the same storage restores a saved decision
      with the banner hidden. */
  method ReloadAfterSave(items: map<string, StoredValue>, c: CookieConsent) {
    var storage := new LocalStorage(items);
    var state := new ConsentState(storage);
    state.CheckStoredConsent();
    state.SaveConsent(c);
    var reloaded := new ConsentState(storage);
    reloaded.CheckStoredConsent();
    assert reloaded.consent == c && !reloaded.showBanner;
  }

  /** Closing the dialog without saving keeps the edited flag in memory
      while storage still holds the earlier decision. */
  method CloseWithoutSaving(items: map<string, StoredValue>) {
    var storage := new LocalStorage(items);
    var state := new ConsentState(storage);
    state.AcceptNecessary();
    state.OpenSettings();
    state.SetAnalytics(true);
    state.CloseSettings();
    assert state.consent.analytics && state.consent.necessary;
    assert storage.items[ConsentStorageKey] == Serialized(NecessaryOnly);
  }

  /** Following a link and pressing back returns to the previous page. */
  method NavigateThenBack() {
    var history := new BrowserHistory("/");
    var router := new Router(history);
    assert router.route == Home by { ShortPathsAreHome("/"); }
    router.Navigate(Link(Datenschutz));
    assert router.route == Datenschutz by { SiteLinksResolve(Datenschutz); }
    router.Traverse(-1);
    assert history.Location() == "/" && router.route == Home;
  }

  /** The address comparison is case-sensitive while routing is not: moving
      between two spellings of one page pushes an entry although the page
      stays the same; the same spelling again pushes nothing. */
  method CaseSensitiveNavigation() {
    var history := new BrowserHistory(Prefix(Cookies));
    var router := new Router(history);
    router.Navigate(Link(Cookies));
    assert |history.entries| == 2;
    assert router.route == Cookies by { SiteLinksResolve(Cookies); }
    router.Navigate(Link(Cookies));
    assert |history.entries| == 2 && router.scrollRequests == 2;
  }
}
