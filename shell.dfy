/** The page shell: which page body is rendered for the current route. */
module Shell {
  import opened Ascii
  import opened Routing

  /** The four static page bodies. Their content is not modelled. */
  datatype Page = HomePage | ImpressumPage | DatenschutzPage | CookiesPage

  /** The chain of route comparisons that picks the page body: each route
      gets its own body, and Home (every unmatched address) the home page. */
  function PageFor(route: Route): (p: Page)
    ensures p == ImpressumPage <==> route == Impressum
    ensures p == DatenschutzPage <==> route == Datenschutz
    ensures p == CookiesPage <==> route == Cookies
    ensures p == HomePage <==> route.Home?
  {
    if route == Impressum then ImpressumPage
    else if route == Datenschutz then DatenschutzPage
    else if route == Cookies then CookiesPage
    else HomePage
  }

  /** Different routes show different pages. */
  lemma PageForInjective(a: Route, b: Route)
    requires PageFor(a) == PageFor(b)
    ensures a == b
  {
  }

  /** The page shown for an address follows its lower-cased prefix, and
      the home page is shown for every address that has none of them. */
  lemma ShownPage(path: string)
    ensures PageFor(ParseRoute(path)) == ImpressumPage <==> StartsWith(ToLower(path), "/impressum")
    ensures PageFor(ParseRoute(path)) == DatenschutzPage <==> StartsWith(ToLower(path), "/datenschutz")
    ensures PageFor(ParseRoute(path)) == CookiesPage <==> StartsWith(ToLower(path), "/cookies")
    ensures PageFor(ParseRoute(path)) == HomePage <==>
              !StartsWith(ToLower(path), "/impressum") &&
              !StartsWith(ToLower(path), "/datenschutz") &&
              !StartsWith(ToLower(path), "/cookies")
  {
    assert Selects(path, Impressum) == StartsWith(ToLower(path), "/impressum");
    assert Selects(path, Datenschutz) == StartsWith(ToLower(path), "/datenschutz");
    assert Selects(path, Cookies) == StartsWith(ToLower(path), "/cookies");
  }
}
