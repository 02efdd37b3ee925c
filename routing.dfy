/** Route resolution: the pure mapping from a location path to the page
    the site shows. */
module Routing {
  import opened Ascii

  /** The site's four logical pages. */
  datatype Route = Home | Impressum | Datenschutz | Cookies

  /** The lower-case path prefix that selects a route other than Home;
      these are the three entries of the site's navigation table. */
  function Prefix(r: Route): (p: string)
    requires r != Home
    ensures |p| >= 8 && p[0] == '/'
  {
    match r
    case Impressum => "/impressum"
    case Datenschutz => "/datenschutz"
    case Cookies => "/cookies"
  }

  /** The path the site's own links use for a route other than Home. */
  function Link(r: Route): (p: string)
    requires r != Home
  {
    match r
    case Impressum => "/Impressum"
    case Datenschutz => "/Datenschutz"
    case Cookies => "/Cookies"
  }

  /** True when the lower-cased path begins with the prefix of `r`. */
  predicate Selects(path: string, r: Route)
    requires r != Home
  {
    StartsWith(ToLower(path), Prefix(r))
  }

  /** The three prefixes differ at their second character, so no lower-cased
      path can start with two of them. */
  lemma {:induction false} PrefixesExclusive(path: string, q: Route, r: Route)
    requires q != Home && r != Home && q != r
    ensures !(Selects(path, q) && Selects(path, r))
  {
    var lower := ToLower(path);
    if Selects(path, q) {
      assert lower[1] == Prefix(q)[1] by { assert lower[..|Prefix(q)|] == Prefix(q); }
    }
    if Selects(path, r) {
      assert lower[1] == Prefix(r)[1] by { assert lower[..|Prefix(r)|] == Prefix(r); }
    }
    assert Prefix(q)[1] != Prefix(r)[1];
  }

  /** Lower-cases the path and tests the prefixes in order; the first that
      matches wins and anything else is Home. The function is total. */
  function ParseRoute(path: string): (r: Route)
    ensures forall q :: q != Home ==> (r == q <==> Selects(path, q))
    ensures r == Home <==>
              !Selects(path, Impressum) && !Selects(path, Datenschutz) && !Selects(path, Cookies)
  {
    var lower := ToLower(path);
    PrefixesExclusive(path, Impressum, Datenschutz);
    PrefixesExclusive(path, Impressum, Cookies);
    PrefixesExclusive(path, Datenschutz, Cookies);
    if StartsWith(lower, "/impressum") then Impressum
    else if StartsWith(lower, "/datenschutz") then Datenschutz
    else if StartsWith(lower, "/cookies") then Cookies
    else Home
  }

  /** Paths that differ only in the case of ASCII letters show the same page. */
  lemma ParseRouteIgnoresCase(a: string, b: string)
    requires EqualIgnoringCase(a, b)
    ensures ParseRoute(a) == ParseRoute(b)
  {
    ToLowerOfCaseVariants(a, b);
  }

  /** Resolving the lower-cased path gives the same route as the path. */
  lemma ParseRouteOfLowered(path: string)
    ensures ParseRoute(ToLower(path)) == ParseRoute(path)
  {
    ToLowerIdempotent(path);
  }

  /** Matching is by prefix, not by path segment: any continuation of a
      route's prefix, whatever its case, still selects that route. */
  lemma {:induction false} PrefixContinuationSelects(r: Route, rest: string)
    requires r != Home
    ensures ParseRoute(Prefix(r) + rest) == r
  {
    var path := Prefix(r) + rest;
    var p := Prefix(r);
    assert ToLower(path)[..|p|] == p by {
      forall i | 0 <= i < |p|
        ensures ToLower(path)[i] == p[i]
      {
        assert path[i] == p[i];
        assert !IsUpper(p[i]) && p[i] != KelvinSign;
      }
    }
  }

  /** Each link differs from its prefix only in one capital letter. */
  lemma LinkIsCaseVariant(r: Route)
    requires r != Home
    ensures EqualIgnoringCase(Link(r), Prefix(r))
  {
  }

  /** A route's own prefix selects it. */
  lemma PrefixSelects(r: Route)
    requires r != Home
    ensures ParseRoute(Prefix(r)) == r
  {
    PrefixContinuationSelects(r, "");
    assert Prefix(r) + "" == Prefix(r);
  }

  /** The links the site renders are written with a capital letter and
      still select their pages. */
  lemma SiteLinksResolve(r: Route)
    requires r != Home
    ensures ParseRoute(Link(r)) == r
  {
    LinkIsCaseVariant(r);
    PrefixSelects(r);
    ParseRouteIgnoresCase(Link(r), Prefix(r));
  }

  /** The Kelvin sign lower-cases to `k`, so it can spell the `k` of a prefix. */
  lemma KelvinSignSelectsCookies()
    ensures ParseRoute("/coo\U{212A}ies") == Cookies
  {
    var path := "/coo\U{212A}ies";
    assert EqualIgnoringCase(path, Prefix(Cookies)) by {
      forall i | 0 <= i < |path|
        ensures LowerChar(path[i]) == LowerChar(Prefix(Cookies)[i])
      {
        if i != 4 { assert path[i] == Prefix(Cookies)[i]; }
      }
    }
    PrefixSelects(Cookies);
    ParseRouteIgnoresCase(path, Prefix(Cookies));
  }

  /** A longer word that begins with a prefix is not a separate page. */
  lemma PrefixMatchExample()
    ensures ParseRoute("/impressumFoo") == Impressum
  {
    PrefixContinuationSelects(Impressum, "Foo");
    assert Prefix(Impressum) + "Foo" == "/impressumFoo";
  }

  /** Paths too short to hold any prefix, such as the root, show Home. */
  lemma ShortPathsAreHome(path: string)
    requires |path| < 8
    ensures ParseRoute(path) == Home
  {
  }
}
