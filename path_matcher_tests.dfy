/**
 * The scenarios of PathMatcherTests, each as a client of PathMatcher whose
 * postcondition is what the test asserts. What Java's regex engine answers
 * for the concrete patterns is stated as a precondition on `fullMatch`.
 */
module PathMatcherTests {
  import opened Wrappers
  import opened PathMatching
  import opened JavaStrings

  /** The pattern the matching tests exclude. */
  const ImgCssPage := "^/(img/.*|css/.*|page\\.html)$"

  /** testBlankPath: no rules, so both a set path and the unset (empty) path match. */
  method BlankPath(fullMatch: FullMatch) returns (onPage: bool, onUnset: bool)
    ensures onPage && onUnset
  {
    var matcher := new PathMatcher();
    onPage := matcher.Matches("/page.html", fullMatch);
    onUnset := matcher.Matches("", fullMatch);
  }

  /** testFixedPath: an excluded path rejects `/foo` but not `/foo/bar`. */
  method FixedPath(fullMatch: FullMatch) returns (onFoo: bool, onFooBar: bool)
    ensures !onFoo && onFooBar
  {
    var matcher := new PathMatcher();
    matcher.ExcludePath("/foo");
    onFoo := matcher.Matches("/foo", fullMatch);
    onFooBar := matcher.Matches("/foo/bar", fullMatch);
  }

  /** testBranch: an excluded branch rejects `/foo`, `/foo/` and `/foo/bar`. */
  method Branch(fullMatch: FullMatch) returns (onFoo: bool, onFooSlash: bool, onFooBar: bool)
    ensures !onFoo && !onFooSlash && !onFooBar
  {
    var matcher := new PathMatcher();
    matcher.ExcludeBranch("/foo");
    onFoo := matcher.Matches("/foo", fullMatch);
    onFooSlash := matcher.Matches("/foo/", fullMatch);
    onFooBar := matcher.Matches("/foo/bar", fullMatch);
    assert InBranch("/foo/", "/foo");
    assert InBranch("/foo/bar", "/foo");
  }

  /** testMissingStartCharacterInRegexp: the registration fails with a message naming the pattern. */
  method MissingStartCharacterInRegexp() returns (outcome: Outcome)
    ensures outcome == Fail(TechnicalError(AnchorMessage("/img/.*$")))
  {
    var matcher := new PathMatcher();
    DifferenceRulesOutPrefix("/img/.*$", "^", 0);
    outcome := matcher.ExcludeRegex("/img/.*$");
  }

  /** testMissingEndCharacterInRegexp. */
  method MissingEndCharacterInRegexp() returns (outcome: Outcome)
    ensures outcome == Fail(TechnicalError(AnchorMessage("^/img/.*")))
  {
    var matcher := new PathMatcher();
    assert !EndsWith("^/img/.*", "$") by { assert "^/img/.*"[7..][0] != '$'; }
    outcome := matcher.ExcludeRegex("^/img/.*");
  }

  /** testNoPath: `^/$` rejects `/`. */
  method NoPath(fullMatch: FullMatch) returns (onRoot: bool)
    requires fullMatch("^/$", "/")
    ensures !onRoot
  {
    var matcher := new PathMatcher();
    var _ := matcher.ExcludeRegex("^/$");
    onRoot := matcher.Matches("/", fullMatch);
  }

  /** testMatch: paths the excluded pattern does not match are accepted. */
  method Match(fullMatch: FullMatch) returns (onJs: bool, onRoot: bool, onPageHtm: bool)
    requires !fullMatch(ImgCssPage, "/js/app.js") && !fullMatch(ImgCssPage, "/")
    requires !fullMatch(ImgCssPage, "/page.htm")
    ensures onJs && onRoot && onPageHtm
  {
    var matcher := new PathMatcher();
    var _ := matcher.ExcludeRegex(ImgCssPage);
    onJs := matcher.Matches("/js/app.js", fullMatch);
    onRoot := matcher.Matches("/", fullMatch);
    onPageHtm := matcher.Matches("/page.htm", fullMatch);
  }

  /** testDontMatch: paths the excluded pattern matches are rejected. */
  method DontMatch(fullMatch: FullMatch) returns (onCss: bool, onImg: bool, onPageHtml: bool)
    requires fullMatch(ImgCssPage, "/css/app.css") && fullMatch(ImgCssPage, "/img/")
    requires fullMatch(ImgCssPage, "/page.html")
    ensures !onCss && !onImg && !onPageHtml
  {
    var matcher := new PathMatcher();
    var _ := matcher.ExcludeRegex(ImgCssPage);
    onCss := matcher.Matches("/css/app.css", fullMatch);
    onImg := matcher.Matches("/img/", fullMatch);
    onPageHtml := matcher.Matches("/page.html", fullMatch);
  }

  /** testSetters: an exact path plus a pattern, installed through the setters. */
  method Setters(fullMatch: FullMatch) returns (onFoo: bool, onFooSlash: bool, onError: bool, onImg: bool)
    requires !fullMatch(ImgCssPage, "/foo/") && !fullMatch(ImgCssPage, "/error/500.html")
    requires fullMatch(ImgCssPage, "/img/")
    ensures !onFoo && onFooSlash && onError && !onImg
  {
    var matcher := new PathMatcher();
    matcher.SetExcludedPaths({"/foo"});
    var _ := matcher.SetExcludedPatterns({ImgCssPage});
    onFoo := matcher.Matches("/foo", fullMatch);
    onFooSlash := matcher.Matches("/foo/", fullMatch);
    onError := matcher.Matches("/error/500.html", fullMatch);
    onImg := matcher.Matches("/img/", fullMatch);
  }

  /** testIncludePath: `/protect` admits every path that starts with it, slash or not. */
  method IncludePath(fullMatch: FullMatch)
    returns (onProtect: bool, onProtected: bool, onIndex: bool, onLogo: bool, onCallback: bool)
    ensures onProtect && onProtected && onIndex && !onLogo && !onCallback
  {
    var matcher := new PathMatcher();
    matcher.IncludePath("/protect");
    onProtect := matcher.Matches("/protect", fullMatch);
    onProtected := matcher.Matches("/protected", fullMatch);
    onIndex := matcher.Matches("/protected/index.html", fullMatch);
    onLogo := matcher.Matches("/img/logo.gif", fullMatch);
    onCallback := matcher.Matches("/callback", fullMatch);
    assert StartsWith("/protected", "/protect") && StartsWith("/protected/index.html", "/protect");
    DifferenceRulesOutPrefix("/img/logo.gif", "/protect", 1);
    DifferenceRulesOutPrefix("/callback", "/protect", 1);
  }

  const ProtectCss := NoRules.(includedPaths := {"/protect", "/css"})

  /** Under `/protect` and `/css`, paths starting with either are admitted. */
  lemma ProtectCssAdmits(fullMatch: FullMatch)
    ensures Decide(ProtectCss, "/protect", fullMatch) && Decide(ProtectCss, "/protected", fullMatch)
    ensures Decide(ProtectCss, "/protected/index.html", fullMatch) && Decide(ProtectCss, "/css/css1.css", fullMatch)
  {
    IncludedPairGate("/protect", "/css", "/protect", fullMatch);
    IncludedPairGate("/protect", "/css", "/protected", fullMatch);
    IncludedPairGate("/protect", "/css", "/protected/index.html", fullMatch);
    IncludedPairGate("/protect", "/css", "/css/css1.css", fullMatch);
  }

  /** Under `/protect` and `/css`, paths starting with neither are rejected, `/notprotected` included. */
  lemma ProtectCssRejects(fullMatch: FullMatch)
    ensures !Decide(ProtectCss, "/img/logo.gif", fullMatch) && !Decide(ProtectCss, "/callback", fullMatch)
    ensures !Decide(ProtectCss, "/notprotected", fullMatch)
  {
    IncludedPairGate("/protect", "/css", "/img/logo.gif", fullMatch);
    DifferenceRulesOutPrefix("/img/logo.gif", "/protect", 1);
    DifferenceRulesOutPrefix("/img/logo.gif", "/css", 1);
    IncludedPairGate("/protect", "/css", "/callback", fullMatch);
    DifferenceRulesOutPrefix("/callback", "/protect", 1);
    DifferenceRulesOutPrefix("/callback", "/css", 2);
    IncludedPairGate("/protect", "/css", "/notprotected", fullMatch);
    DifferenceRulesOutPrefix("/notprotected", "/protect", 1);
    DifferenceRulesOutPrefix("/notprotected", "/css", 1);
  }

  /** testIncludePaths: a path must start with one of the included paths; `/notprotected` does not. */
  method IncludePaths(fullMatch: FullMatch)
    returns (onProtect: bool, onProtected: bool, onIndex: bool, onCss: bool,
             onLogo: bool, onCallback: bool, onNotProtected: bool)
    ensures onProtect && onProtected && onIndex && onCss
    ensures !onLogo && !onCallback && !onNotProtected
  {
    var matcher := new PathMatcher();
    matcher.IncludePaths(["/protect", "/css"]);
    assert (set p | p in ["/protect", "/css"]) == {"/protect", "/css"};
    assert matcher.Rules() == ProtectCss;
    ProtectCssAdmits(fullMatch);
    ProtectCssRejects(fullMatch);
    onProtect := matcher.Matches("/protect", fullMatch);
    onProtected := matcher.Matches("/protected", fullMatch);
    onIndex := matcher.Matches("/protected/index.html", fullMatch);
    onCss := matcher.Matches("/css/css1.css", fullMatch);
    onLogo := matcher.Matches("/img/logo.gif", fullMatch);
    onCallback := matcher.Matches("/callback", fullMatch);
    onNotProtected := matcher.Matches("/notprotected", fullMatch);
  }
}
