# pac4j request classification and credential extraction, in Dafny

This project models the part of pac4j that, for one incoming HTTP request, decides:

- whether a path rule applies (the path matcher);
- which CORS headers to answer with (the CORS matcher);
- what credential material the request carries (the Digest, IP and Basic extractors);
- how to shape the denial of an AJAX request (the AJAX request resolver).

It also proves the properties each component promises.

Modules and files:

- `wrappers.dfy` (`Wrappers`): `Option` for a Java `Optional` or a nullable reference. It also holds `Result` and `Outcome`, for a value or the exception thrown instead (`TechnicalException`, `CredentialsException`).
- `java_strings.dfy` (`JavaStrings`): the `String` and `CommonHelper` operations the core relies on, with Java's meaning:
  - `trim` strips characters up to U+0020;
  - `isBlank` is null or trims to empty;
  - `indexOf`;
  - `replaceAll` of one character;
  - ASCII `equalsIgnoreCase`, where null is never equal;
  - `"" + x`, where null gives `null` and an `int` gives its decimal form.
- `web.dfy` (`Web`): the request as a value, and the `WebContext` class whose response headers are updated in place. The request holds headers, parameters, the remote address, the method and the path. The module also defines the credentials datatypes and the HTTP methods.
- `digest_auth_extractor.dfy` (`DigestAuth`): `DigestAuthExtractor.extract` and `parseTokenValue`. The pieces are:
  - the header extractor: the header value after the `Digest ` prefix;
  - `StringTokenizer(token, ", ")`;
  - the split at the first `=`;
  - quote removal and trimming;
  - the map where the last write wins;
  - the mandatory `username` and `response` keys.
- `path_matcher.dfy` (`PathMatching`): the `PathMatcher` behaviour exercised by `PathMatcherTests`, as a class with four rule sets and a pure decision over them. The sets hold exact excluded paths, excluded branches, excluded anchored regular expressions and included prefixes.
- `path_matcher_tests.dfy` (`PathMatcherTests`): each test of `PathMatcherTests` as a method whose postcondition is what the test asserts.
- `ip_extractor.dfy` (`IpExtraction`): `IpExtractor`, with the trust rule between the remote address, the proxy IP and the alternate headers.
- `cors_matcher.dfy` (`Cors`): `CorsMatcher` and its six configuration fields. The response-header writes follow the CORS protocol of the WHATWG Fetch Standard, section 3.2.
- `ajax_request_resolver.dfy` (`AjaxResolver`): `DefaultAjaxRequestResolver`, meaning `isAjax`, `buildAjaxResponse` and the `addRedirectionUrlAsHeader` flag.
- `direct_basic_auth_client.dfy` (`BasicAuth`): `DirectBasicAuthClient`:
  - the realm check at initialisation;
  - the `WWW-Authenticate: Basic realm="…"` challenge of section 2 of RFC 7617;
  - `retrieveCredentials`, which writes the challenge and then delegates.

Where `IpExtractor`'s class comment and its code differ, the model follows the code. The class comment (IpExtractor.java:20) says that only requests from the proxy IP are accepted when no proxy IP is set. The code (IpExtractor.java:45-46) does the opposite: an empty proxy IP disables the check, and the headers are always read.

The Digest parser (DigestAuthExtractor.java:90) removes every `"` from a value, wherever it stands, and then trims the value.

The source of `PathMatcher` itself is not part of this model. Its behaviour is taken from `PathMatcherTests`:

- an excluded path is an exact match;
- an excluded branch covers the branch and everything below `branch + "/"`;
- an excluded regular expression must be anchored by `^` and `$` and rejects the paths it fully matches;
- an included path is a plain prefix.

Java's regular-expression engine is not modelled. Whether a pattern fully matches a path is a function parameter `fullMatch`, and each test states, as a precondition, the answers that `java.util.regex` gives for its paths.

Some constants are defined in `HttpConstants`, `Pac4jConstants` and `CommonHelper`, which are not part of this model. They are written with their pac4j values:

- `Authorization` and `Digest `;
- `X-Requested-With` and `XMLHttpRequest`;
- `is_ajax_request`;
- `javax.faces.partial.ajax`;
- `Location`;
- `WWW-Authenticate`;
- the default realm `authentication required`;
- the six `Access-Control-*` header names;
- the assertion messages `<name> cannot be blank` and `<name> cannot be null`.

## Model

| member | source | states |
|---|---|---|
| JavaStrings.Trim | pac4j-http/src/main/java/org/pac4j/http/credentials/extractor/DigestAuthExtractor.java:90 | `String.trim`: the result is the contiguous slice of the input left after dropping every leading and trailing character at or below U+0020, and it neither starts nor ends with such a character |
| JavaStrings.TrimKeepsTrimmed | pac4j-http/src/main/java/org/pac4j/http/credentials/extractor/DigestAuthExtractor.java:90 | trimming a string with nothing to strip leaves it unchanged |
| JavaStrings.TrimEmptyIff | pac4j-http/src/main/java/org/pac4j/http/credentials/extractor/DigestAuthExtractor.java:67 | `isBlank` of a present string: it trims to nothing exactly when every character is at or below U+0020 |
| JavaStrings.IndexOf | pac4j-http/src/main/java/org/pac4j/http/credentials/extractor/DigestAuthExtractor.java:88-89 | `indexOf("=")` finds the first occurrence: the character is there and not before |
| JavaStrings.RemoveAll | pac4j-http/src/main/java/org/pac4j/http/credentials/extractor/DigestAuthExtractor.java:90 | `replaceAll("\"", "")` leaves no quote and adds no character |
| JavaStrings.RemoveAllConcat | pac4j-http/src/main/java/org/pac4j/http/credentials/extractor/DigestAuthExtractor.java:90 | quote removal works character by character, distributing over concatenation |
| JavaStrings.RemoveAllAbsent | pac4j-http/src/main/java/org/pac4j/http/credentials/extractor/DigestAuthExtractor.java:90 | a value without quotes is stored unchanged by the removal |
| JavaStrings.NatDecimalRoundTrip | pac4j-core/src/main/java/org/pac4j/core/matching/matcher/CorsMatcher.java:43 | the decimal digits of a natural number read back as that number |
| JavaStrings.DecimalRoundTrip | pac4j-core/src/main/java/org/pac4j/core/matching/matcher/CorsMatcher.java:43 | `"" + maxAge` is a well-formed decimal, with a sign when negative, that reads back as `maxAge` |
| Web.RequestHeader | pac4j-http/src/main/java/org/pac4j/http/credentials/extractor/IpExtractor.java:66 | `getRequestHeader` is present exactly when the request has the header |
| Web.RequestParameter | pac4j-core/src/main/java/org/pac4j/core/http/ajax/DefaultAjaxRequestResolver.java:48 | `getRequestParameter` is present exactly when the request has the parameter |
| Web.HttpMethod.Name | pac4j-core/src/main/java/org/pac4j/core/matching/matcher/CorsMatcher.java:51 | `Enum::toString` of an HTTP method is non-empty, holds no comma and does not start with a space |
| Web.WebContext.SetResponseHeader | pac4j-core/src/main/java/org/pac4j/core/matching/matcher/CorsMatcher.java:36 | `setResponseHeader` sets one header and leaves every other one as it was |
| DigestAuth.HeaderToken | pac4j-http/src/main/java/org/pac4j/http/credentials/extractor/DigestAuthExtractor.java:57-62 | a token exists exactly when the header is present and starts with the prefix, and prefix plus token is the header value |
| DigestAuth.TokenizeFrom | pac4j-http/src/main/java/org/pac4j/http/credentials/extractor/DigestAuthExtractor.java:82-86 | every token handed out is non-empty and holds neither `,` nor a space |
| DigestAuth.Tokenize | pac4j-http/src/main/java/org/pac4j/http/credentials/extractor/DigestAuthExtractor.java:82-86 | every token of the header value is non-empty and holds neither `,` nor a space |
| DigestAuth.TokenizeFromSplit | pac4j-http/src/main/java/org/pac4j/http/credentials/extractor/DigestAuthExtractor.java:82-86 | a delimiter ends the current token, and the rest is tokenized afresh |
| DigestAuth.TokenizeSplit | pac4j-http/src/main/java/org/pac4j/http/credentials/extractor/DigestAuthExtractor.java:82-86 | text on the two sides of a `,` or space is tokenized independently, in order |
| DigestAuth.TokenizeFromWord | pac4j-http/src/main/java/org/pac4j/http/credentials/extractor/DigestAuthExtractor.java:82-86 | a run without delimiters extends the current token into one token |
| DigestAuth.TokenizeWord | pac4j-http/src/main/java/org/pac4j/http/credentials/extractor/DigestAuthExtractor.java:82-86 | a run without delimiters is exactly one token: tokens are maximal |
| DigestAuth.EntryShape | pac4j-http/src/main/java/org/pac4j/http/credentials/extractor/DigestAuthExtractor.java:87-90 | a token adds an entry exactly when it holds `=`; the key then holds no `=`, the value no `"`, and both are trimmed |
| DigestAuth.EntrySplitsAtFirstEquals | pac4j-http/src/main/java/org/pac4j/http/credentials/extractor/DigestAuthExtractor.java:88-90 | the key is the trimmed text before the first `=`; everything after it, further `=` included, is the value |
| DigestAuth.FoldKeys | pac4j-http/src/main/java/org/pac4j/http/credentials/extractor/DigestAuthExtractor.java:85-91 | a key is in the map exactly when some token assigns it |
| DigestAuth.FoldLastAssignmentWins | pac4j-http/src/main/java/org/pac4j/http/credentials/extractor/DigestAuthExtractor.java:85-91 | when a key repeats, the value of its last occurrence is the one stored |
| DigestAuth.FoldValues | pac4j-http/src/main/java/org/pac4j/http/credentials/extractor/DigestAuthExtractor.java:85-91 | every stored pair is the entry of one of the tokens |
| DigestAuth.FoldPrefixStep | pac4j-http/src/main/java/org/pac4j/http/credentials/extractor/DigestAuthExtractor.java:85-91 | one more token grows the map by that token's entry, if it has one |
| DigestAuth.ParsedMapValues | pac4j-http/src/main/java/org/pac4j/http/credentials/extractor/DigestAuthExtractor.java:90 | stored values hold no `"` at all, and keys and values are trimmed |
| DigestAuth.ParseTokenValue | pac4j-http/src/main/java/org/pac4j/http/credentials/extractor/DigestAuthExtractor.java:81-94 | the tokenizer loop builds the map defined by tokenizing and putting each token's entry in turn |
| DigestAuth.Get | pac4j-http/src/main/java/org/pac4j/http/credentials/extractor/DigestAuthExtractor.java:64-75 | `Map.get` is null exactly for an absent key |
| DigestAuth.Extract | pac4j-http/src/main/java/org/pac4j/http/credentials/extractor/DigestAuthExtractor.java:56-79 | no Digest header gives no credentials and no error. A missing or blank username or response raises the bad-format CredentialsException. Otherwise the credentials take the request's method and the fields in order response, method, username, realm, nonce, uri, cnonce, nc, qop, with absent optional keys left null |
| PathMatching.NoRulesMatchEverything | pac4j-core/src/test/java/org/pac4j/core/matching/matcher/PathMatcherTests.java:24-29 | a matcher without rules matches every path, the unset path included |
| PathMatching.ExcludedPathIsExact | pac4j-core/src/test/java/org/pac4j/core/matching/matcher/PathMatcherTests.java:31-36 | an excluded path rejects exactly that path and nothing else |
| PathMatching.ExcludedBranchCoversSubpaths | pac4j-core/src/test/java/org/pac4j/core/matching/matcher/PathMatcherTests.java:38-44 | an excluded branch rejects the branch and every path under `branch + "/"` |
| PathMatching.ExcludedBranchIsSlashBounded | pac4j-core/src/test/java/org/pac4j/core/matching/matcher/PathMatcherTests.java:38-44 | in this model's reading of a branch, `/foo` does not exclude `/foobar` |
| PathMatching.IncludedPathIsPlainPrefix | pac4j-core/src/test/java/org/pac4j/core/matching/matcher/PathMatcherTests.java:103-112 | an included path admits every path that starts with it, with or without a `/` after it |
| PathMatching.IncludedPathsGate | pac4j-core/src/test/java/org/pac4j/core/matching/matcher/PathMatcherTests.java:114-126 | with included paths and no exclusions, a path matches exactly when it starts with one of them |
| PathMatching.IncludedPairGate | pac4j-core/src/test/java/org/pac4j/core/matching/matcher/PathMatcherTests.java:114-126 | with two included paths, a path matches exactly when it starts with either |
| PathMatching.ExclusionWins | pac4j-core/src/test/java/org/pac4j/core/matching/matcher/PathMatcherTests.java:85-101 | any exclusion rejects a path, whatever the inclusions |
| PathMatching.ExcludedPatternRejects | pac4j-core/src/test/java/org/pac4j/core/matching/matcher/PathMatcherTests.java:63-83 | a path fully matched by an excluded pattern is rejected |
| PathMatching.MoreExclusionsNarrow | pac4j-core/src/test/java/org/pac4j/core/matching/matcher/PathMatcherTests.java:85-101 | adding exclusions of any kind never admits a path that was rejected |
| PathMatching.MoreIncludedPathsWiden | pac4j-core/src/test/java/org/pac4j/core/matching/matcher/PathMatcherTests.java:114-126 | once included paths are set, adding one never rejects a path that matched |
| PathMatching.PathMatcher.constructor | pac4j-core/src/test/java/org/pac4j/core/matching/matcher/PathMatcherTests.java:26 | a new matcher has no rules |
| PathMatching.PathMatcher.ExcludePath | pac4j-core/src/test/java/org/pac4j/core/matching/matcher/PathMatcherTests.java:33 | adds one exact excluded path and changes nothing else |
| PathMatching.PathMatcher.ExcludeBranch | pac4j-core/src/test/java/org/pac4j/core/matching/matcher/PathMatcherTests.java:40 | adds one excluded branch and changes nothing else |
| PathMatching.PathMatcher.ExcludeRegex | pac4j-core/src/test/java/org/pac4j/core/matching/matcher/PathMatcherTests.java:46-56 | an anchored pattern is added; an unanchored one raises a TechnicalException naming it, and nothing changes |
| PathMatching.PathMatcher.IncludePath | pac4j-core/src/test/java/org/pac4j/core/matching/matcher/PathMatcherTests.java:105 | adds one included prefix and changes nothing else |
| PathMatching.PathMatcher.IncludePaths | pac4j-core/src/test/java/org/pac4j/core/matching/matcher/PathMatcherTests.java:116 | adds every given prefix and changes nothing else |
| PathMatching.PathMatcher.SetExcludedPaths | pac4j-core/src/test/java/org/pac4j/core/matching/matcher/PathMatcherTests.java:93 | replaces the excluded exact paths |
| PathMatching.PathMatcher.SetExcludedPatterns | pac4j-core/src/test/java/org/pac4j/core/matching/matcher/PathMatcherTests.java:94 | replaces the patterns and succeeds exactly when all are anchored. Otherwise it raises the error for an unanchored one, keeping only a subset of the patterns, all of them anchored; other rules are untouched |
| PathMatcherTests.BlankPath | pac4j-core/src/test/java/org/pac4j/core/matching/matcher/PathMatcherTests.java:24-29 | testBlankPath: `/page.html` and the unset path both match |
| PathMatcherTests.FixedPath | pac4j-core/src/test/java/org/pac4j/core/matching/matcher/PathMatcherTests.java:31-36 | testFixedPath: `/foo` is rejected, `/foo/bar` matches |
| PathMatcherTests.Branch | pac4j-core/src/test/java/org/pac4j/core/matching/matcher/PathMatcherTests.java:38-44 | testBranch: `/foo`, `/foo/` and `/foo/bar` are rejected |
| PathMatcherTests.MissingStartCharacterInRegexp | pac4j-core/src/test/java/org/pac4j/core/matching/matcher/PathMatcherTests.java:46-50 | testMissingStartCharacterInRegexp: the TechnicalException with the message naming `/img/.*$` |
| PathMatcherTests.MissingEndCharacterInRegexp | pac4j-core/src/test/java/org/pac4j/core/matching/matcher/PathMatcherTests.java:52-56 | testMissingEndCharacterInRegexp: the TechnicalException with the message naming `^/img/.*` |
| PathMatcherTests.NoPath | pac4j-core/src/test/java/org/pac4j/core/matching/matcher/PathMatcherTests.java:63-67 | testNoPath: `^/$` rejects `/` |
| PathMatcherTests.Match | pac4j-core/src/test/java/org/pac4j/core/matching/matcher/PathMatcherTests.java:69-75 | testMatch: `/js/app.js`, `/` and `/page.htm` match |
| PathMatcherTests.DontMatch | pac4j-core/src/test/java/org/pac4j/core/matching/matcher/PathMatcherTests.java:77-83 | testDontMatch: `/css/app.css`, `/img/` and `/page.html` are rejected |
| PathMatcherTests.Setters | pac4j-core/src/test/java/org/pac4j/core/matching/matcher/PathMatcherTests.java:85-101 | testSetters: `/foo` and `/img/` are rejected; `/foo/` and `/error/500.html` match |
| PathMatcherTests.IncludePath | pac4j-core/src/test/java/org/pac4j/core/matching/matcher/PathMatcherTests.java:103-112 | testIncludePath: `/protect`, `/protected` and `/protected/index.html` match; `/img/logo.gif` and `/callback` are rejected |
| PathMatcherTests.ProtectCssAdmits | pac4j-core/src/test/java/org/pac4j/core/matching/matcher/PathMatcherTests.java:114-121 | under `/protect` and `/css`, the four protected paths of testIncludePaths match |
| PathMatcherTests.ProtectCssRejects | pac4j-core/src/test/java/org/pac4j/core/matching/matcher/PathMatcherTests.java:123-125 | under `/protect` and `/css`, `/img/logo.gif`, `/callback` and `/notprotected` are rejected |
| PathMatcherTests.IncludePaths | pac4j-core/src/test/java/org/pac4j/core/matching/matcher/PathMatcherTests.java:114-126 | testIncludePaths: all seven assertions of the test |
| IpExtraction.FirstNonEmptyHeader | pac4j-http/src/main/java/org/pac4j/http/credentials/extractor/IpExtractor.java:63-72 | an IP taken from the headers is never empty |
| IpExtraction.FirstNonEmptyHeaderIsFirst | pac4j-http/src/main/java/org/pac4j/http/credentials/extractor/IpExtractor.java:63-72 | the header scan finds a value exactly when some header is present and non-empty, and then it is the first such header in configured order |
| IpExtraction.NoHeadersUsesRemoteAddr | pac4j-http/src/main/java/org/pac4j/http/credentials/extractor/IpExtractor.java:41-60 | without alternate headers the token is the remote address, and a null remote address gives nothing |
| IpExtraction.UntrustedProxyYieldsNothing | pac4j-http/src/main/java/org/pac4j/http/credentials/extractor/IpExtractor.java:49-53 | a non-empty proxy IP different from the remote address gives nothing, whatever the headers hold |
| IpExtraction.TrustedHeadersAreScannedInOrder | pac4j-http/src/main/java/org/pac4j/http/credentials/extractor/IpExtractor.java:43-50 | with no proxy check, or a request from the proxy, the token is the first present non-empty alternate header |
| IpExtraction.NoFallbackToRemoteAddr | pac4j-http/src/main/java/org/pac4j/http/credentials/extractor/IpExtractor.java:63-71 | when no alternate header yields a value the result is empty; the remote address is not used |
| IpExtraction.HeaderTokenIsNonEmpty | pac4j-http/src/main/java/org/pac4j/http/credentials/extractor/IpExtractor.java:65-69 | present but empty header values are skipped, so a token from the headers is never empty |
| IpExtraction.IpExtractor.constructor | pac4j-http/src/main/java/org/pac4j/http/credentials/extractor/IpExtractor.java:28-32 | no alternate headers and an empty proxy IP |
| IpExtraction.IpExtractor.WithHeaders | pac4j-http/src/main/java/org/pac4j/http/credentials/extractor/IpExtractor.java:34-36 | the given alternate headers and an empty proxy IP |
| IpExtraction.IpExtractor.SetProxyIp | pac4j-http/src/main/java/org/pac4j/http/credentials/extractor/IpExtractor.java:87-89 | null is stored as `""`, which disables the proxy check |
| IpExtraction.IpExtractor.SetAlternateIpHeaders | pac4j-http/src/main/java/org/pac4j/http/credentials/extractor/IpExtractor.java:104-107 | a null array raises the not-null error and changes nothing; otherwise the list is replaced |
| IpExtraction.IpExtractor.IpFromHeaders | pac4j-http/src/main/java/org/pac4j/http/credentials/extractor/IpExtractor.java:63-72 | the loop with early return yields the first present non-empty header |
| IpExtraction.IpExtractor.Extract | pac4j-http/src/main/java/org/pac4j/http/credentials/extractor/IpExtractor.java:39-61 | the result is the three-way trust rule, wrapped as token credentials |
| Cors.Join | pac4j-core/src/main/java/org/pac4j/core/matching/matcher/CorsMatcher.java:51 | `Collectors.joining(", ")`: nothing gives `""`, one item gives the item |
| Cors.JoinAppend | pac4j-core/src/main/java/org/pac4j/core/matching/matcher/CorsMatcher.java:51 | joining one more item appends `", "` and the item |
| Cors.SplitAtSeparator | pac4j-core/src/main/java/org/pac4j/core/matching/matcher/CorsMatcher.java:51 | splitting a joined list stops at the first `", "` and yields the first item whole |
| Cors.SplitJoinRoundTrip | pac4j-core/src/main/java/org/pac4j/core/matching/matcher/CorsMatcher.java:51 | items without commas are recovered by splitting the joined list |
| Cors.MethodNamed | pac4j-core/src/main/java/org/pac4j/core/matching/matcher/CorsMatcher.java:51 | a name found to be a method is that method's name |
| Cors.MethodNameRoundTrip | pac4j-core/src/main/java/org/pac4j/core/matching/matcher/CorsMatcher.java:51 | every method is found again from its name |
| Cors.NameIsInjective | pac4j-core/src/main/java/org/pac4j/core/matching/matcher/CorsMatcher.java:51 | two methods have the same name exactly when they are the same |
| Cors.EmptyMethodList | pac4j-core/src/main/java/org/pac4j/core/matching/matcher/CorsMatcher.java:50-53 | an empty set of methods gives the empty list |
| Cors.MethodListNamesExactlyTheSet | pac4j-core/src/main/java/org/pac4j/core/matching/matcher/CorsMatcher.java:50-53 | in any iteration order, Allow-Methods lists exactly the configured methods, each once |
| Cors.DistinctCount | pac4j-core/src/main/java/org/pac4j/core/matching/matcher/CorsMatcher.java:50-53 | an iteration of a set visits as many methods as the set holds |
| Cors.SetIfKeeps | pac4j-core/src/main/java/org/pac4j/core/matching/matcher/CorsMatcher.java:38-57 | a conditional header write leaves every other header, and all of them when skipped, as they were |
| Cors.AllowOriginWritten | pac4j-core/src/main/java/org/pac4j/core/matching/matcher/CorsMatcher.java:36 | Allow-Origin is always set to `allowOrigin` |
| Cors.ExposeHeadersWritten | pac4j-core/src/main/java/org/pac4j/core/matching/matcher/CorsMatcher.java:38-40 | a non-blank `exposeHeaders` is written as Expose-Headers |
| Cors.MaxAgeWritten | pac4j-core/src/main/java/org/pac4j/core/matching/matcher/CorsMatcher.java:42-44 | a `maxAge` other than -1 is written as its decimal string |
| Cors.AllowCredentialsWritten | pac4j-core/src/main/java/org/pac4j/core/matching/matcher/CorsMatcher.java:46-48 | a non-null true `allowCredentials` is written as `true` |
| Cors.AllowMethodsWritten | pac4j-core/src/main/java/org/pac4j/core/matching/matcher/CorsMatcher.java:50-53 | a non-null set of methods is written as the joined list, even when empty |
| Cors.AllowHeadersWritten | pac4j-core/src/main/java/org/pac4j/core/matching/matcher/CorsMatcher.java:55-57 | a non-blank `allowHeaders` is written as Allow-Headers |
| Cors.LaterStepsKeep | pac4j-core/src/main/java/org/pac4j/core/matching/matcher/CorsMatcher.java:46-57 | the last three writes keep every header they do not write |
| Cors.StepsKeep | pac4j-core/src/main/java/org/pac4j/core/matching/matcher/CorsMatcher.java:38-57 | the five conditional writes keep every header none of them writes |
| Cors.CorsHeadersSkipped | pac4j-core/src/main/java/org/pac4j/core/matching/matcher/CorsMatcher.java:38-57 | a header whose condition fails keeps what the response already held |
| Cors.CorsHeadersFrame | pac4j-core/src/main/java/org/pac4j/core/matching/matcher/CorsMatcher.java:33-60 | no header other than the six CORS headers is touched |
| Cors.MaxAgeReadsBack | pac4j-core/src/main/java/org/pac4j/core/matching/matcher/CorsMatcher.java:42-44 | the Max-Age value reads back as the configured number |
| Cors.HeaderNamesDiffer | pac4j-core/src/main/java/org/pac4j/core/matching/matcher/CorsMatcher.java:36-56 | the six header names are pairwise different, so no write overwrites another |
| Cors.CorsMatcher.constructor | pac4j-core/src/main/java/org/pac4j/core/matching/matcher/CorsMatcher.java:20-30 | every field null and `maxAge` -1 |
| Cors.CorsMatcher.SetAllowOrigin | pac4j-core/src/main/java/org/pac4j/core/matching/matcher/CorsMatcher.java:66-68 | sets `allowOrigin` only |
| Cors.CorsMatcher.SetExposeHeaders | pac4j-core/src/main/java/org/pac4j/core/matching/matcher/CorsMatcher.java:74-76 | sets `exposeHeaders` only |
| Cors.CorsMatcher.SetMaxAge | pac4j-core/src/main/java/org/pac4j/core/matching/matcher/CorsMatcher.java:82-84 | sets `maxAge` only |
| Cors.CorsMatcher.SetAllowCredentials | pac4j-core/src/main/java/org/pac4j/core/matching/matcher/CorsMatcher.java:90-92 | sets `allowCredentials` only |
| Cors.CorsMatcher.SetAllowMethods | pac4j-core/src/main/java/org/pac4j/core/matching/matcher/CorsMatcher.java:98-100 | sets `allowMethods` only |
| Cors.CorsMatcher.SetAllowHeaders | pac4j-core/src/main/java/org/pac4j/core/matching/matcher/CorsMatcher.java:106-108 | sets `allowHeaders` only |
| Cors.CorsMatcher.Matches | pac4j-core/src/main/java/org/pac4j/core/matching/matcher/CorsMatcher.java:33-60 | a blank origin raises the not-blank error before any header is written. Otherwise the result is `true` and the response headers are the CORS headers for the configuration, with methods in the set's iteration order |
| Cors.JoinMethods | pac4j-core/src/main/java/org/pac4j/core/matching/matcher/CorsMatcher.java:51 | streaming the set visits every method once, and the text is their names joined by `", "`: empty for an empty set, otherwise naming exactly the configured methods, each once |
| AjaxResolver.NoSignalIsNotAjax | pac4j-core/src/main/java/org/pac4j/core/http/ajax/DefaultAjaxRequestResolver.java:27-34 | absent headers and parameter never make a request AJAX |
| AjaxResolver.EqualsIgnoreCaseIsUpperEquality | pac4j-core/src/main/java/org/pac4j/core/http/ajax/DefaultAjaxRequestResolver.java:28-33 | comparing without case is comparing the upper-cased strings |
| AjaxResolver.IsAjaxIffSignal | pac4j-core/src/main/java/org/pac4j/core/http/ajax/DefaultAjaxRequestResolver.java:27-34 | AJAX exactly when `X-Requested-With` is `XMLHttpRequest`, or the is-ajax header or parameter is `true`, in any case |
| AjaxResolver.EscapeAmp | pac4j-core/src/main/java/org/pac4j/core/http/ajax/DefaultAjaxRequestResolver.java:60 | `&` alone becomes `&amp;`, any other single character is kept, and the URL never gets shorter |
| AjaxResolver.EscapeAmpConcat | pac4j-core/src/main/java/org/pac4j/core/http/ajax/DefaultAjaxRequestResolver.java:60 | the escaping works character by character: escaping a concatenation concatenates the escaped parts, so with the single-character law each `&` becomes `&amp;` and nothing else changes |
| AjaxResolver.EscapeAmpRoundTrip | pac4j-core/src/main/java/org/pac4j/core/http/ajax/DefaultAjaxRequestResolver.java:60 | replacing `&` by `&amp;` loses nothing: unescaping gives the URL back |
| AjaxResolver.EscapeAmpKeepsOthers | pac4j-core/src/main/java/org/pac4j/core/http/ajax/DefaultAjaxRequestResolver.java:60 | a URL without `&` is written unchanged: nothing else is escaped |
| AjaxResolver.FlagOffIgnoresRedirection | pac4j-core/src/main/java/org/pac4j/core/http/ajax/DefaultAjaxRequestResolver.java:40-46 | with the flag off the URL stays null, whatever the redirection action |
| AjaxResolver.CapturedOnlyFromLocation | pac4j-core/src/main/java/org/pac4j/core/http/ajax/DefaultAjaxRequestResolver.java:41-46 | a URL is captured exactly when the flag is on and the action carries a location, and it is that location |
| AjaxResolver.PartialResponseEnvelope | pac4j-core/src/main/java/org/pac4j/core/http/ajax/DefaultAjaxRequestResolver.java:56-62 | the document starts with the XML declaration and `<partial-response>` and ends with `</partial-response>` |
| AjaxResolver.PartialResponseRedirects | pac4j-core/src/main/java/org/pac4j/core/http/ajax/DefaultAjaxRequestResolver.java:59-61 | a non-blank URL gives a redirect element whose attribute reads back as the URL |
| AjaxResolver.RedirectTargetOfFrame | pac4j-core/src/main/java/org/pac4j/core/http/ajax/DefaultAjaxRequestResolver.java:57-62 | whatever attribute text sits in the redirect element, reading the document back gives it unescaped |
| AjaxResolver.PartialResponseWithoutRedirect | pac4j-core/src/main/java/org/pac4j/core/http/ajax/DefaultAjaxRequestResolver.java:56-62 | a blank or null URL gives no redirect element |
| AjaxResolver.DefaultAjaxRequestResolver.constructor | pac4j-core/src/main/java/org/pac4j/core/http/ajax/DefaultAjaxRequestResolver.java:24 | the flag starts off |
| AjaxResolver.DefaultAjaxRequestResolver.SetAddRedirectionUrlAsHeader | pac4j-core/src/main/java/org/pac4j/core/http/ajax/DefaultAjaxRequestResolver.java:72-74 | sets the flag |
| AjaxResolver.DefaultAjaxRequestResolver.BuildAjaxResponse | pac4j-core/src/main/java/org/pac4j/core/http/ajax/DefaultAjaxRequestResolver.java:37-66 | without the faces parameter, `Location` is set exactly for a non-blank URL and the unauthenticated action is returned. With it, no header is written and the partial-response document is returned |
| BasicAuth.ChallengeRoundTrip | pac4j-http/src/main/java/org/pac4j/http/client/direct/DirectBasicAuthClient.java:54-57 | the challenge is `Basic realm="` + realm + `"`, from which the realm reads back exactly; a null realm is written as the text `null` |
| BasicAuth.DefaultRealmIsNotBlank | pac4j-http/src/main/java/org/pac4j/http/client/direct/DirectBasicAuthClient.java:25 | the default realm passes the initialisation check |
| BasicAuth.DirectBasicAuthClient.constructor | pac4j-http/src/main/java/org/pac4j/http/client/direct/DirectBasicAuthClient.java:25-28 | the realm starts as the default realm, with no extractor configured |
| BasicAuth.DirectBasicAuthClient.SetRealmName | pac4j-http/src/main/java/org/pac4j/http/client/direct/DirectBasicAuthClient.java:63-65 | sets the realm only |
| BasicAuth.DirectBasicAuthClient.InternalInit | pac4j-http/src/main/java/org/pac4j/http/client/direct/DirectBasicAuthClient.java:40-45 | a blank realm raises the not-blank error and configures nothing. Otherwise a Basic-auth extractor becomes the default, kept only when none is set |
| BasicAuth.DirectBasicAuthClient.AddAuthenticateHeader | pac4j-http/src/main/java/org/pac4j/http/client/direct/DirectBasicAuthClient.java:54-57 | sets `WWW-Authenticate` to the challenge naming the realm, and no other header |
| BasicAuth.DirectBasicAuthClient.RetrieveCredentials | pac4j-http/src/main/java/org/pac4j/http/client/direct/DirectBasicAuthClient.java:47-52 | writes the challenge, then returns what the inherited extraction returns, so the header is set whatever extraction finds |

## Left out

- Java regular expressions are not modelled. A pattern that does not compile (`PatternSyntaxException`, as in testBadRegexp) is not modelled either. Full matching is the parameter `fullMatch`.
- `PathMatcher`'s regex-based inclusion and its other builder methods are left out, because no test of `PathMatcherTests` uses them. The mock context's default path is taken to be the empty string.
- The header extractor (`HeaderExtractor`) is modelled only as the prefix test in `DigestAuth.HeaderToken`; its own source is not part of this model.
- The `DirectClient` superclass is not part of this model:
  - `super.retrieveCredentials` is the parameter `delegated`;
  - the authenticator and profile-creator constructors are left out;
  - `defaultCredentialsExtractor` is taken to keep an extractor that is already set.
- DefaultAjaxRequestResolver.BuildAjaxResponse: its header frame (only `Location`, or nothing, is written) assumes that `HttpActionHelper.buildUnauthenticatedAction` and `buildFormPostContentAction` write no response header themselves; `HttpActionHelper` is not part of this model.
- `HttpActionHelper.buildUnauthenticatedAction` and `buildFormPostContentAction` are opaque here: their results are the `UnauthenticatedAction` and `FormPostContentAction(content)` values. The redirection action builder is represented by the action it returns.
- The session store, logging and `toString` are left out. So are the getters, which read a field and nothing more.
- Java `HashSet` iteration order is not modelled. `Cors.JoinMethods` and `PathMatching.PathMatcher.SetExcludedPatterns` accept any order.
- JavaStrings.EqualsIgnoreCase: case folding covers ASCII letters only, not the rest of Unicode.
- Header names are compared exactly, not case-insensitively as in a servlet container.
- Concurrency and the servlet container are left out; each operation works on one request at a time.
