/**
 * The CORS matcher: writes the CORS response headers its configuration asks
 * for and always reports a match. The header semantics are those of the CORS
 * protocol, section 3.2 of the WHATWG Fetch Standard.
 */
module Cors {
  import opened Wrappers
  import opened JavaStrings
  import opened Web

  /** A Java `int`. */
  newtype int32 = x: int | -0x8000_0000 <= x < 0x8000_0000

  const ACCESS_CONTROL_ALLOW_ORIGIN_HEADER := "Access-Control-Allow-Origin"
  const ACCESS_CONTROL_EXPOSE_HEADERS_HEADER := "Access-Control-Expose-Headers"
  const ACCESS_CONTROL_MAX_AGE_HEADER := "Access-Control-Max-Age"
  const ACCESS_CONTROL_ALLOW_CREDENTIALS_HEADER := "Access-Control-Allow-Credentials"
  const ACCESS_CONTROL_ALLOW_METHODS_HEADER := "Access-Control-Allow-Methods"
  const ACCESS_CONTROL_ALLOW_HEADERS_HEADER := "Access-Control-Allow-Headers"

  /** The message of the exception thrown when `allowOrigin` is blank. */
  const ALLOW_ORIGIN_BLANK_MESSAGE := "allowOrigin cannot be blank"

  /** The maximum age that means "not configured". */
  const NO_MAX_AGE: int32 := -1

  /** The six headers `matches` may write. */
  predicate IsCorsHeader(name: string) {
    name == ACCESS_CONTROL_ALLOW_ORIGIN_HEADER || name == ACCESS_CONTROL_EXPOSE_HEADERS_HEADER
    || name == ACCESS_CONTROL_MAX_AGE_HEADER || name == ACCESS_CONTROL_ALLOW_CREDENTIALS_HEADER
    || name == ACCESS_CONTROL_ALLOW_METHODS_HEADER || name == ACCESS_CONTROL_ALLOW_HEADERS_HEADER
  }

  /** The matcher's configuration; `None` stands for a `null` field. */
  datatype CorsConfig = CorsConfig(
    allowOrigin: Option<string>,
    exposeHeaders: Option<string>,
    maxAge: int32,
    allowCredentials: Option<bool>,
    allowMethods: Option<set<HttpMethod>>,
    allowHeaders: Option<string>)

  /** A fresh matcher: every field null and no maximum age. */
  const DefaultConfig := CorsConfig(None, None, NO_MAX_AGE, None, None, None)

  // The list of allowed methods

  /** The items joined by `", "`, as `Collectors.joining(", ")` does. */
  function Join(items: seq<string>): (r: string)
    ensures items == [] ==> r == []
    ensures |items| == 1 ==> r == items[0]
  {
    if items == [] then ""
    else if |items| == 1 then items[0]
    else items[0] + ", " + Join(items[1..])
  }

  lemma {:induction false} JoinAppend(items: seq<string>, item: string)
    requires items != []
    ensures Join(items + [item]) == Join(items) + ", " + item
  {
    if |items| > 1 {
      assert (items + [item])[1..] == items[1..] + [item];
      JoinAppend(items[1..], item);
    }
  }

  /** A text drops the one space that follows a separating comma. */
  function DropSeparatorSpace(s: string): string {
    if s != [] && s[0] == ' ' then s[1..] else s
  }

  /** Splits a `", "`-separated list back into its items. */
  function SplitList(s: string): (r: seq<string>)
    ensures r != []
    decreases |s|
  {
    if ',' !in s then [s]
    else
      var i := IndexOf(s, ',');
      [s[..i]] + SplitList(DropSeparatorSpace(s[i + 1..]))
  }

  /** Splitting stops at the first comma and drops the one space after it. */
  lemma SplitAtSeparator(head: string, rest: string)
    requires ',' !in head
    ensures SplitList(head + ", " + rest) == [head] + SplitList(rest)
  {
    var s := head + ", " + rest;
    assert s[|head|] == ',';
    assert s[..|head|] == head;
    assert IndexOf(s, ',') == |head|;
    assert s[|head| + 1..] == " " + rest;
  }

  /** Items without commas survive joining and splitting unchanged. */
  lemma {:induction false} SplitJoinRoundTrip(items: seq<string>)
    requires items != []
    requires forall k :: 0 <= k < |items| ==> ',' !in items[k]
    ensures SplitList(Join(items)) == items
  {
    if |items| > 1 {
      SplitAtSeparator(items[0], Join(items[1..]));
      SplitJoinRoundTrip(items[1..]);
      assert items == [items[0]] + items[1..];
    }
  }

  /** The names of the methods, in order. */
  function Names(methods: seq<HttpMethod>): (r: seq<string>)
    ensures |r| == |methods|
    ensures forall k :: 0 <= k < |methods| ==> r[k] == methods[k].Name()
  {
    seq(|methods|, k requires 0 <= k < |methods| => methods[k].Name())
  }

  /** The method whose enum constant is named `name`, as `HttpMethod.valueOf` finds it. */
  function MethodNamed(name: string): (r: Option<HttpMethod>)
    ensures r.Some? ==> r.value.Name() == name
  {
    if name == "GET" then Some(GET)
    else if name == "POST" then Some(POST)
    else if name == "HEAD" then Some(HEAD)
    else if name == "TRACE" then Some(TRACE)
    else if name == "PUT" then Some(PUT)
    else if name == "DELETE" then Some(DELETE)
    else if name == "OPTIONS" then Some(OPTIONS)
    else if name == "PATCH" then Some(PATCH)
    else None
  }

  /** Every method is found again from its name, so different methods have different names. */
  lemma MethodNameRoundTrip(m: HttpMethod)
    ensures MethodNamed(m.Name()) == Some(m)
  {
  }

  lemma NameIsInjective(a: HttpMethod, b: HttpMethod)
    ensures a.Name() == b.Name() <==> a == b
  {
    MethodNameRoundTrip(a);
    MethodNameRoundTrip(b);
  }

  predicate NoDuplicates(methods: seq<HttpMethod>) {
    forall i, j :: 0 <= i < j < |methods| ==> methods[i] != methods[j]
  }

  /** `order` is one iteration order of the set `methods`. */
  predicate IsEnumeration(order: seq<HttpMethod>, methods: set<HttpMethod>) {
    NoDuplicates(order) && (forall m :: m in order <==> m in methods)
  }

  /** The Allow-Methods value for one iteration order of the set. */
  function MethodList(order: seq<HttpMethod>): string {
    Join(Names(order))
  }

  /** An empty set of methods gives the empty list. */
  lemma EmptyMethodList(order: seq<HttpMethod>)
    requires IsEnumeration(order, {})
    ensures MethodList(order) == ""
  {
    DistinctCount(order, {});
  }

  /** Whatever the iteration order, the list names exactly the configured methods, each once. */
  lemma MethodListNamesExactlyTheSet(order: seq<HttpMethod>, methods: set<HttpMethod>)
    requires IsEnumeration(order, methods) && methods != {}
    ensures |SplitList(MethodList(order))| == |methods|
    ensures forall m: HttpMethod :: m.Name() in SplitList(MethodList(order)) <==> m in methods
  {
    var names := Names(order);
    assert order != [] by {
      var m :| m in methods;
      assert m in order;
    }
    forall k | 0 <= k < |names|
      ensures ',' !in names[k]
    {
      assert names[k] == order[k].Name();
    }
    SplitJoinRoundTrip(names);
    forall m: HttpMethod
      ensures m.Name() in names <==> m in methods
    {
      if m.Name() in names {
        var k :| 0 <= k < |names| && names[k] == m.Name();
        NameIsInjective(order[k], m);
      }
      if m in methods {
        var k :| 0 <= k < |order| && order[k] == m;
        assert names[k] == m.Name();
      }
    }
    DistinctCount(order, methods);
  }

  /** A duplicate-free enumeration of a set has the set's size. */
  lemma {:induction false} DistinctCount(order: seq<HttpMethod>, methods: set<HttpMethod>)
    requires IsEnumeration(order, methods)
    ensures |order| == |methods|
    decreases |order|
  {
    if order != [] {
      var last := order[|order| - 1];
      var prefix := order[..|order| - 1];
      assert order == prefix + [last];
      forall k | 0 <= k < |prefix|
        ensures prefix[k] != last
      {
        assert prefix[k] == order[k];
      }
      assert IsEnumeration(prefix, methods - {last});
      DistinctCount(prefix, methods - {last});
    }
  }

  /** `headers` with `name` set to `value` when `condition` holds. */
  function SetIf(headers: map<string, string>, condition: bool, name: string, value: string): map<string, string> {
    if condition then headers[name := value] else headers
  }

  /** A conditional write leaves every other header, and everything when skipped, as it was. */
  lemma SetIfKeeps(headers: map<string, string>, condition: bool, name: string, value: string, other: string)
    requires other != name || !condition
    ensures Unchanged(headers, SetIf(headers, condition, name, value), other)
  {
  }

  /** The steps of `matches` after the origin header, one per configuration field. */
  function ExposeStep(h: map<string, string>, config: CorsConfig): map<string, string> {
    SetIf(h, IsNotBlank(config.exposeHeaders), ACCESS_CONTROL_EXPOSE_HEADERS_HEADER, config.exposeHeaders.GetOr(""))
  }

  function MaxAgeStep(h: map<string, string>, config: CorsConfig): map<string, string> {
    SetIf(h, config.maxAge != NO_MAX_AGE, ACCESS_CONTROL_MAX_AGE_HEADER, DecimalString(config.maxAge as int))
  }

  function CredentialsStep(h: map<string, string>, config: CorsConfig): map<string, string> {
    SetIf(h, config.allowCredentials == Some(true), ACCESS_CONTROL_ALLOW_CREDENTIALS_HEADER, "true")
  }

  function MethodsStep(h: map<string, string>, config: CorsConfig, methodList: string): map<string, string> {
    SetIf(h, config.allowMethods.Some?, ACCESS_CONTROL_ALLOW_METHODS_HEADER, methodList)
  }

  function AllowHeadersStep(h: map<string, string>, config: CorsConfig): map<string, string> {
    SetIf(h, IsNotBlank(config.allowHeaders), ACCESS_CONTROL_ALLOW_HEADERS_HEADER, config.allowHeaders.GetOr(""))
  }

  /** The response headers after `matches`, given the Allow-Methods text the set iteration produced. */
  function CorsHeaders(headers: map<string, string>, config: CorsConfig, methodList: string): map<string, string>
    requires IsNotBlank(config.allowOrigin)
  {
    var h0 := headers[ACCESS_CONTROL_ALLOW_ORIGIN_HEADER := config.allowOrigin.value];
    AllowHeadersStep(MethodsStep(CredentialsStep(MaxAgeStep(ExposeStep(h0, config), config), config), config, methodList), config)
  }

  /** `Access-Control-Allow-Origin` is always written, with the configured origin. */
  lemma AllowOriginWritten(headers: map<string, string>, config: CorsConfig, methodList: string)
    requires IsNotBlank(config.allowOrigin)
    ensures var r := CorsHeaders(headers, config, methodList);
            ACCESS_CONTROL_ALLOW_ORIGIN_HEADER in r && r[ACCESS_CONTROL_ALLOW_ORIGIN_HEADER] == config.allowOrigin.value
  {
    HeaderNamesDiffer();
    StepsKeep(headers[ACCESS_CONTROL_ALLOW_ORIGIN_HEADER := config.allowOrigin.value], config, methodList,
              ACCESS_CONTROL_ALLOW_ORIGIN_HEADER);
  }

  /** Expose-Headers is written when the configured value is not blank. */
  lemma ExposeHeadersWritten(headers: map<string, string>, config: CorsConfig, methodList: string)
    requires IsNotBlank(config.allowOrigin) && IsNotBlank(config.exposeHeaders)
    ensures var r := CorsHeaders(headers, config, methodList);
            ACCESS_CONTROL_EXPOSE_HEADERS_HEADER in r && r[ACCESS_CONTROL_EXPOSE_HEADERS_HEADER] == config.exposeHeaders.value
  {
    HeaderNamesDiffer();
    var h0 := headers[ACCESS_CONTROL_ALLOW_ORIGIN_HEADER := config.allowOrigin.value];
    var h1 := ExposeStep(h0, config);
    SetIfKeeps(h1, config.maxAge != NO_MAX_AGE, ACCESS_CONTROL_MAX_AGE_HEADER, DecimalString(config.maxAge as int),
               ACCESS_CONTROL_EXPOSE_HEADERS_HEADER);
    LaterStepsKeep(MaxAgeStep(h1, config), config, methodList, ACCESS_CONTROL_EXPOSE_HEADERS_HEADER);
  }

  /** Max-Age is written, as a decimal number, when it is not -1. */
  lemma MaxAgeWritten(headers: map<string, string>, config: CorsConfig, methodList: string)
    requires IsNotBlank(config.allowOrigin) && config.maxAge != NO_MAX_AGE
    ensures var r := CorsHeaders(headers, config, methodList);
            ACCESS_CONTROL_MAX_AGE_HEADER in r && r[ACCESS_CONTROL_MAX_AGE_HEADER] == DecimalString(config.maxAge as int)
  {
    HeaderNamesDiffer();
    var h0 := headers[ACCESS_CONTROL_ALLOW_ORIGIN_HEADER := config.allowOrigin.value];
    LaterStepsKeep(MaxAgeStep(ExposeStep(h0, config), config), config, methodList, ACCESS_CONTROL_MAX_AGE_HEADER);
  }

  /** Allow-Credentials is written, as `true`, only for a non-null true flag. */
  lemma AllowCredentialsWritten(headers: map<string, string>, config: CorsConfig, methodList: string)
    requires IsNotBlank(config.allowOrigin) && config.allowCredentials == Some(true)
    ensures var r := CorsHeaders(headers, config, methodList);
            ACCESS_CONTROL_ALLOW_CREDENTIALS_HEADER in r && r[ACCESS_CONTROL_ALLOW_CREDENTIALS_HEADER] == "true"
  {
    HeaderNamesDiffer();
    var h0 := headers[ACCESS_CONTROL_ALLOW_ORIGIN_HEADER := config.allowOrigin.value];
    var h3 := CredentialsStep(MaxAgeStep(ExposeStep(h0, config), config), config);
    var h4 := MethodsStep(h3, config, methodList);
    SetIfKeeps(h3, config.allowMethods.Some?, ACCESS_CONTROL_ALLOW_METHODS_HEADER, methodList,
               ACCESS_CONTROL_ALLOW_CREDENTIALS_HEADER);
    SetIfKeeps(h4, IsNotBlank(config.allowHeaders), ACCESS_CONTROL_ALLOW_HEADERS_HEADER, config.allowHeaders.GetOr(""),
               ACCESS_CONTROL_ALLOW_CREDENTIALS_HEADER);
  }

  /** Allow-Methods is written whenever a set of methods is configured, even an empty one. */
  lemma AllowMethodsWritten(headers: map<string, string>, config: CorsConfig, methodList: string)
    requires IsNotBlank(config.allowOrigin) && config.allowMethods.Some?
    ensures var r := CorsHeaders(headers, config, methodList);
            ACCESS_CONTROL_ALLOW_METHODS_HEADER in r && r[ACCESS_CONTROL_ALLOW_METHODS_HEADER] == methodList
  {
    HeaderNamesDiffer();
    var h0 := headers[ACCESS_CONTROL_ALLOW_ORIGIN_HEADER := config.allowOrigin.value];
    var h4 := MethodsStep(CredentialsStep(MaxAgeStep(ExposeStep(h0, config), config), config), config, methodList);
    SetIfKeeps(h4, IsNotBlank(config.allowHeaders), ACCESS_CONTROL_ALLOW_HEADERS_HEADER, config.allowHeaders.GetOr(""),
               ACCESS_CONTROL_ALLOW_METHODS_HEADER);
  }

  /** Allow-Headers is written when the configured value is not blank. */
  lemma AllowHeadersWritten(headers: map<string, string>, config: CorsConfig, methodList: string)
    requires IsNotBlank(config.allowOrigin) && IsNotBlank(config.allowHeaders)
    ensures var r := CorsHeaders(headers, config, methodList);
            ACCESS_CONTROL_ALLOW_HEADERS_HEADER in r && r[ACCESS_CONTROL_ALLOW_HEADERS_HEADER] == config.allowHeaders.value
  {
  }

  /** The steps after Max-Age keep a header that none of them writes. */
  lemma LaterStepsKeep(h: map<string, string>, config: CorsConfig, methodList: string, name: string)
    requires name != ACCESS_CONTROL_ALLOW_CREDENTIALS_HEADER
    requires name != ACCESS_CONTROL_ALLOW_METHODS_HEADER && name != ACCESS_CONTROL_ALLOW_HEADERS_HEADER
    ensures Unchanged(h, AllowHeadersStep(MethodsStep(CredentialsStep(h, config), config, methodList), config), name)
  {
    var h3 := CredentialsStep(h, config);
    var h4 := MethodsStep(h3, config, methodList);
    SetIfKeeps(h, config.allowCredentials == Some(true), ACCESS_CONTROL_ALLOW_CREDENTIALS_HEADER, "true", name);
    SetIfKeeps(h3, config.allowMethods.Some?, ACCESS_CONTROL_ALLOW_METHODS_HEADER, methodList, name);
    SetIfKeeps(h4, IsNotBlank(config.allowHeaders), ACCESS_CONTROL_ALLOW_HEADERS_HEADER, config.allowHeaders.GetOr(""), name);
  }

  /** A header whose condition fails keeps whatever the response already held. */
  lemma CorsHeadersSkipped(headers: map<string, string>, config: CorsConfig, methodList: string)
    requires IsNotBlank(config.allowOrigin)
    ensures var r := CorsHeaders(headers, config, methodList);
      && (IsBlank(config.exposeHeaders) ==> Unchanged(headers, r, ACCESS_CONTROL_EXPOSE_HEADERS_HEADER))
      && (config.maxAge == NO_MAX_AGE ==> Unchanged(headers, r, ACCESS_CONTROL_MAX_AGE_HEADER))
      && (config.allowCredentials != Some(true) ==>
            Unchanged(headers, r, ACCESS_CONTROL_ALLOW_CREDENTIALS_HEADER))
      && (config.allowMethods.None? ==> Unchanged(headers, r, ACCESS_CONTROL_ALLOW_METHODS_HEADER))
      && (IsBlank(config.allowHeaders) ==> Unchanged(headers, r, ACCESS_CONTROL_ALLOW_HEADERS_HEADER))
  {
    HeaderNamesDiffer();
    var h0 := headers[ACCESS_CONTROL_ALLOW_ORIGIN_HEADER := config.allowOrigin.value];
    if IsBlank(config.exposeHeaders) {
      StepsKeep(h0, config, methodList, ACCESS_CONTROL_EXPOSE_HEADERS_HEADER);
    }
    if config.maxAge == NO_MAX_AGE {
      StepsKeep(h0, config, methodList, ACCESS_CONTROL_MAX_AGE_HEADER);
    }
    if config.allowCredentials != Some(true) {
      StepsKeep(h0, config, methodList, ACCESS_CONTROL_ALLOW_CREDENTIALS_HEADER);
    }
    if config.allowMethods.None? {
      StepsKeep(h0, config, methodList, ACCESS_CONTROL_ALLOW_METHODS_HEADER);
    }
    if IsBlank(config.allowHeaders) {
      StepsKeep(h0, config, methodList, ACCESS_CONTROL_ALLOW_HEADERS_HEADER);
    }
  }

  /** A header the five conditional steps do not write keeps its value through them. */
  lemma StepsKeep(h0: map<string, string>, config: CorsConfig, methodList: string, name: string)
    requires name != ACCESS_CONTROL_EXPOSE_HEADERS_HEADER || IsBlank(config.exposeHeaders)
    requires name != ACCESS_CONTROL_MAX_AGE_HEADER || config.maxAge == NO_MAX_AGE
    requires name != ACCESS_CONTROL_ALLOW_CREDENTIALS_HEADER || config.allowCredentials != Some(true)
    requires name != ACCESS_CONTROL_ALLOW_METHODS_HEADER || config.allowMethods.None?
    requires name != ACCESS_CONTROL_ALLOW_HEADERS_HEADER || IsBlank(config.allowHeaders)
    ensures Unchanged(h0, AllowHeadersStep(MethodsStep(CredentialsStep(MaxAgeStep(ExposeStep(h0, config), config), config), config, methodList), config), name)
  {
    var h1 := ExposeStep(h0, config);
    var h2 := MaxAgeStep(h1, config);
    var h3 := CredentialsStep(h2, config);
    var h4 := MethodsStep(h3, config, methodList);
    SetIfKeeps(h0, IsNotBlank(config.exposeHeaders), ACCESS_CONTROL_EXPOSE_HEADERS_HEADER, config.exposeHeaders.GetOr(""), name);
    SetIfKeeps(h1, config.maxAge != NO_MAX_AGE, ACCESS_CONTROL_MAX_AGE_HEADER, DecimalString(config.maxAge as int), name);
    SetIfKeeps(h2, config.allowCredentials == Some(true), ACCESS_CONTROL_ALLOW_CREDENTIALS_HEADER, "true", name);
    SetIfKeeps(h3, config.allowMethods.Some?, ACCESS_CONTROL_ALLOW_METHODS_HEADER, methodList, name);
    SetIfKeeps(h4, IsNotBlank(config.allowHeaders), ACCESS_CONTROL_ALLOW_HEADERS_HEADER, config.allowHeaders.GetOr(""), name);
  }

  /** No response header other than the six CORS headers is touched. */
  lemma CorsHeadersFrame(headers: map<string, string>, config: CorsConfig, methodList: string, name: string)
    requires IsNotBlank(config.allowOrigin) && !IsCorsHeader(name)
    ensures Unchanged(headers, CorsHeaders(headers, config, methodList), name)
  {
    var h0 := headers[ACCESS_CONTROL_ALLOW_ORIGIN_HEADER := config.allowOrigin.value];
    StepsKeep(h0, config, methodList, name);
  }

  /** The Max-Age value reads back as the configured number. */
  lemma MaxAgeReadsBack(headers: map<string, string>, config: CorsConfig, methodList: string)
    requires IsNotBlank(config.allowOrigin) && config.maxAge != NO_MAX_AGE
    ensures var r := CorsHeaders(headers, config, methodList);
            ACCESS_CONTROL_MAX_AGE_HEADER in r
            && var v := r[ACCESS_CONTROL_MAX_AGE_HEADER];
               (IsDigits(v) || (|v| > 1 && v[0] == '-' && IsDigits(v[1..])))
               && ParseDecimal(v) == config.maxAge as int
  {
    MaxAgeWritten(headers, config, methodList);
    DecimalRoundTrip(config.maxAge as int);
  }

  /** The header `name` is present in `after` exactly when it is in `before`, with the same value. */
  predicate Unchanged(before: map<string, string>, after: map<string, string>, name: string) {
    (name in after <==> name in before) && (name in before ==> after[name] == before[name])
  }

  /** The six header names are pairwise different. */
  lemma HeaderNamesDiffer()
    ensures ACCESS_CONTROL_ALLOW_ORIGIN_HEADER != ACCESS_CONTROL_EXPOSE_HEADERS_HEADER
    ensures ACCESS_CONTROL_ALLOW_ORIGIN_HEADER != ACCESS_CONTROL_MAX_AGE_HEADER
    ensures ACCESS_CONTROL_ALLOW_ORIGIN_HEADER != ACCESS_CONTROL_ALLOW_CREDENTIALS_HEADER
    ensures ACCESS_CONTROL_ALLOW_ORIGIN_HEADER != ACCESS_CONTROL_ALLOW_METHODS_HEADER
    ensures ACCESS_CONTROL_ALLOW_ORIGIN_HEADER != ACCESS_CONTROL_ALLOW_HEADERS_HEADER
    ensures ACCESS_CONTROL_EXPOSE_HEADERS_HEADER != ACCESS_CONTROL_MAX_AGE_HEADER
    ensures ACCESS_CONTROL_EXPOSE_HEADERS_HEADER != ACCESS_CONTROL_ALLOW_CREDENTIALS_HEADER
    ensures ACCESS_CONTROL_EXPOSE_HEADERS_HEADER != ACCESS_CONTROL_ALLOW_METHODS_HEADER
    ensures ACCESS_CONTROL_EXPOSE_HEADERS_HEADER != ACCESS_CONTROL_ALLOW_HEADERS_HEADER
    ensures ACCESS_CONTROL_MAX_AGE_HEADER != ACCESS_CONTROL_ALLOW_CREDENTIALS_HEADER
    ensures ACCESS_CONTROL_MAX_AGE_HEADER != ACCESS_CONTROL_ALLOW_METHODS_HEADER
    ensures ACCESS_CONTROL_MAX_AGE_HEADER != ACCESS_CONTROL_ALLOW_HEADERS_HEADER
    ensures ACCESS_CONTROL_ALLOW_CREDENTIALS_HEADER != ACCESS_CONTROL_ALLOW_METHODS_HEADER
    ensures ACCESS_CONTROL_ALLOW_CREDENTIALS_HEADER != ACCESS_CONTROL_ALLOW_HEADERS_HEADER
    ensures ACCESS_CONTROL_ALLOW_METHODS_HEADER != ACCESS_CONTROL_ALLOW_HEADERS_HEADER
  {
    assert ACCESS_CONTROL_ALLOW_ORIGIN_HEADER[21] == 'O';
    assert ACCESS_CONTROL_EXPOSE_HEADERS_HEADER[15] == 'E';
    assert ACCESS_CONTROL_MAX_AGE_HEADER[15] == 'M';
    assert ACCESS_CONTROL_ALLOW_CREDENTIALS_HEADER[21] == 'C';
    assert ACCESS_CONTROL_ALLOW_METHODS_HEADER[21] == 'M';
    assert ACCESS_CONTROL_ALLOW_HEADERS_HEADER[21] == 'H';
  }

  class CorsMatcher {
    var allowOrigin: Option<string>
    var exposeHeaders: Option<string>
    var maxAge: int32
    var allowCredentials: Option<bool>
    var allowMethods: Option<set<HttpMethod>>
    var allowHeaders: Option<string>

    function Config(): CorsConfig
      reads this
    {
      CorsConfig(allowOrigin, exposeHeaders, maxAge, allowCredentials, allowMethods, allowHeaders)
    }

    constructor ()
      ensures Config() == DefaultConfig
    {
      allowOrigin := None;
      exposeHeaders := None;
      maxAge := NO_MAX_AGE;
      allowCredentials := None;
      allowMethods := None;
      allowHeaders := None;
    }

    method SetAllowOrigin(allowOrigin: Option<string>)
      modifies this
      ensures Config() == old(Config()).(allowOrigin := allowOrigin)
    {
      this.allowOrigin := allowOrigin;
    }

    method SetExposeHeaders(exposeHeaders: Option<string>)
      modifies this
      ensures Config() == old(Config()).(exposeHeaders := exposeHeaders)
    {
      this.exposeHeaders := exposeHeaders;
    }

    method SetMaxAge(maxAge: int32)
      modifies this
      ensures Config() == old(Config()).(maxAge := maxAge)
    {
      this.maxAge := maxAge;
    }

    method SetAllowCredentials(allowCredentials: Option<bool>)
      modifies this
      ensures Config() == old(Config()).(allowCredentials := allowCredentials)
    {
      this.allowCredentials := allowCredentials;
    }

    method SetAllowMethods(allowMethods: Option<set<HttpMethod>>)
      modifies this
      ensures Config() == old(Config()).(allowMethods := allowMethods)
    {
      this.allowMethods := allowMethods;
    }

    method SetAllowHeaders(allowHeaders: Option<string>)
      modifies this
      ensures Config() == old(Config()).(allowHeaders := allowHeaders)
    {
      this.allowHeaders := allowHeaders;
    }

    /**
     * `matches`: a blank `allowOrigin` throws before any header is written;
     * otherwise the CORS headers are written and the answer is `true`.
     * `order` is the order in which the set of methods was iterated.
     */
    method Matches(context: WebContext) returns (r: Result<bool>, ghost order: seq<HttpMethod>)
      modifies context
      ensures IsBlank(allowOrigin) ==>
                r == Failure(TechnicalError(ALLOW_ORIGIN_BLANK_MESSAGE))
                && context.responseHeaders == old(context.responseHeaders)
      ensures IsNotBlank(allowOrigin) ==>
                r == Success(true)
                && (allowMethods.Some? ==> IsEnumeration(order, allowMethods.value))
                && context.responseHeaders
                   == CorsHeaders(old(context.responseHeaders), Config(), MethodList(order))
    {
      order := [];
      if IsBlank(allowOrigin) {
        return Failure(TechnicalError(ALLOW_ORIGIN_BLANK_MESSAGE)), order;
      }
      context.SetResponseHeader(ACCESS_CONTROL_ALLOW_ORIGIN_HEADER, allowOrigin.value);
      if IsNotBlank(exposeHeaders) {
        context.SetResponseHeader(ACCESS_CONTROL_EXPOSE_HEADERS_HEADER, exposeHeaders.value);
      }
      if maxAge != NO_MAX_AGE {
        context.SetResponseHeader(ACCESS_CONTROL_MAX_AGE_HEADER, DecimalString(maxAge as int));
      }
      if allowCredentials.Some? && allowCredentials.value {
        context.SetResponseHeader(ACCESS_CONTROL_ALLOW_CREDENTIALS_HEADER, "true");
      }
      if allowMethods.Some? {
        var methods;
        methods, order := JoinMethods(allowMethods.value);
        context.SetResponseHeader(ACCESS_CONTROL_ALLOW_METHODS_HEADER, methods);
      }
      if IsNotBlank(allowHeaders) {
        context.SetResponseHeader(ACCESS_CONTROL_ALLOW_HEADERS_HEADER, allowHeaders.value);
      }
      r := Success(true);
    }
  }

  /** Streams the set in some order, mapping each method to its name and joining with `", "`. */
  method JoinMethods(methods: set<HttpMethod>) returns (text: string, ghost order: seq<HttpMethod>)
    ensures IsEnumeration(order, methods) && text == MethodList(order)
    ensures methods == {} ==> text == ""
    ensures methods != {} ==> |SplitList(text)| == |methods|
                              && forall m: HttpMethod :: m.Name() in SplitList(text) <==> m in methods
  {
    text := "";
    order := [];
    var remaining := methods;
    var first := true;
    while remaining != {}
      invariant first <==> order == []
      invariant NoDuplicates(order)
      invariant forall m :: m in order <==> m in methods && m !in remaining
      invariant remaining <= methods
      invariant text == MethodList(order)
      decreases remaining
    {
      var m :| m in remaining;
      if first {
        text := m.Name();
        first := false;
      } else {
        JoinAppend(Names(order), m.Name());
        text := text + ", " + m.Name();
      }
      assert Names(order + [m]) == Names(order) + [m.Name()];
      order := order + [m];
      remaining := remaining - {m};
    }
    if methods == {} {
      EmptyMethodList(order);
    } else {
      MethodListNamesExactlyTheSet(order, methods);
    }
  }
}
