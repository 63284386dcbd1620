/**
 * The default AJAX request resolver: recognises requests sent by in-page
 * script and shapes the response that denies them access, either a plain
 * "unauthenticated" action or a JSF partial-response XML envelope carrying
 * the redirection URL.
 */
module AjaxResolver {
  import opened Wrappers
  import opened JavaStrings
  import opened Web

  const AJAX_HEADER_NAME := "X-Requested-With"
  const AJAX_HEADER_VALUE := "XMLHttpRequest"
  /** The header and parameter name of the dynamic AJAX flag. */
  const IS_AJAX_REQUEST := "is_ajax_request"
  /** `Boolean.TRUE.toString()`. */
  const TRUE_LITERAL := "true"
  const FACES_PARTIAL_AJAX_PARAMETER := "javax.faces.partial.ajax"
  const LOCATION_HEADER := "Location"

  const XML_DECLARATION := "<?xml version='1.0' encoding='UTF-8'?>"
  const PARTIAL_RESPONSE_OPEN := "<partial-response>"
  const PARTIAL_RESPONSE_CLOSE := "</partial-response>"
  const REDIRECT_OPEN := "<redirect url=\""
  const REDIRECT_CLOSE := "\"></redirect>"

  /** `isAjax`: any one of the three signals, each compared without regard to case. */
  predicate IsAjax(request: Request) {
    EqualsIgnoreCase(AJAX_HEADER_VALUE, RequestHeader(request, AJAX_HEADER_NAME))
    || EqualsIgnoreCase(TRUE_LITERAL, RequestHeader(request, IS_AJAX_REQUEST))
    || EqualsIgnoreCase(TRUE_LITERAL, RequestParameter(request, IS_AJAX_REQUEST))
  }

  /** A request with none of the three signals is never an AJAX one. */
  lemma NoSignalIsNotAjax(request: Request)
    requires AJAX_HEADER_NAME !in request.headers
    requires IS_AJAX_REQUEST !in request.headers && IS_AJAX_REQUEST !in request.parameters
    ensures !IsAjax(request)
  {
  }

  /** The string with every ASCII letter upper-cased. */
  function UpperString(s: string): (r: string)
    ensures |r| == |s| && forall i :: 0 <= i < |s| ==> r[i] == AsciiUpper(s[i])
  {
    seq(|s|, i requires 0 <= i < |s| => AsciiUpper(s[i]))
  }

  /** Comparing without case is comparing the upper-cased strings. */
  lemma EqualsIgnoreCaseIsUpperEquality(a: string, b: string)
    ensures EqualsIgnoreCase(a, Some(b)) <==> UpperString(a) == UpperString(b)
  {
    if UpperString(a) == UpperString(b) {
      assert |a| == |b|;
      forall i | 0 <= i < |a|
        ensures AsciiUpper(a[i]) == AsciiUpper(b[i])
      {
        assert UpperString(a)[i] == UpperString(b)[i];
      }
    }
  }

  /** The value of `name` in `m` upper-cases to the same text as `expected`. */
  predicate SameUpperCase(m: map<string, string>, name: string, expected: string) {
    name in m && UpperString(m[name]) == UpperString(expected)
  }

  /**
   * A request is an AJAX one exactly when the AJAX header holds the AJAX
   * value, or the is-ajax header or parameter holds `true`, in any case.
   */
  lemma IsAjaxIffSignal(request: Request)
    ensures IsAjax(request) <==>
              SameUpperCase(request.headers, AJAX_HEADER_NAME, AJAX_HEADER_VALUE)
              || SameUpperCase(request.headers, IS_AJAX_REQUEST, TRUE_LITERAL)
              || SameUpperCase(request.parameters, IS_AJAX_REQUEST, TRUE_LITERAL)
  {
    if AJAX_HEADER_NAME in request.headers {
      EqualsIgnoreCaseIsUpperEquality(AJAX_HEADER_VALUE, request.headers[AJAX_HEADER_NAME]);
    }
    if IS_AJAX_REQUEST in request.headers {
      EqualsIgnoreCaseIsUpperEquality(TRUE_LITERAL, request.headers[IS_AJAX_REQUEST]);
    }
    if IS_AJAX_REQUEST in request.parameters {
      EqualsIgnoreCaseIsUpperEquality(TRUE_LITERAL, request.parameters[IS_AJAX_REQUEST]);
    }
  }

  // Escaping of the redirection URL

  /** `url.replaceAll("&", "&amp;")`. */
  function EscapeAmp(s: string): (r: string)
    ensures |r| >= |s|
    ensures |s| == 1 ==> r == if s[0] == '&' then "&amp;" else s
  {
    if s == [] then []
    else (if s[0] == '&' then "&amp;" else [s[0]]) + EscapeAmp(s[1..])
  }

  /** The escaping works character by character: it distributes over concatenation. */
  lemma {:induction false} EscapeAmpConcat(a: string, b: string)
    ensures EscapeAmp(a + b) == EscapeAmp(a) + EscapeAmp(b)
  {
    if a == [] {
      assert a + b == b;
    } else {
      var head := if a[0] == '&' then "&amp;" else [a[0]];
      assert (a + b)[0] == a[0];
      assert (a + b)[1..] == a[1..] + b;
      EscapeAmpConcat(a[1..], b);
      assert EscapeAmp(a + b) == head + (EscapeAmp(a[1..]) + EscapeAmp(b));
      assert EscapeAmp(a) == head + EscapeAmp(a[1..]);
    }
  }

  /** Reads an attribute value back, turning each `&amp;` into `&`. */
  function UnescapeAmp(s: string): string {
    if s == [] then []
    else if StartsWith(s, "&amp;") then "&" + UnescapeAmp(s[5..])
    else [s[0]] + UnescapeAmp(s[1..])
  }

  /** The escaping loses nothing: the URL can be read back from the attribute. */
  lemma {:induction false} EscapeAmpRoundTrip(s: string)
    ensures UnescapeAmp(EscapeAmp(s)) == s
  {
    if s != [] {
      var rest := EscapeAmp(s[1..]);
      EscapeAmpRoundTrip(s[1..]);
      if s[0] == '&' {
        assert ("&amp;" + rest)[5..] == rest;
      } else {
        DifferenceRulesOutPrefix([s[0]] + rest, "&amp;", 0);
        assert ([s[0]] + rest)[1..] == rest;
      }
    }
  }

  /** Only `&` is escaped: a URL without one is written as it is. */
  lemma {:induction false} EscapeAmpKeepsOthers(s: string)
    requires '&' !in s
    ensures EscapeAmp(s) == s
  {
    if s != [] {
      assert '&' !in s[1..];
      EscapeAmpKeepsOthers(s[1..]);
    }
  }

  // The response

  /** A redirection action as the builder returns it; only some carry a location. */
  datatype RedirectionAction = WithLocationAction(location: string) | WithoutLocationAction

  /** The action returned to the framework: a plain denial, or content for a form post. */
  datatype HttpAction = UnauthenticatedAction | FormPostContentAction(content: string)

  /**
   * The URL `buildAjaxResponse` works with: the location of the redirection
   * action, when the flag asks for one and the action carries one; null otherwise.
   */
  function CapturedUrl(addRedirectionUrlAsHeader: bool, redirection: Option<RedirectionAction>): Option<string> {
    if addRedirectionUrlAsHeader && redirection.Some? && redirection.value.WithLocationAction?
    then Some(redirection.value.location)
    else None
  }

  /** With the flag off the redirection action plays no part: the URL stays null. */
  lemma FlagOffIgnoresRedirection(redirection: Option<RedirectionAction>)
    ensures CapturedUrl(false, redirection) == None
  {
  }

  /** A URL is captured only from an action with a location, and then it is that location. */
  lemma CapturedOnlyFromLocation(flag: bool, redirection: Option<RedirectionAction>)
    ensures CapturedUrl(flag, redirection).Some? <==>
              flag && redirection.Some? && redirection.value.WithLocationAction?
    ensures CapturedUrl(flag, redirection).Some? ==>
              CapturedUrl(flag, redirection).value == redirection.value.location
  {
  }

  /** The redirect element for a URL, empty when the URL is blank. */
  function RedirectElement(url: Option<string>): string {
    if IsNotBlank(url) then REDIRECT_OPEN + EscapeAmp(url.value) + REDIRECT_CLOSE else ""
  }

  /** The partial-response document built for a faces request. */
  function PartialResponse(url: Option<string>): string {
    XML_DECLARATION + PARTIAL_RESPONSE_OPEN + RedirectElement(url) + PARTIAL_RESPONSE_CLOSE
  }

  /** The document opens with the XML declaration and the partial-response tag, and closes that tag. */
  lemma PartialResponseEnvelope(url: Option<string>)
    ensures StartsWith(PartialResponse(url), XML_DECLARATION + PARTIAL_RESPONSE_OPEN)
    ensures EndsWith(PartialResponse(url), PARTIAL_RESPONSE_CLOSE)
  {
    Framed(XML_DECLARATION + PARTIAL_RESPONSE_OPEN, RedirectElement(url), PARTIAL_RESPONSE_CLOSE);
  }

  /**
   * Reads the redirection URL back from a partial-response document: the
   * unescaped attribute of its redirect element, if it has one.
   */
  function RedirectTarget(content: string): Option<string> {
    var head := XML_DECLARATION + PARTIAL_RESPONSE_OPEN + REDIRECT_OPEN;
    var tail := REDIRECT_CLOSE + PARTIAL_RESPONSE_CLOSE;
    if |head| + |tail| <= |content| && StartsWith(content, head) && EndsWith(content, tail)
    then Some(UnescapeAmp(content[|head|..|content| - |tail|]))
    else None
  }

  /** A text framed by `head` and `tail` starts and ends with them, and what lies between is the middle. */
  lemma Framed(head: string, middle: string, tail: string)
    ensures var c := head + middle + tail;
            && |head| + |tail| <= |c| && StartsWith(c, head) && EndsWith(c, tail)
            && c[|head|..|c| - |tail|] == middle
  {
    var c := head + middle + tail;
    assert c[..|head|] == head;
    assert c[|c| - |tail|..] == tail;
    assert c[|head|..|c| - |tail|] == middle;
  }

  /** For a non-blank URL the document has a redirect element, and it gives back the URL unchanged. */
  lemma PartialResponseRedirects(url: Option<string>)
    requires IsNotBlank(url)
    ensures RedirectTarget(PartialResponse(url)) == Some(url.value)
  {
    var escaped := EscapeAmp(url.value);
    Regroup(XML_DECLARATION, PARTIAL_RESPONSE_OPEN, REDIRECT_OPEN, escaped, REDIRECT_CLOSE, PARTIAL_RESPONSE_CLOSE);
    RedirectTargetOfFrame(escaped);
    EscapeAmpRoundTrip(url.value);
  }

  /** The redirect element, placed in the envelope, is the attribute framed by the fixed head and tail. */
  lemma Regroup(a: string, b: string, c: string, m: string, d: string, e: string)
    ensures a + b + (c + m + d) + e == (a + b + c) + m + (d + e)
  {
  }

  /** Whatever the attribute text, reading back the framed document unescapes it. */
  lemma RedirectTargetOfFrame(escaped: string)
    ensures RedirectTarget((XML_DECLARATION + PARTIAL_RESPONSE_OPEN + REDIRECT_OPEN) + escaped
                           + (REDIRECT_CLOSE + PARTIAL_RESPONSE_CLOSE)) == Some(UnescapeAmp(escaped))
  {
    Framed(XML_DECLARATION + PARTIAL_RESPONSE_OPEN + REDIRECT_OPEN, escaped, REDIRECT_CLOSE + PARTIAL_RESPONSE_CLOSE);
  }

  /** For a blank or null URL the document has no redirect element. */
  lemma PartialResponseWithoutRedirect(url: Option<string>)
    requires IsBlank(url)
    ensures RedirectTarget(PartialResponse(url)) == None
  {
    var head := XML_DECLARATION + PARTIAL_RESPONSE_OPEN + REDIRECT_OPEN;
    var envelope := XML_DECLARATION + PARTIAL_RESPONSE_OPEN;
    var content := PartialResponse(url);
    assert content == envelope + PARTIAL_RESPONSE_CLOSE;
    assert content[|envelope| + 1] == '/';
    assert head[|envelope| + 1] == 'r';
    DifferenceRulesOutPrefix(content, head, |envelope| + 1);
  }

  class DefaultAjaxRequestResolver {
    var addRedirectionUrlAsHeader: bool

    constructor ()
      ensures !addRedirectionUrlAsHeader
    {
      addRedirectionUrlAsHeader := false;
    }

    method SetAddRedirectionUrlAsHeader(addRedirectionUrlAsHeader: bool)
      modifies this
      ensures this.addRedirectionUrlAsHeader == addRedirectionUrlAsHeader
    {
      this.addRedirectionUrlAsHeader := addRedirectionUrlAsHeader;
    }

    /**
     * `buildAjaxResponse`. `redirection` is what the redirection action
     * builder returns for this request; it is looked at only when the flag is set.
     * Without the faces parameter, `Location` is written for a non-blank URL and
     * the request is denied; with it, the partial-response document is returned
     * and no header is written.
     */
    method BuildAjaxResponse(context: WebContext, redirection: Option<RedirectionAction>) returns (action: HttpAction)
      modifies context
      ensures var url := CapturedUrl(addRedirectionUrlAsHeader, redirection);
        && (FACES_PARTIAL_AJAX_PARAMETER !in context.request.parameters ==>
              action == UnauthenticatedAction
              && context.responseHeaders
                 == if IsNotBlank(url) then old(context.responseHeaders)[LOCATION_HEADER := url.value]
                    else old(context.responseHeaders))
        && (FACES_PARTIAL_AJAX_PARAMETER in context.request.parameters ==>
              action == FormPostContentAction(PartialResponse(url))
              && context.responseHeaders == old(context.responseHeaders))
    {
      var url: Option<string> := None;
      if addRedirectionUrlAsHeader {
        if redirection.Some? && redirection.value.WithLocationAction? {
          url := Some(redirection.value.location);
        }
      }

      if RequestParameter(context.request, FACES_PARTIAL_AJAX_PARAMETER).None? {
        if IsNotBlank(url) {
          context.SetResponseHeader(LOCATION_HEADER, url.value);
        }
        return UnauthenticatedAction;
      }

      var buffer := XML_DECLARATION;
      buffer := buffer + PARTIAL_RESPONSE_OPEN;
      if IsNotBlank(url) {
        buffer := buffer + (REDIRECT_OPEN + EscapeAmp(url.value) + REDIRECT_CLOSE);
      }
      buffer := buffer + PARTIAL_RESPONSE_CLOSE;
      return FormPostContentAction(buffer);
    }
  }
}
