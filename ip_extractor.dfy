/**
 * The IP extractor: turns the caller's IP address into token credentials.
 * With no alternate headers configured the remote address is used; otherwise
 * the first non-empty alternate header is used, but only when the proxy check
 * is disabled or the request comes from the trusted proxy.
 */
module IpExtraction {
  import opened Wrappers
  import opened Web

  /** The message of the exception `setAlternateIpHeaders(null)` throws. */
  const ALTERNATE_IP_HEADERS_NULL_MESSAGE := "alternateIpHeaders cannot be null"

  /** The header `name` is present in the request with a non-empty value. */
  predicate Yields(request: Request, name: string) {
    name in request.headers && request.headers[name] != ""
  }

  /** The value of the first header of `names`, in order, that is present and non-empty. */
  function FirstNonEmptyHeader(request: Request, names: seq<string>): (r: Option<string>)
    ensures r.Some? ==> r.value != ""
  {
    if names == [] then None
    else if Yields(request, names[0]) then Some(request.headers[names[0]])
    else FirstNonEmptyHeader(request, names[1..])
  }

  /**
   * The scan finds a value iff some header yields one, and then it is the
   * value of the first such header in configured order.
   */
  lemma {:induction false} FirstNonEmptyHeaderIsFirst(request: Request, names: seq<string>)
    ensures FirstNonEmptyHeader(request, names).Some?
        <==> exists i :: 0 <= i < |names| && Yields(request, names[i])
    ensures forall i :: 0 <= i < |names| && Yields(request, names[i])
                        && (forall j :: 0 <= j < i ==> !Yields(request, names[j]))
                        ==> FirstNonEmptyHeader(request, names) == Some(request.headers[names[i]])
  {
    if names != [] {
      FirstNonEmptyHeaderIsFirst(request, names[1..]);
      if !Yields(request, names[0]) {
        forall i | 0 < i < |names| && Yields(request, names[i])
          ensures Yields(request, names[1..][i - 1])
        {
        }
        forall i | 0 <= i < |names| - 1 && Yields(request, names[1..][i])
          ensures Yields(request, names[i + 1])
        {
        }
      }
    }
  }

  /** What `extract` returns for the given configuration and request. */
  function ExtractedIp(alternateIpHeaders: seq<string>, proxyIp: string, request: Request): Option<string> {
    if alternateIpHeaders == [] then request.remoteAddr
    else if proxyIp == "" || request.remoteAddr == Some(proxyIp) then
      FirstNonEmptyHeader(request, alternateIpHeaders)
    else None
  }

  /** The credentials `extract` builds around the extracted IP. */
  function ExtractedCredentials(alternateIpHeaders: seq<string>, proxyIp: string, request: Request): Option<Credentials> {
    match ExtractedIp(alternateIpHeaders, proxyIp, request)
    case None => None
    case Some(ip) => Some(TokenCredentials(ip))
  }

  /** Without alternate headers the remote address is the token, and a missing one gives nothing. */
  lemma NoHeadersUsesRemoteAddr(proxyIp: string, request: Request)
    ensures ExtractedCredentials([], proxyIp, request).Some? <==> request.remoteAddr.Some?
    ensures request.remoteAddr.Some? ==>
              ExtractedCredentials([], proxyIp, request) == Some(TokenCredentials(request.remoteAddr.value))
  {
  }

  /** A non-empty proxy IP that differs from the remote address blocks extraction whatever the headers hold. */
  lemma UntrustedProxyYieldsNothing(alternateIpHeaders: seq<string>, proxyIp: string, request: Request)
    requires alternateIpHeaders != [] && proxyIp != "" && request.remoteAddr != Some(proxyIp)
    ensures ExtractedCredentials(alternateIpHeaders, proxyIp, request) == None
  {
  }

  /**
   * When the headers are trusted (no proxy check, or the request comes from
   * the proxy), the token is the first present, non-empty header in order.
   */
  lemma TrustedHeadersAreScannedInOrder(alternateIpHeaders: seq<string>, proxyIp: string, request: Request, i: nat)
    requires alternateIpHeaders != []
    requires proxyIp == "" || request.remoteAddr == Some(proxyIp)
    requires i < |alternateIpHeaders| && Yields(request, alternateIpHeaders[i])
    requires forall j :: 0 <= j < i ==> !Yields(request, alternateIpHeaders[j])
    ensures ExtractedCredentials(alternateIpHeaders, proxyIp, request)
         == Some(TokenCredentials(request.headers[alternateIpHeaders[i]]))
  {
    FirstNonEmptyHeaderIsFirst(request, alternateIpHeaders);
  }

  /** When no alternate header yields a value the result is empty: there is no fallback to the remote address. */
  lemma NoFallbackToRemoteAddr(alternateIpHeaders: seq<string>, proxyIp: string, request: Request)
    requires alternateIpHeaders != []
    requires forall j :: 0 <= j < |alternateIpHeaders| ==> !Yields(request, alternateIpHeaders[j])
    ensures ExtractedCredentials(alternateIpHeaders, proxyIp, request) == None
  {
    FirstNonEmptyHeaderIsFirst(request, alternateIpHeaders);
  }

  /** A token taken from the headers is never empty. */
  lemma HeaderTokenIsNonEmpty(alternateIpHeaders: seq<string>, proxyIp: string, request: Request)
    requires alternateIpHeaders != []
    requires ExtractedCredentials(alternateIpHeaders, proxyIp, request).Some?
    ensures ExtractedCredentials(alternateIpHeaders, proxyIp, request).value.token != ""
  {
  }

  class IpExtractor {
    var alternateIpHeaders: seq<string>
    var proxyIp: string

    /** No alternate headers and the proxy check disabled. */
    constructor ()
      ensures alternateIpHeaders == [] && proxyIp == ""
    {
      alternateIpHeaders := [];
      proxyIp := "";
    }

    constructor WithHeaders(alternateIpHeaders: seq<string>)
      ensures this.alternateIpHeaders == alternateIpHeaders && proxyIp == ""
    {
      this.alternateIpHeaders := alternateIpHeaders;
      proxyIp := "";
    }

    /** `null` is stored as the empty string, which disables the proxy check. */
    method SetProxyIp(proxyIp: Option<string>)
      modifies this
      ensures this.proxyIp == proxyIp.GetOr("")
      ensures alternateIpHeaders == old(alternateIpHeaders)
    {
      this.proxyIp := proxyIp.GetOr("");
    }

    /** A `null` array is refused and leaves the configuration as it was; otherwise the list is replaced. */
    method SetAlternateIpHeaders(alternateIpHeaders: Option<seq<string>>) returns (outcome: Outcome)
      modifies this
      ensures alternateIpHeaders.None? ==>
                outcome == Fail(TechnicalError(ALTERNATE_IP_HEADERS_NULL_MESSAGE))
                && this.alternateIpHeaders == old(this.alternateIpHeaders)
      ensures alternateIpHeaders.Some? ==>
                outcome == Pass && this.alternateIpHeaders == alternateIpHeaders.value
      ensures proxyIp == old(proxyIp)
    {
      if alternateIpHeaders.None? {
        return Fail(TechnicalError(ALTERNATE_IP_HEADERS_NULL_MESSAGE));
      }
      this.alternateIpHeaders := alternateIpHeaders.value;
      outcome := Pass;
    }

    /** `ipFromHeaders`: the configured headers are read in order and the first non-empty one wins. */
    method IpFromHeaders(context: WebContext) returns (ip: Option<string>)
      ensures ip == FirstNonEmptyHeader(context.request, alternateIpHeaders)
    {
      for i := 0 to |alternateIpHeaders|
        invariant FirstNonEmptyHeader(context.request, alternateIpHeaders)
               == FirstNonEmptyHeader(context.request, alternateIpHeaders[i..])
      {
        var header := alternateIpHeaders[i];
        ip := RequestHeader(context.request, header);
        if ip.Some? && ip.value != "" {
          return;
        }
        assert alternateIpHeaders[i..][1..] == alternateIpHeaders[i + 1..];
      }
      return None;
    }

    /** `extract`: the IP chosen by the trust rule, as token credentials. */
    method Extract(context: WebContext) returns (credentials: Option<Credentials>)
      ensures credentials == ExtractedCredentials(alternateIpHeaders, proxyIp, context.request)
    {
      var ip: Option<string>;
      if alternateIpHeaders == [] {
        ip := context.request.remoteAddr;
      } else {
        var requestSourceIp := context.request.remoteAddr;
        if proxyIp == "" {
          ip := IpFromHeaders(context);
        } else if requestSourceIp == Some(proxyIp) {
          ip := IpFromHeaders(context);
        } else {
          ip := None;
        }
      }
      if ip.None? {
        return None;
      }
      return Some(TokenCredentials(ip.value));
    }
  }
}
