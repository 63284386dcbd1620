/**
 * The web context the core reads and writes: an immutable request and a
 * response whose headers are updated in place. Header and parameter names
 * are looked up exactly as given.
 */
module Web {
  import opened Wrappers

  datatype Request = Request(
    headers: map<string, string>,
    parameters: map<string, string>,
    remoteAddr: Option<string>,
    requestMethod: string,
    path: string)

  /** `WebContext.getRequestHeader`. */
  function RequestHeader(request: Request, name: string): (r: Option<string>)
    ensures r.Some? <==> name in request.headers
  {
    if name in request.headers then Some(request.headers[name]) else None
  }

  /** `WebContext.getRequestParameter`. */
  function RequestParameter(request: Request, name: string): (r: Option<string>)
    ensures r.Some? <==> name in request.parameters
  {
    if name in request.parameters then Some(request.parameters[name]) else None
  }

  /** The credentials an extractor produces. */
  datatype Credentials =
    | TokenCredentials(token: string)
    | DigestCredentials(
        response: string, httpMethod: string, username: string,
        realm: Option<string>, nonce: Option<string>, uri: Option<string>,
        cnonce: Option<string>, nc: Option<string>, qop: Option<string>)

  /** The HTTP methods a CORS configuration may allow; the name is the enum constant's. */
  datatype HttpMethod = GET | POST | HEAD | TRACE | PUT | DELETE | OPTIONS | PATCH {
    function Name(): (n: string)
      ensures n != [] && ',' !in n && n[0] != ' '
    {
      match this
      case GET => "GET"
      case POST => "POST"
      case HEAD => "HEAD"
      case TRACE => "TRACE"
      case PUT => "PUT"
      case DELETE => "DELETE"
      case OPTIONS => "OPTIONS"
      case PATCH => "PATCH"
    }
  }

  class WebContext {
    const request: Request
    var responseHeaders: map<string, string>

    constructor (request: Request)
      ensures this.request == request && responseHeaders == map[]
    {
      this.request := request;
      responseHeaders := map[];
    }

    /** `WebContext.setResponseHeader`: the last value written for a name wins. */
    method SetResponseHeader(name: string, value: string)
      modifies this
      ensures responseHeaders == old(responseHeaders)[name := value]
    {
      responseHeaders := responseHeaders[name := value];
    }
  }
}
