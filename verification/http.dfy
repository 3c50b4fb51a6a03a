/** The HTTP vocabulary the core works in: methods, header entries, URLs and
    error responses. These are the types of the web framework and the HTTP
    client; only the parts the core inspects are modelled. */
module Http {
  import opened Results
  import Errors

  newtype byte = b: int | 0 <= b < 256

  type Bytes = seq<byte>

  /** A request method: the nine standard ones, or an extension token. */
  datatype Method =
    | Options | Get | Post | Put | Delete | Head | Trace | Connect | Patch
    | Extension(token: string)

  function MethodName(m: Method): string {
    match m
    case Options => "OPTIONS"
    case Get => "GET"
    case Post => "POST"
    case Put => "PUT"
    case Delete => "DELETE"
    case Head => "HEAD"
    case Trace => "TRACE"
    case Connect => "CONNECT"
    case Patch => "PATCH"
    case Extension(token) => token
  }

  /** A `tchar` of section 5.6.2 of RFC 9110, the characters of a method token. */
  predicate IsTokenChar(c: char) {
    || 'a' <= c <= 'z' || 'A' <= c <= 'Z' || '0' <= c <= '9'
    || c in "!#$%&'*+-.^_`|~"
  }

  /** The names of the nine standard methods. */
  const StandardNames: set<string> :=
    {"OPTIONS", "GET", "POST", "PUT", "DELETE", "HEAD", "TRACE", "CONNECT", "PATCH"}

  /** `Method::from_str`: the standard names map to their variants, any other
      non-empty token to an extension method, anything else is rejected. */
  function MethodFromStr(s: string): (r: Option<Method>)
    ensures r.Some? ==> MethodName(r.value) == s
    ensures r.Some? <==> |s| > 0 && forall i :: 0 <= i < |s| ==> IsTokenChar(s[i])
    ensures r.Some? ==> (r.value.Extension? <==> s !in StandardNames)
  {
    if s == "OPTIONS" then Some(Options)
    else if s == "GET" then Some(Get)
    else if s == "POST" then Some(Post)
    else if s == "PUT" then Some(Put)
    else if s == "DELETE" then Some(Delete)
    else if s == "HEAD" then Some(Head)
    else if s == "TRACE" then Some(Trace)
    else if s == "CONNECT" then Some(Connect)
    else if s == "PATCH" then Some(Patch)
    else if |s| > 0 && forall i | 0 <= i < |s| :: IsTokenChar(s[i]) then Some(Extension(s))
    else None
  }

  /** A name the way a header map stores it: no upper-case ASCII letter. */
  predicate IsStoredName(name: string) {
    forall i :: 0 <= i < |name| ==> !('A' <= name[i] <= 'Z')
  }

  /** A header name as the header map holds it, so in lower case; a name
      received as `Host` is stored, and compared, as `host`. */
  type HeaderName = name: string | IsStoredName(name)

  /** One header line: its stored name and its raw value bytes. A header map
      is modelled as the sequence of its entries, repeated names included. */
  datatype Header = Header(name: HeaderName, value: Bytes)

  /** Every standard method's own name parses to that method, never to an
      extension method of the same name. */
  lemma StandardNameParses(m: Method)
    requires !m.Extension?
    ensures MethodFromStr(MethodName(m)) == Some(m)
  {
  }

  datatype Url = Url(href: string)

  /** Why a stream of request-body chunks broke off (the framework's payload error kinds). */
  datatype PayloadError = Incomplete | EncodingCorrupted | Overflow | UnknownLength | Http2Payload | Io

  /** What caused an error response. */
  datatype Cause =
    | PayloadFailed(payload: PayloadError)  // the inbound body could not be read
    | QueryRejected                          // the query string did not decode
    | Crate(error: Errors.Error)             // an error of the proxy itself
    | UpstreamFailed(message: string)        // the outbound call did not complete

  /** An error turned into an HTTP response with the given status. */
  datatype ErrorResponse = ErrorResponse(status: nat, cause: Cause)

  const BadRequestStatus: nat := 400
  const NotFoundStatus: nat := 404

  /** `ErrorBadRequest`: wraps any error as a 400 response. */
  function BadRequest(cause: Cause): ErrorResponse {
    ErrorResponse(BadRequestStatus, cause)
  }
}
