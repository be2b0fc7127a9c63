/** Values shared by the dispatcher, the container response and the HEAD shim. */
module HttpTypes {

  /** The seven request methods HttpServlet knows (section 9 of RFC 2616). */
  datatype Verb = GET | HEAD | POST | PUT | DELETE | OPTIONS | TRACE

  /** The METHOD_* constants. */
  function Token(v: Verb): string
  {
    match v
    case GET => "GET"
    case HEAD => "HEAD"
    case POST => "POST"
    case PUT => "PUT"
    case DELETE => "DELETE"
    case OPTIONS => "OPTIONS"
    case TRACE => "TRACE"
  }

  lemma TokenInjective(v: Verb, w: Verb)
    ensures Token(v) == Token(w) <==> v == w
  {
  }

  const SC_OK := 200
  const SC_NOT_MODIFIED := 304
  const SC_BAD_REQUEST := 400
  const SC_METHOD_NOT_ALLOWED := 405
  const SC_NOT_IMPLEMENTED := 501

  /**
   * The localized messages, as the resource-bundle key and the arguments
   * MessageFormat fills in. The rendered text is not modelled.
   */
  datatype Message =
    | MethodNotSupported(verb: Verb)          // http.method_{get,post,put,delete}_not_supported
    | MethodNotImplemented(methodName: string) // http.method_not_implemented, {0} = the method
    | IseGetOutputStream                      // err.ise.getOutputStream
    | IseGetWriter                            // err.ise.getWriter
    | IoNullArray                             // err.io.nullArray
    | IoIndexOutOfBounds(offset: int, len: int, bufLength: int)  // err.io.indexOutOfBounds

  /** The exceptions the core throws. */
  datatype Failure =
    | ServletException(text: string)
    | IOException(text: string)
    | IllegalState(msg: Message)
    | NullPointer(msg: Message)
    | IndexOutOfBounds(msg: Message)

  /** A response header value as set by setHeader, setIntHeader or setDateHeader. */
  datatype HeaderValue = Text(s: string) | Number(n: int) | Date(millis: int)

  /**
   * What the dispatcher reads from an HttpServletRequest: getMethod (methodName),
   * getRequestURI, getProtocol, the header names in the order getHeaderNames
   * enumerates them each paired with getHeader of that name, and
   * getDateHeader("If-Modified-Since") as the container parsed it (-1 when
   * the header is absent).
   */
  datatype Request = Request(
    methodName: string,
    uri: string,
    protocol: string,
    headers: seq<(string, string)>,
    ifModifiedSince: int)
}
