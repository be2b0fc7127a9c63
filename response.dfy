/**
 * The container's HttpServletResponse, reduced to a record of what the core
 * sets on it. Header names are kept lower-cased, so lookups ignore case as
 * section 4.2 of RFC 2616 asks.
 */
module Container {
  import opened Wrappers
  import opened Text
  import opened HttpTypes

  /** Everything the core can observe or change on a response, as a value. */
  datatype State = State(
    status: int,
    error: Option<Message>,
    headers: map<string, seq<HeaderValue>>,
    contentType: Option<string>,
    contentLength: Option<int>,
    body: string)

  class Response {
    /** Whether the object is an HttpServletResponse at all. */
    const http: bool
    var status: int
    var error: Option<Message>
    var headers: map<string, seq<HeaderValue>>
    var contentType: Option<string>
    var contentLength: Option<int>
    /** What was printed to the response's output stream. */
    var body: string

    constructor (http: bool)
      ensures this.http == http && status == SC_OK && error == None
      ensures headers == map[] && contentType == None && contentLength == None && body == []
    {
      this.http := http;
      status := SC_OK;
      error := None;
      headers := map[];
      contentType := None;
      contentLength := None;
      body := [];
    }

    function Snapshot(): State
      reads this
    {
      State(status, error, headers, contentType, contentLength, body)
    }

    predicate ContainsHeader(name: string)
      reads this
    {
      Lower(name) in headers
    }

    method SetStatus(code: int)
      modifies this`status
      ensures status == code
    {
      status := code;
    }

    method SendError(code: int, msg: Message)
      modifies this`status, this`error
      ensures status == code && error == Some(msg)
    {
      status := code;
      error := Some(msg);
    }

    /** setHeader, setIntHeader and setDateHeader: replace every value of the name. */
    method SetHeader(name: string, value: HeaderValue)
      modifies this`headers
      ensures headers == old(headers)[Lower(name) := [value]]
    {
      headers := headers[Lower(name) := [value]];
    }

    /** addHeader and addIntHeader: keep the values already there. */
    method AddHeader(name: string, value: HeaderValue)
      modifies this`headers
      ensures headers == old(headers)[Lower(name) := Values(old(headers), name) + [value]]
    {
      headers := headers[Lower(name) := Values(headers, name) + [value]];
    }

    static function Values(hs: map<string, seq<HeaderValue>>, name: string): seq<HeaderValue>
    {
      if Lower(name) in hs then hs[Lower(name)] else []
    }

    method SetContentType(t: string)
      modifies this`contentType
      ensures contentType == Some(t)
    {
      contentType := Some(t);
    }

    /** setContentLength and setContentLengthLong. */
    method SetContentLength(len: int)
      modifies this`contentLength
      ensures contentLength == Some(len)
    {
      contentLength := Some(len);
    }

    /** getOutputStream().print(s) */
    method Print(s: string)
      modifies this`body
      ensures body == old(body) + s
    {
      body := body + s;
    }
  }
}
