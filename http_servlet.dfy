/**
 * HttpServlet itself: service() picks a handler by the request method,
 * answers conditional GETs, and falls back on the handlers HttpServlet
 * defines when the concrete servlet does not override them.
 */
module HttpServlet {
  import opened Wrappers
  import opened Text
  import opened HttpTypes
  import opened Container
  import opened NoBody
  import opened Head
  import opened Options
  import opened Trace

  const HEADER_LASTMOD := "Last-Modified"
  const NON_HTTP := "non-HTTP request or response"

  /**
   * What the model knows of a concrete servlet serving one request: the
   * names its classes below HttpServlet declare (the servlet's own class
   * first), the methods whose doXxx(HttpServletRequest, HttpServletResponse)
   * it overrides, what its getLastModified returns for the request, and the
   * calls its doGet makes on the response it is handed.
   */
  datatype Servlet = Servlet(hierarchy: seq<seq<string>>, overrides: set<Verb>, lastModified: int, getCalls: seq<Call>)
  {
    /**
     * Whether some class of the servlet declares a method of that name, with
     * any parameters: the test doOptions makes through reflection.
     */
    predicate Declares(name: string)
    {
      name in DeclaredMethods(hierarchy)
    }

    /** An overriding handler is a declared method of the handler's name. */
    predicate Valid()
    {
      forall v :: v in overrides ==> Declares(HandlerName(v))
    }
  }

  /** The handler service() calls for each method. */
  function HandlerName(v: Verb): string
  {
    match v
    case GET => "doGet"
    case HEAD => "doHead"
    case POST => "doPost"
    case PUT => "doPut"
    case DELETE => "doDelete"
    case OPTIONS => "doOptions"
    case TRACE => "doTrace"
  }

  /** How service() ended, as far as the model follows it. */
  datatype Ending =
    | Completed              // the handler HttpServlet defines ran to the end
    | Threw(failure: Failure) // an exception left service()
    | Delegated(verb: Verb)  // the servlet's own handler for the method took over

  /** The method-name comparisons of service(); they are case-sensitive. */
  function ParseVerb(methodName: string): (r: Option<Verb>)
    ensures r.Some? ==> Token(r.value) == methodName
    ensures r.None? ==> forall v :: Token(v) != methodName
  {
    if methodName == Token(GET) then Some(GET)
    else if methodName == Token(HEAD) then Some(HEAD)
    else if methodName == Token(POST) then Some(POST)
    else if methodName == Token(PUT) then Some(PUT)
    else if methodName == Token(DELETE) then Some(DELETE)
    else if methodName == Token(OPTIONS) then Some(OPTIONS)
    else if methodName == Token(TRACE) then Some(TRACE)
    else None
  }

  /** Every method token is recognised as itself. */
  lemma ParseVerbToken(v: Verb)
    ensures ParseVerb(Token(v)) == Some(v)
  {
    TokenInjective(ParseVerb(Token(v)).value, v);
  }

  /** Where service() sends a request. */
  datatype Route = Handle(verb: Verb) | NotModified | NotImplemented(methodName: string)

  /**
   * The branches of service(): conditional GET when getLastModified is not
   * -1, 501 for a method it does not know, otherwise the method's handler.
   */
  function Select(methodName: string, lastModified: int, ifModifiedSince: int): (r: Route)
    ensures r == NotModified <==> methodName == "GET" && lastModified != -1 && ifModifiedSince >= lastModified
    ensures r.NotImplemented? <==> ParseVerb(methodName).None?
    ensures r.NotImplemented? ==> r.methodName == methodName
    ensures r.Handle? ==> ParseVerb(methodName) == Some(r.verb)
  {
    match ParseVerb(methodName)
    case None => NotImplemented(methodName)
    case Some(v) =>
      if v != GET || lastModified == -1 then Handle(v)
      else if ifModifiedSince < lastModified then Handle(GET)
      else NotModified
  }

  /** Without a last-modified time every GET is answered in full. */
  lemma UnconditionalWithoutLastModified(ifModifiedSince: int)
    ensures Select("GET", -1, ifModifiedSince) == Handle(GET)
  {
  }

  /** For a real time, 304 exactly when the client's copy is at least as new. */
  lemma ConditionalGet(lastModified: int, ifModifiedSince: int)
    requires lastModified >= 0
    ensures Select("GET", lastModified, ifModifiedSince) == NotModified <==> ifModifiedSince >= lastModified
  {
  }

  /** A request without If-Modified-Since (-1) gets the full answer when the time is real. */
  lemma AbsentHeaderServes(lastModified: int)
    requires lastModified >= 0
    ensures Select("GET", lastModified, -1) == Handle(GET)
  {
  }

  /**
   * A negative time other than -1 is compared all the same: a request
   * without If-Modified-Since then gets 304.
   */
  lemma NegativeLastModifiedAnswers304()
    ensures Select("GET", -2, -1) == NotModified
  {
  }

  /**
   * The times are compared to the millisecond: a resource changed 500 ms
   * into the second the client holds is sent again, although both fall in
   * the same second; rounded down to the second it would get 304.
   */
  lemma ComparedToTheMillisecond()
    ensures Select("GET", 1500, 1000) == Handle(GET)
    ensures Select("GET", (1500 / 1000) * 1000, 1000) == NotModified
  {
  }

  /** Method names are matched exactly: a lower-case "get" is not implemented. */
  lemma MethodNamesAreCaseSensitive(lastModified: int, ifModifiedSince: int)
    ensures Select("get", lastModified, ifModifiedSince) == NotImplemented("get")
  {
  }

  /** The status the inherited doGet, doPost, doPut and doDelete send. */
  function DefaultStatus(protocol: string): (code: int)
    ensures code == SC_METHOD_NOT_ALLOWED <==> EndsWith(protocol, "1.1")
    ensures code == SC_METHOD_NOT_ALLOWED || code == SC_BAD_REQUEST
  {
    if EndsWith(protocol, "1.1") then SC_METHOD_NOT_ALLOWED else SC_BAD_REQUEST
  }

  /** Only a protocol ending in "1.1" gets 405; HTTP/1.0 and HTTP/2.0 get 400. */
  lemma DefaultStatusByProtocol()
    ensures DefaultStatus("HTTP/1.1") == SC_METHOD_NOT_ALLOWED
    ensures DefaultStatus("HTTP/1.0") == SC_BAD_REQUEST
    ensures DefaultStatus("HTTP/2.0") == SC_BAD_REQUEST
  {
    assert "HTTP/1.1"[5..] == "1.1";
    assert "HTTP/1.0"[5..] != "1.1";
    assert "HTTP/2.0"[5..] != "1.1";
  }

  /** The headers after maybeSetLastModified. */
  function WithLastModified(hs: map<string, seq<HeaderValue>>, lastModified: int): map<string, seq<HeaderValue>>
  {
    if Lower(HEADER_LASTMOD) in hs then hs
    else if lastModified >= 0 then hs[Lower(HEADER_LASTMOD) := [Date(lastModified)]]
    else hs
  }

  /**
   * maybeSetLastModified never replaces a Last-Modified already there,
   * adds one only for a time that is not negative, and leaves every other
   * header alone.
   */
  lemma LastModifiedFacts(hs: map<string, seq<HeaderValue>>, lastModified: int)
    ensures var r := WithLastModified(hs, lastModified);
      && (forall name :: name != Lower(HEADER_LASTMOD) ==> (name in r <==> name in hs))
      && (forall name :: name != Lower(HEADER_LASTMOD) && name in hs ==> r[name] == hs[name])
      && (Lower(HEADER_LASTMOD) in hs ==> r == hs)
      && (Lower(HEADER_LASTMOD) in r <==> Lower(HEADER_LASTMOD) in hs || lastModified >= 0)
      && (Lower(HEADER_LASTMOD) !in hs && lastModified >= 0 ==> r[Lower(HEADER_LASTMOD)] == [Date(lastModified)])
  {
  }

  /** Once a time is set, a later call changes nothing. */
  lemma FirstLastModifiedWins(hs: map<string, seq<HeaderValue>>, first: int, second: int)
    requires first >= 0
    ensures WithLastModified(WithLastModified(hs, first), second) == WithLastModified(hs, first)
  {
  }

  /** The headers after doOptions. */
  function WithAllow(s: Servlet, hs: map<string, seq<HeaderValue>>): map<string, seq<HeaderValue>>
  {
    hs[Lower("Allow") := [Text(AllowValue(FlagsFor(DeclaredMethods(s.hierarchy))))]]
  }

  /** The default doHead: what the shim counted, or the inherited doGet's error. */
  ghost predicate HeadServed(s: Servlet, req: Request, before: State, after: State, e: Ending)
  {
    if GET !in s.overrides then
      e == Completed
      && after == before.(status := DefaultStatus(req.protocol), error := Some(MethodNotSupported(GET)), contentLength := Some(0))
    else
      // the wrapped response ends as doGet's calls leave it, plus the counted length
      var summary := Replay(before, s.getCalls);
      && (e.Threw? <==> summary.failure.Some?)
      && (e.Threw? ==> e.failure == summary.failure.value && after == summary.resp)
      && (!e.Threw? ==> e == Completed)
      && (e == Completed && summary.setLength ==> after == summary.resp)
      && (e == Completed && !summary.setLength ==> after == summary.resp.(contentLength := Some(summary.produced)))
  }

  /** The handler HttpServlet defines for a method, run from state `before`. */
  ghost predicate Handled(s: Servlet, req: Request, v: Verb, before: State, after: State, e: Ending)
  {
    match v
    case HEAD => HeadServed(s, req, before, after, e)
    case OPTIONS => e == Completed && after == before.(headers := WithAllow(s, before.headers))
    case TRACE =>
      var msg := TraceMessage(req.uri, req.protocol, req.headers);
      e == Completed
      && after == before.(contentType := Some("message/http"), contentLength := Some(|msg|), body := before.body + msg)
    case _ =>
      e == Completed && after == before.(status := DefaultStatus(req.protocol), error := Some(MethodNotSupported(v)))
  }

  /**
   * What service() does to a response in state `before`: the route Select
   * picks; Last-Modified set first for a full GET or a HEAD; then the
   * servlet's own handler, which the model does not follow, or the one
   * HttpServlet defines.
   */
  ghost predicate Served(s: Servlet, req: Request, before: State, after: State, e: Ending)
  {
    match Select(req.methodName, s.lastModified, req.ifModifiedSince)
    case NotModified => e == Completed && after == before.(status := SC_NOT_MODIFIED)
    case NotImplemented(m) =>
      e == Completed && after == before.(status := SC_NOT_IMPLEMENTED, error := Some(MethodNotImplemented(m)))
    case Handle(v) =>
      var marked := if v == GET || v == HEAD then before.(headers := WithLastModified(before.headers, s.lastModified)) else before;
      if v in s.overrides then e == Delegated(v) && after == marked
      else Handled(s, req, v, marked, after, e)
  }

  /** Only a TRACE answered by HttpServlet itself writes a body. */
  lemma OnlyTraceWritesBody(s: Servlet, req: Request, before: State, after: State, e: Ending)
    requires Served(s, req, before, after, e)
    requires after.body != before.body
    ensures Select(req.methodName, s.lastModified, req.ifModifiedSince) == Handle(TRACE)
    ensures TRACE !in s.overrides
    ensures after.body == before.body + TraceMessage(req.uri, req.protocol, req.headers)
  {
    ReplayKeepsBody(before.(headers := WithLastModified(before.headers, s.lastModified)), s.getCalls);
  }

  /**
   * A HEAD answered through the servlet's doGet, when no call sets the
   * length itself, reports as Content-Length exactly the bytes doGet wrote,
   * and no body.
   */
  lemma HeadReportsGetLength(s: Servlet, req: Request, before: State, after: State, e: Ending)
    requires Served(s, req, before, after, e)
    requires Select(req.methodName, s.lastModified, req.ifModifiedSince) == Handle(HEAD)
    requires HEAD !in s.overrides && GET in s.overrides
    requires e == Completed
    requires forall k :: 0 <= k < |s.getCalls| ==> !SetsLength(s.getCalls[k])
    ensures after.contentLength == Some(TotalBytes(s.getCalls))
    ensures after.body == before.body
  {
    var marked := before.(headers := WithLastModified(before.headers, s.lastModified));
    SetLengthIffSomeCall(marked, s.getCalls);
    ProducedIsTotal(marked, s.getCalls);
    ReplayKeepsBody(marked, s.getCalls);
  }

  /**
   * A HEAD answered through the servlet's doGet reports the length doGet's
   * last setContentLength or setContentLengthLong set, when it set one.
   */
  lemma HeadReportsLengthSet(s: Servlet, req: Request, before: State, after: State, e: Ending, k: nat)
    requires Served(s, req, before, after, e)
    requires Select(req.methodName, s.lastModified, req.ifModifiedSince) == Handle(HEAD)
    requires HEAD !in s.overrides && GET in s.overrides
    requires e == Completed
    requires k < |s.getCalls| && SetsLengthField(s.getCalls[k])
    requires forall j :: k < j < |s.getCalls| ==> !SetsLengthField(s.getCalls[j])
    ensures after.contentLength == Some(s.getCalls[k].len)
  {
    var marked := before.(headers := WithLastModified(before.headers, s.lastModified));
    SetLengthIffSomeCall(marked, s.getCalls);
    ReplayForwards(marked, s.getCalls);
    LastLengthWins(marked, s.getCalls, k);
  }

  /**
   * The Last-Modified header service() sets before doHead stays on the
   * response, with its value unless doGet sets that header itself.
   */
  lemma HeadKeepsLastModified(s: Servlet, req: Request, before: State, after: State, e: Ending)
    requires Served(s, req, before, after, e)
    requires Select(req.methodName, s.lastModified, req.ifModifiedSince) == Handle(HEAD)
    requires HEAD !in s.overrides && s.lastModified >= 0
    ensures Lower(HEADER_LASTMOD) in after.headers
    ensures (Lower(HEADER_LASTMOD) !in before.headers &&
             forall j :: 0 <= j < |s.getCalls| ==> !NamesHeader(s.getCalls[j], Lower(HEADER_LASTMOD))) ==>
            after.headers[Lower(HEADER_LASTMOD)] == [Date(s.lastModified)]
  {
    var marked := before.(headers := WithLastModified(before.headers, s.lastModified));
    LastModifiedFacts(before.headers, s.lastModified);
    if GET in s.overrides {
      HeaderKept(marked, s.getCalls, Lower(HEADER_LASTMOD));
    }
  }

  /**
   * The Allow header doOptions builds lists GET, HEAD, POST, PUT and DELETE
   * exactly when a method of the handler's name is declared (doGet for
   * HEAD), so an overridden doGet, doPost, doPut or doDelete is always
   * listed; an overridden doHead is not looked for.
   */
  lemma AllowAgreesWithDispatch(s: Servlet, v: Verb)
    requires s.Valid() && v in {GET, HEAD, POST, PUT, DELETE}
    ensures v in AllowedVerbs(FlagsFor(DeclaredMethods(s.hierarchy))) <==>
      s.Declares(HandlerName(if v == HEAD then GET else v))
    ensures (if v == HEAD then GET else v) in s.overrides ==> v in AllowedVerbs(FlagsFor(DeclaredMethods(s.hierarchy)))
  {
    AllowedVerbsOfChain(s.hierarchy);
    DeclaredMethodsMembership(s.hierarchy, HandlerName(if v == HEAD then GET else v));
  }

  /**
   * A method the Allow header leaves out, and that service() routes to its
   * handler (not a 304), is refused with 405 or 400.
   */
  lemma UnlistedMethodRefused(s: Servlet, req: Request, v: Verb, before: State, after: State, e: Ending)
    requires s.Valid() && Served(s, req, before, after, e)
    requires Select(req.methodName, s.lastModified, req.ifModifiedSince) == Handle(v)
    requires v in {GET, HEAD, POST, PUT, DELETE} && (v == HEAD ==> HEAD !in s.overrides)
    requires v !in AllowedVerbs(FlagsFor(DeclaredMethods(s.hierarchy)))
    ensures e == Completed
    ensures after.status == DefaultStatus(req.protocol)
    ensures after.error == Some(MethodNotSupported(if v == HEAD then GET else v))
  {
    AllowAgreesWithDispatch(s, v);
  }

  /**
   * doOptions never looks for doHead: a servlet that overrides only doHead
   * has its own doHead run for a HEAD, yet HEAD is not in Allow.
   */
  lemma DoHeadOverrideNotListed(before: State, after: State, e: Ending)
    requires Served(Servlet([["doHead"]], {HEAD}, -1, []), Request("HEAD", "/", "HTTP/1.1", [], -1), before, after, e)
    ensures Servlet([["doHead"]], {HEAD}, -1, []).Valid()
    ensures HEAD !in AllowedVerbs(FlagsFor(DeclaredMethods([["doHead"]])))
    ensures e == Delegated(HEAD)
  {
    AllowedVerbsOfChain([["doHead"]]);
    assert "doHead" in [["doHead"]][0];
    ParseVerbToken(HEAD);
  }

  /**
   * An exception doGet throws itself leaves doHead before the counted length
   * is set: the status doGet set stays, and the length stays as it was.
   */
  lemma HeadAfterGetThrows(s: Servlet, req: Request, before: State, after: State, e: Ending)
    requires Served(s, req, before, after, e)
    requires Select(req.methodName, s.lastModified, req.ifModifiedSince) == Handle(HEAD)
    requires HEAD !in s.overrides && GET in s.overrides
    requires s.getCalls == [SetStatus(500), Throw(ServletException("failed"))]
    ensures e == Threw(ServletException("failed"))
    ensures after.status == 500 && after.contentLength == before.contentLength
  {
    var marked := before.(headers := WithLastModified(before.headers, s.lastModified));
    var once: seq<Call> := [SetStatus(500)];
    assert once[..0] == [] && Replay(marked, once[..0]) == Initial(marked);
    var first := Replay(marked, once);
    assert first == Step(Initial(marked), SetStatus(500));
    assert s.getCalls[..1] == once;
    assert Replay(marked, s.getCalls) == Step(first, Throw(ServletException("failed")));
  }

  /**
   * The converse fails: a servlet whose only doGet is an overload, say
   * doGet(String), is listed for GET, yet service() runs HttpServlet's doGet
   * and a GET over HTTP/1.1 gets 405.
   */
  lemma OverloadListedButRefused(before: State, after: State, e: Ending)
    requires Served(Servlet([["doGet"]], {}, -1, []), Request("GET", "/", "HTTP/1.1", [], -1), before, after, e)
    ensures Servlet([["doGet"]], {}, -1, []).Valid()
    ensures GET in AllowedVerbs(FlagsFor(DeclaredMethods([["doGet"]])))
    ensures e == Completed && after.status == SC_METHOD_NOT_ALLOWED
  {
    AllowedVerbsOfChain([["doGet"]]);
    assert "doGet" in [["doGet"]][0];
    DefaultStatusByProtocol();
  }

  /** The flags as the doOptions documentation describes them: from the handlers overridden. */
  function IntendedFlags(overrides: set<Verb>): Allowed
  {
    Allowed(GET in overrides, GET in overrides, POST in overrides, PUT in overrides, DELETE in overrides, true, true)
  }

  /**
   * With those flags, GET, HEAD, POST, PUT and DELETE are listed exactly
   * when service() hands them to the servlet's own handler (HEAD through
   * doGet).
   */
  lemma IntendedAllowAgrees(s: Servlet, v: Verb)
    requires v in {GET, HEAD, POST, PUT, DELETE}
    ensures v in AllowedVerbs(IntendedFlags(s.overrides)) <==> (if v == HEAD then GET else v) in s.overrides
  {
    AllowedVerbsFacts(IntendedFlags(s.overrides));
  }

  /** maybeSetLastModified */
  method MaybeSetLastModified(resp: Response, lastModified: int)
    modifies resp`headers
    ensures resp.headers == WithLastModified(old(resp.headers), lastModified)
  {
    if resp.ContainsHeader(HEADER_LASTMOD) {
      return;
    }
    if lastModified >= 0 {
      resp.SetHeader(HEADER_LASTMOD, Date(lastModified));
    }
  }

  /** doGet, doPost, doPut and doDelete as HttpServlet defines them. */
  method NotSupported(req: Request, resp: Response, v: Verb)
    requires v in {GET, POST, PUT, DELETE}
    modifies resp`status, resp`error
    ensures resp.status == DefaultStatus(req.protocol) && resp.error == Some(MethodNotSupported(v))
  {
    var protocol := req.protocol;
    var msg := MethodNotSupported(v);
    if EndsWith(protocol, "1.1") {
      resp.SendError(SC_METHOD_NOT_ALLOWED, msg);
    } else {
      resp.SendError(SC_BAD_REQUEST, msg);
    }
  }

  /** doHead: doGet on a wrapper that swallows the body, then the counted length. */
  method DoHead(s: Servlet, req: Request, resp: Response) returns (e: Ending)
    modifies resp
    ensures HeadServed(s, req, old(resp.Snapshot()), resp.Snapshot(), e)
  {
    var response := new NoBodyResponse(resp);
    if GET in s.overrides {
      var r := Run(response, s.getCalls);
      if r.Fail? {
        return Threw(r.error);
      }
    } else {
      // the inherited doGet, handed the wrapper
      var msg := MethodNotSupported(GET);
      if EndsWith(req.protocol, "1.1") {
        response.SendError(SC_METHOD_NOT_ALLOWED, msg);
      } else {
        response.SendError(SC_BAD_REQUEST, msg);
      }
    }
    response.SetCountedContentLength();
    e := Completed;
  }

  /** doOptions */
  method DoOptions(s: Servlet, resp: Response)
    modifies resp`headers
    ensures resp.headers == WithAllow(s, old(resp.headers))
  {
    var allow := ComputeAllow(s.hierarchy);
    resp.SetHeader("Allow", Text(allow));
  }

  /** A call of doXxx from service(): the servlet's own handler when it overrides it. */
  method Dispatch(s: Servlet, req: Request, resp: Response, v: Verb) returns (e: Ending)
    modifies resp
    ensures v in s.overrides ==> e == Delegated(v) && resp.Snapshot() == old(resp.Snapshot())
    ensures v !in s.overrides ==> Handled(s, req, v, old(resp.Snapshot()), resp.Snapshot(), e)
  {
    if v in s.overrides {
      return Delegated(v);
    }
    match v {
      case HEAD =>
        e := DoHead(s, req, resp);
      case OPTIONS =>
        DoOptions(s, resp);
        e := Completed;
      case TRACE =>
        DoTrace(req, resp);
        e := Completed;
      case _ =>
        NotSupported(req, resp, v);
        e := Completed;
    }
  }

  /** The GET branch of service(): the conditional GET. */
  method ServeGet(s: Servlet, req: Request, resp: Response) returns (e: Ending)
    requires req.methodName == Token(GET)
    modifies resp
    ensures Served(s, req, old(resp.Snapshot()), resp.Snapshot(), e)
  {
    var lastModified := s.lastModified;
    if lastModified == -1 {
      e := Dispatch(s, req, resp, GET);
    } else {
      var ifModifiedSince := req.ifModifiedSince;
      if ifModifiedSince < lastModified {
        MaybeSetLastModified(resp, lastModified);
        e := Dispatch(s, req, resp, GET);
      } else {
        resp.SetStatus(SC_NOT_MODIFIED);
        e := Completed;
      }
    }
  }

  /** service(HttpServletRequest, HttpServletResponse) */
  method Service(s: Servlet, req: Request, resp: Response) returns (e: Ending)
    modifies resp
    ensures Served(s, req, old(resp.Snapshot()), resp.Snapshot(), e)
  {
    var m := req.methodName;
    if m == Token(GET) {
      e := ServeGet(s, req, resp);
    } else if m == Token(HEAD) {
      MaybeSetLastModified(resp, s.lastModified);
      e := Dispatch(s, req, resp, HEAD);
    } else if m == Token(POST) {
      e := Dispatch(s, req, resp, POST);
    } else if m == Token(PUT) {
      e := Dispatch(s, req, resp, PUT);
    } else if m == Token(DELETE) {
      e := Dispatch(s, req, resp, DELETE);
    } else if m == Token(OPTIONS) {
      e := Dispatch(s, req, resp, OPTIONS);
    } else if m == Token(TRACE) {
      e := Dispatch(s, req, resp, TRACE);
    } else {
      resp.SendError(SC_NOT_IMPLEMENTED, MethodNotImplemented(m));
      e := Completed;
    }
  }

  /**
   * service(ServletRequest, ServletResponse): `req` is None for a request
   * that is not an HttpServletRequest.
   */
  method ServiceAny(s: Servlet, req: Option<Request>, resp: Response) returns (e: Ending)
    modifies resp
    ensures req.None? || !resp.http ==> e == Threw(ServletException(NON_HTTP)) && resp.Snapshot() == old(resp.Snapshot())
    ensures req.Some? && resp.http ==> Served(s, req.value, old(resp.Snapshot()), resp.Snapshot(), e)
  {
    if !(req.Some? && resp.http) {
      return Threw(ServletException(NON_HTTP));
    }
    e := Service(s, req.value, resp);
  }
}
