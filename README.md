# HttpServlet dispatch, HEAD shim, OPTIONS and TRACE

A Dafny model of `javax.servlet.http.HttpServlet` from the Java Servlet API,
together with its two package-private helper classes `NoBodyResponse` and
`NoBodyOutputStream`. It covers:

- `service(HttpServletRequest, HttpServletResponse)`. It dispatches on the
  request method, answers a conditional GET with 304 Not Modified, sets
  `Last-Modified` first through `maybeSetLastModified`, and sends 501 for a
  method it does not know.
- `service(ServletRequest, ServletResponse)`. It refuses objects that are not
  HTTP objects.
- The handlers HttpServlet defines:
  - `doGet`, `doPost`, `doPut` and `doDelete` answer 405 or 400 depending on
    the protocol;
  - `doHead` runs `doGet` against a response that swallows the body and counts
    its bytes;
  - `doOptions` builds the `Allow` header from the names declared along the
    servlet's class chain;
  - `doTrace` echoes the request back as `message/http`.

Modules:

- `Wrappers`: `Option`, `Result`, `Outcome`.
- `Text`: Java's `endsWith`, `equalsIgnoreCase` and ASCII lower-casing.
- `HttpTypes`: request methods, status codes, the localized messages, the
  exceptions, and the request as the dispatcher reads it.
- `Container`: the container's response object. Each field is updated in
  place, and `Snapshot()` captures the whole state as a value.
- `NoBody`: the classes `NoBodyOutputStream`, `NoBodyResponse` and the
  `Writer` that `getWriter` hands out.
- `Head`: the servlet's own `doGet`, given as the sequence of calls it makes
  on the response it receives. `Replay` is the reference semantics of those
  calls on the shim. `Run` plays them on a real `NoBodyResponse` and is proved
  against `Replay`.
- `Options`: `getAllDeclaredMethods`, the flag scan, and the `Allow` builder,
  proved against a declarative "keep the enabled methods in order, join with
  `, `".
- `Trace`: the `StringBuilder` loop of `doTrace`, proved against
  `TraceMessage`.
- `HttpServlet`: `Select` is the routing function. `Served` is the reference
  predicate for what `service` does to a response state. `Service` and
  `ServiceAny` are proved against `Served`.

A servlet's own handlers are code this model cannot see. A `Servlet` records
two different things about them:

- `hierarchy`: the method names its classes declare. This is what
  reflection shows doOptions, whatever the parameters.
- `overrides`: the methods whose `doXxx(HttpServletRequest,
  HttpServletResponse)` it overrides. This is what the virtual call in
  `service` reaches.

`Servlet.Valid` ties the two together: an overriding handler is a declared
method of that name. The converse does not hold; an overload such as
`doGet(String)` is declared without overriding anything.

When the servlet overrides the handler for the method, `service` ends with
`Delegated(v)`, and the response holds whatever HttpServlet had done before the
call. The one exception is `doGet` as reached through the built-in `doHead`.
There, the calls it makes are a parameter (`Servlet.getCalls`), because that is
the only place where HttpServlet itself observes what a handler does. The calls
that are not body writes pass through to the wrapped response. The model
follows their effect on status, headers and length, from the state `service`
hands to `doHead` (with `Last-Modified` already set).

## Model

| member | source | states |
|---|---|---|
| HttpTypes.TokenInjective | src/main/java/javax/servlet/http/HttpServlet.java:133-139 | the seven METHOD_* tokens are pairwise distinct |
| Text.EndsWithIff | src/main/java/javax/servlet/http/HttpServlet.java:252 | `protocol.endsWith("1.1")` holds exactly when the protocol is some prefix followed by "1.1" |
| Text.EqualsIgnoreCaseIsLowerEqual | src/main/java/javax/servlet/http/HttpServlet.java:995-999 | the case-insensitive comparison of checkHeader is equality after lower-casing both names |
| NoBody.SliceTestsAgreeWithoutOverflow | src/main/java/javax/servlet/http/HttpServlet.java:1068 | the bounds test as written on 32-bit ints agrees with the mathematical test whenever offset + len fits in an int |
| NoBody.SliceOverflowAccepted | src/main/java/javax/servlet/http/HttpServlet.java:1068 | as written, offset 1 and len 0x7fffffff on an empty buffer pass the test that the intended test rejects |
| NoBody.NoBodyOutputStream.constructor | src/main/java/javax/servlet/http/HttpServlet.java:1044-1047 | a new stream has counted nothing |
| NoBody.NoBodyOutputStream.GetContentLength | src/main/java/javax/servlet/http/HttpServlet.java:1050-1052 | the count is the sum of the sizes of all accepted writes |
| NoBody.NoBodyOutputStream.Write | src/main/java/javax/servlet/http/HttpServlet.java:1054-1057 | write(b) counts exactly one byte, whatever b is |
| NoBody.NoBodyOutputStream.WriteSlice | src/main/java/javax/servlet/http/HttpServlet.java:1059-1079 | a null array throws NullPointerException; an out-of-range slice throws IndexOutOfBoundsException carrying offset, len and buf.length; either exception leaves the count unchanged; a slice succeeds exactly when buf is not null, 0 <= offset, 0 <= len and offset + len <= buf.length, and then adds len |
| NoBody.Writer.Print | src/main/java/javax/servlet/http/HttpServlet.java:1020-1024 | printing through the PrintWriter buffers its encoded bytes |
| NoBody.Writer.Flush | src/main/java/javax/servlet/http/HttpServlet.java:951-953 | flushing moves every buffered byte into the stream's count and leaves nothing pending |
| NoBody.NoBodyResponse.constructor | src/main/java/javax/servlet/http/HttpServlet.java:943-947 | the wrapper starts with a fresh stream, no writer, no form chosen, the length not set and nothing produced |
| NoBody.NoBodyResponse.SetCountedContentLength | src/main/java/javax/servlet/http/HttpServlet.java:949-957 | if the handler set no length, the wrapped response's length becomes every byte produced, buffered writer bytes included, and the writer is flushed; otherwise the wrapped length, the stream's count and the writer's buffer are left alone |
| NoBody.NoBodyResponse.SetContentLength | src/main/java/javax/servlet/http/HttpServlet.java:959-963 | passes the length on and marks the length as set |
| NoBody.NoBodyResponse.SetContentLengthLong | src/main/java/javax/servlet/http/HttpServlet.java:965-969 | passes the length on and marks the length as set |
| NoBody.NoBodyResponse.SetHeader | src/main/java/javax/servlet/http/HttpServlet.java:971-975 | replaces the header; marks the length as set exactly when the name is Content-Length in any case |
| NoBody.NoBodyResponse.AddHeader | src/main/java/javax/servlet/http/HttpServlet.java:977-981 | appends the header value; same marking rule |
| NoBody.NoBodyResponse.SetIntHeader | src/main/java/javax/servlet/http/HttpServlet.java:983-987 | replaces the header with a number; same marking rule |
| NoBody.NoBodyResponse.AddIntHeader | src/main/java/javax/servlet/http/HttpServlet.java:989-993 | appends a number; same marking rule |
| NoBody.NoBodyResponse.CheckHeader | src/main/java/javax/servlet/http/HttpServlet.java:995-999 | the flag becomes set exactly for a name equal to "content-length" ignoring case, and is never cleared |
| NoBody.NoBodyResponse.SetDateHeader | src/main/java/javax/servlet/http/HttpServlet.java:933 | inherited delegation: replaces the header with a date and does not touch the flag |
| NoBody.NoBodyResponse.SetStatus | src/main/java/javax/servlet/http/HttpServlet.java:933 | inherited delegation: sets the wrapped response's status |
| NoBody.NoBodyResponse.SendError | src/main/java/javax/servlet/http/HttpServlet.java:933 | inherited delegation: sets the wrapped response's status and error message |
| NoBody.NoBodyResponse.GetOutputStream | src/main/java/javax/servlet/http/HttpServlet.java:1001-1011 | fails with IllegalStateException once a writer exists; otherwise returns the counting stream and records that the stream is in use |
| NoBody.NoBodyResponse.GetWriter | src/main/java/javax/servlet/http/HttpServlet.java:1013-1028 | fails with IllegalStateException once the stream is in use; otherwise returns the one writer over the counting stream, creating it on the first call |
| Head.ReplayStopsAtFailure | src/main/java/javax/servlet/http/HttpServlet.java:343-346 | an exception thrown by doGet ends it: later calls have no effect |
| Head.FormSticky | src/main/java/javax/servlet/http/HttpServlet.java:1001-1028 | once doGet has used the stream or the writer, it keeps that form unless it throws |
| Head.MixedFormsFail | src/main/java/javax/servlet/http/HttpServlet.java:1001-1028 | a doGet that uses the stream and the writer, in either order, ends with an exception |
| Head.ProducedIsTotal | src/main/java/javax/servlet/http/HttpServlet.java:1054-1079 | without an exception the shim counts exactly the bytes doGet wrote, through either form |
| Head.SetLengthIffSomeCall | src/main/java/javax/servlet/http/HttpServlet.java:959-999 | the length counts as set by doGet exactly when one of its calls sets Content-Length |
| Head.Forward | src/main/java/javax/servlet/http/HttpServlet.java:924-933 | a call passed through to the wrapped response never touches its body, content type or error, and the body calls do not reach it at all |
| Head.ReplayForwards | src/main/java/javax/servlet/http/HttpServlet.java:924-933 | until an exception, the wrapped response has received exactly the calls that are not body writes, in order |
| Head.ReplayKeepsBody | src/main/java/javax/servlet/http/HttpServlet.java:924-933 | whatever doGet calls, and wherever it throws, the wrapped response's body, content type and error are those it started with |
| Head.LastLengthWins | src/main/java/javax/servlet/http/HttpServlet.java:959-969 | the wrapped response ends with the length that the last setContentLength or setContentLengthLong call passed on |
| Head.LengthKept | src/main/java/javax/servlet/http/HttpServlet.java:959-969 | without such a call, the wrapped response keeps the length it had |
| Head.HeaderKept | src/main/java/javax/servlet/http/HttpServlet.java:971-993 | doGet's calls can add headers but never remove one, and a header none of them names keeps its values |
| Head.Play | src/main/java/javax/servlet/http/HttpServlet.java:933-1028 | one call on the real wrapper throws what the reference step says; the wrapped response ends in the step's state; without an exception, the wrapper's form, count and flag are the step's |
| Head.PlayStream | src/main/java/javax/servlet/http/HttpServlet.java:1001-1011 | a write through getOutputStream throws or counts exactly as the reference step says |
| Head.PlayWriter | src/main/java/javax/servlet/http/HttpServlet.java:1013-1028 | a print or flush through getWriter throws or counts exactly as the reference step says |
| Head.Run | src/main/java/javax/servlet/http/HttpServlet.java:343-345 | playing doGet on the wrapper throws exactly when the reference replay fails, with the same exception; the wrapped response ends in the replay's state (status, error, headers, length), thrown or not; otherwise the bytes produced and the length flag are the replay's |
| Options.DeclaredMethodsMembership | src/main/java/javax/servlet/http/HttpServlet.java:564-587 | a name is in the collected array exactly when some class of the chain declares it |
| Options.GetAllDeclaredMethods | src/main/java/javax/servlet/http/HttpServlet.java:564-587 | the loop returns the names of every class below HttpServlet, superclasses first, and an empty array for none |
| Options.ScanDeclared | src/main/java/javax/servlet/http/HttpServlet.java:644-658 | the loop sets each ALLOW_* flag exactly when the matching doXxx is among the names; doGet sets GET and HEAD; TRACE and OPTIONS stay true |
| Options.KeepMembers | src/main/java/javax/servlet/http/HttpServlet.java:662-701 | a method is listed exactly when its flag is set |
| Options.KeepOrdered | src/main/java/javax/servlet/http/HttpServlet.java:662-701 | the listed methods keep the fixed order GET, HEAD, POST, PUT, DELETE, TRACE, OPTIONS |
| Options.JoinEmptyIff | src/main/java/javax/servlet/http/HttpServlet.java:660-662 | the joined value is empty exactly when no method is listed |
| Options.AppendIfAllowed | src/main/java/javax/servlet/http/HttpServlet.java:666-701 | each `if (ALLOW_X)` block extends the value listing the first k methods to the one listing the first k + 1 |
| Options.BuildAllow | src/main/java/javax/servlet/http/HttpServlet.java:660-701 | the builder produces the enabled methods in order, separated by ", " |
| Options.AllowedVerbsFacts | src/main/java/javax/servlet/http/HttpServlet.java:634-703 | with the flags doOptions can produce, HEAD is listed exactly with GET, TRACE and OPTIONS always are, and the value is never empty |
| Options.AllowedVerbsOfChain | src/main/java/javax/servlet/http/HttpServlet.java:631-704 | GET, POST, PUT and DELETE are listed exactly when some class of the chain declares doGet, doPost, doPut or doDelete |
| Options.GetOnlyVerbs | src/main/java/javax/servlet/http/HttpServlet.java:598-605 | a servlet that only overrides doGet lists GET, HEAD, TRACE, OPTIONS in that order |
| Options.GetOnlyValue | src/main/java/javax/servlet/http/HttpServlet.java:598-605 | the flags of a servlet that only overrides doGet give "GET, HEAD, TRACE, OPTIONS" |
| Options.OnlyDoGetAllow | src/main/java/javax/servlet/http/HttpServlet.java:598-605 | a chain that declares doGet but none of doPost, doPut, doDelete gets "Allow: GET, HEAD, TRACE, OPTIONS" |
| Options.ComputeAllow | src/main/java/javax/servlet/http/HttpServlet.java:634-701 | the value doOptions builds is the declarative Allow value of the servlet's chain |
| Trace.HeaderLinesLength | src/main/java/javax/servlet/http/HttpServlet.java:749-753 | each echoed header adds its name, its value and four separator characters |
| Trace.TraceLength | src/main/java/javax/servlet/http/HttpServlet.java:744-757 | the length doTrace sets is 9 plus the URI, the protocol and the header lines |
| Trace.TraceFrame | src/main/java/javax/servlet/http/HttpServlet.java:744-755 | the message starts with the request line "TRACE uri protocol" and ends with CRLF |
| Trace.TraceEchoes | src/main/java/javax/servlet/http/HttpServlet.java:749-753 | the k-th header appears as CRLF name ": " value right after the request line and the headers before it |
| Trace.BuildTrace | src/main/java/javax/servlet/http/HttpServlet.java:744-755 | the StringBuilder loop produces exactly the trace message |
| Trace.DoTrace | src/main/java/javax/servlet/http/HttpServlet.java:737-763 | content type message/http, content length equal to the message's length, and the message appended to the body |
| HttpServlet.ParseVerb | src/main/java/javax/servlet/http/HttpServlet.java:803-839 | a method name is recognised exactly when it equals one of the seven tokens, and then as that token |
| HttpServlet.ParseVerbToken | src/main/java/javax/servlet/http/HttpServlet.java:133-139 | every token is recognised as its own method |
| HttpServlet.Select | src/main/java/javax/servlet/http/HttpServlet.java:798-855 | 304 exactly for GET with a last-modified time other than -1 that is not later than If-Modified-Since; 501, with the method name, exactly for a name that is not a token; otherwise the handler for that method |
| HttpServlet.UnconditionalWithoutLastModified | src/main/java/javax/servlet/http/HttpServlet.java:805-808 | with getLastModified -1, every GET goes to doGet |
| HttpServlet.ConditionalGet | src/main/java/javax/servlet/http/HttpServlet.java:809-819 | for a non-negative time, 304 exactly when If-Modified-Since is at least that time |
| HttpServlet.AbsentHeaderServes | src/main/java/javax/servlet/http/HttpServlet.java:811-814 | a missing If-Modified-Since (-1) is always less than a non-negative time |
| HttpServlet.NegativeLastModifiedAnswers304 | src/main/java/javax/servlet/http/HttpServlet.java:804-819 | a time of -2 is still compared, and a GET without the header then gets 304 |
| HttpServlet.ComparedToTheMillisecond | src/main/java/javax/servlet/http/HttpServlet.java:811-814 | times are compared without rounding to the second: 1500 ms against 1000 ms is served in full, where rounding would give 304 |
| HttpServlet.MethodNamesAreCaseSensitive | src/main/java/javax/servlet/http/HttpServlet.java:803-855 | "get" in lower case gets 501 |
| HttpServlet.DefaultStatus | src/main/java/javax/servlet/http/HttpServlet.java:247-257 | 405 exactly when the protocol ends in "1.1", 400 otherwise |
| HttpServlet.DefaultStatusByProtocol | src/main/java/javax/servlet/http/HttpServlet.java:250-256 | HTTP/1.1 gets 405; HTTP/1.0 and HTTP/2.0 get 400 |
| HttpServlet.LastModifiedFacts | src/main/java/javax/servlet/http/HttpServlet.java:868-874 | an existing Last-Modified is never replaced; one is added only for a non-negative time, with that time; no other header changes |
| HttpServlet.FirstLastModifiedWins | src/main/java/javax/servlet/http/HttpServlet.java:868-874 | after a time is set, later calls change nothing |
| HttpServlet.OnlyTraceWritesBody | src/main/java/javax/servlet/http/HttpServlet.java:798-855 | service writes a body only for a TRACE handled by HttpServlet, and then writes the trace message |
| HttpServlet.HeadReportsGetLength | src/main/java/javax/servlet/http/HttpServlet.java:340-346 | a HEAD served through the servlet's doGet reports as Content-Length exactly the bytes doGet wrote, and sends no body, when no call of doGet set the length |
| HttpServlet.HeadReportsLengthSet | src/main/java/javax/servlet/http/HttpServlet.java:340-346 | when doGet set the length through setContentLength or setContentLengthLong, the HEAD reports the last length it set |
| HttpServlet.HeadKeepsLastModified | src/main/java/javax/servlet/http/HttpServlet.java:822-825 | for a HEAD handled by HttpServlet and a time >= 0, the response ends with a Last-Modified header; the value is that time when the header was not there before and doGet does not set it |
| HttpServlet.AllowAgreesWithDispatch | src/main/java/javax/servlet/http/HttpServlet.java:644-658 | GET, POST, PUT and DELETE are in Allow exactly when a method of the handler's name is declared, HEAD exactly when doGet is; so an overridden doGet, doPost, doPut or doDelete is always listed, and HEAD only through doGet |
| HttpServlet.UnlistedMethodRefused | src/main/java/javax/servlet/http/HttpServlet.java:631-704 | a GET, POST, PUT or DELETE that Allow leaves out, and that service routes to its handler (not a 304), gets HttpServlet's 405 or 400 refusal; so does such a HEAD, unless the servlet overrides doHead |
| HttpServlet.DoHeadOverrideNotListed | src/main/java/javax/servlet/http/HttpServlet.java:644-658 | a servlet that overrides only doHead has its own doHead run for a HEAD (822-825), yet HEAD is not in Allow |
| HttpServlet.HeadAfterGetThrows | src/main/java/javax/servlet/http/HttpServlet.java:340-346 | when doGet sets status 500 and then throws, the HEAD ends with that exception and status 500, and no counted length is set |
| HttpServlet.OverloadListedButRefused | src/main/java/javax/servlet/http/HttpServlet.java:644-658 | a servlet whose only doGet is an overload is listed for GET, yet a GET over HTTP/1.1 gets 405 |
| HttpServlet.IntendedAllowAgrees | src/main/java/javax/servlet/http/HttpServlet.java:597-601 | with flags taken from the overridden handlers, GET, HEAD, POST, PUT and DELETE are listed exactly when service hands them to the servlet (HEAD through doGet) |
| HttpServlet.MaybeSetLastModified | src/main/java/javax/servlet/http/HttpServlet.java:868-874 | the headers become those of the Last-Modified rule above |
| HttpServlet.NotSupported | src/main/java/javax/servlet/http/HttpServlet.java:247-257 | the inherited doGet (and doPost 426-436, doPut 494-504, doDelete 550-561): sendError with the protocol's status and the method's "not supported" message, nothing else changed |
| HttpServlet.DoHead | src/main/java/javax/servlet/http/HttpServlet.java:340-346 | without the servlet's doGet, the inherited refusal plus a content length of 0; with it, an exception exactly when the replay of its calls throws, and the response ends in the replay's state, with the counted length added when doGet set none and no exception was thrown |
| HttpServlet.DoOptions | src/main/java/javax/servlet/http/HttpServlet.java:631-704 | sets Allow to the declarative value for the servlet's chain |
| HttpServlet.Dispatch | src/main/java/javax/servlet/http/HttpServlet.java:822-842 | an overriding doXxx takes over and leaves the response as it is; otherwise HttpServlet's own handler for the method runs |
| HttpServlet.ServeGet | src/main/java/javax/servlet/http/HttpServlet.java:803-820 | the GET branch of service: the conditional GET, with the effects Served describes |
| HttpServlet.Service | src/main/java/javax/servlet/http/HttpServlet.java:798-855 | the response goes from its old state to its new state exactly as the reference predicate Served describes for the route Select picks; for a HEAD via the servlet's doGet, that is the Last-Modified rule followed by the replay of doGet's calls |
| HttpServlet.ServiceAny | src/main/java/javax/servlet/http/HttpServlet.java:904-920 | a request or response that is not HTTP gives ServletException("non-HTTP request or response") and leaves the response unchanged; otherwise the same as Service |

## Left out

- The servlet's own handlers (an overriding doGet, doPost and so on) are code outside HttpServlet. `Service` ends with `Delegated` there. Only the doGet reached through the built-in doHead is followed, as a list of calls.
- `getClass().getDeclaredMethods()` and the superclass walk are reflection. A class chain is given as one list of method names per class. Only the names matter to doOptions. Which handlers the servlet overrides is given as a set of methods.
- Head.Run: a doGet here can set the status and the headers, set the length, write through the stream or the writer, and throw. Its other calls on the wrapper are not modelled: sendError, sendRedirect, setContentType, setCharacterEncoding, setLocale, addDateHeader, reset, resetBuffer, flushBuffer, and the print methods of the output stream. Every exception is taken as uncaught. A doGet that catches an exception the wrapper throws (an IllegalStateException from getWriter, say) and carries on cannot be written.
- `getLastModified` is given as its value for the request. `req.getDateHeader("If-Modified-Since")` is given as the container's parsed value, -1 when absent. Date parsing is not part of this model. The container's getDateHeader throws IllegalArgumentException for a value it cannot parse as a date (called at src/main/java/javax/servlet/http/HttpServlet.java:810); the model has no way to represent that exception.
- The container's response (`HttpServletResponse` and `HttpServletResponseWrapper`) is reduced to status, error, headers, content type, content length and body. Commitment, buffering and the sending of bytes are not modelled.
- The localized message texts (`LocalStrings.properties`, `MessageFormat`) are kept as the message key with its arguments.
- Character encoding in `getWriter`: a print is given as the number of bytes it encodes to. `OutputStreamWriter` and `PrintWriter` buffering are reduced to one pending count that `flush` hands to the stream.
- `NoBodyOutputStream.isReady` and `setWriteListener` are non-blocking I/O hooks with no effect on the count. They are not modelled.
- `init`, `destroy` and the rest of `GenericServlet` are not part of this model. `ServiceAny` takes the request as `None` when it is not an `HttpServletRequest`.
- Java case folding covers all of Unicode. `Text.Lower` and `Text.EqualsIgnoreCase` fold ASCII only. For `equalsIgnoreCase` against "content-length" the answer is the same, because the non-ASCII characters Java folds onto ASCII letters fold onto i, k or s. The container's case-insensitive header lookup is modelled with the same ASCII folding.
- NoBody.NoBodyOutputStream.Write: `contentLength++` on a Java int wraps after 2^31 - 1 bytes. The count here is an unbounded integer.
- NoBody.NoBodyOutputStream.WriteSlice: checks the slice with unbounded arithmetic, the corrected test from Findings. The 32-bit test as written is `NoBody.SliceRejectedAsWritten`.
- NoBody.NoBodyResponse.SetCountedContentLength: the count is passed to `setContentLength(int)` unbounded, without the int truncation.
- HttpServlet.DoHead: when doGet sets Content-Length through setHeader or setIntHeader, the value goes into the header map. It stays separate from the length field, so the contract does not merge the two.
- Trace.DoTrace: text is taken as Latin-1. There, the length of the message equals Java's UTF-16 `buffer.length()`, and `print` succeeds. A character outside Latin-1 is not modelled. A character above U+FFFF counts once here and twice in Java. `print` throws CharConversionException for any character above U+00FF, after the length has been set.

## Findings

| source | as written | input that shows it | evidently intended | confidence | as-written member | corrected member |
|---|---|---|---|---|---|---|
| src/main/java/javax/servlet/http/HttpServlet.java:1068 | `offset+len > buf.length` is evaluated in 32-bit int arithmetic, so the sum can wrap to a negative number and pass the test | `write(new byte[0], 1, Integer.MAX_VALUE)`: 1 + 2147483647 wraps to -2147483648, which is not greater than 0, so no exception is thrown and 2147483647 is added to the count | reject every slice that does not lie inside the array, for instance `len > buf.length - offset` | high; not executed | NoBody.SliceOverflowAccepted | NoBody.SliceRejected |
| src/main/java/javax/servlet/http/HttpServlet.java:644-658 | doOptions lists a method when any declared method has the handler's name, whatever its parameters | a servlet that declares only `public void doGet(String s)`: Allow is "GET, HEAD, TRACE, OPTIONS", yet service (808) runs HttpServlet's doGet, and a GET over HTTP/1.1 gets 405 | list a method exactly when the servlet overrides its handler, as the doOptions documentation (597-601) describes | medium; not executed | HttpServlet.OverloadListedButRefused | HttpServlet.IntendedAllowAgrees |

`DoOptions` keeps the scan as written, because the `Allow` value is what
clients see. `HttpServlet.IntendedFlags` is the corrected flag computation
that `IntendedAllowAgrees` is proved about.
