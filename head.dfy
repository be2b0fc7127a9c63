/**
 * The subclass's doGet as HEAD sees it. Its code is not part of this model;
 * what it does to the response it is handed is given as the sequence of
 * calls it makes, and Run plays them against a NoBodyResponse. doGet may
 * throw on its own (Throw); an exception, its own or the wrapper's, is
 * taken as uncaught and ends doGet there.
 */
module Head {
  import opened Wrappers
  import opened Text
  import opened HttpTypes
  import opened Container
  import opened NoBody

  datatype Call =
    | SetStatus(code: int)
    | SetHeader(name: string, value: string)
    | AddHeader(name: string, value: string)
    | SetIntHeader(name: string, number: int)
    | AddIntHeader(name: string, number: int)
    | SetDateHeader(name: string, millis: int)
    | SetContentLength(len: int)
    | SetContentLengthLong(len: int)
    | StreamWrite(b: int)                                  // getOutputStream().write(b)
    | StreamWriteSlice(buf: array?<bv8>, offset: int, len: int)  // getOutputStream().write(buf, offset, len)
    | WriterPrint(encoded: nat)                            // getWriter().print(..), `encoded` bytes once encoded
    | WriterFlush                                          // getWriter().flush()
    | Throw(failure: Failure)                              // doGet throws, e.g. a ServletException or an IOException

  /** The calls that mark the length as set by the handler itself. */
  predicate SetsLength(c: Call)
  {
    match c
    case SetContentLength(_) => true
    case SetContentLengthLong(_) => true
    case SetHeader(n, _) => EqualsIgnoreCase("content-length", n)
    case AddHeader(n, _) => EqualsIgnoreCase("content-length", n)
    case SetIntHeader(n, _) => EqualsIgnoreCase("content-length", n)
    case AddIntHeader(n, _) => EqualsIgnoreCase("content-length", n)
    case _ => false
  }

  predicate UsesStream(c: Call) { c.StreamWrite? || c.StreamWriteSlice? }

  predicate UsesWriter(c: Call) { c.WriterPrint? || c.WriterFlush? }

  /** The body bytes a call produces when it succeeds. */
  function Bytes(c: Call): nat
  {
    match c
    case StreamWrite(_) => 1
    case StreamWriteSlice(_, _, len) => if len < 0 then 0 else len
    case WriterPrint(n) => n
    case _ => 0
  }

  function TotalBytes(calls: seq<Call>): nat
  {
    if calls == [] then 0 else TotalBytes(calls[..|calls| - 1]) + Bytes(calls[|calls| - 1])
  }

  /**
   * What a call passed through to the wrapped response does to it, as
   * Response does it; the body calls never reach the wrapped response.
   */
  function Forward(r: State, c: Call): (r': State)
    ensures r'.body == r.body && r'.contentType == r.contentType && r'.error == r.error
    ensures UsesStream(c) || UsesWriter(c) ==> r' == r
  {
    match c
    case SetStatus(code) => r.(status := code)
    case SetHeader(n, v) => r.(headers := r.headers[Lower(n) := [Text(v)]])
    case AddHeader(n, v) => r.(headers := r.headers[Lower(n) := Response.Values(r.headers, n) + [Text(v)]])
    case SetIntHeader(n, v) => r.(headers := r.headers[Lower(n) := [Number(v)]])
    case AddIntHeader(n, v) => r.(headers := r.headers[Lower(n) := Response.Values(r.headers, n) + [Number(v)]])
    case SetDateHeader(n, m) => r.(headers := r.headers[Lower(n) := [Date(m)]])
    case SetContentLength(len) => r.(contentLength := Some(len))
    case SetContentLengthLong(len) => r.(contentLength := Some(len))
    case _ => r
  }

  /** The wrapped response after every call has been passed through in order. */
  function Forwarded(start: State, calls: seq<Call>): State
  {
    if calls == [] then start else Forward(Forwarded(start, calls[..|calls| - 1]), calls[|calls| - 1])
  }

  /** The shim's observable state after a prefix of the calls, with the response it wraps. */
  datatype Summary = Summary(form: Form, produced: nat, setLength: bool, failure: Option<Failure>, resp: State)

  function Initial(start: State): Summary
  {
    Summary(Unselected, 0, false, None, start)
  }

  /** One call on a shim that has not failed yet. */
  function Step(s: Summary, c: Call): Summary
  {
    match c
    case StreamWrite(_) =>
      if s.form == PrintWriter then s.(failure := Some(IllegalState(IseGetOutputStream)))
      else s.(form := Stream, produced := s.produced + 1)
    case StreamWriteSlice(buf, offset, len) =>
      if s.form == PrintWriter then s.(failure := Some(IllegalState(IseGetOutputStream)))
      else if buf == null then s.(form := Stream, failure := Some(NullPointer(IoNullArray)))
      else if SliceRejected(buf.Length, offset, len) then
        s.(form := Stream, failure := Some(IndexOutOfBounds(IoIndexOutOfBounds(offset, len, buf.Length))))
      else s.(form := Stream, produced := s.produced + len)
    case WriterPrint(n) =>
      if s.form == Stream then s.(failure := Some(IllegalState(IseGetWriter)))
      else s.(form := PrintWriter, produced := s.produced + n)
    case WriterFlush =>
      if s.form == Stream then s.(failure := Some(IllegalState(IseGetWriter)))
      else s.(form := PrintWriter)
    case Throw(f) => s.(failure := Some(f))
    case _ => s.(setLength := s.setLength || SetsLength(c), resp := Forward(s.resp, c))
  }

  /** The calls played in order, stopping at the first exception. */
  function Replay(start: State, calls: seq<Call>): Summary
  {
    if calls == [] then Initial(start)
    else
      var s := Replay(start, calls[..|calls| - 1]);
      if s.failure.Some? then s else Step(s, calls[|calls| - 1])
  }

  /** After an exception nothing more happens. */
  lemma {:induction false} ReplayStopsAtFailure(start: State, calls: seq<Call>, k: nat)
    requires k <= |calls| && Replay(start, calls[..k]).failure.Some?
    ensures Replay(start, calls) == Replay(start, calls[..k])
    decreases |calls| - k
  {
    if k < |calls| {
      var next := calls[..k + 1];
      assert next[..k] == calls[..k];
      ReplayStopsAtFailure(start, calls, k + 1);
    } else {
      assert calls[..k] == calls;
    }
  }

  /** Once a form is taken it stays taken, unless a call fails. */
  lemma {:induction false} FormSticky(start: State, calls: seq<Call>, k: nat)
    requires k <= |calls| && Replay(start, calls[..k]).form != Unselected
    ensures Replay(start, calls).failure.Some? || Replay(start, calls).form == Replay(start, calls[..k]).form
    decreases |calls| - k
  {
    if k == |calls| {
      assert calls[..k] == calls;
    } else {
      var s := Replay(start, calls[..k]);
      var next := calls[..k + 1];
      assert next[..k] == calls[..k];
      if Replay(start, next).failure.Some? {
        ReplayStopsAtFailure(start, calls, k + 1);
      } else {
        assert Replay(start, next).form == s.form;
        FormSticky(start, calls, k + 1);
      }
    }
  }

  /**
   * A handler that writes through the stream and later through the writer,
   * or the other way round, ends with an IllegalStateException.
   */
  lemma {:induction false} MixedFormsFail(start: State, calls: seq<Call>, i: nat, j: nat)
    requires i < j < |calls|
    requires (UsesStream(calls[i]) && UsesWriter(calls[j])) || (UsesWriter(calls[i]) && UsesStream(calls[j]))
    ensures Replay(start, calls).failure.Some?
  {
    var first := calls[..i + 1];
    assert first[..i] == calls[..i];
    if Replay(start, first).failure.Some? {
      ReplayStopsAtFailure(start, calls, i + 1);
      return;
    }
    var upto := calls[..j];
    assert upto[..i + 1] == first;
    FormSticky(start, upto, i + 1);
    if Replay(start, upto).failure.Some? {
      ReplayStopsAtFailure(start, calls, j);
      return;
    }
    var through := calls[..j + 1];
    assert through[..j] == upto;
    assert Replay(start, through).failure.Some?;
    ReplayStopsAtFailure(start, calls, j + 1);
  }

  /**
   * Without an exception, the shim has counted exactly the bytes the calls
   * wrote, whichever form they used.
   */
  lemma {:induction false} ProducedIsTotal(start: State, calls: seq<Call>)
    requires Replay(start, calls).failure.None?
    ensures Replay(start, calls).produced == TotalBytes(calls)
  {
    if calls != [] {
      var prefix := calls[..|calls| - 1];
      ProducedIsTotal(start, prefix);
    }
  }

  /** The length counts as set by the handler exactly when one of its calls sets it. */
  lemma {:induction false} SetLengthIffSomeCall(start: State, calls: seq<Call>)
    requires Replay(start, calls).failure.None?
    ensures Replay(start, calls).setLength <==> exists k :: 0 <= k < |calls| && SetsLength(calls[k])
  {
    if calls != [] {
      var prefix := calls[..|calls| - 1];
      SetLengthIffSomeCall(start, prefix);
      var c := calls[|calls| - 1];
      assert SetsLength(c) ==> !UsesStream(c) && !UsesWriter(c);
      if exists k :: 0 <= k < |prefix| && SetsLength(prefix[k]) {
        var k :| 0 <= k < |prefix| && SetsLength(prefix[k]);
        assert calls[k] == prefix[k];
      }
      if exists k :: 0 <= k < |calls| && SetsLength(calls[k]) {
        var k :| 0 <= k < |calls| && SetsLength(calls[k]);
        if k < |prefix| {
          assert prefix[k] == calls[k];
        }
      }
    }
  }

  /**
   * Until an exception, the wrapped response has seen exactly the calls
   * that are not body writes, in order, and the body writes did nothing to it.
   */
  lemma {:induction false} ReplayForwards(start: State, calls: seq<Call>)
    requires Replay(start, calls).failure.None?
    ensures Replay(start, calls).resp == Forwarded(start, calls)
  {
    if calls != [] {
      var prefix := calls[..|calls| - 1];
      ReplayForwards(start, prefix);
    }
  }

  /** Neither the calls nor an exception among them touch the body, the content type or the error. */
  lemma {:induction false} ReplayKeepsBody(start: State, calls: seq<Call>)
    ensures var r := Replay(start, calls).resp;
      r.body == start.body && r.contentType == start.contentType && r.error == start.error
  {
    if calls != [] {
      ReplayKeepsBody(start, calls[..|calls| - 1]);
    }
  }

  /** Whether a call sets or adds a header under the (lower-cased) name. */
  predicate NamesHeader(c: Call, name: string)
  {
    (c.SetHeader? || c.AddHeader? || c.SetIntHeader? || c.AddIntHeader? || c.SetDateHeader?) && Lower(c.name) == name
  }

  /**
   * The calls can add headers but never remove one, and a header none of
   * them names keeps its values.
   */
  lemma {:induction false} HeaderKept(start: State, calls: seq<Call>, name: string)
    requires name in start.headers
    ensures name in Replay(start, calls).resp.headers
    ensures (forall j :: 0 <= j < |calls| ==> !NamesHeader(calls[j], name)) ==>
      Replay(start, calls).resp.headers[name] == start.headers[name]
  {
    if calls != [] {
      var prefix := calls[..|calls| - 1];
      assert forall j :: 0 <= j < |prefix| ==> prefix[j] == calls[j];
      HeaderKept(start, prefix, name);
      var s := Replay(start, prefix);
      if s.failure.None? {
        StepKeepsHeader(s, calls[|calls| - 1], name);
      }
    }
  }

  /** HeaderKept for one call. */
  lemma StepKeepsHeader(s: Summary, c: Call, name: string)
    requires name in s.resp.headers
    ensures name in Step(s, c).resp.headers
    ensures !NamesHeader(c, name) ==> Step(s, c).resp.headers[name] == s.resp.headers[name]
  {
  }

  /** The calls that set the length through setContentLength or setContentLengthLong. */
  predicate SetsLengthField(c: Call) { c.SetContentLength? || c.SetContentLengthLong? }

  /** The length the wrapped response ends with is the one the last such call set. */
  lemma {:induction false} LastLengthWins(start: State, calls: seq<Call>, k: nat)
    requires k < |calls| && SetsLengthField(calls[k])
    requires forall j :: k < j < |calls| ==> !SetsLengthField(calls[j])
    ensures Forwarded(start, calls).contentLength == Some(calls[k].len)
  {
    var prefix := calls[..|calls| - 1];
    if k < |calls| - 1 {
      assert forall j :: k < j < |prefix| ==> prefix[j] == calls[j];
      LastLengthWins(start, prefix, k);
    }
  }

  /** Without such a call the wrapped response keeps the length it had. */
  lemma {:induction false} LengthKept(start: State, calls: seq<Call>)
    requires forall j :: 0 <= j < |calls| ==> !SetsLengthField(calls[j])
    ensures Forwarded(start, calls).contentLength == start.contentLength
  {
    if calls != [] {
      var prefix := calls[..|calls| - 1];
      assert forall j :: 0 <= j < |prefix| ==> prefix[j] == calls[j];
      LengthKept(start, prefix);
    }
  }

  /** The shim is in the state a summary describes. */
  ghost predicate Matches(w: NoBodyResponse, s: Summary)
    reads w, w.inner, w.noBody, w.writer
  {
    && w.Valid()
    && w.inner.Snapshot() == s.resp
    && s.failure.None?
    && w.Form() == s.form
    && w.Produced() == s.produced
    && w.didSetContentLength == s.setLength
  }

  /** One call of the handler on the shim; `failure` is what it threw. */
  method Play(w: NoBodyResponse, c: Call, ghost s: Summary) returns (failure: Option<Failure>)
    requires Matches(w, s)
    modifies w, w.inner, w.noBody, w.writer
    ensures w.Valid() && failure == Step(s, c).failure
    ensures failure.None? ==> Matches(w, Step(s, c))
    ensures w.inner.Snapshot() == Step(s, c).resp
    ensures w.writer == old(w.writer) || (old(w.writer) == null && fresh(w.writer))
  {
    failure := None;
    match c {
      case SetStatus(code) => w.SetStatus(code);
      case SetHeader(n, v) => w.SetHeader(n, v);
      case AddHeader(n, v) => w.AddHeader(n, v);
      case SetIntHeader(n, v) => w.SetIntHeader(n, v);
      case AddIntHeader(n, v) => w.AddIntHeader(n, v);
      case SetDateHeader(n, v) => w.SetDateHeader(n, v);
      case SetContentLength(len) => w.SetContentLength(len);
      case SetContentLengthLong(len) => w.SetContentLengthLong(len);
      case StreamWrite(_) => failure := PlayStream(w, c, s);
      case StreamWriteSlice(_, _, _) => failure := PlayStream(w, c, s);
      case WriterPrint(_) => failure := PlayWriter(w, c, s);
      case WriterFlush => failure := PlayWriter(w, c, s);
      case Throw(f) => failure := Some(f);
    }
  }

  /** A write through getOutputStream(). */
  method PlayStream(w: NoBodyResponse, c: Call, ghost s: Summary) returns (failure: Option<Failure>)
    requires Matches(w, s) && UsesStream(c)
    modifies w`usingOutputStream, w.noBody
    ensures w.Valid() && failure == Step(s, c).failure
    ensures failure.None? ==> Matches(w, Step(s, c))
    ensures Step(s, c).resp == s.resp
  {
    failure := None;
    var out := w.GetOutputStream();
    if out.Failure? {
      failure := Some(out.error);
    } else if c.StreamWrite? {
      out.value.Write(c.b);
    } else {
      var written := out.value.WriteSlice(c.buf, c.offset, c.len);
      if written.Fail? {
        failure := Some(written.error);
      }
    }
  }

  /** A print or flush through getWriter(). */
  method PlayWriter(w: NoBodyResponse, c: Call, ghost s: Summary) returns (failure: Option<Failure>)
    requires Matches(w, s) && UsesWriter(c)
    modifies w`writer, w.writer, w.noBody
    ensures w.Valid() && failure == Step(s, c).failure
    ensures failure.None? ==> Matches(w, Step(s, c))
    ensures Step(s, c).resp == s.resp
    ensures w.writer == old(w.writer) || (old(w.writer) == null && fresh(w.writer))
  {
    failure := None;
    var pw := w.GetWriter();
    if pw.Failure? {
      failure := Some(pw.error);
    } else if c.WriterPrint? {
      pw.value.Print(c.encoded);
    } else {
      pw.value.Flush();
    }
  }

  /**
   * Plays the calls on the shim, as the subclass's doGet would make them;
   * whatever the calls pass through reaches the wrapped response.
   */
  method Run(w: NoBodyResponse, calls: seq<Call>) returns (r: Outcome<Failure>)
    requires w.Valid() && w.writer == null && !w.usingOutputStream && !w.didSetContentLength
    requires w.Produced() == 0
    modifies w, w.inner, w.noBody
    ensures w.Valid()
    ensures r.Fail? <==> Replay(old(w.inner.Snapshot()), calls).failure.Some?
    ensures r.Fail? ==> r.error == Replay(old(w.inner.Snapshot()), calls).failure.value
    ensures r.Pass? ==> w.Produced() == Replay(old(w.inner.Snapshot()), calls).produced
    ensures r.Pass? ==> w.didSetContentLength == Replay(old(w.inner.Snapshot()), calls).setLength
    ensures w.inner.Snapshot() == Replay(old(w.inner.Snapshot()), calls).resp
    ensures w.writer == null || fresh(w.writer)
  {
    ghost var start := w.inner.Snapshot();
    var i := 0;
    while i < |calls|
      invariant 0 <= i <= |calls|
      invariant w.writer != null ==> fresh(w.writer)
      invariant Matches(w, Replay(start, calls[..i]))
    {
      var next := calls[..i + 1];
      assert next[..i] == calls[..i];
      var failure := Play(w, calls[i], Replay(start, calls[..i]));
      if failure.Some? {
        ReplayStopsAtFailure(start, calls, i + 1);
        return Fail(failure.value);
      }
      i := i + 1;
    }
    assert calls[..i] == calls;
    r := Pass;
  }
}
