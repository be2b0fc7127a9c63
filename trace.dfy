/** TRACE support: the echoed request of section 9.8 of RFC 2616. */
module Trace {
  import opened Wrappers
  import opened HttpTypes
  import opened Container

  const CRLF := "\r\n"

  /** One echoed header: CRLF, the name, ": ", the value. */
  function HeaderLine(h: (string, string)): string
  {
    CRLF + h.0 + ": " + h.1
  }

  /** The echoed headers, in enumeration order. */
  function HeaderLines(hs: seq<(string, string)>): string
  {
    if hs == [] then "" else HeaderLines(hs[..|hs| - 1]) + HeaderLine(hs[|hs| - 1])
  }

  /** The first line of the echo, without its line break. */
  function RequestLine(uri: string, protocol: string): string
  {
    "TRACE " + uri + " " + protocol
  }

  /** The request line, the headers, a final CRLF. */
  function TraceMessage(uri: string, protocol: string, hs: seq<(string, string)>): string
  {
    RequestLine(uri, protocol) + HeaderLines(hs) + CRLF
  }

  /** Bytes each echoed header adds: CRLF, ": " and the two strings. */
  function HeadersLength(hs: seq<(string, string)>): nat
  {
    if hs == [] then 0 else HeadersLength(hs[..|hs| - 1]) + 4 + |hs[|hs| - 1].0| + |hs[|hs| - 1].1|
  }

  lemma {:induction false} HeaderLinesLength(hs: seq<(string, string)>)
    ensures |HeaderLines(hs)| == HeadersLength(hs)
  {
    if hs != [] {
      HeaderLinesLength(hs[..|hs| - 1]);
    }
  }

  /** The length doTrace sets: 9 fixed characters, the URI, the protocol and the headers. */
  lemma TraceLength(uri: string, protocol: string, hs: seq<(string, string)>)
    ensures |TraceMessage(uri, protocol, hs)| == 9 + |uri| + |protocol| + HeadersLength(hs)
  {
    HeaderLinesLength(hs);
  }

  /** The lines of a prefix of the headers start the lines of all of them. */
  lemma {:induction false} HeaderLinesPrefix(hs: seq<(string, string)>, k: nat)
    requires k <= |hs|
    ensures HeaderLines(hs[..k]) <= HeaderLines(hs)
    decreases |hs| - k
  {
    if k < |hs| {
      HeaderLinesPrefix(hs, k + 1);
      var next := hs[..k + 1];
      assert next[..k] == hs[..k];
      assert HeaderLines(next) == HeaderLines(hs[..k]) + HeaderLine(hs[k]);
    } else {
      assert hs[..k] == hs;
    }
  }

  /** The message starts with the request line and ends with CRLF. */
  lemma TraceFrame(uri: string, protocol: string, hs: seq<(string, string)>)
    ensures var m := TraceMessage(uri, protocol, hs);
      && |RequestLine(uri, protocol)| + 2 <= |m|
      && m[..|RequestLine(uri, protocol)|] == RequestLine(uri, protocol)
      && m[|m| - 2..] == CRLF
  {
    var line := RequestLine(uri, protocol);
    var m := TraceMessage(uri, protocol, hs);
    assert m == line + (HeaderLines(hs) + CRLF);
    assert m == (line + HeaderLines(hs)) + CRLF;
  }

  /** The k-th header follows the request line and the headers before it. */
  lemma TraceEchoes(uri: string, protocol: string, hs: seq<(string, string)>, k: nat)
    requires k < |hs|
    ensures var m := TraceMessage(uri, protocol, hs);
      var start := |RequestLine(uri, protocol)| + |HeaderLines(hs[..k])|;
      && start + |HeaderLine(hs[k])| <= |m|
      && m[start..start + |HeaderLine(hs[k])|] == HeaderLine(hs[k])
  {
    var m := TraceMessage(uri, protocol, hs);
    HeaderLinesPrefix(hs, k + 1);
    var next := hs[..k + 1];
    assert next[..k] == hs[..k];
    var pre := RequestLine(uri, protocol) + HeaderLines(hs[..k]);
    var line := HeaderLine(hs[k]);
    var through := HeaderLines(next);
    assert through == HeaderLines(hs[..k]) + line;
    var rest := HeaderLines(hs)[|through|..] + CRLF;
    assert HeaderLines(hs) == through + HeaderLines(hs)[|through|..];
    assert m == pre + line + rest;
    SliceMiddle(pre, line, rest);
  }

  lemma SliceMiddle(a: string, b: string, c: string)
    ensures (a + b + c)[|a|..|a| + |b|] == b
  {
  }

  /** The StringBuilder loop of doTrace. */
  method BuildTrace(uri: string, protocol: string, hs: seq<(string, string)>) returns (buffer: string)
    ensures buffer == TraceMessage(uri, protocol, hs)
  {
    buffer := "TRACE " + uri + " " + protocol;
    var i := 0;
    while i < |hs|
      invariant 0 <= i <= |hs|
      invariant buffer == RequestLine(uri, protocol) + HeaderLines(hs[..i])
    {
      assert hs[..i + 1][..i] == hs[..i];
      var (headerName, headerValue) := hs[i];
      buffer := buffer + CRLF + headerName + ": " + headerValue;
      i := i + 1;
    }
    assert hs[..i] == hs;
    buffer := buffer + CRLF;
  }

  /** doTrace: content type message/http, the exact length, then the message itself. */
  method DoTrace(req: Request, resp: Response)
    modifies resp`contentType, resp`contentLength, resp`body
    ensures resp.contentType == Some("message/http")
    ensures resp.contentLength == Some(|TraceMessage(req.uri, req.protocol, req.headers)|)
    ensures resp.body == old(resp.body) + TraceMessage(req.uri, req.protocol, req.headers)
  {
    var buffer := BuildTrace(req.uri, req.protocol, req.headers);
    var responseLength := |buffer|;
    resp.SetContentType("message/http");
    resp.SetContentLength(responseLength);
    resp.Print(buffer);
  }
}
