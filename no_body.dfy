/**
 * The HEAD shim: a response wrapper that swallows the body while counting
 * its bytes (NoBodyResponse) and the counting stream behind it
 * (NoBodyOutputStream).
 */
module NoBody {
  import opened Wrappers
  import opened Text
  import opened HttpTypes
  import opened Container

  /** Total of a sequence of accepted write lengths. */
  function Sum(s: seq<nat>): nat
  {
    if s == [] then 0 else Sum(s[..|s| - 1]) + s[|s| - 1]
  }

  /**
   * The bounds test of write(buf, offset, len), with the arithmetic
   * unbounded: the slice must lie inside the buffer.
   */
  predicate SliceRejected(bufLength: int, offset: int, len: int)
  {
    offset < 0 || len < 0 || offset + len > bufLength
  }

  /** Java's int: two's-complement wrap-around of a mathematical integer. */
  predicate IsInt32(x: int) { -0x8000_0000 <= x < 0x8000_0000 }

  function Wrap32(x: int): (r: int)
    ensures IsInt32(r) && (r - x) % 0x1_0000_0000 == 0
  {
    (x + 0x8000_0000) % 0x1_0000_0000 - 0x8000_0000
  }

  /** The bounds test as the code is written, with offset+len in 32-bit int. */
  predicate SliceRejectedAsWritten(bufLength: int, offset: int, len: int)
    requires IsInt32(bufLength) && IsInt32(offset) && IsInt32(len)
  {
    offset < 0 || len < 0 || Wrap32(offset + len) > bufLength
  }

  /** Where offset+len fits in an int the two tests agree. */
  lemma SliceTestsAgreeWithoutOverflow(bufLength: int, offset: int, len: int)
    requires IsInt32(bufLength) && IsInt32(offset) && IsInt32(len) && IsInt32(offset + len)
    ensures SliceRejectedAsWritten(bufLength, offset, len) == SliceRejected(bufLength, offset, len)
  {
    assert Wrap32(offset + len) == offset + len;
  }

  /** The overflow lets a slice through that lies far outside an empty buffer. */
  lemma SliceOverflowAccepted()
    ensures !SliceRejectedAsWritten(0, 1, 0x7fff_ffff)
    ensures SliceRejected(0, 1, 0x7fff_ffff)
  {
    assert Wrap32(1 + 0x7fff_ffff) == -0x8000_0000;
  }

  /** The body sink HEAD substitutes: counts bytes and writes nothing. */
  class NoBodyOutputStream {
    var contentLength: int
    /** The length of every write accepted so far, in order. */
    ghost var Accepted: seq<nat>

    ghost predicate Valid()
      reads this
    {
      contentLength == Sum(Accepted)
    }

    constructor ()
      ensures Valid() && Accepted == [] && contentLength == 0
    {
      contentLength := 0;
      Accepted := [];
    }

    function GetContentLength(): (n: int)
      reads this
      requires Valid()
      ensures n == Sum(Accepted)
    {
      contentLength
    }

    /** write(int): one byte. */
    method Write(b: int)
      requires Valid()
      modifies this
      ensures Valid() && Accepted == old(Accepted) + [1]
      ensures contentLength == old(contentLength) + 1
    {
      contentLength := contentLength + 1;
      Accepted := Accepted + [1];
    }

    /** write(byte[], int, int): a slice, counted once its bounds are checked. */
    method WriteSlice(buf: array?<bv8>, offset: int, len: int) returns (r: Outcome<Failure>)
      requires Valid()
      modifies this
      ensures Valid()
      ensures buf == null ==> r == Fail(NullPointer(IoNullArray))
      ensures buf != null && SliceRejected(buf.Length, offset, len) ==>
                r == Fail(IndexOutOfBounds(IoIndexOutOfBounds(offset, len, buf.Length)))
      ensures r.Pass? <==> buf != null && 0 <= offset && 0 <= len && offset + len <= buf.Length
      ensures r.Pass? ==> Accepted == old(Accepted) + [len] && contentLength == old(contentLength) + len
      ensures r.Fail? ==> Accepted == old(Accepted) && contentLength == old(contentLength)
    {
      if buf == null {
        return Fail(NullPointer(IoNullArray));
      }
      if offset < 0 || len < 0 || offset + len > buf.Length {
        return Fail(IndexOutOfBounds(IoIndexOutOfBounds(offset, len, buf.Length)));
      }
      contentLength := contentLength + len;
      Accepted := Accepted + [len];
      r := Pass;
    }
  }

  /**
   * The PrintWriter getWriter hands out, over an OutputStreamWriter on the
   * counting stream. Characters are taken as the number of bytes the
   * response's encoding turns them into; those bytes stay in the writer's
   * buffer until it is flushed.
   */
  class Writer {
    const sink: NoBodyOutputStream
    var pending: nat

    constructor (sink: NoBodyOutputStream)
      ensures this.sink == sink && pending == 0
    {
      this.sink := sink;
      pending := 0;
    }

    /** print of text that encodes to `encoded` bytes. */
    method Print(encoded: nat)
      modifies this
      ensures pending == old(pending) + encoded
    {
      pending := pending + encoded;
    }

    /** flush: hand the buffered bytes to the stream in one write. */
    method Flush()
      requires sink.Valid()
      modifies this, sink
      ensures pending == 0 && sink.Valid()
      ensures sink.contentLength == old(sink.contentLength) + old(pending)
    {
      if pending > 0 {
        var buf := new bv8[pending];
        var r := sink.WriteSlice(buf, 0, pending);
        pending := 0;
      }
    }
  }

  /** Which output form a response has handed out. */
  datatype Form = Unselected | Stream | PrintWriter

  class NoBodyResponse {
    const inner: Response
    const noBody: NoBodyOutputStream
    var writer: Writer?
    var didSetContentLength: bool
    var usingOutputStream: bool
    /** Body bytes still buffered in the writer. */
    ghost function PendingBytes(): nat
      reads this, writer
    {
      if writer == null then 0 else writer.pending
    }

    /** Every body byte the handler has produced, through either form. */
    ghost function Produced(): int
      reads this, noBody, writer
    {
      noBody.contentLength + PendingBytes()
    }

    ghost function Form(): Form
      reads this
    {
      if usingOutputStream then Stream
      else if writer != null then PrintWriter
      else Unselected
    }

    /** The stream and the writer exclude each other; the writer feeds the counter. */
    ghost predicate Valid()
      reads this, noBody, writer
    {
      && noBody.Valid()
      && (writer != null ==> writer.sink == noBody && !usingOutputStream)
    }

    constructor (r: Response)
      ensures Valid() && inner == r && fresh(noBody)
      ensures writer == null && !didSetContentLength && !usingOutputStream
      ensures Produced() == 0 && noBody.Accepted == []
    {
      inner := r;
      noBody := new NoBodyOutputStream();
      writer := null;
      didSetContentLength := false;
      usingOutputStream := false;
    }

    /**
     * The file-private setContentLength(): unless the handler set the length
     * itself, flush the writer and set the length to the bytes counted.
     */
    method SetCountedContentLength()
      requires Valid()
      modifies this, inner`contentLength, noBody, writer
      ensures Valid() && didSetContentLength && Produced() == old(Produced())
      ensures writer == old(writer) && usingOutputStream == old(usingOutputStream)
      ensures old(didSetContentLength) ==> inner.contentLength == old(inner.contentLength)
      ensures old(didSetContentLength) ==>
                noBody.contentLength == old(noBody.contentLength) && PendingBytes() == old(PendingBytes())
      ensures !old(didSetContentLength) ==> inner.contentLength == Some(old(Produced())) && PendingBytes() == 0
    {
      if !didSetContentLength {
        if writer != null {
          writer.Flush();
        }
        SetContentLength(noBody.GetContentLength());
      }
    }

    /** setContentLength(int) */
    method SetContentLength(len: int)
      requires Valid()
      modifies this`didSetContentLength, inner`contentLength
      ensures Valid() && didSetContentLength && inner.contentLength == Some(len)
    {
      inner.SetContentLength(len);
      didSetContentLength := true;
    }

    /** setContentLengthLong(long) */
    method SetContentLengthLong(len: int)
      requires Valid()
      modifies this`didSetContentLength, inner`contentLength
      ensures Valid() && didSetContentLength && inner.contentLength == Some(len)
    {
      inner.SetContentLength(len);
      didSetContentLength := true;
    }

    /** setHeader(String, String) */
    method SetHeader(name: string, value: string)
      requires Valid()
      modifies this`didSetContentLength, inner`headers
      ensures Valid() && inner.headers == old(inner.headers)[Lower(name) := [Text(value)]]
      ensures didSetContentLength == (old(didSetContentLength) || EqualsIgnoreCase("content-length", name))
    {
      inner.SetHeader(name, Text(value));
      CheckHeader(name);
    }

    /** addHeader(String, String) */
    method AddHeader(name: string, value: string)
      requires Valid()
      modifies this`didSetContentLength, inner`headers
      ensures Valid()
      ensures inner.headers == old(inner.headers)[Lower(name) := Response.Values(old(inner.headers), name) + [Text(value)]]
      ensures didSetContentLength == (old(didSetContentLength) || EqualsIgnoreCase("content-length", name))
    {
      inner.AddHeader(name, Text(value));
      CheckHeader(name);
    }

    /** setIntHeader(String, int) */
    method SetIntHeader(name: string, value: int)
      requires Valid()
      modifies this`didSetContentLength, inner`headers
      ensures Valid() && inner.headers == old(inner.headers)[Lower(name) := [Number(value)]]
      ensures didSetContentLength == (old(didSetContentLength) || EqualsIgnoreCase("content-length", name))
    {
      inner.SetHeader(name, Number(value));
      CheckHeader(name);
    }

    /** addIntHeader(String, int) */
    method AddIntHeader(name: string, value: int)
      requires Valid()
      modifies this`didSetContentLength, inner`headers
      ensures Valid()
      ensures inner.headers == old(inner.headers)[Lower(name) := Response.Values(old(inner.headers), name) + [Number(value)]]
      ensures didSetContentLength == (old(didSetContentLength) || EqualsIgnoreCase("content-length", name))
    {
      inner.AddHeader(name, Number(value));
      CheckHeader(name);
    }

    method CheckHeader(name: string)
      modifies this`didSetContentLength
      ensures didSetContentLength == (old(didSetContentLength) || EqualsIgnoreCase("content-length", name))
    {
      if EqualsIgnoreCase("content-length", name) {
        didSetContentLength := true;
      }
    }

    /** Delegated unchanged: setDateHeader does not count as setting the length. */
    method SetDateHeader(name: string, millis: int)
      requires Valid()
      modifies inner`headers
      ensures Valid() && inner.headers == old(inner.headers)[Lower(name) := [Date(millis)]]
    {
      inner.SetHeader(name, Date(millis));
    }

    /** Delegated unchanged. */
    method SetStatus(code: int)
      requires Valid()
      modifies inner`status
      ensures Valid() && inner.status == code
    {
      inner.SetStatus(code);
    }

    /** Delegated unchanged. */
    method SendError(code: int, msg: Message)
      requires Valid()
      modifies inner`status, inner`error
      ensures Valid() && inner.status == code && inner.error == Some(msg)
    {
      inner.SendError(code, msg);
    }

    /** getOutputStream: refused once the writer has been handed out. */
    method GetOutputStream() returns (r: Result<NoBodyOutputStream, Failure>)
      requires Valid()
      modifies this`usingOutputStream
      ensures Valid()
      ensures old(writer) != null ==> r == Failure(IllegalState(IseGetOutputStream)) && !usingOutputStream
      ensures old(writer) == null ==> r == Success(noBody) && usingOutputStream
    {
      if writer != null {
        return Failure(IllegalState(IseGetOutputStream));
      }
      usingOutputStream := true;
      r := Success(noBody);
    }

    /** getWriter: refused once the stream has been handed out; made once, then reused. */
    method GetWriter() returns (r: Result<Writer, Failure>)
      requires Valid()
      modifies this`writer
      ensures Valid()
      ensures old(usingOutputStream) ==> r == Failure(IllegalState(IseGetWriter)) && writer == old(writer)
      ensures !old(usingOutputStream) && old(writer) != null ==> r == Success(old(writer)) && writer == old(writer)
      ensures !old(usingOutputStream) && old(writer) == null ==>
                r.Success? && r.value == writer && fresh(writer) && writer.sink == noBody && writer.pending == 0
    {
      if usingOutputStream {
        return Failure(IllegalState(IseGetWriter));
      }
      if writer == null {
        writer := new Writer(noBody);
      }
      r := Success(writer);
    }
  }
}
