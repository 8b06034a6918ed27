/** The scanner's `Buffer` (Scanner.cs): a byte window over an input stream.
    A seekable stream is read window by window (at most 64 KB at a time, the
    window reloaded by seeking); a non-seekable stream is read chunk by chunk
    into one array that doubles its capacity when full. The stream itself is
    represented by its whole content `data`; `streamOpen` says whether the
    buffer still holds it, and `streamPos` how much of a non-seekable stream
    has been delivered. Every reader sees the same abstract view: a position
    `Pos()` into `data`, and `Read` yields `data[Pos()]` or EOF. */
module ScanBuffer {
  import opened Base

  type byte = b: int | 0 <= b < 256

  /** `Buffer.EOF`: one past the largest UTF-16 code unit. */
  const EOF: int := 65536
  const MIN_BUFFER_LENGTH: int := 1024
  const MAX_BUFFER_LENGTH: int := MIN_BUFFER_LENGTH * 64

  /** What reading at position `i` yields: the byte there, or EOF past the end. */
  function ByteAt(data: seq<byte>, i: int): (r: int)
    ensures r == EOF || 0 <= r < 256
    ensures r == EOF <==> !(0 <= i < |data|)
  {
    if 0 <= i < |data| then data[i] else EOF
  }

  function OutOfBoundsMessage(value: int): string {
    "buffer out of bounds access, position: " + IntToString(value)
  }

  function Min(a: int, b: int): int {
    if a < b then a else b
  }

  /** `(char)b` for a value read from the buffer (EOF truncates to '\0'). */
  function ReadChar(b: int): char
    requires 0 <= b < 256 || b == EOF
  {
    if b == EOF then 0 as char else b as char
  }

  /** The characters `GetString` builds from bytes. */
  function Chars(bytes: seq<byte>): (s: string)
    ensures |s| == |bytes|
    ensures forall i :: 0 <= i < |bytes| ==> s[i] == bytes[i] as char
  {
    seq(|bytes|, i requires 0 <= i < |bytes| => bytes[i] as char)
  }

  class Buffer {
    /** The stream: its content, whether it can seek, whether the caller owns it. */
    const data: seq<byte>
    const canSeek: bool
    const isUserStream: bool
    /** `stream != null` */
    var streamOpen: bool
    /** Bytes a non-seekable stream has delivered so far. */
    var streamPos: int

    var buf: array<byte>
    var bufStart: int
    var bufLen: int
    var fileLen: int
    var bufPos: int

    /** The `Pos` getter. */
    function Pos(): int
      reads this
    {
      bufPos + bufStart
    }

    /** The one state in which `bufPos` is negative: an empty, closed seekable
        buffer after `Pos = 0`; reading then indexes `buf` below zero. */
    predicate Broken()
      reads this
    {
      bufPos < 0
    }

    /** `buf[..bufLen]` holds the stream's bytes from `bufStart` on. */
    ghost predicate Window()
      reads this, buf
    {
      && 0 <= bufStart && 0 <= bufLen <= buf.Length && bufStart + bufLen <= |data|
      && buf[..bufLen] == data[bufStart..bufStart + bufLen]
    }

    ghost predicate Valid()
      reads this, buf
    {
      && |data| < INT_MAX
      && buf.Length >= 1
      && 0 <= bufLen <= buf.Length
      && (canSeek ==>
            && fileLen == |data|
            && (if bufStart == INT_MAX then
                  fileLen == 0 && bufLen == 0 && (bufPos == 0 || (!streamOpen && bufPos == -INT_MAX))
                else
                  && 0 <= bufStart && bufStart + bufLen <= fileLen
                  && 0 <= bufPos <= bufLen
                  && Window()
                  && (!streamOpen ==> bufStart == 0 && bufLen == fileLen)))
      && (!canSeek ==>
            && streamOpen
            && bufStart == 0 && fileLen == bufLen && streamPos == bufLen && bufLen <= |data|
            && 0 <= bufPos <= bufLen
            && Window())
    }

    /** `new Buffer(stream, isUserStream)` */
    constructor (data: seq<byte>, canSeek: bool, isUserStream: bool)
      requires |data| < INT_MAX
      ensures Valid() && fresh(buf)
      ensures this.data == data && this.canSeek == canSeek && this.isUserStream == isUserStream
      ensures Pos() == (if canSeek && |data| == 0 then INT_MAX else 0)
      ensures !Broken()
      ensures canSeek && !isUserStream && |data| <= MAX_BUFFER_LENGTH ==> !streamOpen
    {
      this.data := data;
      this.canSeek := canSeek;
      this.isUserStream := isUserStream;
      streamOpen := true;
      streamPos := 0;
      var len := 0;
      if canSeek {
        fileLen := |data|;
        len := Min(|data|, MAX_BUFFER_LENGTH);
        bufStart := INT_MAX;
      } else {
        fileLen := 0;
        bufStart := 0;
      }
      bufLen := len;
      buf := new byte[if len > 0 then len else MIN_BUFFER_LENGTH];
      bufPos := 0;
      new;
      if fileLen > 0 {
        // Pos = 0: nothing is in the buffer yet, so the window is loaded
        LoadWindow(0);
      }
      if bufLen == fileLen && canSeek {
        Close();
      }
    }

    /** `Close()`: a stream the buffer opened itself is closed. */
    method Close()
      modifies this
      ensures streamOpen == (old(streamOpen) && isUserStream)
      ensures buf == old(buf) && bufStart == old(bufStart) && bufLen == old(bufLen)
      ensures fileLen == old(fileLen) && bufPos == old(bufPos) && streamPos == old(streamPos)
    {
      if !isUserStream && streamOpen {
        streamOpen := false;
      }
    }

    /** `stream.Seek(value); bufLen = stream.Read(buf, 0, buf.Length);
        bufStart = value; bufPos = 0;` on a seekable stream. */
    method LoadWindow(value: int)
      requires canSeek && streamOpen && fileLen == |data| && 0 <= value <= fileLen
      requires buf.Length >= 1
      modifies this, buf
      ensures buf == old(buf) && streamOpen && fileLen == old(fileLen) && streamPos == old(streamPos)
      ensures bufLen == Min(buf.Length, fileLen - value) && bufStart == value && bufPos == 0
      ensures buf[..bufLen] == data[bufStart..bufStart + bufLen]
    {
      var n := Min(buf.Length, fileLen - value);
      forall i | 0 <= i < n {
        buf[i] := data[value + i];
      }
      bufLen := n;
      bufStart := value;
      bufPos := 0;
    }

    /** `ReadNextStreamChunk()` on a non-seekable stream: when the array is
        full it is replaced by one twice as large holding the same bytes;
        then as many bytes as fit (and the stream still has) are appended. */
    method ReadNextStreamChunk() returns (read: int)
      requires Valid() && !canSeek
      modifies this, buf
      ensures Valid() && bufPos == old(bufPos) && streamOpen
      ensures buf == old(buf) || fresh(buf)
      ensures old(bufLen) == old(buf.Length) ==> fresh(buf) && buf.Length == 2 * old(buf.Length)
      ensures old(bufLen) < old(buf.Length) ==> buf == old(buf)
      ensures buf[..old(bufLen)] == old(buf[..bufLen])
      ensures read == Min(if old(bufLen) == old(buf.Length) then old(bufLen) else old(buf.Length) - old(bufLen),
                          |data| - old(bufLen))
      ensures bufLen == old(bufLen) + read && 0 <= read
    {
      var free := buf.Length - bufLen;
      if free == 0 {
        Expand();
        free := bufLen;
      }
      // stream.Read(buf, bufLen, free)
      read := Min(free, |data| - streamPos);
      Deliver(read);
    }

    /** The full array is replaced by one twice as large holding the same bytes. */
    method Expand()
      requires Valid() && !canSeek && bufLen == buf.Length
      modifies this
      ensures Valid() && fresh(buf) && buf.Length == 2 * old(buf.Length)
      ensures buf[..bufLen] == old(buf[..bufLen])
      ensures bufLen == old(bufLen) && bufPos == old(bufPos) && streamPos == old(streamPos)
    {
      var newBuf := new byte[bufLen * 2];
      forall i | 0 <= i < bufLen {
        newBuf[i] := buf[i];
      }
      buf := newBuf;
      assert buf[..bufLen] == old(buf[..bufLen]);
    }

    /** `stream.Read(buf, bufLen, n)` delivering `n` bytes, and `fileLen =
        bufLen = bufLen + n` when `n > 0`. */
    method Deliver(n: int)
      requires Valid() && !canSeek && 0 <= n <= buf.Length - bufLen && n <= |data| - streamPos
      modifies this, buf
      ensures Valid() && buf == old(buf) && bufPos == old(bufPos)
      ensures buf[..old(bufLen)] == old(buf[..bufLen]) && bufLen == old(bufLen) + n
    {
      ghost var old_ := buf[..bufLen];
      forall i | 0 <= i < n {
        buf[bufLen + i] := data[streamPos + i];
      }
      assert buf[..bufLen] == old_;
      streamPos := streamPos + n;
      if n > 0 {
        bufLen := bufLen + n;
        fileLen := bufLen;
      }
      assert buf[..bufLen] == data[..bufLen] by {
        assert forall i :: 0 <= i < bufLen ==> buf[i] == data[i];
      }
    }

    /** The `Pos` setter. */
    method SetPos(value: int) returns (o: Outcome)
      requires Valid()
      modifies this, buf
      ensures Valid()
      ensures o == (if value < 0 || value > |data| then Exception(OutOfBoundsMessage(value))
                    else if !canSeek && value == |data| then Exception(NotSupportedMessage)
                    else Normal)
      ensures o.Normal? ==> Pos() == value
      ensures o.Normal? && value < |data| ==> 0 <= bufPos < bufLen
      ensures o.Exception? ==> Pos() == old(Pos()) && bufPos == old(bufPos)
      ensures !old(Broken()) && old(Pos()) <= |data| ==> !Broken()
      ensures buf == old(buf) || fresh(buf)
    {
      if value >= fileLen && streamOpen && !canSeek {
        ReadUpTo(value);
      }
      if value < 0 || value > fileLen {
        return Exception(OutOfBoundsMessage(value));
      }
      if value >= bufStart && value < bufStart + bufLen {
        bufPos := value - bufStart;
        o := Normal;
      } else if streamOpen {
        if !canSeek {
          // Stream.Seek on a stream that cannot seek
          return Exception(NotSupportedMessage);
        }
        LoadWindow(value);
        o := Normal;
      } else {
        bufPos := fileLen - bufStart;
        o := Normal;
      }
    }

    /** `while (value >= fileLen && ReadNextStreamChunk() > 0);` on a
        non-seekable stream: chunks are read until `value` is buffered or the
        stream is exhausted. */
    method ReadUpTo(value: int)
      requires Valid() && !canSeek
      modifies this, buf
      ensures Valid() && Pos() == old(Pos()) && bufPos == old(bufPos)
      ensures buf == old(buf) || fresh(buf)
      ensures value < fileLen || fileLen == |data|
    {
      while value >= fileLen
        invariant Valid() && !canSeek && Pos() == old(Pos()) && bufPos == old(bufPos)
        invariant buf == old(buf) || fresh(buf)
        decreases |data| - fileLen, if value >= fileLen then 1 else 0
      {
        var read := ReadNextStreamChunk();
        if read == 0 {
          break;
        }
      }
    }

    /** `Read()`: the byte at `Pos()` (which then advances), or EOF at the end. */
    method Read() returns (r: Result<int>)
      requires Valid()
      modifies this, buf
      ensures Valid()
      ensures r == (if old(Broken()) then Throw(IndexMessage) else Ok(ByteAt(data, old(Pos()))))
      ensures r.Ok? ==> Pos() == old(Pos()) + (if r.value == EOF then 0 else 1)
      ensures !old(Broken()) ==> !Broken()
      ensures Pos() <= |data| || Pos() == old(Pos())
      ensures buf == old(buf) || fresh(buf)
    {
      if bufPos < bufLen {
        if bufPos < 0 {
          return Throw(IndexMessage);
        }
        var b := Take();
        r := Ok(b);
      } else if Pos() < fileLen {
        var o := SetPos(Pos());
        var b := Take();
        r := Ok(b);
      } else if streamOpen && !canSeek {
        var read := ReadNextStreamChunk();
        if read > 0 {
          var b := Take();
          r := Ok(b);
        } else {
          r := Ok(EOF);
        }
      } else {
        r := Ok(EOF);
      }
    }

    /** `buf[bufPos++]`. */
    method Take() returns (b: byte)
      requires Valid() && 0 <= bufPos < bufLen
      modifies this
      ensures Valid() && b == ByteAt(data, old(Pos())) && Pos() == old(Pos()) + 1 && !Broken()
      ensures buf == old(buf)
    {
      assert buf[..bufLen][bufPos] == buf[bufPos];
      b := buf[bufPos];
      bufPos := bufPos + 1;
    }

    /** `Peek()`: the byte at `Pos()` without moving it. Restoring the position
        throws when it lies outside the stream (an empty seekable buffer sits
        at `int.MaxValue`) or when a non-seekable stream is at its end. */
    method Peek() returns (r: Result<int>)
      requires Valid()
      modifies this, buf
      ensures Valid()
      ensures r == (if old(Broken()) then Throw(IndexMessage)
                    else if old(Pos()) > |data| then Throw(OutOfBoundsMessage(old(Pos())))
                    else if !canSeek && old(Pos()) == |data| then Throw(NotSupportedMessage)
                    else Ok(ByteAt(data, old(Pos()))))
      ensures r.Ok? ==> Pos() == old(Pos()) && !Broken()
      ensures buf == old(buf) || fresh(buf)
    {
      var curPos := Pos();
      var ch := Read();
      if ch.Throw? {
        return ch;
      }
      var o := SetPos(curPos);
      if o.Exception? {
        return Throw(o.message);
      }
      r := ch;
    }

    /** `GetString(beg, end)`: the bytes in [beg, end) as characters; the
        position is restored afterwards. */
    method GetString(beg: int, end: int) returns (r: Result<string>)
      requires Valid()
      modifies this, buf
      ensures Valid()
      ensures buf == old(buf) || fresh(buf)
      ensures end < beg ==> r == Throw(OverflowMessage)
      ensures beg <= end && (beg < 0 || beg > |data|) ==> r == Throw(OutOfBoundsMessage(beg))
      ensures 0 <= beg <= |data| < end && (canSeek || beg < |data|) ==> r == Throw(IndexMessage)
      ensures 0 <= beg <= end <= |data| && !old(Broken()) && old(Pos()) <= |data|
              && (canSeek || (beg < |data| && old(Pos()) < |data|))
              ==> r == Ok(Chars(data[beg..end])) && Pos() == old(Pos())
    {
      if end - beg < 0 {
        // new char[negative]
        return Throw(OverflowMessage);
      }
      var oldPos := Pos();
      var o := SetPos(beg);
      if o.Exception? {
        return Throw(o.message);
      }
      var s :- ReadUntil(end, end - beg);
      o := SetPos(oldPos);
      if o.Exception? {
        return Throw(o.message);
      }
      r := Ok(s);
    }

    /** The loop of `GetString`: reads characters into a `char` array of
        `capacity` elements (its filled part kept here as a sequence) while
        `Pos() < end`; storing past the array's end throws. */
    method ReadUntil(end: int, capacity: nat) returns (r: Result<string>)
      requires Valid() && Pos() <= |data|
      modifies this, buf
      ensures Valid()
      ensures buf == old(buf) || fresh(buf)
      ensures end > |data| ==> r == Throw(IndexMessage)
      ensures !old(Broken()) && old(Pos()) <= end <= |data| && end - old(Pos()) <= capacity
              ==> r == Ok(Chars(data[old(Pos())..end])) && Pos() == end && !Broken()
    {
      var chars: string := [];
      ghost var start := Pos();
      ghost var good := !Broken() && start <= end <= |data| && end - start <= capacity;
      while Pos() < end
        invariant Valid() && |chars| <= capacity && Pos() <= |data|
        invariant buf == old(buf) || fresh(buf)
        invariant good ==> !Broken() && Pos() == start + |chars| && Pos() <= end
        invariant good ==> chars == Chars(data[start..Pos()])
        decreases capacity - |chars|
      {
        var c := Read();
        if c.Throw? {
          return Throw(c.message);
        }
        if |chars| >= capacity {
          return Throw(IndexMessage);
        }
        chars := chars + [ReadChar(c.value)];
      }
      r := Ok(chars);
    }
  }
}
