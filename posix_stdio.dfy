/** Stream push-back and indicator handling of the POSIX compatibility
    library (uspace/lib/posix/stdio.c): posix_clearerr, posix_ungetc and
    posix_ctermid.

    A FILE is reduced to the fields these functions read or write. Its
    `buf_tail` pointer is kept as an offset from the start of `buf`; the
    FILE structure itself (libc's private stdio header) is not part of
    this model. */
module PosixStdio {
  import opened Common

  /** Buffering mode of a stream (_IONBF, _IOLBF, _IOFBF). */
  datatype BufferType = Unbuffered | LineBuffered | FullyBuffered

  /** What the buffer last held (_bs_empty, _bs_write, _bs_read). */
  datatype BufferState = BufEmpty | BufWrite | BufRead

  /** The stream fields relevant to push-back, as a value. `buf` is None
      for a stream whose buffer was never allocated. */
  datatype StreamState = StreamState(
    error: bool,
    eof: bool,
    btype: BufferType,
    bufState: BufferState,
    buf: Option<seq<byte>>,
    bufTail: nat)

  /** The guard of posix_ungetc: a legal character, a consistent, buffered
      stream whose last operation was a read, an allocated buffer and room
      to retreat. */
  predicate CanUnget(s: StreamState, c: int)
  {
    && c != EOF
    && !s.error
    && s.btype != Unbuffered
    && s.bufState == BufRead
    && s.buf.Some?
    && s.bufTail > 0
  }

  /** The effect of posix_ungetc on a stream whose tail lies within its
      buffer: the new stream and the returned value. When the guard fails
      nothing changes and EOF is returned; otherwise the tail moves back by
      one, the byte (uint8_t)c is stored there, the end-of-file indicator
      is cleared and that byte is returned, which is never EOF. */
  function Unget(s: StreamState, c: int): (res: (StreamState, int))
    requires s.buf.Some? ==> s.bufTail <= |s.buf.value|
    ensures !CanUnget(s, c) ==> res == (s, EOF)
    ensures CanUnget(s, c) ==>
              var t := res.0;
              && res.1 == c % 256 && 0 <= res.1 < 256 && res.1 != EOF
              && t.bufTail + 1 == s.bufTail
              && t.buf.Some? && |t.buf.value| == |s.buf.value|
              && t.buf.value[t.bufTail] as int == res.1
              && (forall i :: 0 <= i < |s.buf.value| && i != t.bufTail ==> t.buf.value[i] == s.buf.value[i])
              && !t.eof
              && t.error == s.error && t.btype == s.btype && t.bufState == s.bufState
  {
    var b := (c % 256) as byte;
    if CanUnget(s, c) then
      var tail := s.bufTail - 1;
      (s.(bufTail := tail, buf := Some(s.buf.value[tail := b]), eof := false), b as int)
    else
      (s, EOF)
  }

  /** Whether every character of `cs`, pushed back in order, is accepted. */
  predicate AllPushed(s: StreamState, cs: seq<int>)
    requires s.buf.Some? ==> s.bufTail <= |s.buf.value|
    decreases |cs|
  {
    cs == [] || (CanUnget(s, cs[0]) && AllPushed(Unget(s, cs[0]).0, cs[1..]))
  }

  /** Consecutive successful push-backs are bounded by the distance of the
      tail from the start of the buffer. */
  lemma {:induction false} PushesBounded(s: StreamState, cs: seq<int>)
    requires s.buf.Some? ==> s.bufTail <= |s.buf.value|
    requires AllPushed(s, cs)
    ensures |cs| <= s.bufTail
    decreases |cs|
  {
    if cs != [] {
      PushesBounded(Unget(s, cs[0]).0, cs[1..]);
    }
  }

  class Stream {
    var error: bool
    var eof: bool
    var btype: BufferType
    var bufState: BufferState
    /** The stream buffer, or null before the first read or write. */
    var buf: array?<byte>
    /** buf_tail - buf. */
    var bufTail: nat

    /** The tail lies within the buffer. */
    ghost predicate Valid()
      reads this
    {
      buf != null ==> bufTail <= buf.Length
    }

    /** The stream as a value. */
    ghost function State(): (s: StreamState)
      reads this, buf
      ensures s.bufTail == bufTail && s.buf.Some? == (buf != null)
    {
      StreamState(error, eof, btype, bufState, if buf == null then None else Some(buf[..]), bufTail)
    }

    constructor (btype: BufferType)
      ensures Valid() && buf == null
      ensures State() == StreamState(false, false, btype, BufEmpty, None, 0)
    {
      error := false;
      eof := false;
      this.btype := btype;
      bufState := BufEmpty;
      buf := null;
      bufTail := 0;
    }

    /** posix_clearerr: both indicators are cleared; nothing else changes. */
    method Clearerr()
      requires Valid()
      modifies this
      ensures Valid()
      ensures State() == old(State()).(error := false, eof := false)
      ensures buf == old(buf)
    {
      error := false;
      eof := false;
    }

    /** posix_ungetc: acts as `Unget` on the stream. */
    method Ungetc(c: int) returns (r: int)
      requires Valid()
      modifies this, buf
      ensures buf == old(buf)
      ensures (State(), r) == Unget(old(State()), c)
      ensures Valid()
    {
      var b := (c % 256) as byte;
      var canUnget := c != EOF && !error && btype != Unbuffered && bufState == BufRead
                      && buf != null && bufTail > 0;
      if canUnget {
        bufTail := bufTail - 1;
        buf[bufTail] := b;
        eof := false;
        return b as int;
      } else {
        return EOF;
      }
    }
  }

  /** posix_ctermid: no terminal path is known, so the result is always
      the empty string. A caller's buffer gets a terminating NUL in its
      first character and is returned; with no buffer, the static
      `dummyPath` (zero-initialised) is returned. */
  method Ctermid(s: array?<char>, dummyPath: array<char>) returns (r: array<char>)
    requires s != null ==> s.Length >= 1
    requires dummyPath.Length >= 1 && dummyPath[0] == '\0'
    modifies s
    ensures s == null ==> r == dummyPath
    ensures s != null ==> r == s && s[1..] == old(s[1..])
    ensures r[0] == '\0'
  {
    if s == null {
      return dummyPath;
    }
    s[0] := '\0';
    return s;
  }
}
