/**
 The line protocol between the service and its camera processes. Reading goes
 through a buffer that fills in arbitrary pieces; the frames read are proved to
 depend on the byte stream alone, and to be the messages that were written.
 */
module Framing {
  import opened Bytes

  const MAX_MESSAGE_SIZE := 0x10_0000
  const NEWLINE: Byte := 10

  // ---------------------------------------------------------- specification

  datatype Frame = Line(text: seq<Byte>) | TooLarge | End

  /** Index of the first newline, or the length when there is none. */
  function LineLength(s: seq<Byte>): (n: nat)
    ensures n <= |s| && (n < |s| ==> s[n] == NEWLINE)
    ensures forall i | 0 <= i < n :: s[i] != NEWLINE
  {
    if s == [] || s[0] == NEWLINE then 0 else 1 + LineLength(s[1..])
  }

  function FrameOf(line: seq<Byte>): Frame {
    if |line| <= MAX_MESSAGE_SIZE then Line(line) else TooLarge
  }

  function NextFrame(s: seq<Byte>): Frame {
    if LineLength(s) == |s| then End else FrameOf(s[..LineLength(s)])
  }

  function AfterFrame(s: seq<Byte>): seq<Byte> {
    if LineLength(s) == |s| then [] else s[LineLength(s) + 1..]
  }

  /** All frames of a byte stream, up to its end. */
  function Frames(s: seq<Byte>): seq<Frame>
    decreases |s|
  {
    if NextFrame(s) == End then [] else [NextFrame(s)] + Frames(AfterFrame(s))
  }

  // ---------------------------------------------------------------- reading

  datatype ReadError = NoError | BufferFull | EndOfStream

  class Reader {
    const size: nat
    var buffered: seq<Byte>
    var coming: seq<Byte>

    ghost predicate Valid()
      reads this
    {
      0 < size && |buffered| <= size
    }

    /** The bytes not yet consumed, wherever they are. */
    ghost function Pending(): seq<Byte>
      reads this
    {
      buffered + coming
    }

    constructor (size: nat, stream: seq<Byte>)
      requires 0 < size
      ensures Valid() && Pending() == stream && this.size == size
    {
      this.size := size;
      buffered, coming := [], stream;
    }

    /** One read of the connection: any positive number of bytes that fits. */
    method Fill()
      requires Valid() && |buffered| < size && coming != []
      modifies this
      ensures Valid() && Pending() == old(Pending()) && |coming| < old(|coming|)
    {
      var n: nat :| 0 < n <= |coming| && n <= size - |buffered|;
      buffered, coming := buffered + coming[..n], coming[n..];
    }

    /** A chunk up to and with the first newline, or the whole buffer when it
        fills first, or what is left at the end of the stream. */
    method ReadSlice() returns (chunk: seq<Byte>, err: ReadError)
      requires Valid()
      modifies this
      ensures Valid() && chunk + Pending() == old(Pending())
      ensures err == NoError <==> LineLength(old(Pending())) < |old(Pending())| && LineLength(old(Pending())) < size
      ensures err == NoError ==> |chunk| == LineLength(old(Pending())) + 1
      ensures err == BufferFull ==> |chunk| == size && LineLength(chunk) == size
      ensures err == EndOfStream ==> Pending() == [] && LineLength(chunk) == |chunk|
    {
      ghost var all := Pending();
      while LineLength(buffered) == |buffered| && |buffered| < size && coming != []
        invariant Valid() && Pending() == all
        decreases |coming|
      {
        Fill();
      }
      SameLine(buffered, coming);
      var n := LineLength(buffered);
      if n < |buffered| {
        chunk, err := buffered[..n + 1], NoError;
        buffered := buffered[n + 1..];
      } else if |buffered| == size {
        chunk, err := buffered, BufferFull;
        buffered := [];
      } else {
        chunk, err := buffered, EndOfStream;
        buffered := [];
      }
    }

    /** One line of at most MAX_MESSAGE_SIZE bytes; a longer one is skipped
        whole. The outcome is that of the stream, however the buffer filled. */
    method ReadLine() returns (f: Frame)
      requires Valid()
      modifies this
      ensures Valid() && f == NextFrame(old(Pending())) && Pending() == AfterFrame(old(Pending()))
    {
      hide LineLength, Frames;
      ghost var all := Pending();
      var buf: seq<Byte> := [];
      while true
        invariant Valid() && all == buf + Pending()
        invariant LineLength(buf) == |buf|
        decreases |Pending()|
      {
        ghost var rest := Pending();
        var chunk, err := ReadSlice();
        assert all == (buf + chunk) + Pending();
        LineBehind(buf, rest);
        if |buf| + |chunk| > MAX_MESSAGE_SIZE + 1 {
          f := SkipLine(all, buf + chunk, err);
          return;
        }
        if err == BufferFull {
          LineBehind(buf, chunk);
          buf := buf + chunk;
          continue;
        }
        if err == EndOfStream {
          LineBehind(buf, chunk);
          assert all == buf + chunk;
          return End;
        }
        buf := buf + chunk;
        f := Line(buf[..|buf| - 1]);
        LineEnds(all, buf, Pending());
        return;
      }
    }

    /** The rest of a line already known to be too long. */
    method SkipLine(ghost all: seq<Byte>, ghost read: seq<Byte>, got: ReadError) returns (f: Frame)
      requires Valid() && all == read + Pending() && |read| > MAX_MESSAGE_SIZE + 1
      requires got == NoError ==> LineLength(all) + 1 == |read|
      requires got != NoError ==> LineLength(read) == |read|
      requires got == EndOfStream ==> Pending() == []
      modifies this
      ensures Valid() && f == NextFrame(all) && Pending() == AfterFrame(all)
    {
      var err := got;
      ghost var seen := read;
      while err == BufferFull
        invariant Valid() && all == seen + Pending() && |seen| > MAX_MESSAGE_SIZE + 1
        invariant err == NoError ==> LineLength(all) + 1 == |seen|
        invariant err != NoError ==> LineLength(seen) == |seen|
        invariant err == EndOfStream ==> Pending() == []
        decreases |Pending()|, err == BufferFull
      {
        ghost var rest := Pending();
        var chunk, e := ReadSlice();
        assert all == (seen + chunk) + Pending();
        LineBehind(seen, rest);
        LineBehind(seen, chunk);
        seen, err := seen + chunk, e;
      }
      if err == EndOfStream {
        assert all == seen;
        return End;
      }
      assert all[LineLength(all) + 1..] == Pending();
      return TooLarge;
    }

    /** The read loop of a connection: it goes on after lines it drops. */
    method Run() returns (frames: seq<Frame>)
      requires Valid()
      modifies this
      ensures Valid() && frames == Frames(old(Pending()))
    {
      frames := [];
      ghost var all := Pending();
      hide Frames, NextFrame, AfterFrame;
      while true
        invariant Valid() && frames + Frames(Pending()) == Frames(all)
        decreases |Pending()|
      {
        FramesStep(Pending(), frames);
        var f := ReadLine();
        if f == End { return; }
        frames := frames + [f];
      }
    }
  }

  lemma FramesStep(s: seq<Byte>, before: seq<Frame>)
    ensures NextFrame(s) == End ==> Frames(s) == [] && before + Frames(s) == before
    ensures NextFrame(s) != End ==>
              && |AfterFrame(s)| < |s| && Frames(s) == [NextFrame(s)] + Frames(AfterFrame(s))
              && before + Frames(s) == (before + [NextFrame(s)]) + Frames(AfterFrame(s))
  {
  }

  lemma {:induction false} SameLine(a: seq<Byte>, b: seq<Byte>)
    ensures LineLength(a) < |a| ==> LineLength(a + b) == LineLength(a)
    ensures LineLength(a) == |a| ==> LineLength(a + b) == |a| + LineLength(b)
  {
    if a == [] {
      assert a + b == b;
    } else if a[0] != NEWLINE {
      assert (a + b)[1..] == a[1..] + b;
      SameLine(a[1..], b);
    }
  }

  lemma LineEnds(all: seq<Byte>, buf: seq<Byte>, rest: seq<Byte>)
    requires all == buf + rest && LineLength(all) + 1 == |buf| <= MAX_MESSAGE_SIZE + 1
    ensures NextFrame(all) == Line(buf[..|buf| - 1]) && AfterFrame(all) == rest
  {
    assert all[..LineLength(all)] == buf[..|buf| - 1];
  }

  lemma LineBehind(a: seq<Byte>, b: seq<Byte>)
    requires LineLength(a) == |a|
    ensures LineLength(a + b) == |a| + LineLength(b)
  {
    SameLine(a, b);
  }

  // ---------------------------------------------------------------- writing

  class Writer {
    var sent: seq<Byte>

    constructor ()
      ensures sent == []
    {
      sent := [];
    }

    /** Sends a message on a line of its own, or refuses one too large. */
    method Write(raw: seq<Byte>) returns (ok: bool)
      modifies this
      ensures ok <==> |raw| <= MAX_MESSAGE_SIZE
      ensures sent == old(sent) + if ok then raw + [NEWLINE] else []
    {
      if |raw| > MAX_MESSAGE_SIZE { return false; }
      sent := sent + (raw + [NEWLINE]);
      return true;
    }
  }

  // ------------------------------------------------------------- round trip

  /** A message as json.Marshal makes it: no raw newline. */
  predicate OneLine(m: seq<Byte>) { NEWLINE !in m }

  function Joined(lines: seq<seq<Byte>>): seq<Byte> {
    if lines == [] then [] else lines[0] + [NEWLINE] + Joined(lines[1..])
  }

  function Sent(msgs: seq<seq<Byte>>): seq<Byte> {
    if msgs == [] then []
    else (if |msgs[0]| <= MAX_MESSAGE_SIZE then msgs[0] + [NEWLINE] else []) + Sent(msgs[1..])
  }

  function Accepted(msgs: seq<seq<Byte>>): seq<seq<Byte>> {
    if msgs == [] then []
    else (if |msgs[0]| <= MAX_MESSAGE_SIZE then [msgs[0]] else []) + Accepted(msgs[1..])
  }

  lemma OneLineLength(m: seq<Byte>)
    ensures OneLine(m) <==> LineLength(m) == |m|
  {
    if LineLength(m) < |m| { assert m[LineLength(m)] == NEWLINE; }
  }

  lemma NewlineLength(more: seq<Byte>)
    ensures LineLength([NEWLINE] + more) == 0
  {
  }

  lemma FrameBeforeNewline(l: seq<Byte>, more: seq<Byte>)
    requires OneLine(l)
    ensures var s := l + ([NEWLINE] + more); NextFrame(s) == FrameOf(l) && AfterFrame(s) == more
  {
    var s := l + ([NEWLINE] + more);
    OneLineLength(l);
    SameLine(l, [NEWLINE] + more);
    NewlineLength(more);
    hide LineLength;
    assert s[..|l|] == l && s[|l| + 1..] == more;
  }

  /** One frame for each line. */
  function FramesFor(lines: seq<seq<Byte>>): (fs: seq<Frame>)
    ensures |fs| == |lines| && forall i | 0 <= i < |fs| :: fs[i] == FrameOf(lines[i])
  {
    if lines == [] then [] else [FrameOf(lines[0])] + FramesFor(lines[1..])
  }

  /** Every line becomes one frame, whole or too large; an unfinished line at
      the end becomes none. */
  lemma {:induction false} FramesOfLines(lines: seq<seq<Byte>>, tail: seq<Byte>)
    requires forall i | 0 <= i < |lines| :: OneLine(lines[i])
    requires OneLine(tail)
    ensures Frames(Joined(lines) + tail) == FramesFor(lines)
  {
    hide Frames, NextFrame, AfterFrame, LineLength;
    var s := Joined(lines) + tail;
    FramesStep(s, []);
    if lines == [] {
      assert s == tail;
      TailIsNoFrame(tail);
    } else {
      var l, more := lines[0], Joined(lines[1..]) + tail;
      assert s == l + ([NEWLINE] + more);
      FrameBeforeNewline(l, more);
      FramesOfLines(lines[1..], tail);
    }
  }

  lemma TailIsNoFrame(tail: seq<Byte>)
    requires OneLine(tail)
    ensures NextFrame(tail) == End
  {
    OneLineLength(tail);
  }

  lemma CutLine(s: seq<Byte>) returns (l: seq<Byte>)
    requires LineLength(s) < |s|
    ensures OneLine(l) && s == (l + [NEWLINE]) + AfterFrame(s) && NextFrame(s) != End
  {
    l := s[..LineLength(s)];
  }

  /** Any stream is such lines and a tail, and LinesAreUnique: in one way only. */
  lemma {:induction false} LinesOfStream(s: seq<Byte>) returns (lines: seq<seq<Byte>>, tail: seq<Byte>)
    ensures (forall i | 0 <= i < |lines| :: OneLine(lines[i])) && OneLine(tail)
    ensures s == Joined(lines) + tail && |Frames(s)| == |lines|
    decreases |s|
  {
    if LineLength(s) == |s| {
      OneLineLength(s);
      lines, tail := [], s;
    } else {
      var l := CutLine(s);
      var rest;
      rest, tail := LinesOfStream(AfterFrame(s));
      lines := [l] + rest;
      assert Joined(lines) == (l + [NEWLINE]) + Joined(rest) by { assert lines[1..] == rest; }
      Regroup(l + [NEWLINE], Joined(rest), tail);
    }
  }

  lemma {:induction false} LinesAreUnique(a: seq<seq<Byte>>, ta: seq<Byte>, b: seq<seq<Byte>>, tb: seq<Byte>)
    requires (forall i | 0 <= i < |a| :: OneLine(a[i])) && OneLine(ta)
    requires (forall i | 0 <= i < |b| :: OneLine(b[i])) && OneLine(tb)
    requires Joined(a) + ta == Joined(b) + tb
    ensures a == b && ta == tb
  {
    hide OneLine, LineLength, Frames, NextFrame, AfterFrame;
    FramesOfLines(a, ta);
    FramesOfLines(b, tb);
    if a != [] {
      assert b != [];
      FirstLine(a, ta);
      FirstLine(b, tb);
      LinesAreUnique(a[1..], ta, b[1..], tb);
      assert a == [a[0]] + a[1..] && b == [b[0]] + b[1..];
    } else {
      assert b == [];
      assert [] + ta == ta && [] + tb == tb;
    }
  }

  lemma FirstLine(lines: seq<seq<Byte>>, tail: seq<Byte>)
    requires lines != [] && OneLine(lines[0])
    ensures var s := Joined(lines) + tail;
            LineLength(s) == |lines[0]| < |s| && s[..|lines[0]|] == lines[0] &&
            AfterFrame(s) == Joined(lines[1..]) + tail
  {
    var l, more := lines[0], Joined(lines[1..]) + tail;
    assert Joined(lines) + tail == l + ([NEWLINE] + more);
    FrameBeforeNewline(l, more);
    OneLineLength(l);
    SameLine(l, [NEWLINE] + more);
  }

  lemma Regroup(a: seq<Byte>, b: seq<Byte>, c: seq<Byte>)
    ensures (a + b) + c == a + (b + c)
  {
  }

  lemma {:induction false} SentIsJoined(msgs: seq<seq<Byte>>)
    ensures Sent(msgs) == Joined(Accepted(msgs))
    ensures forall m | m in Accepted(msgs) :: m in msgs && |m| <= MAX_MESSAGE_SIZE
  {
    if msgs != [] {
      SentIsJoined(msgs[1..]);
      if |msgs[0]| <= MAX_MESSAGE_SIZE {
        assert Accepted(msgs)[1..] == Accepted(msgs[1..]);
      } else {
        assert Accepted(msgs) == Accepted(msgs[1..]);
      }
    }
  }

  /** Everything a writer accepts is read back, in order, and nothing else. */
  lemma WrittenIsRead(msgs: seq<seq<Byte>>)
    requires forall i | 0 <= i < |msgs| :: OneLine(msgs[i])
    ensures var read, ok := Frames(Sent(msgs)), Accepted(msgs);
            |read| == |ok| && forall i | 0 <= i < |ok| :: read[i] == Line(ok[i])
  {
    SentIsJoined(msgs);
    var ok := Accepted(msgs);
    forall i | 0 <= i < |ok| ensures OneLine(ok[i]) && FrameOf(ok[i]) == Line(ok[i]) {
      assert ok[i] in ok;
    }
    FramesOfLines(ok, []);
    assert Joined(ok) + [] == Joined(ok);
  }
}
