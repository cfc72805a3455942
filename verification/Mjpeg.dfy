/**
 Cutting a series of JPEG images into frames. Reading one image looks at no
 byte behind it, so images form a prefix code: a stream is accepted exactly when
 it is a concatenation of images, and then the frames are those images.
 */
module Mjpeg {
  import opened Bytes
  import opened AnnexB

  const SOI: Byte := 0xD8
  const EOI: Byte := 0xD9
  const SOF: Byte := 0xC0
  const SOS: Byte := 0xDA
  const DQT: Byte := 0xDB
  const DRI: Byte := 0xDD
  const DHT: Byte := 0xC4
  const COM: Byte := 0xFE

  datatype Error = NotAnImage | Truncated | BadSegment | ScanBeforeFrame | BadScanMarker | BadMarker

  /** The length of the first image of some bytes, or why there is none. */
  datatype Next = Image(len: nat) | Refused(error: Error)

  datatype Stream = Frames(frames: seq<seq<Byte>>) | BadFrame(number: nat, error: Error) | TooMany | Nothing

  /** What the codec library says of a segment's payload; for a frame header
      this includes whether RTP can carry the image size. */
  type Library = (Byte, seq<Byte>) -> bool

  function SegmentSize(d: seq<Byte>, i: nat): nat
    requires i + 4 <= |d|
  {
    (d[i + 2] as int) * 0x100 + (d[i + 3] as int)
  }

  predicate Checked(marker: Byte) { marker == SOF || marker == DQT || marker == DRI || marker == SOS }

  predicate Skipped(marker: Byte) {
    marker == 0xE0 || marker == 0xE1 || marker == 0xE2 || marker == DHT || marker == COM
  }

  predicate Stuffing(m: Byte) { m == 0x00 || 0xD0 <= m <= 0xD7 }

  /** The entropy-coded data from j up to the end of the image. */
  function Scan(d: seq<Byte>, j: nat): Next
    decreases |d| - j
  {
    if j + 1 >= |d| then Refused(Truncated)
    else if d[j] != 0xFF then Scan(d, j + 1)
    else if d[j + 1] == EOI then Image(j + 2)
    else if Stuffing(d[j + 1]) then Scan(d, j + 2)
    else Refused(BadScanMarker)
  }

  /** The segments from i on; sof tells whether a frame header came before. */
  function Segments(lib: Library, d: seq<Byte>, i: nat, sof: bool): Next
    decreases |d| - i
  {
    if i + 4 > |d| || d[i] != 0xFF then Refused(Truncated)
    else
      var marker, size := d[i + 1], SegmentSize(d, i);
      if size < 2 || i + 2 + size > |d| then Refused(Truncated)
      else if marker == SOS && !sof then Refused(ScanBeforeFrame)
      else if Checked(marker) && !lib(marker, d[i + 4..i + 2 + size]) then Refused(BadSegment)
      else if marker == SOS then Scan(d, i + 2 + size)
      else if Checked(marker) || Skipped(marker) then Segments(lib, d, i + 2 + size, sof || marker == SOF)
      else Refused(BadMarker)
  }

  function FirstImage(lib: Library, d: seq<Byte>): Next {
    if |d| < 4 || d[0] != 0xFF || d[1] != SOI then Refused(NotAnImage) else Segments(lib, d, 2, false)
  }

  method NextJPEG(lib: Library, data: seq<Byte>) returns (r: Next)
    ensures r == FirstImage(lib, data)
  {
    if |data| < 4 || data[0] != 0xFF || data[1] != SOI { return Refused(NotAnImage); }
    var sof := false;
    var i: nat := 2;
    while true
      invariant FirstImage(lib, data) == Segments(lib, data, i, sof)
      decreases |data| - i
    {
      if i + 4 > |data| || data[i] != 0xFF { return Refused(Truncated); }
      var marker, size := data[i + 1], SegmentSize(data, i);
      if size < 2 || i + 2 + size > |data| { return Refused(Truncated); }
      var seg := data[i + 4..i + 2 + size];
      if marker == SOF {
        if !lib(SOF, seg) { return Refused(BadSegment); }
        sof := true;
      } else if marker == DQT || marker == DRI {
        if !lib(marker, seg) { return Refused(BadSegment); }
      } else if marker == SOS {
        if !sof { return Refused(ScanBeforeFrame); }
        if !lib(SOS, seg) { return Refused(BadSegment); }
        r := ScanImage(data, i + 2 + size);
        return;
      } else if !Skipped(marker) {
        return Refused(BadMarker);
      }
      i := i + 2 + size;
    }
  }

  method ScanImage(data: seq<Byte>, from: nat) returns (r: Next)
    ensures r == Scan(data, from)
  {
    var j := from;
    while j + 1 < |data|
      invariant Scan(data, from) == Scan(data, j)
      decreases |data| - j
    {
      if data[j] == 0xFF {
        var m := data[j + 1];
        if m == EOI {
          return Image(j + 2);
        } else if Stuffing(m) {
          j := j + 1;
        } else {
          return Refused(BadScanMarker);
        }
      }
      j := j + 1;
    }
    return Refused(Truncated);
  }

  function ParseFrom(lib: Library, d: seq<Byte>, frames: seq<seq<Byte>>): Stream
    decreases |d|
  {
    if d == [] then (if frames == [] then Nothing else Frames(frames))
    else match FirstImage(lib, d)
      case Refused(e) => BadFrame(|frames| + 1, e)
      case Image(n) =>
        ImageWithin(lib, d);
        if |frames| + 1 > MAX_FRAMES then TooMany else ParseFrom(lib, d[n..], frames + [d[..n]])
  }

  method ParseMJPEG(lib: Library, data: seq<Byte>) returns (r: Stream)
    ensures r == ParseFrom(lib, data, [])
  {
    var frames: seq<seq<Byte>> := [];
    var rest := data;
    while |rest| > 0
      invariant ParseFrom(lib, data, []) == ParseFrom(lib, rest, frames)
      decreases |rest|
    {
      var next := NextJPEG(lib, rest);
      if next.Refused? { return BadFrame(|frames| + 1, next.error); }
      ImageWithin(lib, rest);
      frames := frames + [rest[..next.len]];
      if |frames| > MAX_FRAMES { return TooMany; }
      rest := rest[next.len..];
    }
    if |frames| == 0 { return Nothing; }
    return Frames(frames);
  }

  // ------------------------------------------------------------- prefix code

  lemma {:induction false} ScanLocal(d: seq<Byte>, j: nat, n: nat, x: seq<Byte>)
    requires Scan(d, j) == Image(n)
    ensures j + 2 <= n <= |d| && d[n - 2] == 0xFF && d[n - 1] == EOI
    ensures Scan(d[..n] + x, j) == Image(n)
    decreases |d| - j
  {
    if d[j] != 0xFF {
      ScanLocal(d, j + 1, n, x);
    } else if d[j + 1] != EOI {
      ScanLocal(d, j + 2, n, x);
    }
  }

  lemma {:induction false} SegmentsLocal(lib: Library, d: seq<Byte>, i: nat, sof: bool, n: nat, x: seq<Byte>)
    requires Segments(lib, d, i, sof) == Image(n)
    ensures i + 4 <= n <= |d| && d[n - 2] == 0xFF && d[n - 1] == EOI
    ensures Segments(lib, d[..n] + x, i, sof) == Image(n)
    decreases |d| - i
  {
    var marker, size := d[i + 1], SegmentSize(d, i);
    if marker == SOS {
      ScanLocal(d, i + 2 + size, n, x);
    } else {
      SegmentsLocal(lib, d, i + 2 + size, sof || marker == SOF, n, x);
    }
    var e := d[..n] + x;
    assert forall k | 0 <= k < n :: e[k] == d[k];
    assert SegmentSize(e, i) == size;
    assert e[i + 4..i + 2 + size] == d[i + 4..i + 2 + size];
  }

  /** Whether some bytes are one whole image. */
  predicate IsImage(lib: Library, f: seq<Byte>) { FirstImage(lib, f) == Image(|f|) }

  lemma ImageWithin(lib: Library, d: seq<Byte>)
    requires FirstImage(lib, d).Image?
    ensures 0 < FirstImage(lib, d).len <= |d|
  {
    SegmentsLocal(lib, d, 2, false, FirstImage(lib, d).len, []);
  }

  /** The bytes behind an image neither change it nor where it ends: an image
      found in a stream is an image on its own, and the other way round. */
  lemma ImagesArePrefixFree(lib: Library, f: seq<Byte>, x: seq<Byte>)
    ensures IsImage(lib, f) ==> FirstImage(lib, f + x) == Image(|f|)
    ensures FirstImage(lib, f + x) == Image(|f|) ==> IsImage(lib, f)
  {
    if IsImage(lib, f) {
      SegmentsLocal(lib, f, 2, false, |f|, x);
      assert f[..|f|] == f;
    }
    if FirstImage(lib, f + x) == Image(|f|) {
      SegmentsLocal(lib, f + x, 2, false, |f|, []);
      assert (f + x)[..|f|] + [] == f;
    }
  }

  /** Every frame opens with the start and closes with the end marker. */
  lemma ImageMarkers(lib: Library, f: seq<Byte>)
    requires IsImage(lib, f)
    ensures |f| >= 6 && f[0] == 0xFF && f[1] == SOI && f[|f| - 2] == 0xFF && f[|f| - 1] == EOI
  {
    SegmentsLocal(lib, f, 2, false, |f|, []);
  }

  // ------------------------------------------------------- whole streams

  function Concat(fs: seq<seq<Byte>>): seq<Byte> {
    if fs == [] then [] else fs[0] + Concat(fs[1..])
  }

  ghost predicate AllImages(lib: Library, fs: seq<seq<Byte>>) { forall i | 0 <= i < |fs| :: IsImage(lib, fs[i]) }

  lemma {:induction false} ParseConcat(lib: Library, fs: seq<seq<Byte>>, done: seq<seq<Byte>>)
    requires AllImages(lib, fs) && |done| + |fs| <= MAX_FRAMES
    ensures ParseFrom(lib, Concat(fs), done) == if done + fs == [] then Nothing else Frames(done + fs)
    decreases |fs|
  {
    if fs == [] {
      assert done + fs == done;
    } else {
      var rest := Concat(fs[1..]);
      var d := fs[0] + rest;
      ImagesArePrefixFree(lib, fs[0], rest);
      ImageMarkers(lib, fs[0]);
      assert d[..|fs[0]|] == fs[0] && d[|fs[0]|..] == rest;
      ParseConcat(lib, fs[1..], done + [fs[0]]);
      assert done + [fs[0]] + fs[1..] == done + fs;
    }
  }

  lemma {:induction false} ParsedAreImages(lib: Library, d: seq<Byte>, done: seq<seq<Byte>>)
    returns (more: seq<seq<Byte>>)
    requires ParseFrom(lib, d, done).Frames? && |done| <= MAX_FRAMES
    ensures ParseFrom(lib, d, done).frames == done + more && |done + more| <= MAX_FRAMES
    ensures AllImages(lib, more) && Concat(more) == d
    decreases |d|
  {
    if d == [] {
      more := [];
      assert done + more == done;
    } else {
      var n := FirstImage(lib, d).len;
      ImageWithin(lib, d);
      var tail := ParsedAreImages(lib, d[n..], done + [d[..n]]);
      more := [d[..n]] + tail;
      assert d == d[..n] + d[n..];
      ImagesArePrefixFree(lib, d[..n], d[n..]);
      assert more[1..] == tail;
      assert done + [d[..n]] + tail == done + more;
    }
  }

  /** A stream is accepted exactly when it is one to 600 images one behind
      the other, and the frames are those images: nothing is lost or added. */
  lemma FramesIffConcat(lib: Library, d: seq<Byte>, fs: seq<seq<Byte>>)
    ensures ParseFrom(lib, d, []) == Frames(fs) <==>
            1 <= |fs| <= MAX_FRAMES && AllImages(lib, fs) && Concat(fs) == d
  {
    if ParseFrom(lib, d, []) == Frames(fs) {
      var more := ParsedAreImages(lib, d, []);
      assert [] + more == more;
    }
    if 1 <= |fs| <= MAX_FRAMES && AllImages(lib, fs) && Concat(fs) == d {
      ParseConcat(lib, fs, []);
      assert [] + fs == fs;
    }
  }
}
