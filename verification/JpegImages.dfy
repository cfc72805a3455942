/**
 What counts as an image: the parts a JPEG image that RTP can carry is made of,
 in the order of its bytes.
 */
module JpegImages {
  import opened Bytes
  import opened Mjpeg

  /** A segment between the start of the image and its scan. */
  datatype Segment = Segment(marker: Byte, payload: seq<Byte>)

  /** A byte of the coded data, or a 0xFF with what has to follow it. */
  datatype Piece = Plain(b: Byte) | Escaped(m: Byte)

  datatype Jpeg = Jpeg(segments: seq<Segment>, scan: seq<Byte>, data: seq<Piece>)

  const FRAME: Byte := 0xC0

  /** Tables and application data are skipped; frame headers, quantization tables
      and restart intervals are what the codec library accepts. */
  predicate SegmentOk(lib: Library, s: Segment) {
    && |s.payload| + 2 < 0x1_0000
    && (s.marker in {0xC4, 0xE0, 0xE1, 0xE2, 0xFE}
        || (s.marker in {0xC0, 0xDB, 0xDD} && lib(s.marker, s.payload)))
  }

  /** A stuffed zero or a restart marker follows every 0xFF of the data. */
  predicate PieceOk(p: Piece) {
    match p
    case Plain(b) => b != 0xFF
    case Escaped(m) => m in {0x00, 0xD0, 0xD1, 0xD2, 0xD3, 0xD4, 0xD5, 0xD6, 0xD7}
  }

  ghost predicate Ok(lib: Library, j: Jpeg) {
    && (forall i | 0 <= i < |j.segments| :: SegmentOk(lib, j.segments[i]))
    && (exists i :: 0 <= i < |j.segments| && j.segments[i].marker == FRAME)
    && |j.scan| + 2 < 0x1_0000 && lib(0xDA, j.scan)
    && (forall i | 0 <= i < |j.data| :: PieceOk(j.data[i]))
  }

  /** The size in a segment's header counts itself, and fits 16 bits. */
  function SegmentBytes(s: Segment): seq<Byte> {
    var size := |s.payload| + 2;
    [0xFF, s.marker, size / 0x100 % 0x100, size % 0x100] + s.payload
  }

  function SegmentsBytes(ss: seq<Segment>): seq<Byte> {
    if ss == [] then [] else SegmentBytes(ss[0]) + SegmentsBytes(ss[1..])
  }

  function DataBytes(ps: seq<Piece>): seq<Byte> {
    if ps == [] then []
    else (match ps[0] case Plain(b) => [b] case Escaped(m) => [0xFF, m]) + DataBytes(ps[1..])
  }

  function EndBytes(ps: seq<Piece>): seq<Byte> { DataBytes(ps) + [0xFF, 0xD9] }

  function ScanBytes(scan: seq<Byte>, ps: seq<Piece>): seq<Byte> {
    SegmentBytes(Segment(0xDA, scan)) + EndBytes(ps)
  }

  function ImageBytes(j: Jpeg): seq<Byte> {
    [0xFF, 0xD8] + (SegmentsBytes(j.segments) + ScanBytes(j.scan, j.data))
  }

  // -------------------------------------------------------- from bytes to parts

  lemma {:induction false} DataOf(d: seq<Byte>, j: nat) returns (ps: seq<Piece>)
    requires Scan(d, j).Image? && j <= |d|
    ensures j + 2 <= Scan(d, j).len <= |d|
    ensures (forall i | 0 <= i < |ps| :: PieceOk(ps[i])) && d[j..Scan(d, j).len] == EndBytes(ps)
    decreases |d| - j
  {
    var n := Scan(d, j).len;
    if d[j] != 0xFF {
      var rest := DataOf(d, j + 1);
      ps := [Plain(d[j])] + rest;
      assert ps[1..] == rest && d[j..n] == [d[j]] + d[j + 1..n];
    } else if d[j + 1] == EOI {
      ps := [];
      assert d[j..n] == [0xFF, 0xD9];
    } else {
      var rest := DataOf(d, j + 2);
      ps := [Escaped(d[j + 1])] + rest;
      assert ps[1..] == rest && d[j..n] == [0xFF, d[j + 1]] + d[j + 2..n];
    }
  }

  /** A segment read at some place, and its bytes. */
  lemma SegmentAt(d: seq<Byte>, i: nat) returns (s: Segment)
    requires i + 4 <= |d| && d[i] == 0xFF && 2 <= SegmentSize(d, i) && i + 2 + SegmentSize(d, i) <= |d|
    ensures s == Segment(d[i + 1], d[i + 4..i + 2 + SegmentSize(d, i)])
    ensures |s.payload| + 2 == SegmentSize(d, i) < 0x1_0000
    ensures d[i..i + 2 + SegmentSize(d, i)] == SegmentBytes(s)
  {
    var size := SegmentSize(d, i);
    s := Segment(d[i + 1], d[i + 4..i + 2 + size]);
    assert size / 0x100 == d[i + 2] && size % 0x100 == d[i + 3];
    assert d[i..i + 2 + size] == [d[i], d[i + 1], d[i + 2], d[i + 3]] + d[i + 4..i + 2 + size];
  }

  lemma {:induction false} PartsOf(lib: Library, d: seq<Byte>, i: nat, sof: bool)
    returns (ss: seq<Segment>, scan: seq<Byte>, ps: seq<Piece>)
    requires i <= |d| && Segments(lib, d, i, sof).Image?
    ensures forall k | 0 <= k < |ss| :: SegmentOk(lib, ss[k])
    ensures sof || exists k :: 0 <= k < |ss| && ss[k].marker == FRAME
    ensures |scan| + 2 < 0x1_0000 && lib(0xDA, scan) && forall k | 0 <= k < |ps| :: PieceOk(ps[k])
    ensures i <= Segments(lib, d, i, sof).len <= |d|
    ensures d[i..Segments(lib, d, i, sof).len] == SegmentsBytes(ss) + ScanBytes(scan, ps)
    decreases |d| - i
  {
    var n := Segments(lib, d, i, sof).len;
    var next := i + 2 + SegmentSize(d, i);
    var s := SegmentAt(d, i);
    if d[i + 1] == SOS {
      ss, scan := [], s.payload;
      ps := DataOf(d, next);
      assert d[i..n] == d[i..next] + d[next..n];
      assert SegmentsBytes(ss) + ScanBytes(scan, ps) == ScanBytes(scan, ps);
    } else {
      var rest;
      rest, scan, ps := PartsOf(lib, d, next, sof || s.marker == SOF);
      ss := [s] + rest;
      More(s, rest, ScanBytes(scan, ps));
      assert d[i..n] == d[i..next] + d[next..n];
      if !sof {
        if s.marker == SOF {
          assert ss[0].marker == FRAME;
        } else {
          var k :| 0 <= k < |rest| && rest[k].marker == FRAME;
          assert ss[k + 1].marker == FRAME;
        }
      }
    }
  }

  lemma More(s: Segment, rest: seq<Segment>, tail: seq<Byte>)
    ensures SegmentsBytes([s] + rest) + tail == SegmentBytes(s) + (SegmentsBytes(rest) + tail)
  {
    assert ([s] + rest)[1..] == rest;
  }

  // -------------------------------------------------------- from parts to bytes

  lemma {:induction false} DataIsRead(d: seq<Byte>, j: nat, ps: seq<Piece>)
    requires (forall i | 0 <= i < |ps| :: PieceOk(ps[i])) && j <= |d| && d[j..] == EndBytes(ps)
    ensures Scan(d, j) == Image(|d|)
    decreases |ps|
  {
    var b := d[j..];
    if ps == [] {
      assert d[j] == b[0] == 0xFF && d[j + 1] == b[1] == 0xD9 && |b| == 2;
    } else {
      var rest := EndBytes(ps[1..]);
      match ps[0] {
        case Plain(c) =>
          assert b == [c] + rest && d[j] == b[0] && d[j + 1..] == b[1..] == rest;
          DataIsRead(d, j + 1, ps[1..]);
        case Escaped(m) =>
          assert b == [0xFF, m] + rest && d[j] == b[0] && d[j + 1] == b[1] && d[j + 2..] == b[2..] == rest;
          DataIsRead(d, j + 2, ps[1..]);
      }
    }
  }

  /** Where the bytes of a segment stand, it is read. */
  lemma SegmentIsRead(d: seq<Byte>, i: nat, s: Segment, tail: seq<Byte>)
    requires |s.payload| + 2 < 0x1_0000 && i <= |d| && d[i..] == SegmentBytes(s) + tail
    ensures i + 4 <= |d| && d[i] == 0xFF && d[i + 1] == s.marker && SegmentSize(d, i) == |s.payload| + 2
    ensures i + 4 + |s.payload| <= |d| && d[i + 4..i + 4 + |s.payload|] == s.payload
    ensures d[i + 4 + |s.payload|..] == tail
  {
    var b := d[i..];
    assert d[i] == b[0] && d[i + 1] == b[1] && d[i + 2] == b[2] && d[i + 3] == b[3];
    assert d[i + 4..i + 4 + |s.payload|] == b[4..4 + |s.payload|];
    assert d[i + 4 + |s.payload|..] == b[4 + |s.payload|..];
  }

  lemma {:induction false} PartsAreRead(lib: Library, d: seq<Byte>, i: nat, sof: bool, ss: seq<Segment>,
                                        scan: seq<Byte>, ps: seq<Piece>)
    requires forall k | 0 <= k < |ss| :: SegmentOk(lib, ss[k])
    requires sof || exists k :: 0 <= k < |ss| && ss[k].marker == FRAME
    requires |scan| + 2 < 0x1_0000 && lib(0xDA, scan) && forall k | 0 <= k < |ps| :: PieceOk(ps[k])
    requires i <= |d| && d[i..] == SegmentsBytes(ss) + ScanBytes(scan, ps)
    ensures Segments(lib, d, i, sof) == Image(|d|)
    decreases |ss|
  {
    hide SegmentBytes, SegmentsBytes, ScanBytes, EndBytes, Segments, PieceOk, SegmentOk, Scan;
    if ss == [] {
      OnlyScan(scan, ps);
      SegmentIsRead(d, i, Segment(0xDA, scan), EndBytes(ps));
      DataIsRead(d, i + 4 + |scan|, ps);
      OneSegment(lib, d, i, sof);
    } else {
      var s, rest := ss[0], ss[1..];
      assert ss == [s] + rest && SegmentOk(lib, s);
      OkSegment(lib, s);
      More(s, rest, ScanBytes(scan, ps));
      SegmentIsRead(d, i, s, SegmentsBytes(rest) + ScanBytes(scan, ps));
      if !sof && s.marker != FRAME {
        var k :| 0 <= k < |ss| && ss[k].marker == FRAME;
        assert rest[k - 1].marker == FRAME;
      }
      PartsAreRead(lib, d, i + 4 + |s.payload|, sof || s.marker == SOF, rest, scan, ps);
      OneSegment(lib, d, i, sof);
    }
  }

  lemma OnlyScan(scan: seq<Byte>, ps: seq<Piece>)
    ensures SegmentsBytes([]) + ScanBytes(scan, ps) == SegmentBytes(Segment(0xDA, scan)) + EndBytes(ps)
  {
  }

  lemma OkSegment(lib: Library, s: Segment)
    requires SegmentOk(lib, s)
    ensures |s.payload| + 2 < 0x1_0000
    ensures s.marker in {0xC4, 0xE0, 0xE1, 0xE2, 0xFE}
            || (s.marker in {0xC0, 0xDB, 0xDD} && lib(s.marker, s.payload))
  {
  }

  /** One step of the loop over segments that are well formed. */
  lemma OneSegment(lib: Library, d: seq<Byte>, i: nat, sof: bool)
    requires i + 4 <= |d| && d[i] == 0xFF && 2 <= SegmentSize(d, i) && i + 2 + SegmentSize(d, i) <= |d|
    ensures var next, ok := i + 2 + SegmentSize(d, i), lib(d[i + 1], d[i + 4..i + 2 + SegmentSize(d, i)]);
            && (d[i + 1] == 0xDA && sof && ok ==> Segments(lib, d, i, sof) == Scan(d, next))
            && (d[i + 1] in {0xC4, 0xE0, 0xE1, 0xE2, 0xFE} || (d[i + 1] in {0xC0, 0xDB, 0xDD} && ok) ==>
                  Segments(lib, d, i, sof) == Segments(lib, d, next, sof || d[i + 1] == 0xC0))
  {
    hide Scan;
  }

  ghost predicate Is(lib: Library, f: seq<Byte>, j: Jpeg) { Ok(lib, j) && f == ImageBytes(j) }

  /** Some bytes are one whole image if and only if they are put together of such
      parts: segments with a frame header among them, a scan, and coded data. */
  lemma ImageIffParts(lib: Library, f: seq<Byte>)
    ensures IsImage(lib, f) <==> exists j :: Is(lib, f, j)
  {
    if IsImage(lib, f) {
      var ss, scan, ps := PartsOf(lib, f, 2, false);
      var j := Jpeg(ss, scan, ps);
      assert f == [f[0], f[1]] + f[2..|f|] && f[2..|f|] == f[2..];
      assert Is(lib, f, j);
    }
    forall j | Is(lib, f, j) ensures IsImage(lib, f) {
      assert f[2..] == SegmentsBytes(j.segments) + ScanBytes(j.scan, j.data);
      PartsAreRead(lib, f, 2, false, j.segments, j.scan, j.data);
    }
  }
}
