/**
 Splitting an Annex-B byte stream (section B.1.1 of ITU-T H.264) into NAL
 units. The splitter is proved to accept exactly the streams made of start
 codes, NAL units and zero padding, and to return those units.
 */
module AnnexB {
  import opened Bytes

  const MAX_FRAMES := 600
  const MAX_NALUS := 4 * MAX_FRAMES

  datatype SplitResult = Split(nalus: seq<seq<Byte>>) | NoStartCode | TooManyUnits

  predicate CodeAt(d: seq<Byte>, i: nat) {
    i + 3 <= |d| && d[i] == 0 && d[i + 1] == 0 && d[i + 2] == 1
  }

  /** Length of the start code at i, or 0. */
  function StartCode(d: seq<Byte>, i: nat): nat {
    if CodeAt(d, i) then 3
    else if i + 4 <= |d| && d[i] == 0 && d[i + 1] == 0 && d[i + 2] == 0 && d[i + 3] == 1 then 4
    else 0
  }

  function TrimRight(s: seq<Byte>): seq<Byte> {
    if s != [] && s[|s| - 1] == 0 then TrimRight(s[..|s| - 1]) else s
  }

  /** Trimming removes zeros from the end, and all of them. */
  lemma {:induction false} TrimFacts(s: seq<Byte>)
    ensures var r := TrimRight(s);
            && |r| <= |s| && r == s[..|r|] && (r != [] ==> r[|r| - 1] != 0)
            && forall i | |r| <= i < |s| :: s[i] == 0
  {
    if s != [] && s[|s| - 1] == 0 { TrimFacts(s[..|s| - 1]); }
  }

  function Emit(s: seq<Byte>): seq<seq<Byte>> {
    if TrimRight(s) == [] then [] else [TrimRight(s)]
  }

  /** The units from position i on, when the current one began at begin. */
  function Scan(d: seq<Byte>, begin: nat, i: nat): seq<seq<Byte>>
    requires begin <= i <= |d|
    decreases |d| - i
  {
    if i == |d| then Emit(d[begin..])
    else if StartCode(d, i) > 0 then Emit(d[begin..i]) + Scan(d, i + StartCode(d, i), i + StartCode(d, i))
    else Scan(d, begin, i + 1)
  }

  function Units(d: seq<Byte>): SplitResult {
    var n := StartCode(d, 0);
    if n == 0 then NoStartCode
    else if |Scan(d, n, n)| > MAX_NALUS then TooManyUnits
    else Split(Scan(d, n, n))
  }

  // The three ways a scan moves on, without its definition.

  lemma ScanStep(d: seq<Byte>, begin: nat, i: nat)
    requires begin <= i < |d| && StartCode(d, i) == 0
    ensures Scan(d, begin, i) == Scan(d, begin, i + 1)
  {
  }

  lemma ScanAtCode(d: seq<Byte>, begin: nat, i: nat)
    requires begin <= i < |d| && StartCode(d, i) > 0
    ensures var next := i + StartCode(d, i);
            next <= |d| && Scan(d, begin, i) == Emit(d[begin..i]) + Scan(d, next, next)
  {
  }

  lemma ScanEnd(d: seq<Byte>, begin: nat)
    requires begin <= |d|
    ensures Scan(d, begin, |d|) == Emit(d[begin..])
  {
  }

  lemma EmitUnfold(s: seq<Byte>)
    ensures Emit(s) == if TrimRight(s) == [] then [] else [TrimRight(s)]
  {
  }

  lemma CodeBegins(d: seq<Byte>, i: nat)
    ensures StartCode(d, i) > 0 ==> i + StartCode(d, i) <= |d| && d[i] == 0
  {
  }

  /** The splitter's loop, behind the first start code. */
  method SplitRest(data: seq<Byte>, n: nat) returns (out: seq<seq<Byte>>)
    requires n <= |data|
    ensures out == Scan(data, n, n)
  {
    hide *;
    out := [];
    var begin: nat := n;
    var i: nat := n;
    while i < |data|
      invariant begin <= i <= |data|
      invariant out + Scan(data, begin, i) == Scan(data, n, n)
    {
      CodeBegins(data, i);
      if data[i] != 0 {
        ScanStep(data, begin, i);
        i := i + 1;
        continue;
      }
      var sc := StartCode(data, i);
      if sc > 0 {
        var nalu := TrimRight(data[begin..i]);
        ScanAtCode(data, begin, i);
        EmitUnfold(data[begin..i]);
        if |nalu| > 0 { out := out + [nalu]; }
        begin := i + sc;
        i := i + (sc - 1);
      } else {
        ScanStep(data, begin, i);
      }
      i := i + 1;
    }
    ScanEnd(data, begin);
    EmitUnfold(data[begin..]);
    var last := TrimRight(data[begin..]);
    if |last| > 0 { out := out + [last]; }
  }

  method SplitAnnexB(data: seq<Byte>) returns (r: SplitResult)
    ensures r == Units(data)
  {
    var n := StartCode(data, 0);
    if n == 0 { return NoStartCode; }
    var out := SplitRest(data, n);
    if |out| > MAX_NALUS { return TooManyUnits; }
    return Split(out);
  }

  // ------------------------------------------------------------ the streams

  /** A NAL unit as the standard allows it inside a stream: no start code in
      it and no zero at its end. */
  ghost predicate Clean(u: seq<Byte>) {
    && (u == [] || u[|u| - 1] != 0)
    && forall j: nat | j < |u| :: !CodeAt(u, j)
  }

  function Zeros(n: nat): (z: seq<Byte>)
    ensures |z| == n && forall i | 0 <= i < n :: z[i] == 0
  {
    seq(n, _ => 0)
  }

  /** A start code with the zero padding before it: two zeros and a one, a
      third zero for the four-byte form, more for padding. */
  function Gap(zeros: nat): seq<Byte> { Zeros(zeros) + [1] }

  function Stream(us: seq<seq<Byte>>, gaps: seq<nat>, tail: nat): seq<Byte>
    requires |us| == |gaps|
  {
    if us == [] then Zeros(tail) else Gap(gaps[0]) + us[0] + Stream(us[1..], gaps[1..], tail)
  }

  ghost predicate ValidStream(us: seq<seq<Byte>>, gaps: seq<nat>) {
    && |us| == |gaps| && (forall i | 0 <= i < |us| :: Clean(us[i]) && gaps[i] >= 2)
  }

  function NonEmpty(us: seq<seq<Byte>>): seq<seq<Byte>> {
    if us == [] then [] else (if us[0] == [] then [] else [us[0]]) + NonEmpty(us[1..])
  }

  // ------------------------------------------------- splitting undoes joining

  lemma {:induction false} TrimPadded(u: seq<Byte>, n: nat)
    requires Clean(u)
    ensures TrimRight(u + Zeros(n)) == u
  {
    if n == 0 {
      assert u + Zeros(n) == u;
    } else {
      assert (u + Zeros(n))[..|u| + n - 1] == u + Zeros(n - 1);
      TrimPadded(u, n - 1);
    }
  }

  /** No start code begins inside a clean unit, nor in the zeros after it
      before the last three. */
  lemma NoCodeInside(d: seq<Byte>, b: nat, u: seq<Byte>, zeros: nat, j: nat)
    requires Clean(u) && b + |u| + zeros <= |d| && d[b..b + |u|] == u
    requires forall i | b + |u| <= i < b + |u| + zeros :: d[i] == 0
    requires b <= j < b + |u| || (b <= j < |d| && (j + 3 < b + |u| + zeros || b + |u| + zeros == |d|))
    ensures StartCode(d, j) == 0
  {
    if j < b + |u| {
      assert forall i | 0 <= i < |u| :: u[i] == d[b + i];
      assert d[b + |u| - 1] != 0;
      assert !CodeAt(u, j - b);
      if j + 1 < b + |u| { assert !CodeAt(u, j + 1 - b); }
    }
  }

  lemma {:induction false} SkipTo(d: seq<Byte>, begin: nat, i: nat, to: nat)
    requires begin <= i <= to <= |d|
    requires forall j | i <= j < to :: StartCode(d, j) == 0
    ensures Scan(d, begin, i) == Scan(d, begin, to)
    decreases |d| - i
  {
    if i < to { SkipTo(d, begin, i + 1, to); }
  }

  lemma ScanLast(d: seq<Byte>, b: nat, u: seq<Byte>, n: nat)
    requires Clean(u) && b <= |d| && d[b..] == u + Zeros(n)
    ensures Scan(d, b, b) == NonEmpty([u])
  {
    assert forall i | 0 <= i < |u| + n :: d[b + i] == (u + Zeros(n))[i];
    assert d[b..b + |u|] == u;
    forall j | b <= j < |d| ensures StartCode(d, j) == 0 {
      NoCodeInside(d, b, u, n, j);
    }
    SkipTo(d, b, b, |d|);
    TrimPadded(u, n);
  }

  /** Where the bytes of a unit, a gap and what follows them lie. */
  lemma GapLayout(d: seq<Byte>, b: nat, u: seq<Byte>, z: nat, more: seq<Byte>)
    requires b <= |d| && d[b..] == u + (Gap(z) + more)
    ensures |d| == b + |u| + z + 1 + |more|
    ensures d[b..b + |u|] == u && d[b + |u| + z + 1..] == more
    ensures (forall i | b + |u| <= i < b + |u| + z :: d[i] == 0) && d[b + |u| + z] == 1
  {
    var e := b + |u|;
    assert forall i | b <= i < e + z + 1 :: d[i] == (u + (Gap(z) + more))[i - b];
    assert d[e + z + 1..] == d[b..][|u| + z + 1..];
  }

  lemma CodeBehindZeros(d: seq<Byte>, e: nat, z: nat)
    requires z >= 2 && e + z < |d| && (forall i | e <= i < e + z :: d[i] == 0) && d[e + z] == 1
    ensures StartCode(d, if z > 3 then e + z - 3 else e) == if z > 3 then 4 else z + 1
  {
  }

  lemma PaddedPiece(d: seq<Byte>, b: nat, u: seq<Byte>, q: nat)
    requires b + |u| <= q <= |d| && d[b..b + |u|] == u
    requires forall i | b + |u| <= i < q :: d[i] == 0
    ensures d[b..q] == u + Zeros(q - b - |u|)
  {
    assert d[b..q] == d[b..b + |u|] + d[b + |u|..q];
  }

  lemma EmitPadded(d: seq<Byte>, b: nat, u: seq<Byte>, q: nat)
    requires Clean(u) && b + |u| <= q <= |d| && d[b..b + |u|] == u
    requires forall i | b + |u| <= i < q :: d[i] == 0
    ensures Emit(d[b..q]) == NonEmpty([u])
  {
    hide *;
    PaddedPiece(d, b, u, q);
    TrimPadded(u, q - b - |u|);
    EmitIsUnit(d[b..q]);
  }

  lemma EmitIsUnit(s: seq<Byte>)
    ensures Emit(s) == NonEmpty([TrimRight(s)])
  {
  }

  lemma ReachCode(d: seq<Byte>, b: nat, u: seq<Byte>, z: nat, q: nat)
    requires Clean(u) && z >= 2 && b + |u| + z < |d| && d[b..b + |u|] == u
    requires forall i | b + |u| <= i < b + |u| + z :: d[i] == 0
    requires b + |u| <= q && (q == b + |u| || q + 3 == b + |u| + z)
    ensures Scan(d, b, b) == Scan(d, b, q)
  {
    forall j | b <= j < q ensures StartCode(d, j) == 0 {
      NoCodeInside(d, b, u, z, j);
    }
    SkipTo(d, b, b, q);
  }

  lemma ScanGapAt(d: seq<Byte>, b: nat, u: seq<Byte>, z: nat)
    requires Clean(u) && z >= 2 && b + |u| + z < |d| && d[b..b + |u|] == u
    requires (forall i | b + |u| <= i < b + |u| + z :: d[i] == 0) && d[b + |u| + z] == 1
    ensures Scan(d, b, b) == NonEmpty([u]) + Scan(d, b + |u| + z + 1, b + |u| + z + 1)
  {
    hide *;
    var q := b + |u| + (if z > 3 then z - 3 else 0);
    ReachCode(d, b, u, z, q);
    EmitPadded(d, b, u, q);
    CodeBehindZeros(d, b + |u|, z);
    ScanAtCode(d, b, q);
  }

  lemma ScanGap(d: seq<Byte>, b: nat, u: seq<Byte>, z: nat, more: seq<Byte>)
    requires Clean(u) && b <= |d| && z >= 2 && d[b..] == u + (Gap(z) + more)
    ensures b + |u| + z + 1 <= |d| && d[b + |u| + z + 1..] == more
    ensures Scan(d, b, b) == NonEmpty([u]) + Scan(d, b + |u| + z + 1, b + |u| + z + 1)
  {
    GapLayout(d, b, u, z, more);
    ScanGapAt(d, b, u, z);
  }

  lemma NonEmptyCons(u: seq<Byte>, us: seq<seq<Byte>>)
    ensures NonEmpty([u] + us) == NonEmpty([u]) + NonEmpty(us)
  {
    assert ([u] + us)[1..] == us;
  }

  lemma {:induction false} ScanJoined(d: seq<Byte>, b: nat, u: seq<Byte>, us: seq<seq<Byte>>, gaps: seq<nat>, tail: nat)
    requires Clean(u) && ValidStream(us, gaps)
    requires b <= |d| && d[b..] == u + Stream(us, gaps, tail)
    ensures Scan(d, b, b) == NonEmpty([u] + us)
    decreases |us|
  {
    hide Scan, NonEmpty, Clean, StartCode, TrimRight, Emit, Gap, Zeros;
    NonEmptyCons(u, us);
    if us == [] {
      assert [u] + us == [u];
      ScanLast(d, b, u, tail);
    } else {
      var v, vs, more := us[0], us[1..], us[0] + Stream(us[1..], gaps[1..], tail);
      assert us == [v] + vs;
      assert Stream(us, gaps, tail) == Gap(gaps[0]) + more;
      ScanGap(d, b, u, gaps[0], more);
      ScanJoined(d, b + |u| + gaps[0] + 1, v, vs, gaps[1..], tail);
    }
  }

  lemma {:induction false} NonEmptyBound(us: seq<seq<Byte>>)
    ensures |NonEmpty(us)| <= |us|
    ensures (forall i | 0 <= i < |us| :: us[i] != []) ==> NonEmpty(us) == us
  {
    if us != [] {
      NonEmptyBound(us[1..]);
      assert us == [us[0]] + us[1..];
    }
  }

  lemma StreamStart(us: seq<seq<Byte>>, gaps: seq<nat>, tail: nat)
    requires ValidStream(us, gaps) && us != [] && gaps[0] <= 3
    ensures var d, n := Stream(us, gaps, tail), gaps[0] + 1;
            StartCode(d, 0) == n <= |d| && d[n..] == us[0] + Stream(us[1..], gaps[1..], tail)
  {
    var d, z := Stream(us, gaps, tail), gaps[0];
    assert d[..z] == Zeros(z) && d[z] == 1;
    assert forall i | 0 <= i < z :: d[i] == Zeros(z)[i] == 0;
    assert d == Gap(z) + (us[0] + Stream(us[1..], gaps[1..], tail));
  }

  /** Any units joined with any start codes and padding come back, in order
      and unchanged, whatever the mix of three- and four-byte codes. */
  lemma SplitUndoesJoin(us: seq<seq<Byte>>, gaps: seq<nat>, tail: nat)
    requires ValidStream(us, gaps) && us != [] && gaps[0] <= 3
    ensures Units(Stream(us, gaps, tail)) ==
            if |NonEmpty(us)| > MAX_NALUS then TooManyUnits else Split(NonEmpty(us))
  {
    hide Scan, Stream, StartCode, NonEmpty, Clean;
    StreamStart(us, gaps, tail);
    ScanJoined(Stream(us, gaps, tail), gaps[0] + 1, us[0], us[1..], gaps[1..], tail);
    assert [us[0]] + us[1..] == us;
  }

  /** The form the panel's encoder writes: non-empty units, no padding. */
  lemma RoundTrip(us: seq<seq<Byte>>, gaps: seq<nat>)
    requires ValidStream(us, gaps) && 0 < |us| <= MAX_NALUS
    requires forall i | 0 <= i < |us| :: us[i] != [] && gaps[i] <= 3
    ensures Units(Stream(us, gaps, 0)) == Split(us)
  {
    SplitUndoesJoin(us, gaps, 0);
    NonEmptyBound(us);
  }

  // ------------------------------------------- every accepted stream is joined

  lemma CleanPiece(d: seq<Byte>, begin: nat, i: nat)
    requires begin <= i <= |d| && forall j | begin <= j < i :: StartCode(d, j) == 0
    ensures Clean(TrimRight(d[begin..i]))
  {
    var u := TrimRight(d[begin..i]);
    TrimFacts(d[begin..i]);
    forall j: nat | j < |u| ensures !CodeAt(u, j) {
      assert StartCode(d, begin + j) == 0;
      assert forall k | j <= k < |u| :: u[k] == d[begin + k];
    }
  }

  /** The bytes from a unit's beginning to the end of the next start code
      are the trimmed unit and a gap. */
  lemma PieceAndGap(d: seq<Byte>, begin: nat, i: nat) returns (z: nat)
    requires begin <= i < |d| && StartCode(d, i) > 0
    ensures z >= 2 && d[begin..i + StartCode(d, i)] == TrimRight(d[begin..i]) + Gap(z)
  {
    var sc := StartCode(d, i);
    var u := TrimRight(d[begin..i]);
    TrimFacts(d[begin..i]);
    z := i + sc - 1 - begin - |u|;
    assert forall k | i <= k < i + sc - 1 :: d[k] == 0;
    assert forall k | |u| <= k < i - begin :: d[begin..i][k] == d[begin + k] == 0;
    assert d[i + sc - 1] == 1;
    var w := d[begin..i + sc];
    assert w[..|u|] == d[begin..i][..|u|] == u;
    forall k | |u| <= k < |w| - 1 ensures w[k] == 0 {
      assert w[k] == d[begin + k];
      if k < i - begin { assert d[begin..i][k] == 0; }
    }
    assert w[|u|..] == Gap(z);
  }

  /** Reads a stream back into units, gaps and trailing zeros. */
  lemma {:induction false} Decompose(d: seq<Byte>, begin: nat, i: nat)
    returns (u: seq<Byte>, us: seq<seq<Byte>>, gaps: seq<nat>, tail: nat)
    requires begin <= i <= |d| && forall j | begin <= j < i :: StartCode(d, j) == 0
    ensures Clean(u) && ValidStream(us, gaps)
    ensures d[begin..] == u + Stream(us, gaps, tail)
    ensures Scan(d, begin, i) == NonEmpty([u] + us)
    decreases |d| - i
  {
    hide Clean, Stream, NonEmpty, Scan, StartCode, TrimRight, Emit, Gap, Zeros, ValidStream;
    if i == |d| {
      u, tail := LastPiece(d, begin);
      us, gaps := [], [];
      NoUnits(tail);
      assert [u] + us == [u] && d[..i] == d;
    } else if StartCode(d, i) > 0 {
      var next := i + StartCode(d, i);
      ScanAtCode(d, begin, i);
      CleanPiece(d, begin, i);
      u := TrimRight(d[begin..i]);
      var z := PieceAndGap(d, begin, i);
      var u', us', gaps', tail' := Decompose(d, next, next);
      us, gaps, tail := [u'] + us', [z] + gaps', tail';
      Prepend(u', us', z, gaps', tail');
      Regroup(d, begin, next, u, Gap(z), u' + Stream(us', gaps', tail'));
      NonEmptyCons(u, us);
      EmitIsUnit(d[begin..i]);
    } else {
      ScanStep(d, begin, i);
      u, us, gaps, tail := Decompose(d, begin, i + 1);
    }
  }

  lemma NoUnits(tail: nat)
    ensures ValidStream([], []) && Stream([], [], tail) == Zeros(tail)
  {
  }

  lemma Regroup(d: seq<Byte>, b: nat, e: nat, u: seq<Byte>, gap: seq<Byte>, more: seq<Byte>)
    requires b <= e <= |d| && d[b..e] == u + gap && d[e..] == more
    ensures d[b..] == u + (gap + more)
  {
    assert d[b..] == d[b..e] + d[e..];
  }

  lemma LastPiece(d: seq<Byte>, begin: nat) returns (u: seq<Byte>, tail: nat)
    requires begin <= |d| && forall j | begin <= j < |d| :: StartCode(d, j) == 0
    ensures Clean(u) && d[begin..] == u + Zeros(tail) && Scan(d, begin, |d|) == NonEmpty([u])
  {
    CleanPiece(d, begin, |d|);
    TrimFacts(d[begin..]);
    assert d[begin..|d|] == d[begin..];
    u := TrimRight(d[begin..]);
    tail := |d| - begin - |u|;
    assert d[begin..][|u|..] == Zeros(tail);
  }

  lemma Prepend(u: seq<Byte>, us: seq<seq<Byte>>, z: nat, gaps: seq<nat>, tail: nat)
    requires ValidStream(us, gaps) && Clean(u) && z >= 2
    ensures ValidStream([u] + us, [z] + gaps)
    ensures Stream([u] + us, [z] + gaps, tail) == Gap(z) + (u + Stream(us, gaps, tail))
  {
    assert ([u] + us)[1..] == us && ([z] + gaps)[1..] == gaps;
  }

  /** Splitting succeeds on nothing but joined units: a stream is accepted
      exactly when it is some clean units behind a three- or four-byte start
      code, and the non-empty ones among them are what is returned. */
  lemma AcceptedIffJoined(d: seq<Byte>, out: seq<seq<Byte>>)
    ensures Units(d) == Split(out) <==>
            && |out| <= MAX_NALUS
            && exists us, gaps, tail: nat ::
                 && ValidStream(us, gaps) && us != [] && gaps[0] <= 3
                 && d == Stream(us, gaps, tail) && out == NonEmpty(us)
  {
    if Units(d) == Split(out) {
      var n := StartCode(d, 0);
      var u, us', gaps', tail := Decompose(d, n, n);
      var us, gaps := [u] + us', [n - 1] + gaps';
      Prepend(u, us', n - 1, gaps', tail);
      assert d == d[..n] + d[n..] && d[..n] == Gap(n - 1);
      assert d == Stream(us, gaps, tail);
    }
    forall us, gaps, tail: nat | ValidStream(us, gaps) && us != [] && gaps[0] <= 3 && d == Stream(us, gaps, tail)
      ensures Units(d) == if |NonEmpty(us)| > MAX_NALUS then TooManyUnits else Split(NonEmpty(us))
    {
      SplitUndoesJoin(us, gaps, tail);
    }
  }

  lemma {:induction false} NonEmptyClean(us: seq<seq<Byte>>)
    requires forall i | 0 <= i < |us| :: Clean(us[i])
    ensures forall i | 0 <= i < |NonEmpty(us)| :: NonEmpty(us)[i] != [] && Clean(NonEmpty(us)[i])
  {
    if us != [] { NonEmptyClean(us[1..]); }
  }

  /** What comes out of any accepted stream is non-empty and clean, so joining
      it again with plain start codes and splitting gives it back. */
  lemma OutputIsCanonical(d: seq<Byte>)
    requires Units(d).Split?
    ensures var us := Units(d).nalus;
            && (forall i | 0 <= i < |us| :: us[i] != [] && Clean(us[i]))
            && (us != [] ==> Units(Stream(us, seq(|us|, _ => 3), 0)) == Split(us))
  {
    var n := StartCode(d, 0);
    var u, us', gaps', tail := Decompose(d, n, n);
    NonEmptyClean([u] + us');
    var us := Units(d).nalus;
    if us != [] { RoundTrip(us, seq(|us|, _ => 3)); }
  }
}
