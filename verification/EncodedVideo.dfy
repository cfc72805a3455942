/**
 What an encoder writes and the parser gives back: pictures told apart by the
 header bytes of their units, as the codecs lay them down.
 */
module EncodedVideo {
  import opened AccessUnits
  import opened AnnexB
  import opened Bytes
  import opened Common

  /** A picture as it is written: delimiters, then parameter sets and messages,
      its first slice, its other slices, and what closes it. */
  datatype Coded = Coded(
    delimiters: seq<Unit>, heads: seq<Unit>, first: Unit, slices: seq<Unit>, tails: seq<Unit>)

  /** The type in a unit's header: five bits of one byte, or six of two. */
  function Type(c: Codec, u: Unit): Option<int> {
    match c
    case H264 => if u != [] then Some(u[0] % 0x20) else None
    case H265 => if |u| >= 2 then Some(u[0] / 2 % 0x40) else None
  }

  predicate HasType(c: Codec, u: Unit, types: set<int>) { Type(c, u).Some? && Type(c, u).value in types }

  function Delimiters(c: Codec): set<int> { if c == H264 then {9} else {35} }

  function Heads(c: Codec): set<int> { if c == H264 then {6, 7, 8} else {32, 33, 34, 39} }

  function Tails(c: Codec): set<int> { if c == H264 then {10, 11, 12} else {36, 37, 38, 40} }

  /** The parts of a slice that is sent in pieces. */
  function Parts(c: Codec): set<int> { if c == H264 then {3, 4} else {} }

  /** Slices say whether they are the first of a picture. */
  predicate SliceType(c: Codec, u: Unit) {
    Type(c, u).Some? && if c == H264 then Type(c, u).value in {1, 2, 5} else Type(c, u).value <= 31
  }

  predicate KeyType(c: Codec, u: Unit) {
    Type(c, u).Some? && if c == H264 then Type(c, u).value == 5 else 16 <= Type(c, u).value <= 23
  }

  function HeaderLength(c: Codec): nat { if c == H264 then 1 else 2 }

  /** The first bit behind the header of a slice. */
  predicate SaysFirst(c: Codec, u: Unit) { |u| > HeaderLength(c) && u[HeaderLength(c)] >= 0x80 }

  predicate IsFirst(c: Codec, u: Unit) { SliceType(c, u) && SaysFirst(c, u) }

  predicate IsOther(c: Codec, u: Unit) { HasType(c, u, Parts(c)) || (SliceType(c, u) && !SaysFirst(c, u)) }

  ghost predicate IsCoded(c: Codec, p: Coded) {
    && (forall i | 0 <= i < |p.delimiters| :: HasType(c, p.delimiters[i], Delimiters(c)))
    && (forall i | 0 <= i < |p.heads| :: HasType(c, p.heads[i], Heads(c)))
    && IsFirst(c, p.first)
    && (forall i | 0 <= i < |p.slices| :: IsOther(c, p.slices[i]))
    && (forall i | 0 <= i < |p.tails| :: HasType(c, p.tails[i], Tails(c)))
  }

  /** What of a picture is sent: all but its delimiters. */
  function Sent(p: Coded): seq<Unit> { p.heads + [p.first] + p.slices + p.tails }

  function SentAll(ps: seq<Coded>): seq<seq<Unit>> {
    if ps == [] then [] else SentAll(ps[..|ps| - 1]) + [Sent(ps[|ps| - 1])]
  }

  function UnitsOf(ps: seq<Coded>): seq<Unit> {
    if ps == [] then []
    else UnitsOf(ps[..|ps| - 1]) + (ps[|ps| - 1].delimiters + Sent(ps[|ps| - 1]))
  }

  // ----------------------------------------------------------- what they are

  lemma KindsByHeader(c: Codec, u: Unit)
    ensures HasType(c, u, Delimiters(c)) ==> Classify(c, u) == Drop
    ensures HasType(c, u, Heads(c)) ==> Classify(c, u) == Prefix
    ensures IsFirst(c, u) ==> Classify(c, u) == Picture
    ensures IsOther(c, u) ==> Classify(c, u) == Slice
    ensures HasType(c, u, Tails(c)) ==> Classify(c, u) == Suffix
  {
  }

  lemma {:induction false} KeptMore(c: Codec, a: seq<Unit>, b: seq<Unit>)
    ensures Kept(c, a + b) == Kept(c, a) + Kept(c, b)
  {
    hide Classify;
    if b == [] {
      assert a + b == a;
    } else {
      assert (a + b)[..|a + b| - 1] == a + b[..|b| - 1];
      KeptMore(c, a, b[..|b| - 1]);
    }
  }

  lemma {:induction false} KeptAll(c: Codec, us: seq<Unit>)
    ensures (forall i | 0 <= i < |us| :: Classify(c, us[i]) != Drop) ==> Kept(c, us) == us
    ensures (forall i | 0 <= i < |us| :: Classify(c, us[i]) == Drop) ==> Kept(c, us) == []
  {
    hide Classify;
    if us != [] {
      KeptAll(c, us[..|us| - 1]);
      assert us == us[..|us| - 1] + [us[|us| - 1]];
    }
  }

  /** What is sent, unit by unit. */
  lemma SentKinds(c: Codec, p: Coded)
    requires IsCoded(c, p)
    ensures var au, h, n := Sent(p), |p.heads|, |p.heads| + 1 + |p.slices|;
            && (forall i | 0 <= i < h :: Classify(c, au[i]) == Prefix)
            && Classify(c, au[h]) == Picture
            && (forall i | h < i < n :: Classify(c, au[i]) == Slice)
            && (forall i | n <= i < |au| :: Classify(c, au[i]) == Suffix)
  {
    hide Classify, HasType, IsFirst, IsOther, Delimiters, Heads, Tails;
    var au := Sent(p);
    forall i | 0 <= i < |p.heads| ensures Classify(c, au[i]) == Prefix { KindsByHeader(c, p.heads[i]); }
    KindsByHeader(c, p.first);
    forall i | |p.heads| < i < |p.heads| + 1 + |p.slices| ensures Classify(c, au[i]) == Slice {
      assert au[i] == p.slices[i - |p.heads| - 1];
      KindsByHeader(c, au[i]);
    }
    forall i | |p.heads| + 1 + |p.slices| <= i < |au| ensures Classify(c, au[i]) == Suffix {
      assert au[i] == p.tails[i - |p.heads| - 1 - |p.slices|];
      KindsByHeader(c, au[i]);
    }
  }

  lemma SentIsPicture(c: Codec, p: Coded)
    requires IsCoded(c, p)
    ensures IsPicture(c, Sent(p)) && Starts(c, Sent(p))
  {
    hide Classify, IsCoded;
    SentKinds(c, p);
    assert IsSlice(c, Sent(p)[|p.heads|]);
  }

  lemma SentIsKept(c: Codec, p: Coded)
    requires IsCoded(c, p)
    ensures Kept(c, p.delimiters + Sent(p)) == Sent(p)
  {
    hide Classify, Kept, IsCoded;
    SentKinds(c, p);
    var au := Sent(p);
    hide Sent;
    DelimitersDrop(c, p);
    KeptAll(c, p.delimiters);
    KeptAll(c, au);
    KeptMore(c, p.delimiters, au);
  }

  lemma DelimitersDrop(c: Codec, p: Coded)
    requires IsCoded(c, p)
    ensures forall i | 0 <= i < |p.delimiters| :: Classify(c, p.delimiters[i]) == Drop
  {
    hide Classify, HasType;
    forall i | 0 <= i < |p.delimiters| ensures Classify(c, p.delimiters[i]) == Drop {
      KindsByHeader(c, p.delimiters[i]);
    }
  }

  lemma NothingFlat()
    ensures Flatten([]) == []
  {
  }

  lemma {:induction false} KeptIsSent(c: Codec, ps: seq<Coded>)
    requires forall i | 0 <= i < |ps| :: IsCoded(c, ps[i])
    ensures Kept(c, UnitsOf(ps)) == Flatten(SentAll(ps))
    ensures |SentAll(ps)| == |ps| && forall i | 0 <= i < |ps| :: SentAll(ps)[i] == Sent(ps[i])
  {
    hide IsCoded, Sent, Kept, Classify, Flatten;
    if ps == [] {
      NothingFlat();
      KeptAll(c, []);
    } else {
      var front, last := ps[..|ps| - 1], ps[|ps| - 1];
      KeptIsSent(c, front);
      SentIsKept(c, last);
      KeptMore(c, UnitsOf(front), last.delimiters + Sent(last));
      FlattenSnoc(SentAll(front), Sent(last));
    }
  }

  /** However pictures are written one after the other, the parser tells the very
      same pictures apart, without the delimiters. */
  lemma PicturesComeBack(c: Codec, ps: seq<Coded>)
    requires forall i | 0 <= i < |ps| :: IsCoded(c, ps[i])
    ensures Flush(Fold(c, UnitsOf(ps))).aus == SentAll(ps) && Flush(Fold(c, UnitsOf(ps))).cur == []
  {
    hide IsCoded, Sent, Kept, Fold, Flush;
    KeptIsSent(c, ps);
    var aus := SentAll(ps);
    forall i | 0 <= i < |aus| ensures IsPicture(c, aus[i]) && Starts(c, aus[i]) { SentIsPicture(c, ps[i]); }
    assert Flatten(aus) + [] == Kept(c, UnitsOf(ps));
    GroupingIffFold(c, UnitsOf(ps), aus, []);
  }

  ghost predicate Has(c: Codec, us: seq<Unit>, t: int) {
    exists i :: 0 <= i < |us| && Type(c, us[i]) == Some(t)
  }

  /** The parameter sets a stream cannot do without. */
  ghost predicate HasSets(c: Codec, us: seq<Unit>) {
    if c == H264 then Has(c, us, 7) && Has(c, us, 8) else Has(c, us, 32) && Has(c, us, 33) && Has(c, us, 34)
  }

  ghost predicate HasKey(c: Codec, us: seq<Unit>) { exists i :: 0 <= i < |us| && KeyType(c, us[i]) }

  /** A file of such pictures is taken exactly if it has its parameter sets and a
      keyframe in its first picture: that is when the conditions of ParseVideo
      hold, and what it gives back is those pictures. */
  lemma EncodedIsTaken(c: Codec, ps: seq<Coded>, gaps: seq<nat>)
    requires (forall i | 0 <= i < |ps| :: IsCoded(c, ps[i])) && 1 <= |ps| <= MAX_FRAMES
    requires ValidStream(UnitsOf(ps), gaps) && |UnitsOf(ps)| <= MAX_NALUS
    requires forall i | 0 <= i < |gaps| :: gaps[i] <= 3
    ensures var ns := UnitsOf(ps);
            && Units(Stream(ns, gaps, 0)) == Split(ns)
            && Flush(Fold(c, ns)).aus == SentAll(ps) && |SentAll(ps)| == |ps|
            && (First(c, SPS, ns).Some? && First(c, PPS, ns).Some? && (NeedsVPS(c) ==> First(c, VPS, ns).Some?) <==>
                  HasSets(c, ns))
            && ((exists n :: n in SentAll(ps)[0] && Keyframe(c, n)) <==> HasKey(c, Sent(ps[0])))
  {
    hide IsCoded, Sent, Fold, Flush, Stream, Kept, First, HasSets, Keyframe, KeyType, Units, ValidStream, UnitsOf;
    var ns := UnitsOf(ps);
    PicturesComeBack(c, ps);
    KeptIsSent(c, ps);
    UnitsAreSome(c, ps);
    GapsFit(ns, gaps);
    RoundTrip(ns, gaps);
    SetsByHeader(c, ns);
    SentUnits(c, ps[0]);
    KeysByHeader(c, Sent(ps[0]));
  }

  lemma GapsFit(us: seq<Unit>, gaps: seq<nat>)
    requires ValidStream(us, gaps)
    ensures |us| == |gaps|
  {
  }

  lemma {:induction false} UnitsAreSome(c: Codec, ps: seq<Coded>)
    requires forall i | 0 <= i < |ps| :: IsCoded(c, ps[i])
    ensures forall i | 0 <= i < |UnitsOf(ps)| :: UnitsOf(ps)[i] != []
    ensures ps != [] ==> UnitsOf(ps) != []
  {
    hide IsCoded;
    if ps != [] {
      UnitsAreSome(c, ps[..|ps| - 1]);
      SentUnits(c, ps[|ps| - 1]);
    }
  }

  lemma SentUnits(c: Codec, p: Coded)
    requires IsCoded(c, p)
    ensures forall i | 0 <= i < |p.delimiters| :: p.delimiters[i] != []
    ensures forall i | 0 <= i < |Sent(p)| :: Type(c, Sent(p)[i]).Some? && Sent(p)[i] != []
  {
  }

  lemma SetByHeader(c: Codec, u: Unit)
    ensures ParamSetOf(c, u) == Some(SPS) <==> Type(c, u) == Some(if c == H264 then 7 else 33)
    ensures ParamSetOf(c, u) == Some(PPS) <==> Type(c, u) == Some(if c == H264 then 8 else 34)
    ensures c == H265 ==> (ParamSetOf(c, u) == Some(VPS) <==> Type(c, u) == Some(32))
  {
  }

  lemma FirstIfHas(c: Codec, p: ParamSet, ns: seq<Unit>, t: int)
    requires forall i | 0 <= i < |ns| :: ParamSetOf(c, ns[i]) == Some(p) <==> Type(c, ns[i]) == Some(t)
    ensures First(c, p, ns).Some? <==> Has(c, ns, t)
  {
    hide ParamSetOf, Type, First;
    FirstIsFirst(c, p, ns);
  }

  lemma SetsByHeader(c: Codec, ns: seq<Unit>)
    ensures First(c, SPS, ns).Some? && First(c, PPS, ns).Some? && (NeedsVPS(c) ==> First(c, VPS, ns).Some?) <==>
            HasSets(c, ns)
  {
    hide ParamSetOf, Type, First, Has;
    forall u ensures
        && (ParamSetOf(c, u) == Some(SPS) <==> Type(c, u) == Some(if c == H264 then 7 else 33))
        && (ParamSetOf(c, u) == Some(PPS) <==> Type(c, u) == Some(if c == H264 then 8 else 34))
        && (c == H265 ==> (ParamSetOf(c, u) == Some(VPS) <==> Type(c, u) == Some(32)))
    {
      SetByHeader(c, u);
    }
    FirstIfHas(c, SPS, ns, if c == H264 then 7 else 33);
    FirstIfHas(c, PPS, ns, if c == H264 then 8 else 34);
    if c == H265 { FirstIfHas(c, VPS, ns, 32); }
  }

  lemma KeyByHeader(c: Codec, u: Unit)
    requires Type(c, u).Some?
    ensures Keyframe(c, u) <==> KeyType(c, u)
  {
  }

  lemma KeysByHeader(c: Codec, au: seq<Unit>)
    requires forall i | 0 <= i < |au| :: Type(c, au[i]).Some?
    ensures (exists n :: n in au && Keyframe(c, n)) <==> HasKey(c, au)
  {
    hide Keyframe, KeyType, Type;
    forall i | 0 <= i < |au| ensures Keyframe(c, au[i]) <==> KeyType(c, au[i]) { KeyByHeader(c, au[i]); }
    if HasKey(c, au) {
      var i :| 0 <= i < |au| && KeyType(c, au[i]);
      assert au[i] in au && Keyframe(c, au[i]);
    }
  }
}
