/**
 Grouping the NAL units of an H.264 or H.265 stream into pictures. The grouping
 the loop computes is proved to be the only one that keeps every unit in order,
 gives every picture a slice and starts a new picture where the codec says.
 */
module AccessUnits {
  import opened AnnexB
  import opened Bytes
  import opened Common

  type Unit = seq<Byte>

  datatype Codec = H264 | H265

  datatype Kind = Drop | Prefix | Suffix | Slice | Picture

  datatype ParamSet = VPS | SPS | PPS

  datatype Parsed =
    | Source(aus: seq<seq<Unit>>, vps: Option<Unit>, sps: Option<Unit>, pps: Option<Unit>)
    | BadStream(reason: SplitResult)
    | NoFrames
    | TooManyFrames
    | MissingParameterSet
    | NoKeyframe

  // ------------------------------------------------------- classifying units

  function H264Type(n: Unit): nat
    requires n != []
  {
    n[0] % 0x20
  }

  function H265Type(n: Unit): nat
    requires n != []
  {
    n[0] / 2 % 0x40
  }

  function ParamSetOf(c: Codec, n: Unit): Option<ParamSet> {
    match c
    case H264 =>
      if n == [] then None
      else if H264Type(n) == 7 then Some(SPS) else if H264Type(n) == 8 then Some(PPS) else None
    case H265 =>
      if |n| < 2 then None
      else if H265Type(n) == 32 then Some(VPS) else if H265Type(n) == 33 then Some(SPS)
      else if H265Type(n) == 34 then Some(PPS) else None
  }

  function Classify(c: Codec, n: Unit): Kind {
    match c
    case H264 =>
      if n == [] || H264Type(n) == 9 then Drop
      else
        var t := H264Type(n);
        if t == 1 || t == 5 || t == 2 then (if |n| > 1 && n[1] >= 0x80 then Picture else Slice)
        else if t == 3 || t == 4 then Slice
        else if t == 10 || t == 11 || t == 12 then Suffix
        else Prefix
    case H265 =>
      if |n| < 2 || H265Type(n) == 35 then Drop
      else
        var t := H265Type(n);
        if t <= 31 then (if |n| > 2 && n[2] >= 0x80 then Picture else Slice)
        else if t == 40 || t == 36 || t == 37 || t == 38 then Suffix
        else Prefix
  }

  predicate Keyframe(c: Codec, n: Unit) {
    && n != []
    && match c case H264 => H264Type(n) == 5 case H265 => 16 <= H265Type(n) <= 23
  }

  predicate IsSlice(c: Codec, n: Unit) { Classify(c, n) == Slice || Classify(c, n) == Picture }

  /** A unit that begins a new picture once the current one has a slice. */
  predicate Opens(c: Codec, n: Unit) { Classify(c, n) == Prefix || Classify(c, n) == Picture }

  // -------------------------------------------------------------- the loop

  datatype Group = Group(aus: seq<seq<Unit>>, cur: seq<Unit>, hasSlice: bool)

  const EMPTY := Group([], [], false)

  function Flush(g: Group): Group {
    if g.hasSlice then Group(g.aus + [g.cur], [], false) else g
  }

  function Add(g: Group, n: Unit, slice: bool): Group {
    g.(cur := g.cur + [n], hasSlice := g.hasSlice || slice)
  }

  function Step(c: Codec, g: Group, n: Unit): Group {
    match Classify(c, n)
    case Drop => g
    case Prefix => Add(Flush(g), n, false)
    case Suffix => Add(g, n, false)
    case Picture => Add(Flush(g), n, true)
    case Slice => Add(g, n, true)
  }

  function Fold(c: Codec, ns: seq<Unit>): Group {
    if ns == [] then EMPTY else Step(c, Fold(c, ns[..|ns| - 1]), ns[|ns| - 1])
  }

  function First(c: Codec, p: ParamSet, ns: seq<Unit>): Option<Unit> {
    if ns == [] then None
    else if First(c, p, ns[..|ns| - 1]).Some? then First(c, p, ns[..|ns| - 1])
    else if ParamSetOf(c, ns[|ns| - 1]) == Some(p) then Some(ns[|ns| - 1]) else None
  }

  method HasKeyframe(c: Codec, au: seq<Unit>) returns (r: bool)
    ensures r <==> exists n :: n in au && Keyframe(c, n)
  {
    for i := 0 to |au|
      invariant forall j | 0 <= j < i :: !Keyframe(c, au[j])
    {
      if Keyframe(c, au[i]) { return true; }
    }
    return false;
  }

  predicate NeedsVPS(c: Codec) { c == H265 }

  /** A stream is accepted exactly when it splits, groups into one to 600
      pictures, carries its parameter sets and starts with a keyframe; the
      source then holds all its pictures and the first set of each kind. */
  method ParseVideo(c: Codec, data: seq<Byte>) returns (r: Parsed)
    ensures r.BadStream? <==> !Units(data).Split?
    ensures Units(data).Split? ==>
              var ns := Units(data).nalus;
              var aus := Flush(Fold(c, ns)).aus;
              var vps, sps, pps := First(c, VPS, ns), First(c, SPS, ns), First(c, PPS, ns);
              && (r.NoFrames? <==> |aus| == 0)
              && (r.TooManyFrames? <==> |aus| > MAX_FRAMES)
              && (r.Source? <==>
                    && 1 <= |aus| <= MAX_FRAMES
                    && sps.Some? && pps.Some? && (NeedsVPS(c) ==> vps.Some?)
                    && exists n :: n in aus[0] && Keyframe(c, n))
              && (r.NoKeyframe? ==> !exists n :: n in aus[0] && Keyframe(c, n))
              && (r.Source? ==> r == Source(aus, vps, sps, pps))
  {
    hide Classify, ParamSetOf, Units, Keyframe;
    var split := SplitAnnexB(data);
    if !split.Split? { return BadStream(split); }
    var nalus := split.nalus;
    var aus: seq<seq<Unit>> := [];
    var cur: seq<Unit> := [];
    var hasSlice := false;
    var vps, sps, pps := None, None, None;
    for i := 0 to |nalus|
      invariant Group(aus, cur, hasSlice) == Fold(c, nalus[..i])
      invariant vps == First(c, VPS, nalus[..i])
      invariant sps == First(c, SPS, nalus[..i])
      invariant pps == First(c, PPS, nalus[..i])
    {
      assert nalus[..i + 1][..i] == nalus[..i];
      var n := nalus[i];
      match ParamSetOf(c, n) {
        case Some(VPS) => if vps == None { vps := Some(n); }
        case Some(SPS) => if sps == None { sps := Some(n); }
        case Some(PPS) => if pps == None { pps := Some(n); }
        case None =>
      }
      match Classify(c, n) {
        case Drop =>
        case Prefix =>
          if hasSlice { aus, cur, hasSlice := aus + [cur], [], false; }
          cur := cur + [n];
        case Suffix =>
          cur := cur + [n];
        case Picture =>
          if hasSlice { aus, cur, hasSlice := aus + [cur], [], false; }
          cur, hasSlice := cur + [n], true;
        case Slice =>
          cur, hasSlice := cur + [n], true;
      }
    }
    assert nalus[..|nalus|] == nalus;
    if hasSlice { aus, cur, hasSlice := aus + [cur], [], false; }
    if |aus| == 0 { return NoFrames; }
    if |aus| > MAX_FRAMES { return TooManyFrames; }
    if sps == None || pps == None || (NeedsVPS(c) && vps == None) { return MissingParameterSet; }
    var key := HasKeyframe(c, aus[0]);
    if !key { return NoKeyframe; }
    return Source(aus, vps, sps, pps);
  }

  // -------------------------------------------- what a grouping has to satisfy

  function Kept(c: Codec, ns: seq<Unit>): seq<Unit> {
    if ns == [] then []
    else
      var last := ns[|ns| - 1];
      Kept(c, ns[..|ns| - 1]) + (if Classify(c, last) == Drop then [] else [last])
  }

  function Flatten(aus: seq<seq<Unit>>): seq<Unit> {
    if aus == [] then [] else Flatten(aus[..|aus| - 1]) + aus[|aus| - 1]
  }

  ghost predicate HasSlice(c: Codec, au: seq<Unit>) { exists i :: 0 <= i < |au| && IsSlice(c, au[i]) }

  /** Within a picture nothing that opens a picture follows a slice: no prefix
      unit, and no opening slice that is not the first one. */
  ghost predicate Shaped(c: Codec, au: seq<Unit>) {
    forall i, j | 0 <= i < j < |au| && IsSlice(c, au[i]) :: !Opens(c, au[j])
  }

  ghost predicate IsPicture(c: Codec, au: seq<Unit>) { HasSlice(c, au) && Shaped(c, au) }

  ghost predicate Starts(c: Codec, au: seq<Unit>) { au != [] && Opens(c, au[0]) }

  /** A division of units into pictures and a rest without slices, where every
      picture but the first and any rest behind a picture begins with an
      opening unit. */
  ghost predicate Grouping(c: Codec, units: seq<Unit>, aus: seq<seq<Unit>>, rest: seq<Unit>) {
    && Flatten(aus) + rest == units
    && (forall i | 0 <= i < |aus| :: IsPicture(c, aus[i]))
    && (forall i | 1 <= i < |aus| :: Starts(c, aus[i]))
    && !HasSlice(c, rest)
    && (aus != [] && rest != [] ==> Starts(c, rest))
  }

  /** The same before the last flush: the current picture is still open. */
  ghost predicate Open(c: Codec, units: seq<Unit>, g: Group) {
    && Flatten(g.aus) + g.cur == units
    && (forall i | 0 <= i < |g.aus| :: IsPicture(c, g.aus[i]))
    && (forall i | 1 <= i < |g.aus| :: Starts(c, g.aus[i]))
    && (g.aus != [] ==> Starts(c, g.cur))
    && Shaped(c, g.cur)
    && (g.hasSlice <==> HasSlice(c, g.cur))
  }

  lemma FlattenSnoc(aus: seq<seq<Unit>>, au: seq<Unit>)
    ensures Flatten(aus + [au]) == Flatten(aus) + au
  {
    assert (aus + [au])[..|aus|] == aus;
  }

  lemma HasSliceSnoc(c: Codec, au: seq<Unit>, n: Unit)
    ensures HasSlice(c, au + [n]) <==> HasSlice(c, au) || IsSlice(c, n)
  {
    var b := au + [n];
    assert b[|au|] == n && forall i | 0 <= i < |au| :: b[i] == au[i];
    if HasSlice(c, au) {
      var i :| 0 <= i < |au| && IsSlice(c, au[i]);
      assert IsSlice(c, b[i]);
    }
    if IsSlice(c, n) { assert IsSlice(c, b[|au|]); }
  }

  lemma AddKeepsOpen(c: Codec, units: seq<Unit>, g: Group, n: Unit)
    requires Open(c, units, g)
    requires Opens(c, n) ==> !g.hasSlice
    requires g.cur == [] ==> g.aus == []
    ensures Open(c, units + [n], Add(g, n, IsSlice(c, n)))
  {
    HasSliceSnoc(c, g.cur, n);
    assert Flatten(g.aus) + (g.cur + [n]) == units + [n];
  }

  lemma FlushThenAdd(c: Codec, units: seq<Unit>, g: Group, n: Unit)
    requires Open(c, units, g) && g.hasSlice && Opens(c, n)
    ensures Open(c, units + [n], Group(g.aus + [g.cur], [n], IsSlice(c, n)))
  {
    var aus := g.aus + [g.cur];
    FlattenSnoc(g.aus, g.cur);
    assert Flatten(aus) + [n] == units + [n];
    assert HasSlice(c, [n]) <==> IsSlice(c, n) by {
      if IsSlice(c, n) { assert IsSlice(c, [n][0]); }
    }
    forall i | 0 <= i < |aus| ensures IsPicture(c, aus[i]) {
      if i < |g.aus| { assert aus[i] == g.aus[i]; }
    }
    forall i | 1 <= i < |aus| ensures Starts(c, aus[i]) {
      if i < |g.aus| { assert aus[i] == g.aus[i]; }
    }
  }

  lemma OpenStep(c: Codec, units: seq<Unit>, g: Group, n: Unit)
    requires Open(c, units, g) && Classify(c, n) != Drop
    ensures Open(c, units + [n], Step(c, g, n))
  {
    if Opens(c, n) && g.hasSlice {
      FlushThenAdd(c, units, g, n);
      assert [] + [n] == [n];
    } else {
      AddKeepsOpen(c, units, g, n);
    }
  }

  lemma {:induction false} FoldOpen(c: Codec, ns: seq<Unit>)
    ensures Open(c, Kept(c, ns), Fold(c, ns))
  {
    if ns != [] {
      var last := ns[|ns| - 1];
      FoldOpen(c, ns[..|ns| - 1]);
      if Classify(c, last) != Drop {
        OpenStep(c, Kept(c, ns[..|ns| - 1]), Fold(c, ns[..|ns| - 1]), last);
      } else {
        assert Kept(c, ns) == Kept(c, ns[..|ns| - 1]);
      }
    }
  }

  lemma CloseGroup(c: Codec, units: seq<Unit>, g: Group)
    requires Open(c, units, g) && g.hasSlice
    ensures Grouping(c, units, g.aus + [g.cur], [])
  {
    var aus := g.aus + [g.cur];
    FlattenSnoc(g.aus, g.cur);
    assert Flatten(aus) + [] == units;
    forall i | 0 <= i < |aus| ensures IsPicture(c, aus[i]) {
      if i < |g.aus| { assert aus[i] == g.aus[i]; }
    }
    forall i | 1 <= i < |aus| ensures Starts(c, aus[i]) {
      if i < |g.aus| { assert aus[i] == g.aus[i]; }
    }
  }

  /** Conservation and shape of the result, on every input. */
  lemma GroupingOfFold(c: Codec, ns: seq<Unit>)
    ensures var g := Flush(Fold(c, ns)); Grouping(c, Kept(c, ns), g.aus, g.cur)
  {
    FoldOpen(c, ns);
    var g := Fold(c, ns);
    if g.hasSlice { CloseGroup(c, Kept(c, ns), g); }
  }

  // ------------------------------------------------------------- uniqueness

  lemma UnstepFlushed(c: Codec, units: seq<Unit>, n: Unit, g: Group) returns (g': Group)
    requires Open(c, units + [n], g) && Classify(c, n) != Drop
    requires g.cur == [n] && g.aus != []
    ensures Open(c, units, g') && Step(c, g', n) == g
  {
    var m := |g.aus| - 1;
    var front, last := g.aus[..m], g.aus[m];
    g' := Group(front, last, true);
    FlattenSnoc(front, last);
    assert g.aus == front + [last];
    assert Flatten(front) + last == units by {
      assert (Flatten(g.aus) + [n])[..|units|] == units;
    }
    assert IsPicture(c, last);
    if m > 0 { assert Starts(c, last); }
    assert [] + [n] == [n];
    HasSliceSnoc(c, [], n);
  }

  lemma UnstepAdded(c: Codec, units: seq<Unit>, n: Unit, cur: seq<Unit>, g: Group) returns (g': Group)
    requires Open(c, units + [n], g) && Classify(c, n) != Drop
    requires g.cur == cur + [n] && (cur == [] ==> g.aus == [])
    ensures Open(c, units, g') && Step(c, g', n) == g
  {
    g' := Group(g.aus, cur, HasSlice(c, cur));
    HasSliceSnoc(c, cur, n);
    assert forall i | 0 <= i < |cur| :: g.cur[i] == cur[i];
    assert Flatten(g.aus) + cur == units by {
      assert (Flatten(g.aus) + g.cur)[..|units|] == units;
    }
    if g'.hasSlice {
      var i :| 0 <= i < |cur| && IsSlice(c, cur[i]);
      assert IsSlice(c, g.cur[i]) && !Opens(c, g.cur[|cur|]);
    }
  }

  /** Takes the last unit out of an open grouping; putting it back is Step. */
  lemma Unstep(c: Codec, units: seq<Unit>, n: Unit, g: Group) returns (g': Group)
    requires Open(c, units + [n], g) && Classify(c, n) != Drop
    ensures Open(c, units, g') && Step(c, g', n) == g
  {
    var all := Flatten(g.aus) + g.cur;
    assert all == units + [n] && all[|units|] == n;
    assert g.cur != [];
    var k := |g.cur| - 1;
    assert g.cur == g.cur[..k] + [n];
    if k == 0 && g.aus != [] {
      g' := UnstepFlushed(c, units, n, g);
    } else {
      g' := UnstepAdded(c, units, n, g.cur[..k], g);
    }
  }

  lemma {:induction false} OpenUnique(c: Codec, ns: seq<Unit>, g: Group)
    requires Open(c, Kept(c, ns), g)
    ensures g == Fold(c, ns)
  {
    if ns == [] {
      assert |Flatten(g.aus) + g.cur| == 0;
    } else {
      var last := ns[|ns| - 1];
      var units := Kept(c, ns[..|ns| - 1]);
      if Classify(c, last) == Drop {
        assert Kept(c, ns) == units;
        OpenUnique(c, ns[..|ns| - 1], g);
      } else {
        var g' := Unstep(c, units, last, g);
        OpenUnique(c, ns[..|ns| - 1], g');
      }
    }
  }

  /** Every grouping is what the last flush makes of an open one. */
  lemma Reopen(c: Codec, units: seq<Unit>, aus: seq<seq<Unit>>, rest: seq<Unit>) returns (g: Group)
    requires Grouping(c, units, aus, rest)
    ensures Open(c, units, g) && Flush(g).aus == aus && Flush(g).cur == rest
  {
    if rest == [] && aus != [] {
      var m := |aus| - 1;
      g := Group(aus[..m], aus[m], true);
      FlattenSnoc(aus[..m], aus[m]);
      assert aus == aus[..m] + [aus[m]];
      assert IsPicture(c, aus[m]);
      if m > 0 { assert Starts(c, aus[m]); }
    } else {
      g := Group(aus, rest, false);
    }
  }

  /** The loop's result is the one and only grouping of the stream. */
  lemma GroupingIffFold(c: Codec, ns: seq<Unit>, aus: seq<seq<Unit>>, rest: seq<Unit>)
    ensures Grouping(c, Kept(c, ns), aus, rest) <==>
            aus == Flush(Fold(c, ns)).aus && rest == Flush(Fold(c, ns)).cur
  {
    GroupingOfFold(c, ns);
    if Grouping(c, Kept(c, ns), aus, rest) {
      var g := Reopen(c, Kept(c, ns), aus, rest);
      OpenUnique(c, ns, g);
    }
  }

  /** A parameter set the source carries is the stream's first of its kind. */
  lemma {:induction false} FirstIsFirst(c: Codec, p: ParamSet, ns: seq<Unit>)
    ensures First(c, p, ns) == None <==> forall i | 0 <= i < |ns| :: ParamSetOf(c, ns[i]) != Some(p)
    ensures First(c, p, ns).Some? ==>
              exists i :: 0 <= i < |ns| && ns[i] == First(c, p, ns).value && ParamSetOf(c, ns[i]) == Some(p) &&
                          forall j | 0 <= j < i :: ParamSetOf(c, ns[j]) != Some(p)
  {
    if ns != [] {
      var front := ns[..|ns| - 1];
      FirstIsFirst(c, p, front);
      if First(c, p, front).Some? {
        var i :| 0 <= i < |front| && front[i] == First(c, p, front).value && ParamSetOf(c, front[i]) == Some(p) &&
                 forall j | 0 <= j < i :: ParamSetOf(c, front[j]) != Some(p);
        assert forall j | 0 <= j <= i :: ns[j] == front[j];
      } else {
        assert forall j | 0 <= j < |front| :: ns[j] == front[j];
      }
    }
  }
}
