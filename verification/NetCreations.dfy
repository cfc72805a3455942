/**
 What a creation of a camera comes to. The steps of its call are read off a run,
 whatever else happens between them, and decide how its record ends.
 */
module NetCreations {
  import opened Common
  import opened NetHelper

  /** What a creation does, with the answers it gets. */
  datatype Step =
    | Begins
    | Makes(ok: bool)
    | Stores
    | Looks(deleted: bool)
    | SetsUp(ok: bool)
    | Starts(ok: bool)
    | Notes
    | Fails
    | Undoes
    | Returns

  predicate OfCreate(a: Action) {
    a.MakeNs? || a.PutNs? || a.Check? || a.SetUp? || a.Start? || a.PutCmd? || a.Fail? || a.Undo? || a.EndCreate?
  }

  /** The step of an action of a creation. */
  function Taken(a: Action, deleting: bool): Step {
    match a
    case MakeNs(_, ok) => Makes(ok)
    case PutNs(_) => Stores
    case Check(_) => Looks(deleting)
    case SetUp(_, ok) => SetsUp(ok)
    case Start(_, ok) => Starts(ok)
    case PutCmd(_) => Notes
    case Fail(_) => Fails
    case Undo(_) => Undoes
    case _ => Returns
  }

  /** The step a creation of the record takes with an action, if it is one; asked
      tells whether a delete of the record has begun. */
  function StepOf(s: State, a: Action, asked: bool, r: Rec): seq<Step> {
    if a.BeginCreate? then (if a.id !in s.sh.cams && r == |s.sh.recs| then [Begins] else [])
    else if OfCreate(a) && a.c in s.calls && s.calls[a.c].rec == r then [Taken(a, asked)]
    else []
  }

  /** A delete of the record has begun. */
  function Asked(run: seq<Action>, r: Rec): bool {
    if run == [] then false
    else
      var front, a := run[..|run| - 1], run[|run| - 1];
      Asked(front, r) || (After(front).Some? && AsksFor(After(front).value, a, r))
  }

  predicate AsksFor(s: State, a: Action, r: Rec) { a.BeginDelete? && a.id in s.sh.cams && s.sh.cams[a.id] == r }

  /** The steps of the creation of a record, in the order of a run. */
  function Trace(run: seq<Action>, r: Rec): seq<Step> {
    if run == [] then []
    else
      var front, a := run[..|run| - 1], run[|run| - 1];
      Trace(front, r) + if After(front).Some? then StepOf(After(front).value, a, Asked(front, r), r) else []
  }

  const GOOD := [Begins, Makes(true), Stores, Looks(false), SetsUp(true), Looks(false), Starts(true), Notes, Returns]

  const ENDING := [Fails, Undoes, Returns]

  /** The answer that ends a creation. */
  predicate Bad(st: Step) {
    match st
    case Makes(ok) => !ok
    case Looks(deleted) => deleted
    case SetsUp(ok) => !ok
    case Starts(ok) => !ok
    case _ => false
  }

  function Other(st: Step): Step {
    match st
    case Makes(ok) => Makes(!ok)
    case Looks(deleted) => Looks(!deleted)
    case SetsUp(ok) => SetsUp(!ok)
    case Starts(ok) => Starts(!ok)
    case _ => st
  }

  /** The good steps up to one that got the other answer, and then so many of
      the ending. */
  predicate Broken(t: seq<Step>, n: nat) {
    && n <= 3 && n < |t| <= 8 + n
    && var m := |t| - n - 1;
       Bad(t[m]) && t[..m] == GOOD[..m] && t[m] == Other(GOOD[m]) && t[m + 1..] == ENDING[..n]
  }

  /** A creation takes the good steps in their order until one gets a bad
      answer, and then ends. */
  ghost predicate Regular(t: seq<Step>) { t <= GOOD || exists n: nat :: Broken(t, n) }

  // --------------------------------------------------------------- the steps

  /** So many of the good steps, or a bad answer and so many of the ending. */
  datatype Spot = On(n: nat) | Off(n: nat)

  predicate Is(t: seq<Step>, spot: Spot) {
    match spot
    case On(n) => n <= 9 && t == GOOD[..n]
    case Off(n) => Broken(t, n)
  }

  function Next(spot: Spot, st: Step): Option<Spot> {
    match spot
    case On(n) =>
      if n >= 9 then None
      else if st == GOOD[n] then Some(On(n + 1))
      else if Bad(st) && st == Other(GOOD[n]) then Some(Off(0))
      else None
    case Off(n) => if n < 3 && st == ENDING[n] then Some(Off(n + 1)) else None
  }

  lemma Advance(t: seq<Step>, spot: Spot, st: Step)
    requires Is(t, spot) && Next(spot, st).Some?
    ensures Is(t + [st], Next(spot, st).value)
  {
    hide Bad, Other, Broken;
    match spot {
      case On(n) => if st == GOOD[n] { GoesOn(n); } else { Breaks(t, st); }
      case Off(n) => EndsMore(t, n);
    }
  }

  lemma GoesOn(n: nat)
    requires n < 9
    ensures GOOD[..n] + [GOOD[n]] == GOOD[..n + 1]
  {
    var good := GOOD;
    assert good[..n] + [good[n]] == good[..n + 1];
  }

  lemma Breaks(t: seq<Step>, st: Step)
    requires |t| < 9 && t == GOOD[..|t|] && Bad(st) && st == Other(GOOD[|t|])
    ensures Broken(t + [st], 0)
  {
    var good := GOOD;
    assert good[8] == Returns;
    var u, n := t + [st], |t|;
    assert u[..n] == t && u[n] == st && u[n + 1..] == [] == ENDING[..0];
  }

  lemma EndsMore(t: seq<Step>, n: nat)
    requires Broken(t, n) && n < 3
    ensures Broken(t + [ENDING[n]], n + 1)
  {
    hide Bad, Other;
    var m, u, ending := |t| - n - 1, t + [ENDING[n]], ENDING;
    assert u[..m] == t[..m] && u[m] == t[m];
    assert u[m + 1..] == t[m + 1..] + [ending[n]] == ending[..n + 1];
  }

  function SpotOf(call: Call, cmd: bool): Option<Spot> {
    match call
    case Making(_) => Some(On(1))
    case Storing(_, _) => Some(On(2))
    case CheckingEarly(_) => Some(On(3))
    case SettingUp(_) => Some(On(4))
    case CheckingLate(_) => Some(On(5))
    case Starting(_) => Some(On(6))
    case Started(_) => Some(On(7))
    case Failing(_) => Some(Off(0))
    case Undoing(_, _) => Some(Off(1))
    case Ending(_) => Some(if cmd then On(8) else Off(2))
    case _ => None
  }

  /** Where the creation of a record is. */
  function Where(s: State, r: Rec): Option<Spot>
    requires Shape(s)
  {
    if r >= |s.sh.recs| then Some(On(0))
    else
      var cp, c := s.sh.recs[r], s.hist[r].creator;
      if cp.created then Some(if cp.cmd then On(9) else Off(3))
      else if c in s.calls && s.calls[c].rec == r then SpotOf(s.calls[c], cp.cmd)
      else None
  }

  /** Where a call of a creation goes from where. */
  predicate Goes(a: Action, call: Call, next: Call, deleting: bool) {
    match a
    case MakeNs(_, ok) => call.Making? && (if ok then next.Storing? else next.Failing?)
    case PutNs(_) => call.Storing? && next.CheckingEarly?
    case Check(_) =>
      if deleting then (call.CheckingEarly? || call.CheckingLate?) && next.Failing?
      else (call.CheckingEarly? && next.SettingUp?) || (call.CheckingLate? && next.Starting?)
    case SetUp(_, ok) => call.SettingUp? && (if ok then next.CheckingLate? else next.Failing?)
    case Start(_, ok) => call.Starting? && (if ok then next.Started? else next.Failing?)
    case PutCmd(_) => call.Started? && next.Ending?
    case Fail(_) => call.Failing? && next.Undoing?
    case Undo(_) => call.Undoing? && next.Ending?
    case _ => false
  }

  lemma CallGoes(s: State, a: Action)
    requires Enabled(s, a) && OfCreate(a)
    ensures var s', r := Apply(s, a), s.calls[a.c].rec;
            && |s'.sh.recs| == |s.sh.recs| == |s'.hist|
            && s'.hist[r].creator == s.hist[r].creator
            && s'.sh.recs[r].cmd == (a.PutCmd? || s.sh.recs[r].cmd)
            && s'.sh.recs[r].created == (a.EndCreate? || s.sh.recs[r].created)
            && (a.EndCreate? ==> s.calls[a.c].Ending?)
            && (!a.EndCreate? ==>
                  && a.c in s'.calls && s'.calls[a.c].rec == r
                  && Goes(a, s.calls[a.c], s'.calls[a.c], s.sh.recs[r].deleting))
  {
    hide InMap;
  }

  lemma StepFits(a: Action, call: Call, next: Call, deleting: bool, cmd: bool)
    requires Goes(a, call, next, deleting) && (cmd ==> call.Ending?)
    ensures SpotOf(call, cmd).Some? && SpotOf(next, cmd || a.PutCmd?).Some?
    ensures Next(SpotOf(call, cmd).value, Taken(a, deleting)) == SpotOf(next, cmd || a.PutCmd?)
  {
  }

  /** The call of a creation takes a step that belongs to where it is. */
  lemma Moves(s: State, a: Action)
    requires Inv(s) && Enabled(s, a) && OfCreate(a) && Shape(s) && Shape(Apply(s, a))
    ensures var s', r := Apply(s, a), s.calls[a.c].rec;
            && Where(s, r).Some?
            && Next(Where(s, r).value, Taken(a, s.sh.recs[r].deleting)) == Where(s', r) && Where(s', r).Some?
  {
    hide Inv, RecOk, NsOk, Shape, InMap, Apply, Goes, Next, Taken, SpotOf;
    Own(s, a.c);
    CreateIsNoDelete(s, a);
    CallGoes(s, a);
    var s', r := Apply(s, a), s.calls[a.c].rec;
    if a.EndCreate? {
      LastStep(s.calls[a.c], s.sh.recs[r].cmd);
      TakesReturn(a);
    } else {
      StepFits(a, s.calls[a.c], s'.calls[a.c], s.sh.recs[r].deleting, s.sh.recs[r].cmd);
    }
  }

  lemma TakesReturn(a: Action)
    requires a.EndCreate?
    ensures forall d :: Taken(a, d) == Returns
  {
  }

  lemma LastStep(call: Call, cmd: bool)
    requires call.Ending?
    ensures SpotOf(call, cmd) == Some(if cmd then On(8) else Off(2))
    ensures Next(On(8), Returns) == Some(On(9)) && Next(Off(2), Returns) == Some(Off(3))
  {
  }

  lemma CreateIsNoDelete(s: State, a: Action)
    requires Enabled(s, a) && OfCreate(a)
    ensures !s.calls[a.c].IsDelete()
  {
  }

  lemma InvShape(s: State)
    requires Inv(s)
    ensures Shape(s)
  {
  }

  /** Nothing else moves a creation. */
  lemma Others(s: State, a: Action, asked: bool, r: Rec)
    requires Enabled(s, a) && Shape(s) && Shape(Apply(s, a)) && Where(s, r).Some? && StepOf(s, a, asked, r) == []
    ensures Where(Apply(s, a), r) == Where(s, r)
  {
    if r >= |s.sh.recs| {
      StillNone(s, a, asked, r);
    } else if OfCreate(a) {
      hide Apply, SpotOf, InMap;
      OnlyOwn(s, a, r);
    } else {
      OthersKeep(s, a, r);
    }
  }

  lemma StillNone(s: State, a: Action, asked: bool, r: Rec)
    requires Enabled(s, a) && Shape(s) && Shape(Apply(s, a)) && r >= |s.sh.recs| && StepOf(s, a, asked, r) == []
    ensures r >= |Apply(s, a).sh.recs|
  {
    hide InMap, Taken;
  }

  lemma OthersKeep(s: State, a: Action, r: Rec)
    requires Enabled(s, a) && Shape(s) && Shape(Apply(s, a)) && r < |s.sh.recs| && Where(s, r).Some? && !OfCreate(a)
    ensures Where(Apply(s, a), r) == Where(s, r)
  {
    OthersLeave(s, a, r);
    DeletesAreNowhere(s.calls);
    hide Apply, SpotOf, InMap, Shape;
  }

  lemma DeletesAreNowhere(calls: map<Caller, Call>)
    ensures forall c, cmd | c in calls && SpotOf(calls[c], cmd).Some? :: !calls[c].IsDelete()
  {
  }

  lemma OthersLeave(s: State, a: Action, r: Rec)
    requires Enabled(s, a) && Shape(s) && Shape(Apply(s, a)) && r < |s.sh.recs| && !OfCreate(a)
    ensures var s' := Apply(s, a);
            && r < |s'.sh.recs| && s'.hist[r].creator == s.hist[r].creator
            && s'.sh.recs[r].created == s.sh.recs[r].created && s'.sh.recs[r].cmd == s.sh.recs[r].cmd
            && forall d | d in s.calls && !s.calls[d].IsDelete() :: d in s'.calls && s'.calls[d] == s.calls[d]
  {
    if a.BeginDelete? {
      DeleteLeaves(s, a, r);
    } else {
      hide InMap, DoBeginDelete;
    }
  }

  lemma DeleteLeaves(s: State, a: Action, r: Rec)
    requires Enabled(s, a) && a.BeginDelete? && Shape(s) && r < |s.sh.recs|
    ensures var s' := Apply(s, a);
            && |s'.hist| == |s.hist| && |s'.sh.recs| == |s.sh.recs| && s'.hist[r].creator == s.hist[r].creator
            && s'.sh.recs[r].created == s.sh.recs[r].created && s'.sh.recs[r].cmd == s.sh.recs[r].cmd
            && forall d | d in s.calls :: d in s'.calls && s'.calls[d] == s.calls[d]
  {
    hide InMap;
  }

  lemma OnlyOwn(s: State, a: Action, r: Rec)
    requires Enabled(s, a) && OfCreate(a) && r < |s.sh.recs| && s.calls[a.c].rec != r
    ensures var s' := Apply(s, a);
            && |s'.sh.recs| == |s.sh.recs| && r < |s'.hist| == |s.hist|
            && s'.hist[r] == s.hist[r] && s'.sh.recs[r] == s.sh.recs[r]
            && forall d | d != a.c :: (d in s'.calls <==> d in s.calls) && (d in s.calls ==> s'.calls[d] == s.calls[d])
  {
    hide InMap;
  }

  lemma FirstStep(s: State, a: Action)
    requires Enabled(s, a) && a.BeginCreate? && a.id !in s.sh.cams && Shape(s) && Shape(Apply(s, a))
    ensures Where(s, |s.sh.recs|) == Some(On(0)) && Where(Apply(s, a), |s.sh.recs|) == Some(On(1))
    ensures Next(On(0), Begins) == Some(On(1))
  {
    hide InMap;
  }

  lemma WhereStep(s: State, a: Action, asked: bool, r: Rec)
    requires Inv(s) && Enabled(s, a) && Shape(s) && Shape(Apply(s, a)) && Where(s, r).Some?
    requires r < |s.sh.recs| ==> asked == s.sh.recs[r].deleting
    ensures var t := StepOf(s, a, asked, r);
            if t == [] then Where(Apply(s, a), r) == Where(s, r)
            else |t| == 1 && Next(Where(s, r).value, t[0]) == Where(Apply(s, a), r) && Where(Apply(s, a), r).Some?
  {
    hide Inv, Shape, Apply, Where, Next, Taken;
    if StepOf(s, a, asked, r) == [] {
      Others(s, a, asked, r);
    } else if a.BeginCreate? {
      FirstStep(s, a);
    } else {
      CallInShape(s, a.c);
      Moves(s, a);
    }
  }

  lemma CallInShape(s: State, c: Caller)
    requires Shape(s) && c in s.calls
    ensures s.calls[c].rec < |s.sh.recs|
  {
  }

  lemma AskStep(s: State, a: Action, r: Rec)
    requires Enabled(s, a) && Shape(s)
    ensures var s' := Apply(s, a);
            && |s'.sh.recs| >= |s.sh.recs|
            && (AsksFor(s, a, r) ==> r < |s.sh.recs|)
            && (r < |s'.sh.recs| ==>
                  (s'.sh.recs[r].deleting <==> (r < |s.sh.recs| && s.sh.recs[r].deleting) || AsksFor(s, a, r)))
  {
    hide InMap;
  }

  /** A record is marked as being deleted exactly if a delete of it has begun. */
  lemma {:induction false} AskedIff(run: seq<Action>, r: Rec)
    requires After(run).Some?
    ensures var s := After(run).value;
            if r < |s.sh.recs| then s.sh.recs[r].deleting <==> Asked(run, r) else !Asked(run, r)
  {
    if run != [] {
      var front := run[..|run| - 1];
      AskedIff(front, r);
      EveryRunKeeps(front);
      InvShape(After(front).value);
      hide Inv, Shape, Apply, Enabled, AsksFor;
      AskStep(After(front).value, run[|run| - 1], r);
    }
  }

  /** The steps taken are those that lead to where the creation is. */
  lemma {:induction false} TraceIs(run: seq<Action>, r: Rec)
    requires After(run).Some?
    ensures var s := After(run).value; Shape(s) && Where(s, r).Some? && Is(Trace(run, r), Where(s, r).value)
  {
    hide Inv, Apply, Enabled, StepOf;
    EveryRunKeeps(run);
    InvShape(After(run).value);
    if run != [] {
      var front, a := run[..|run| - 1], run[|run| - 1];
      var s := After(front).value;
      TraceIs(front, r);
      EveryRunKeeps(front);
      AskedIff(front, r);
      hide Shape, Where, Is, Asked;
      WhereStep(s, a, Asked(front, r), r);
      var t := StepOf(s, a, Asked(front, r), r);
      if t == [] {
        assert Trace(front, r) + t == Trace(front, r);
      } else {
        assert t == [t[0]];
        Advance(Trace(front, r), Where(s, r).value, t[0]);
      }
    }
  }

  // -------------------------------------------------------------- the results

  /** In every interleaving a creation takes its steps in their order, and ends
      as soon as one gets a bad answer. */
  lemma CreationIsRegular(run: seq<Action>, r: Rec)
    requires After(run).Some?
    ensures Regular(Trace(run, r))
  {
    hide Broken;
    TraceIs(run, r);
  }

  /** After a bad answer comes nothing but the ending; so no process is started. */
  lemma NothingAfterBad(run: seq<Action>, r: Rec, i: nat, j: nat)
    requires After(run).Some? && i < j < |Trace(run, r)| && Bad(Trace(run, r)[i])
    ensures Trace(run, r)[j] in ENDING
  {
    CreationIsRegular(run, r);
    hide After, Trace, Broken, Bad;
    var t := Trace(run, r);
    PrefixIsGood(t);
    if !(t <= GOOD) {
      var n: nat :| Broken(t, n);
      AfterBad(t, n, i, j);
    }
  }

  lemma PrefixIsGood(t: seq<Step>)
    ensures t <= GOOD ==> forall i | 0 <= i < |t| :: !Bad(t[i])
  {
    hide Bad;
    forall i | 0 <= i < |t| && t <= GOOD ensures !Bad(t[i]) { GoodIsGood(i); }
  }

  lemma AfterBad(t: seq<Step>, n: nat, i: nat, j: nat)
    requires Broken(t, n) && i < j < |t| && Bad(t[i])
    ensures t[j] in ENDING
  {
    var m, ending := |t| - n - 1, ENDING;
    PrefixIsGood(t[..m]);
    hide Bad, Other;
    assert forall k | 0 <= k < m :: t[k] == t[..m][k];
    assert t[j] == t[m + 1..][j - m - 1] == ending[..n][j - m - 1] == ending[j - m - 1];
  }

  lemma GoodIsGood(i: nat)
    ensures i < 9 ==> !Bad(GOOD[i])
  {
  }

  /** The call that creates the record has returned. */
  predicate Returned(s: State, r: Rec) {
    r < |s.sh.recs| && forall c | c in s.calls && s.calls[c].rec == r :: s.calls[c].IsDelete()
  }

  lemma ReturnedIsCreated(s: State, r: Rec)
    requires Inv(s) && Returned(s, r)
    ensures s.sh.recs[r].created && Shape(s) && RecOk(s, r)
  {
    assert RecOk(s, r);
  }

  lemma ReturnedTrace(run: seq<Action>, r: Rec)
    requires After(run).Some? && Returned(After(run).value, r)
    ensures if After(run).value.sh.recs[r].cmd then Trace(run, r) == GOOD else Broken(Trace(run, r), 3)
  {
    EveryRunKeeps(run);
    TraceIs(run, r);
    ReturnedIsCreated(After(run).value, r);
    hide After, Trace, Broken, Inv, RecOk;
  }

  lemma HasBad(t: seq<Step>, n: nat)
    ensures Broken(t, n) ==> exists i :: 0 <= i < |t| && Bad(t[i])
  {
    if Broken(t, n) { assert Bad(t[|t| - n - 1]); }
  }

  /** Once a creation has got a bad answer and returned, its record is out of the
      map, no process was started, and what was made for it is released. */
  lemma FailedCreationLeavesNothing(run: seq<Action>, r: Rec)
    requires After(run).Some? && Returned(After(run).value, r)
    requires exists i :: 0 <= i < |Trace(run, r)| && Bad(Trace(run, r)[i])
    ensures var s := After(run).value;
            && Shape(s) && !InMap(s.sh, r) && s.hist[r].process == NotStarted && s.sh.recs[r].ns == None
            && forall n | 0 <= n < |s.places| && s.owners[n] == r :: s.places[n] == Released && s.freed[n] == 1
  {
    var i :| 0 <= i < |Trace(run, r)| && Bad(Trace(run, r)[i]);
    GoodIsGood(i);
    ReturnedTrace(run, r);
    EveryRunKeeps(run);
    var s := After(run).value;
    ReturnedIsCreated(s, r);
    hide After, Trace, Broken;
    forall n | 0 <= n < |s.places| && s.owners[n] == r ensures s.places[n] == Released && s.freed[n] == 1 {
      assert NsOk(s, n);
      if s.places[n].Held? { Own(s, s.places[n].holder); }
    }
  }

  /** And a creation that returned without one has taken every step; its process
      was started, and unless a delete of the record has begun it is listed with
      its namespace. */
  lemma FinishedCreationStays(run: seq<Action>, r: Rec)
    requires After(run).Some? && Returned(After(run).value, r)
    requires forall i | 0 <= i < |Trace(run, r)| :: !Bad(Trace(run, r)[i])
    ensures Trace(run, r) == GOOD
    ensures var s := After(run).value;
            && Shape(s) && s.hist[r].process != NotStarted
            && (!Asked(run, r) ==> InMap(s.sh, r) && s.sh.recs[r].ns.Some? && s.freed[s.sh.recs[r].ns.value] == 0)
  {
    ReturnedTrace(run, r);
    AskedIff(run, r);
    EveryRunKeeps(run);
    var s := After(run).value;
    ReturnedIsCreated(s, r);
    hide After, Trace, Broken;
    HasBad(Trace(run, r), 3);
    if s.sh.recs[r].ns.Some? { assert NsOk(s, s.sh.recs[r].ns.value); }
  }
}
