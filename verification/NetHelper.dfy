/**
 The privileged network helper: concurrent creation and deletion of cameras.
 Each critical section of the helper's mutex is one step, and so is everything a
 call does between two of them; calls interleave in any order. A namespace is
 handed from hand to hand, and is proved to be released exactly once.
 */
module NetHelper {
  import opened Common

  type Rec = nat
  type Ns = nat
  type Caller = nat

  /** camProc: ns, cmd and deleting under the mutex, two channels that close. */
  datatype CamProc = CamProc(id: string, ns: Option<Ns>, cmd: bool, deleting: bool, created: bool, done: bool)

  /** What the mutex guards. Records are numbered in the order they are made. */
  datatype Shared = Shared(cams: map<string, Rec>, recs: seq<CamProc>)

  // ----------------------------------------------------- critical sections

  predicate InMap(sh: Shared, r: Rec)
    requires r < |sh.recs|
  {
    sh.recs[r].id in sh.cams && sh.cams[sh.recs[r].id] == r
  }

  function Update(sh: Shared, r: Rec, cp: CamProc): Shared
    requires r < |sh.recs|
  {
    sh.(recs := sh.recs[r := cp])
  }

  function Register(sh: Shared, id: string): Shared {
    Shared(sh.cams[id := |sh.recs|], sh.recs + [CamProc(id, None, false, false, false, false)])
  }

  /** Takes a record out of the map, unless another one is there by now. */
  function Unlist(sh: Shared, r: Rec): Shared
    requires r < |sh.recs|
  {
    if InMap(sh, r) then sh.(cams := sh.cams - {sh.recs[r].id}) else sh
  }

  function StoreNs(sh: Shared, r: Rec, ns: Ns): Shared
    requires r < |sh.recs|
  {
    Update(sh, r, sh.recs[r].(ns := Some(ns)))
  }

  function StoreCmd(sh: Shared, r: Rec): Shared
    requires r < |sh.recs|
  {
    Update(sh, r, sh.recs[r].(cmd := true))
  }

  function MarkDeleting(sh: Shared, r: Rec): Shared
    requires r < |sh.recs|
  {
    Update(sh, r, sh.recs[r].(deleting := true))
  }

  function TakeNs(sh: Shared, r: Rec): Shared
    requires r < |sh.recs|
  {
    Update(sh, r, sh.recs[r].(ns := None))
  }

  /** The helper's fields, changed under its mutex as create, fail and delete
      do; a method is one critical section. */
  class Helper {
    var cams: map<string, Rec>
    var recs: seq<CamProc>

    ghost function State(): Shared
      reads this
    {
      Shared(cams, recs)
    }

    constructor ()
      ensures State() == Shared(map[], [])
    {
      cams, recs := map[], [];
    }

    /** create: at most one record of an ID is listed at a time. */
    method RegisterCamera(id: string) returns (r: Option<Rec>)
      modifies this
      ensures r.Some? <==> id !in old(cams)
      ensures r.Some? ==> r.value == old(|recs|) && State() == Register(old(State()), id)
      ensures r == None ==> State() == old(State())
    {
      if id in cams { return None; }
      r := Some(|recs|);
      cams, recs := cams[id := |recs|], recs + [CamProc(id, None, false, false, false, false)];
    }

    method SetNamespace(r: Rec, ns: Ns)
      requires r < |recs|
      modifies this
      ensures State() == StoreNs(old(State()), r, ns)
    {
      recs := recs[r := recs[r].(ns := Some(ns))];
    }

    method SetCommand(r: Rec) returns (deleting: bool)
      requires r < |recs|
      modifies this
      ensures State() == StoreCmd(old(State()), r) && deleting == old(recs[r].deleting)
    {
      recs := recs[r := recs[r].(cmd := true)];
      deleting := recs[r].deleting;
    }

    /** fail: the namespace changes hands and the record leaves the map. */
    method Fail(r: Rec) returns (ns: Option<Ns>)
      requires r < |recs|
      modifies this
      ensures State() == Unlist(TakeNs(old(State()), r), r) && ns == old(recs[r].ns)
    {
      ns := recs[r].ns;
      recs := recs[r := recs[r].(ns := None)];
      if recs[r].id in cams && cams[recs[r].id] == r {
        cams := cams - {recs[r].id};
      }
    }

    method BeginDelete(id: string) returns (r: Option<Rec>)
      requires forall i | i in cams :: cams[i] < |recs|
      modifies this
      ensures r == if id in old(cams) then Some(old(cams[id])) else None
      ensures State() == if r.Some? then MarkDeleting(old(State()), r.value) else old(State())
    {
      if id !in cams { return None; }
      var cp := cams[id];
      if !recs[cp].deleting {
        recs := recs[cp := recs[cp].(deleting := true)];
      }
      assert recs == old(recs)[cp := old(recs)[cp].(deleting := true)];
      return Some(cp);
    }

    method TakeNamespace(r: Rec) returns (cmd: bool, ns: Option<Ns>)
      requires r < |recs|
      modifies this
      ensures State() == TakeNs(old(State()), r) && cmd == old(recs[r].cmd) && ns == old(recs[r].ns)
    {
      cmd, ns := recs[r].cmd, recs[r].ns;
      recs := recs[r := recs[r].(ns := None)];
    }

    method EndDelete(r: Rec)
      requires r < |recs|
      modifies this
      ensures State() == Unlist(old(State()), r)
    {
      if recs[r].id in cams && cams[recs[r].id] == r {
        cams := cams - {recs[r].id};
      }
    }
  }

  // ------------------------------------------------------------- the machine

  /** Where a call is. A namespace in a position is held by that call alone. */
  datatype Call =
    | Making(rec: Rec)
    | Storing(rec: Rec, made: Ns)
    | CheckingEarly(rec: Rec)
    | SettingUp(rec: Rec)
    | CheckingLate(rec: Rec)
    | Starting(rec: Rec)
    | Started(rec: Rec)
    | Failing(rec: Rec)
    | Undoing(rec: Rec, held: Option<Ns>)
    | Ending(rec: Rec)
    | Awaiting(rec: Rec)
    | Stopping(rec: Rec, held: Option<Ns>)
    | Freeing(rec: Rec, held: Option<Ns>)
    | Removing(rec: Rec)
  {
    predicate IsDelete() { Awaiting? || Stopping? || Freeing? || Removing? }

    predicate HasStored() { CheckingEarly? || SettingUp? || CheckingLate? || Starting? || Started? }

    function Holds(): Option<Ns> {
      if Storing? then Some(made) else if Undoing? || Stopping? || Freeing? then held else None
    }
  }

  datatype Proc = NotStarted | Live | Exited

  /** Who made a record, who first asked to delete it, and its process. */
  datatype History = History(creator: Caller, deleter: Caller, process: Proc)

  datatype Place = Held(holder: Caller) | Stored(rec: Rec) | Released

  /** calls are the ones that have not returned; freed counts releases; the
      last two only record where each namespace is and for whom it was made. */
  datatype State = State(
    sh: Shared, hist: seq<History>, calls: map<Caller, Call>, freed: multiset<Ns>,
    places: seq<Place>, owners: seq<Rec>)

  datatype Action =
    | BeginCreate(c: Caller, id: string)
    | MakeNs(c: Caller, ok: bool)
    | PutNs(c: Caller)
    | Check(c: Caller)
    | SetUp(c: Caller, ok: bool)
    | Start(c: Caller, ok: bool)
    | PutCmd(c: Caller)
    | Fail(c: Caller)
    | Undo(c: Caller)
    | EndCreate(c: Caller)
    | BeginDelete(c: Caller, id: string)
    | GetNs(c: Caller)
    | Stopped(c: Caller)
    | Free(c: Caller)
    | EndDelete(c: Caller)
    | Exit(r: Rec)
    | Reap(r: Rec)

  const INIT := State(Shared(map[], []), [], map[], multiset{}, [], [])

  function Goto(s: State, c: Caller, call: Call): State { s.(calls := s.calls[c := call]) }

  /** A namespace, if there is one, changes hands. */
  function Move(s: State, ns: Option<Ns>, p: Place): State {
    if ns.Some? && ns.value < |s.places| then s.(places := s.places[ns.value := p]) else s
  }

  function Release(s: State, ns: Option<Ns>): State {
    if ns == None then s else Move(s, ns, Released).(freed := s.freed + multiset{ns.value})
  }

  /** A call that has not returned, at work on a record. */
  predicate Working(s: State, c: Caller) {
    c in s.calls && s.calls[c].rec < |s.sh.recs| == |s.hist|
  }

  function DoBeginCreate(s: State, c: Caller, id: string): State {
    if id in s.sh.cams then s
    else Goto(s.(sh := Register(s.sh, id), hist := s.hist + [History(c, c, NotStarted)]), c, Making(|s.sh.recs|))
  }

  function DoMakeNs(s: State, c: Caller, ok: bool): State
    requires Working(s, c)
  {
    var r := s.calls[c].rec;
    if ok then Goto(s.(places := s.places + [Held(c)], owners := s.owners + [r]), c, Storing(r, |s.places|))
    else Goto(s, c, Failing(r))
  }

  function DoPutNs(s: State, c: Caller): State
    requires Working(s, c) && s.calls[c].Storing?
  {
    var Storing(r, ns) := s.calls[c];
    Goto(Move(s, Some(ns), Stored(r)).(sh := StoreNs(s.sh, r, ns)), c, CheckingEarly(r))
  }

  /** The next position of a call that only looks or fails outside the lock. */
  function DoMove(s: State, c: Caller, next: Call): State { Goto(s, c, next) }

  function AfterCheck(s: State, c: Caller): Call
    requires Working(s, c)
  {
    var r := s.calls[c].rec;
    if s.sh.recs[r].deleting then Failing(r) else if s.calls[c].CheckingEarly? then SettingUp(r) else Starting(r)
  }

  function AfterSetUp(r: Rec, ok: bool): Call { if ok then CheckingLate(r) else Failing(r) }

  function DoStart(s: State, c: Caller, ok: bool): State
    requires Working(s, c)
  {
    var r := s.calls[c].rec;
    if ok then Goto(s.(hist := s.hist[r := s.hist[r].(process := Live)]), c, Started(r)) else Goto(s, c, Failing(r))
  }

  function DoPutCmd(s: State, c: Caller): State
    requires Working(s, c)
  {
    var r := s.calls[c].rec;
    Goto(s.(sh := StoreCmd(s.sh, r)), c, Ending(r))
  }

  function DoFail(s: State, c: Caller): State
    requires Working(s, c)
  {
    var r := s.calls[c].rec;
    var ns := s.sh.recs[r].ns;
    Goto(Move(s, ns, Held(c)).(sh := Unlist(TakeNs(s.sh, r), r)), c, Undoing(r, ns))
  }

  function DoRelease(s: State, c: Caller, next: Call): State
    requires Working(s, c)
  {
    Goto(Release(s, s.calls[c].Holds()), c, next)
  }

  function DoEndCreate(s: State, c: Caller): State
    requires Working(s, c)
  {
    var r := s.calls[c].rec;
    s.(sh := Update(s.sh, r, s.sh.recs[r].(created := true)), calls := s.calls - {c})
  }

  function DoBeginDelete(s: State, c: Caller, id: string): State
    requires id in s.sh.cams ==> s.sh.cams[id] < |s.sh.recs| == |s.hist|
  {
    if id !in s.sh.cams then s
    else
      var r := s.sh.cams[id];
      var h := if s.sh.recs[r].deleting then s.hist else s.hist[r := s.hist[r].(deleter := c)];
      Goto(s.(sh := MarkDeleting(s.sh, r), hist := h), c, Awaiting(r))
  }

  function DoGetNs(s: State, c: Caller): State
    requires Working(s, c)
  {
    var r := s.calls[c].rec;
    var ns := s.sh.recs[r].ns;
    Goto(Move(s, ns, Held(c)).(sh := TakeNs(s.sh, r)), c, Stopping(r, ns))
  }

  function DoEndDelete(s: State, c: Caller): State
    requires Working(s, c)
  {
    s.(sh := Unlist(s.sh, s.calls[c].rec), calls := s.calls - {c})
  }

  /** When an action can happen: who acts, from where, and what it waits for. */
  predicate Enabled(s: State, a: Action) {
    match a
    case BeginCreate(c, _) => c !in s.calls
    case BeginDelete(c, id) => c !in s.calls && (id in s.sh.cams ==> s.sh.cams[id] < |s.sh.recs| == |s.hist|)
    case Exit(r) => r < |s.hist| && s.hist[r].process == Live
    case Reap(r) => r < |s.hist| == |s.sh.recs| && s.sh.recs[r].cmd && s.hist[r].process == Exited
    case MakeNs(c, _) => Working(s, c) && s.calls[c].Making?
    case PutNs(c) => Working(s, c) && s.calls[c].Storing?
    case Check(c) => Working(s, c) && (s.calls[c].CheckingEarly? || s.calls[c].CheckingLate?)
    case SetUp(c, _) => Working(s, c) && s.calls[c].SettingUp?
    case Start(c, _) => Working(s, c) && s.calls[c].Starting?
    case PutCmd(c) => Working(s, c) && s.calls[c].Started?
    case Fail(c) => Working(s, c) && s.calls[c].Failing?
    case Undo(c) => Working(s, c) && s.calls[c].Undoing?
    case EndCreate(c) => Working(s, c) && s.calls[c].Ending?
    case GetNs(c) => Working(s, c) && s.calls[c].Awaiting? && s.sh.recs[s.calls[c].rec].created
    case Stopped(c) =>
      Working(s, c) && s.calls[c].Stopping? && (s.sh.recs[s.calls[c].rec].cmd ==> s.sh.recs[s.calls[c].rec].done)
    case Free(c) => Working(s, c) && s.calls[c].Freeing?
    case EndDelete(c) => Working(s, c) && s.calls[c].Removing?
  }

  function Apply(s: State, a: Action): State
    requires Enabled(s, a)
  {
    match a
    case BeginCreate(c, id) => DoBeginCreate(s, c, id)
    case MakeNs(c, ok) => DoMakeNs(s, c, ok)
    case PutNs(c) => DoPutNs(s, c)
    case Check(c) => DoMove(s, c, AfterCheck(s, c))
    case SetUp(c, ok) => DoMove(s, c, AfterSetUp(s.calls[c].rec, ok))
    case Start(c, ok) => DoStart(s, c, ok)
    case PutCmd(c) => DoPutCmd(s, c)
    case Fail(c) => DoFail(s, c)
    case Undo(c) => DoRelease(s, c, Ending(s.calls[c].rec))
    case EndCreate(c) => DoEndCreate(s, c)
    case BeginDelete(c, id) => DoBeginDelete(s, c, id)
    case GetNs(c) => DoGetNs(s, c)
    case Stopped(c) => DoMove(s, c, Freeing(s.calls[c].rec, s.calls[c].held))
    case Free(c) => DoRelease(s, c, Removing(s.calls[c].rec))
    case EndDelete(c) => DoEndDelete(s, c)
    case Exit(r) => s.(hist := s.hist[r := s.hist[r].(process := Exited)])
    case Reap(r) => s.(sh := Update(s.sh, r, s.sh.recs[r].(done := true)))
  }

  // -------------------------------------------------------------- invariant

  predicate Shape(s: State) {
    && |s.hist| == |s.sh.recs| && |s.owners| == |s.places|
    && (forall id | id in s.sh.cams :: s.sh.cams[id] < |s.sh.recs| && s.sh.recs[s.sh.cams[id]].id == id)
    && (forall c | c in s.calls :: s.calls[c].rec < |s.sh.recs|)
  }

  /** A record being created is listed until its creation fails. */
  predicate CreateOk(c: Caller, call: Call, cp: CamProc, h: History, listed: bool) {
    && !cp.created && h.creator == c
    && (cp.cmd ==> call.Ending?)
    && (listed <==> !call.Undoing? && (call.Ending? ==> cp.cmd))
    && (call.HasStored() || cp.cmd ==> cp.ns.Some?)
    && (call.Making? || call.Storing? || call.Undoing? || (call.Ending? && !cp.cmd) ==> cp.ns == None)
    && (h.process == NotStarted <==> !call.Started? && !cp.cmd)
  }

  predicate DeleteOk(call: Call, cp: CamProc) {
    && cp.deleting
    && (!call.Awaiting? ==> cp.created && cp.ns == None)
    && (call.Freeing? || call.Removing? ==> (cp.cmd ==> cp.done))
    && (call.Holds().Some? ==> cp.cmd)
  }

  predicate CallOk(s: State, c: Caller)
    requires Shape(s) && c in s.calls
  {
    var call, r := s.calls[c], s.calls[c].rec;
    && (if call.IsDelete() then DeleteOk(call, s.sh.recs[r])
        else CreateOk(c, call, s.sh.recs[r], s.hist[r], InMap(s.sh, r)))
    && (s.calls[c].Holds().Some? ==>
          var n := s.calls[c].Holds().value; n < |s.places| && s.places[n] == Held(c))
  }

  predicate RecOk(s: State, r: Rec)
    requires Shape(s) && r < |s.sh.recs|
  {
    var cp, h := s.sh.recs[r], s.hist[r];
    && (cp.ns.Some? ==> cp.ns.value < |s.places| && s.places[cp.ns.value] == Stored(r))
    && (!cp.created ==> h.creator in s.calls && !s.calls[h.creator].IsDelete() && s.calls[h.creator].rec == r)
    && (cp.done ==> h.process == Exited)
    && (cp.created && cp.cmd && InMap(s.sh, r) && !cp.deleting ==> cp.ns.Some?)
    && (cp.cmd ==> h.process != NotStarted)
    && (cp.created && cp.cmd && !InMap(s.sh, r) ==> cp.deleting && cp.done && cp.ns == None)
    && (cp.created && !cp.cmd ==> !InMap(s.sh, r) && cp.ns == None && h.process == NotStarted)
    && (cp.deleting && InMap(s.sh, r) ==>
          h.deleter in s.calls && s.calls[h.deleter].IsDelete() && s.calls[h.deleter].rec == r)
  }

  /** A namespace is in exactly one place: with a call that works for its
      owner, with its owner's record, or released once and for all. */
  predicate NsOk(s: State, n: Ns)
    requires Shape(s) && n < |s.places|
  {
    && s.owners[n] < |s.sh.recs|
    && match s.places[n]
       case Held(c) => c in s.calls && s.calls[c].Holds() == Some(n) && s.calls[c].rec == s.owners[n] && s.freed[n] == 0
       case Stored(r) => r == s.owners[n] && s.sh.recs[r].ns == Some(n) && s.freed[n] == 0
       case Released => s.freed[n] == 1
  }

  ghost predicate Inv(s: State) {
    && Shape(s)
    && (forall c | c in s.calls :: CallOk(s, c))
    && (forall r | 0 <= r < |s.sh.recs| :: RecOk(s, r))
    && (forall n | 0 <= n < |s.places| :: NsOk(s, n))
    && (forall n | n in s.freed :: n < |s.places|)
  }

  // A step works on one record, as one call, and touches only the namespaces
  // that call or that record has.

  predicate Mine(s: State, c: Caller, r: Rec, n: Ns) {
    n < |s.places| ==> s.places[n] == Held(c) || s.places[n] == Stored(r)
  }

  ghost predicate Local(s: State, s': State, c: Caller, r: Rec) {
    && Shape(s) && Shape(s') && r < |s'.sh.recs|
    && (|s'.sh.recs| == |s.sh.recs| || (|s'.sh.recs| == r + 1 && r == |s.sh.recs|))
    && (forall q | 0 <= q < |s.sh.recs| && q != r ::
          s'.sh.recs[q] == s.sh.recs[q] && s'.hist[q] == s.hist[q] && InMap(s'.sh, q) == InMap(s.sh, q))
    && (forall d | d != c :: d in s'.calls <==> d in s.calls)
    && (forall d | d != c && d in s.calls :: s'.calls[d] == s.calls[d])
    && (c in s.calls ==> s.calls[c].rec == r) && (c in s'.calls ==> s'.calls[c].rec == r)
    && |s.places| <= |s'.places| && (forall n | 0 <= n < |s.places| :: s'.owners[n] == s.owners[n])
    && (forall n | 0 <= n < |s.places| && !Mine(s, c, r, n) ::
          s'.places[n] == s.places[n] && s'.freed[n] == s.freed[n])
  }

  // What a local step still has to show: its own record and call, the other
  // calls on the record, and the namespaces it touched.

  ghost predicate LocalOk(s: State, s': State, c: Caller, r: Rec)
    requires Local(s, s', c, r)
  {
    RecOk(s', r) && (c in s'.calls ==> CallOk(s', c))
  }

  ghost predicate SpacesOk(s: State, s': State, c: Caller, r: Rec)
    requires Local(s, s', c, r)
  {
    && (forall n | 0 <= n < |s'.places| && Mine(s, c, r, n) :: NsOk(s', n))
    && (forall n | n in s'.freed :: n < |s'.places|)
  }

  lemma LocalCalls(s: State, s': State, c: Caller, r: Rec)
    requires Inv(s) && Local(s, s', c, r)
    ensures forall d | d in s'.calls && s'.calls[d].rec != r :: CallOk(s', d)
  {
    forall d | d in s'.calls && s'.calls[d].rec != r ensures CallOk(s', d) {
      assert d != c && CallOk(s, d);
      if s.calls[d].Holds().Some? { assert !Mine(s, c, r, s.calls[d].Holds().value); }
    }
  }

  lemma LocalRecs(s: State, s': State, c: Caller, r: Rec)
    requires Inv(s) && Local(s, s', c, r)
    ensures forall q | 0 <= q < |s'.sh.recs| && q != r :: RecOk(s', q)
  {
    forall q | 0 <= q < |s'.sh.recs| && q != r ensures RecOk(s', q) {
      assert RecOk(s, q);
      if s.sh.recs[q].ns.Some? { assert !Mine(s, c, r, s.sh.recs[q].ns.value); }
    }
  }

  lemma LocalNss(s: State, s': State, c: Caller, r: Rec)
    requires Inv(s) && Local(s, s', c, r)
    ensures forall n | 0 <= n < |s'.places| && !Mine(s, c, r, n) :: NsOk(s', n)
  {
    forall n | 0 <= n < |s'.places| && !Mine(s, c, r, n) ensures NsOk(s', n) {
      assert NsOk(s, n);
    }
  }

  ghost predicate PeersOk(s': State, c: Caller, r: Rec)
    requires Shape(s')
  {
    forall d | d != c && d in s'.calls && s'.calls[d].rec == r :: CallOk(s', d)
  }

  lemma LocalStep(s: State, s': State, c: Caller, r: Rec)
    requires Inv(s) && Local(s, s', c, r) && LocalOk(s, s', c, r) && PeersOk(s', c, r)
    requires SpacesOk(s, s', c, r)
    ensures Inv(s')
  {
    hide CallOk, RecOk, NsOk, Mine, Shape;
    LocalCalls(s, s', c, r);
    LocalRecs(s, s', c, r);
    LocalNss(s, s', c, r);
  }

  /** Changes of a record that other deletes of it can bear. */
  predicate Gentle(cp: CamProc, cp': CamProc) {
    && (cp.deleting ==> cp'.deleting) && (cp.created ==> cp'.created) && (cp.done ==> cp'.done)
    && (cp.created ==> cp'.cmd == cp.cmd && (cp.ns == None ==> cp'.ns == None))
  }

  /** Nobody else creates a record, and other deletes of it are not disturbed. */
  lemma Peers(s: State, s': State, c: Caller)
    requires Inv(s) && c in s.calls && Local(s, s', c, s.calls[c].rec)
    requires Gentle(s.sh.recs[s.calls[c].rec], s'.sh.recs[s.calls[c].rec])
    requires s.calls[c].IsDelete() ==> s.sh.recs[s.calls[c].rec].created
    ensures PeersOk(s', c, s.calls[c].rec)
  {
    var r := s.calls[c].rec;
    assert CallOk(s, c);
    forall d | d != c && d in s'.calls && s'.calls[d].rec == r ensures CallOk(s', d) {
      assert CallOk(s, d);
      if s.calls[d].Holds().Some? { assert !Mine(s, c, r, s.calls[d].Holds().value); }
    }
  }

  /** What a call and its record hold. */
  lemma Hands(s: State, c: Caller)
    requires Inv(s) && c in s.calls
    ensures var call := s.calls[c]; var cp := s.sh.recs[call.rec];
            && (call.Holds().Some? ==> call.Holds().value < |s.places| && s.places[call.Holds().value] == Held(c))
            && (cp.ns.Some? ==> cp.ns.value < |s.places| && s.places[cp.ns.value] == Stored(call.rec))
    ensures Shape(s) && forall n | n in s.freed :: n < |s.places|
  {
    assert CallOk(s, c) && RecOk(s, s.calls[c].rec);
  }

  lemma Own(s: State, c: Caller)
    requires Inv(s) && c in s.calls
    ensures CallOk(s, c) && RecOk(s, s.calls[c].rec)
  {
  }

  /** The record a call works on, and what the invariant says around it. */
  lemma Around(s: State, c: Caller)
    requires Inv(s) && c in s.calls
    ensures CallOk(s, c) && RecOk(s, s.calls[c].rec)
    ensures forall n | 0 <= n < |s.places| && Mine(s, c, s.calls[c].rec, n) ::
              NsOk(s, n) && (s.calls[c].Holds() == Some(n) || s.sh.recs[s.calls[c].rec].ns == Some(n))
    ensures forall n | n in s.freed :: n < |s.places|
  {
    forall n | 0 <= n < |s.places| && Mine(s, c, s.calls[c].rec, n)
      ensures NsOk(s, n) && (s.calls[c].Holds() == Some(n) || s.sh.recs[s.calls[c].rec].ns == Some(n))
    {
      assert NsOk(s, n);
    }
  }

  lemma Keeps(s: State, a: Action)
    requires Inv(s) && Enabled(s, a)
    ensures Inv(Apply(s, a))
  {
    hide Inv, LocalOk, PeersOk, SpacesOk, Gentle, DoBeginCreate, DoBeginDelete, Update;
    match a {
      case BeginCreate(c, id) => KeepsBeginCreate(s, c, id);
      case BeginDelete(c, id) => KeepsBeginDelete(s, c, id);
      case Exit(r) => KeepsExit(s, r);
      case Reap(r) => KeepsReap(s, r);
      case _ =>
        CallStep(s, a);
        GentleStep(s, a);
        PeersStep(s, a);
        LocalStep(s, Apply(s, a), a.c, s.calls[a.c].rec);
    }
  }

  predicate OfCall(a: Action) { !a.BeginCreate? && !a.BeginDelete? && !a.Exit? && !a.Reap? }

  lemma PeersStep(s: State, a: Action)
    requires Inv(s) && Enabled(s, a) && OfCall(a)
    requires Local(s, Apply(s, a), a.c, s.calls[a.c].rec)
    requires Gentle(s.sh.recs[s.calls[a.c].rec], Apply(s, a).sh.recs[s.calls[a.c].rec])
    requires s.calls[a.c].IsDelete() ==> s.sh.recs[s.calls[a.c].rec].created
    ensures PeersOk(Apply(s, a), a.c, s.calls[a.c].rec)
  {
    hide Inv, Apply, Gentle;
    Peers(s, Apply(s, a), a.c);
  }

  lemma CallStep(s: State, a: Action)
    requires Inv(s) && Enabled(s, a) && OfCall(a)
    ensures Local(s, Apply(s, a), a.c, s.calls[a.c].rec)
    ensures LocalOk(s, Apply(s, a), a.c, s.calls[a.c].rec) && SpacesOk(s, Apply(s, a), a.c, s.calls[a.c].rec)
  {
    hide Inv, Local, LocalOk, SpacesOk, DoMakeNs, DoPutNs, DoMove, DoStart, DoPutCmd, DoFail, DoRelease,
      DoEndCreate, DoGetNs, DoEndDelete, AfterCheck, AfterSetUp;
    match a {
      case MakeNs(c, ok) => LocalMakeNs(s, c, ok); NearMakeNs(s, c, ok); SpacesMakeNs(s, c, ok);
      case PutNs(c) => LocalPutNs(s, c); NearPutNs(s, c); SpacesPutNs(s, c);
      case Check(c) => LocalCheck(s, c); NearCheck(s, c); QuietStep(s, a);
      case SetUp(c, ok) => LocalSetUp(s, c, ok); NearSetUp(s, c, ok); QuietStep(s, a);
      case Start(c, ok) => LocalStart(s, c, ok); NearStart(s, c, ok); QuietStep(s, a);
      case PutCmd(c) => LocalPutCmd(s, c); NearPutCmd(s, c); QuietStep(s, a);
      case Fail(c) => LocalFail(s, c); NearFail(s, c); SpacesFail(s, c);
      case Undo(c) => LocalUndo(s, c); NearUndo(s, c); SpacesUndo(s, c);
      case EndCreate(c) => LocalEndCreate(s, c); NearEndCreate(s, c); QuietStep(s, a);
      case GetNs(c) => LocalGetNs(s, c); NearGetNs(s, c); SpacesGetNs(s, c);
      case Stopped(c) => LocalStopped(s, c); NearStopped(s, c); QuietStep(s, a);
      case Free(c) => LocalFree(s, c); NearFree(s, c); SpacesFree(s, c);
      case EndDelete(c) => LocalEndDelete(s, c); NearEndDelete(s, c); QuietStep(s, a);
      case _ =>
    }
  }

  lemma LocalShapes(s: State, s': State, c: Caller, r: Rec)
    requires Local(s, s', c, r)
    ensures Shape(s) && Shape(s') && |s.owners| == |s.places| && |s'.owners| == |s'.places|
  {
  }

  lemma LocalMakeNs(s: State, c: Caller, ok: bool)
    requires Inv(s) && Working(s, c) && s.calls[c].Making?
    ensures Local(s, DoMakeNs(s, c, ok), c, s.calls[c].rec)
  {
    hide Inv, CallOk, RecOk, NsOk;
    Hands(s, c);
  }

  lemma AfterMakeNs(s: State, c: Caller, ok: bool)
    requires Working(s, c)
    ensures var s', r := DoMakeNs(s, c, ok), s.calls[c].rec;
            && s'.sh == s.sh && s'.hist == s.hist && c in s'.calls
            && s'.calls[c] == (if ok then Storing(r, |s.places|) else Failing(r))
            && (ok ==> s'.places == s.places + [Held(c)])
  {
  }

  lemma CallMakeNs(s: State, c: Caller, ok: bool)
    requires Inv(s) && Working(s, c) && s.calls[c].Making?
    requires Local(s, DoMakeNs(s, c, ok), c, s.calls[c].rec)
    ensures CallOk(DoMakeNs(s, c, ok), c)
  {
    hide DoMakeNs, InMap, Inv, Local, RecOk, Shape;
    LocalShapes(s, DoMakeNs(s, c, ok), c, s.calls[c].rec);
    Hands(s, c);
    Own(s, c);
    AfterMakeNs(s, c, ok);
  }

  lemma NearMakeNs(s: State, c: Caller, ok: bool)
    requires Inv(s) && Working(s, c) && s.calls[c].Making?
    requires Local(s, DoMakeNs(s, c, ok), c, s.calls[c].rec)
    ensures LocalOk(s, DoMakeNs(s, c, ok), c, s.calls[c].rec)
  {
    hide Inv, Local, CallOk;
    LocalShapes(s, DoMakeNs(s, c, ok), c, s.calls[c].rec);
    CallMakeNs(s, c, ok);
    Hands(s, c);
    Own(s, c);
  }

  lemma SpacesMakeNs(s: State, c: Caller, ok: bool)
    requires Inv(s) && Working(s, c) && s.calls[c].Making?
    requires Local(s, DoMakeNs(s, c, ok), c, s.calls[c].rec)
    ensures SpacesOk(s, DoMakeNs(s, c, ok), c, s.calls[c].rec)
  {
    hide Inv, Local, CallOk, RecOk, Shape;
    LocalShapes(s, DoMakeNs(s, c, ok), c, s.calls[c].rec);
    Hands(s, c);
    Around(s, c);
  }

  lemma LocalPutNs(s: State, c: Caller)
    requires Inv(s) && Working(s, c) && s.calls[c].Storing?
    ensures Local(s, DoPutNs(s, c), c, s.calls[c].rec)
  {
    hide Inv, CallOk, RecOk, NsOk;
    Hands(s, c);
  }

  lemma AfterPutNs(s: State, c: Caller)
    requires Working(s, c) && s.calls[c].Storing?
    ensures var s', r := DoPutNs(s, c), s.calls[c].rec;
            && s'.hist == s.hist && c in s'.calls && s'.calls[c] == CheckingEarly(r)
            && s'.sh.recs == s.sh.recs[r := s.sh.recs[r].(ns := Some(s.calls[c].made))]
            && InMap(s'.sh, r) == InMap(s.sh, r)
  {
  }

  lemma CallPutNs(s: State, c: Caller)
    requires Inv(s) && Working(s, c) && s.calls[c].Storing?
    requires Local(s, DoPutNs(s, c), c, s.calls[c].rec)
    ensures CallOk(DoPutNs(s, c), c)
  {
    hide DoPutNs, InMap, Inv, Local, RecOk, Shape;
    LocalShapes(s, DoPutNs(s, c), c, s.calls[c].rec);
    Hands(s, c);
    Own(s, c);
    AfterPutNs(s, c);
  }

  lemma NearPutNs(s: State, c: Caller)
    requires Inv(s) && Working(s, c) && s.calls[c].Storing?
    requires Local(s, DoPutNs(s, c), c, s.calls[c].rec)
    ensures LocalOk(s, DoPutNs(s, c), c, s.calls[c].rec)
  {
    hide Inv, Local;
    LocalShapes(s, DoPutNs(s, c), c, s.calls[c].rec);
    CallPutNs(s, c);
    Hands(s, c);
    Own(s, c);
  }

  lemma SpacesPutNs(s: State, c: Caller)
    requires Inv(s) && Working(s, c) && s.calls[c].Storing?
    requires Local(s, DoPutNs(s, c), c, s.calls[c].rec)
    ensures SpacesOk(s, DoPutNs(s, c), c, s.calls[c].rec)
  {
    hide Inv, Local, RecOk, Shape;
    LocalShapes(s, DoPutNs(s, c), c, s.calls[c].rec);
    Hands(s, c);
    Around(s, c);
  }

  lemma LocalCheck(s: State, c: Caller)
    requires Inv(s) && Working(s, c) && (s.calls[c].CheckingEarly? || s.calls[c].CheckingLate?)
    ensures Local(s, DoMove(s, c, AfterCheck(s, c)), c, s.calls[c].rec)
  {
    hide Inv, CallOk, RecOk, NsOk;
    Hands(s, c);
  }

  lemma CallCheck(s: State, c: Caller)
    requires Inv(s) && Working(s, c) && (s.calls[c].CheckingEarly? || s.calls[c].CheckingLate?)
    requires Local(s, DoMove(s, c, AfterCheck(s, c)), c, s.calls[c].rec)
    ensures CallOk(DoMove(s, c, AfterCheck(s, c)), c)
  {
    hide Inv, Local, RecOk, Shape;
    LocalShapes(s, DoMove(s, c, AfterCheck(s, c)), c, s.calls[c].rec);
    Hands(s, c);
    Own(s, c);
  }

  lemma NearCheck(s: State, c: Caller)
    requires Inv(s) && Working(s, c) && (s.calls[c].CheckingEarly? || s.calls[c].CheckingLate?)
    requires Local(s, DoMove(s, c, AfterCheck(s, c)), c, s.calls[c].rec)
    ensures LocalOk(s, DoMove(s, c, AfterCheck(s, c)), c, s.calls[c].rec)
  {
    hide Inv, Local, CallOk;
    LocalShapes(s, DoMove(s, c, AfterCheck(s, c)), c, s.calls[c].rec);
    CallCheck(s, c);
    Hands(s, c);
    Own(s, c);
  }

  lemma LocalSetUp(s: State, c: Caller, ok: bool)
    requires Inv(s) && Working(s, c) && s.calls[c].SettingUp?
    ensures Local(s, DoMove(s, c, AfterSetUp(s.calls[c].rec, ok)), c, s.calls[c].rec)
  {
    hide Inv, CallOk, RecOk, NsOk;
    Hands(s, c);
  }

  lemma NearSetUp(s: State, c: Caller, ok: bool)
    requires Inv(s) && Working(s, c) && s.calls[c].SettingUp?
    requires Local(s, DoMove(s, c, AfterSetUp(s.calls[c].rec, ok)), c, s.calls[c].rec)
    ensures LocalOk(s, DoMove(s, c, AfterSetUp(s.calls[c].rec, ok)), c, s.calls[c].rec)
  {
    hide Inv, Local;
    LocalShapes(s, DoMove(s, c, AfterSetUp(s.calls[c].rec, ok)), c, s.calls[c].rec);
    Hands(s, c);
    Own(s, c);
  }

  lemma LocalStopped(s: State, c: Caller)
    requires Inv(s) && Working(s, c) && s.calls[c].Stopping?
    requires s.sh.recs[s.calls[c].rec].cmd ==> s.sh.recs[s.calls[c].rec].done
    ensures Local(s, DoMove(s, c, Freeing(s.calls[c].rec, s.calls[c].held)), c, s.calls[c].rec)
  {
    hide Inv, CallOk, RecOk, NsOk;
    Hands(s, c);
  }

  lemma NearStopped(s: State, c: Caller)
    requires Inv(s) && Working(s, c) && s.calls[c].Stopping?
    requires s.sh.recs[s.calls[c].rec].cmd ==> s.sh.recs[s.calls[c].rec].done
    requires Local(s, DoMove(s, c, Freeing(s.calls[c].rec, s.calls[c].held)), c, s.calls[c].rec)
    ensures LocalOk(s, DoMove(s, c, Freeing(s.calls[c].rec, s.calls[c].held)), c, s.calls[c].rec)
  {
    hide Inv, Local;
    LocalShapes(s, DoMove(s, c, Freeing(s.calls[c].rec, s.calls[c].held)), c, s.calls[c].rec);
    Hands(s, c);
    Own(s, c);
  }

  lemma LocalStart(s: State, c: Caller, ok: bool)
    requires Inv(s) && Working(s, c) && s.calls[c].Starting?
    ensures Local(s, DoStart(s, c, ok), c, s.calls[c].rec)
  {
    hide Inv, CallOk, RecOk, NsOk;
    Hands(s, c);
  }

  lemma AfterStart(s: State, c: Caller, ok: bool)
    requires Working(s, c)
    ensures var s', r := DoStart(s, c, ok), s.calls[c].rec;
            && s'.sh == s.sh && s'.places == s.places && c in s'.calls
            && s'.calls[c] == (if ok then Started(r) else Failing(r))
            && s'.hist == (if ok then s.hist[r := s.hist[r].(process := Live)] else s.hist)
  {
  }

  lemma CallStart(s: State, c: Caller, ok: bool)
    requires Inv(s) && Working(s, c) && s.calls[c].Starting?
    requires Local(s, DoStart(s, c, ok), c, s.calls[c].rec)
    ensures CallOk(DoStart(s, c, ok), c)
  {
    hide DoStart, InMap, Inv, Local, RecOk, Shape;
    LocalShapes(s, DoStart(s, c, ok), c, s.calls[c].rec);
    Hands(s, c);
    Own(s, c);
    AfterStart(s, c, ok);
  }

  lemma NearStart(s: State, c: Caller, ok: bool)
    requires Inv(s) && Working(s, c) && s.calls[c].Starting?
    requires Local(s, DoStart(s, c, ok), c, s.calls[c].rec)
    ensures LocalOk(s, DoStart(s, c, ok), c, s.calls[c].rec)
  {
    hide Inv, Local;
    LocalShapes(s, DoStart(s, c, ok), c, s.calls[c].rec);
    CallStart(s, c, ok);
    Hands(s, c);
    Own(s, c);
  }

  lemma LocalPutCmd(s: State, c: Caller)
    requires Inv(s) && Working(s, c) && s.calls[c].Started?
    ensures Local(s, DoPutCmd(s, c), c, s.calls[c].rec)
  {
    hide Inv, CallOk, RecOk, NsOk;
    Hands(s, c);
  }

  lemma NearPutCmd(s: State, c: Caller)
    requires Inv(s) && Working(s, c) && s.calls[c].Started?
    requires Local(s, DoPutCmd(s, c), c, s.calls[c].rec)
    ensures LocalOk(s, DoPutCmd(s, c), c, s.calls[c].rec)
  {
    hide Inv, Local;
    LocalShapes(s, DoPutCmd(s, c), c, s.calls[c].rec);
    Hands(s, c);
    Own(s, c);
  }

  lemma UnlistIsLocal(sh: Shared, r: Rec)
    requires r < |sh.recs|
    requires forall id | id in sh.cams :: sh.cams[id] < |sh.recs| && sh.recs[sh.cams[id]].id == id
    ensures var sh' := Unlist(TakeNs(sh, r), r);
            && |sh'.recs| == |sh.recs| && sh'.recs[r] == sh.recs[r].(ns := None)
            && (forall q | 0 <= q < |sh.recs| && q != r :: sh'.recs[q] == sh.recs[q] && InMap(sh', q) == InMap(sh, q))
            && forall id | id in sh'.cams :: sh'.cams[id] < |sh'.recs| && sh'.recs[sh'.cams[id]].id == id
  {
  }

  lemma LocalFail(s: State, c: Caller)
    requires Inv(s) && Working(s, c) && s.calls[c].Failing?
    ensures Local(s, DoFail(s, c), c, s.calls[c].rec)
  {
    hide Unlist, TakeNs, InMap;
    hide Inv, CallOk, RecOk, NsOk;
    Hands(s, c);
    UnlistIsLocal(s.sh, s.calls[c].rec);
  }

  lemma AfterFail(s: State, c: Caller)
    requires Working(s, c)
    ensures var s', r, ns := DoFail(s, c), s.calls[c].rec, s.sh.recs[s.calls[c].rec].ns;
            && s'.hist == s.hist && c in s'.calls && s'.calls[c] == Undoing(r, ns)
            && s'.sh.recs == s.sh.recs[r := s.sh.recs[r].(ns := None)] && !InMap(s'.sh, r)
            && |s'.places| == |s.places| && (ns.Some? && ns.value < |s.places| ==> s'.places[ns.value] == Held(c))
  {
  }

  lemma CallFail(s: State, c: Caller)
    requires Inv(s) && Working(s, c) && s.calls[c].Failing?
    requires Local(s, DoFail(s, c), c, s.calls[c].rec)
    ensures CallOk(DoFail(s, c), c)
  {
    hide DoFail, InMap, Inv, Local, RecOk, Shape;
    LocalShapes(s, DoFail(s, c), c, s.calls[c].rec);
    Hands(s, c);
    Own(s, c);
    AfterFail(s, c);
  }

  lemma NearFail(s: State, c: Caller)
    requires Inv(s) && Working(s, c) && s.calls[c].Failing?
    requires Local(s, DoFail(s, c), c, s.calls[c].rec)
    ensures LocalOk(s, DoFail(s, c), c, s.calls[c].rec)
  {
    hide Inv, Local;
    LocalShapes(s, DoFail(s, c), c, s.calls[c].rec);
    CallFail(s, c);
    Hands(s, c);
    Own(s, c);
  }

  lemma SpacesFail(s: State, c: Caller)
    requires Inv(s) && Working(s, c) && s.calls[c].Failing?
    requires Local(s, DoFail(s, c), c, s.calls[c].rec)
    ensures SpacesOk(s, DoFail(s, c), c, s.calls[c].rec)
  {
    hide Inv, Local, CallOk, RecOk, Shape;
    LocalShapes(s, DoFail(s, c), c, s.calls[c].rec);
    Hands(s, c);
    Around(s, c);
  }

  lemma LocalUndo(s: State, c: Caller)
    requires Inv(s) && Working(s, c) && s.calls[c].Undoing?
    ensures Local(s, DoRelease(s, c, Ending(s.calls[c].rec)), c, s.calls[c].rec)
  {
    hide Inv, CallOk, RecOk, NsOk;
    Hands(s, c);
  }

  lemma AfterRelease(s: State, c: Caller, next: Call)
    requires Working(s, c)
    ensures var s' := DoRelease(s, c, next);
            && s'.hist == s.hist && s'.sh == s.sh && c in s'.calls && s'.calls[c] == next
  {
  }

  lemma CallUndo(s: State, c: Caller)
    requires Inv(s) && Working(s, c) && s.calls[c].Undoing?
    requires Local(s, DoRelease(s, c, Ending(s.calls[c].rec)), c, s.calls[c].rec)
    ensures CallOk(DoRelease(s, c, Ending(s.calls[c].rec)), c)
  {
    hide DoRelease, InMap, Inv, Local, RecOk, Shape;
    LocalShapes(s, DoRelease(s, c, Ending(s.calls[c].rec)), c, s.calls[c].rec);
    Hands(s, c);
    Own(s, c);
    AfterRelease(s, c, Ending(s.calls[c].rec));
  }

  lemma NearUndo(s: State, c: Caller)
    requires Inv(s) && Working(s, c) && s.calls[c].Undoing?
    requires Local(s, DoRelease(s, c, Ending(s.calls[c].rec)), c, s.calls[c].rec)
    ensures LocalOk(s, DoRelease(s, c, Ending(s.calls[c].rec)), c, s.calls[c].rec)
  {
    hide Inv, Local, CallOk;
    LocalShapes(s, DoRelease(s, c, Ending(s.calls[c].rec)), c, s.calls[c].rec);
    CallUndo(s, c);
    Hands(s, c);
    Own(s, c);
  }

  lemma SpacesUndo(s: State, c: Caller)
    requires Inv(s) && Working(s, c) && s.calls[c].Undoing?
    requires Local(s, DoRelease(s, c, Ending(s.calls[c].rec)), c, s.calls[c].rec)
    ensures SpacesOk(s, DoRelease(s, c, Ending(s.calls[c].rec)), c, s.calls[c].rec)
  {
    hide Inv, Local, CallOk, RecOk, Shape;
    LocalShapes(s, DoRelease(s, c, Ending(s.calls[c].rec)), c, s.calls[c].rec);
    Hands(s, c);
    Around(s, c);
  }

  lemma LocalFree(s: State, c: Caller)
    requires Inv(s) && Working(s, c) && s.calls[c].Freeing?
    ensures Local(s, DoRelease(s, c, Removing(s.calls[c].rec)), c, s.calls[c].rec)
  {
    hide Inv, CallOk, RecOk, NsOk;
    Hands(s, c);
  }

  lemma CallFree(s: State, c: Caller)
    requires Inv(s) && Working(s, c) && s.calls[c].Freeing?
    requires Local(s, DoRelease(s, c, Removing(s.calls[c].rec)), c, s.calls[c].rec)
    ensures CallOk(DoRelease(s, c, Removing(s.calls[c].rec)), c)
  {
    hide DoRelease, InMap, Inv, Local, RecOk, Shape;
    LocalShapes(s, DoRelease(s, c, Removing(s.calls[c].rec)), c, s.calls[c].rec);
    Hands(s, c);
    Own(s, c);
    AfterRelease(s, c, Removing(s.calls[c].rec));
  }

  lemma NearFree(s: State, c: Caller)
    requires Inv(s) && Working(s, c) && s.calls[c].Freeing?
    requires Local(s, DoRelease(s, c, Removing(s.calls[c].rec)), c, s.calls[c].rec)
    ensures LocalOk(s, DoRelease(s, c, Removing(s.calls[c].rec)), c, s.calls[c].rec)
  {
    hide Inv, Local, CallOk;
    LocalShapes(s, DoRelease(s, c, Removing(s.calls[c].rec)), c, s.calls[c].rec);
    CallFree(s, c);
    Hands(s, c);
    Own(s, c);
  }

  lemma SpacesFree(s: State, c: Caller)
    requires Inv(s) && Working(s, c) && s.calls[c].Freeing?
    requires Local(s, DoRelease(s, c, Removing(s.calls[c].rec)), c, s.calls[c].rec)
    ensures SpacesOk(s, DoRelease(s, c, Removing(s.calls[c].rec)), c, s.calls[c].rec)
  {
    hide Inv, Local, CallOk, RecOk, Shape;
    LocalShapes(s, DoRelease(s, c, Removing(s.calls[c].rec)), c, s.calls[c].rec);
    Hands(s, c);
    Around(s, c);
  }

  lemma LocalEndCreate(s: State, c: Caller)
    requires Inv(s) && Working(s, c) && s.calls[c].Ending?
    ensures Local(s, DoEndCreate(s, c), c, s.calls[c].rec)
  {
    hide Inv, CallOk, RecOk, NsOk;
    Hands(s, c);
  }

  lemma NearEndCreate(s: State, c: Caller)
    requires Inv(s) && Working(s, c) && s.calls[c].Ending?
    requires Local(s, DoEndCreate(s, c), c, s.calls[c].rec)
    ensures LocalOk(s, DoEndCreate(s, c), c, s.calls[c].rec)
  {
    hide Inv, Local;
    LocalShapes(s, DoEndCreate(s, c), c, s.calls[c].rec);
    Hands(s, c);
    Own(s, c);
  }

  lemma LocalGetNs(s: State, c: Caller)
    requires Inv(s) && Working(s, c) && s.calls[c].Awaiting? && s.sh.recs[s.calls[c].rec].created
    ensures Local(s, DoGetNs(s, c), c, s.calls[c].rec)
  {
    hide Inv, CallOk, RecOk, NsOk;
    Hands(s, c);
  }

  lemma NearGetNs(s: State, c: Caller)
    requires Inv(s) && Working(s, c) && s.calls[c].Awaiting? && s.sh.recs[s.calls[c].rec].created
    requires Local(s, DoGetNs(s, c), c, s.calls[c].rec)
    ensures LocalOk(s, DoGetNs(s, c), c, s.calls[c].rec)
  {
    hide Inv, Local;
    LocalShapes(s, DoGetNs(s, c), c, s.calls[c].rec);
    Hands(s, c);
    Own(s, c);
  }

  lemma SpacesGetNs(s: State, c: Caller)
    requires Inv(s) && Working(s, c) && s.calls[c].Awaiting? && s.sh.recs[s.calls[c].rec].created
    requires Local(s, DoGetNs(s, c), c, s.calls[c].rec)
    ensures SpacesOk(s, DoGetNs(s, c), c, s.calls[c].rec)
  {
    hide Inv, Local, CallOk, RecOk, Shape;
    LocalShapes(s, DoGetNs(s, c), c, s.calls[c].rec);
    Hands(s, c);
    Around(s, c);
  }

  lemma LocalEndDelete(s: State, c: Caller)
    requires Inv(s) && Working(s, c) && s.calls[c].Removing?
    ensures Local(s, DoEndDelete(s, c), c, s.calls[c].rec)
  {
    hide Inv, CallOk, RecOk, NsOk;
    Hands(s, c);
  }

  lemma NearEndDelete(s: State, c: Caller)
    requires Inv(s) && Working(s, c) && s.calls[c].Removing?
    requires Local(s, DoEndDelete(s, c), c, s.calls[c].rec)
    ensures LocalOk(s, DoEndDelete(s, c), c, s.calls[c].rec)
  {
    hide Inv, Local;
    LocalShapes(s, DoEndDelete(s, c), c, s.calls[c].rec);
    Hands(s, c);
    Own(s, c);
  }

  /** Steps that hand no namespace over. */
  lemma SpacesKept(s: State, s': State, c: Caller)
    requires Inv(s) && c in s.calls && Local(s, s', c, s.calls[c].rec)
    requires s'.places == s.places && s'.freed == s.freed
    requires s'.sh.recs[s.calls[c].rec].ns == s.sh.recs[s.calls[c].rec].ns
    requires s.calls[c].Holds().Some? ==> c in s'.calls && s'.calls[c].Holds() == s.calls[c].Holds()
    ensures SpacesOk(s, s', c, s.calls[c].rec)
  {
    Around(s, c);
    hide Inv, CallOk, RecOk;
  }

  predicate Quiet(a: Action) {
    a.Check? || a.SetUp? || a.Stopped? || a.Start? || a.PutCmd? || a.EndCreate? || a.EndDelete?
  }

  lemma QuietStep(s: State, a: Action)
    requires Inv(s) && Enabled(s, a) && Quiet(a) && Local(s, Apply(s, a), a.c, s.calls[a.c].rec)
    ensures SpacesOk(s, Apply(s, a), a.c, s.calls[a.c].rec)
  {
    hide Inv;
    SpacesKept(s, Apply(s, a), a.c);
  }

  lemma GentleStep(s: State, a: Action)
    requires Inv(s) && Enabled(s, a) && !a.BeginCreate? && !a.BeginDelete? && !a.Exit? && !a.Reap?
    requires Shape(Apply(s, a))
    ensures var r := s.calls[a.c].rec;
            && r < |s.sh.recs| && r < |Apply(s, a).sh.recs| && Gentle(s.sh.recs[r], Apply(s, a).sh.recs[r])
            && (s.calls[a.c].IsDelete() ==> s.sh.recs[r].created)
  {
    hide Inv, RecOk, NsOk, Shape;
    Own(s, a.c);
  }

  lemma KeepsBeginCreate(s: State, c: Caller, id: string)
    requires Inv(s) && c !in s.calls
    ensures Inv(DoBeginCreate(s, c, id))
  {
    if id !in s.sh.cams {
      var s', r := DoBeginCreate(s, c, id), |s.sh.recs|;
      LocalBeginCreate(s, c, id);
      NearBeginCreate(s, c, id);
      hide *;
      LocalStep(s, s', c, r);
    }
  }

  lemma LocalBeginCreate(s: State, c: Caller, id: string)
    requires Inv(s) && c !in s.calls && id !in s.sh.cams
    ensures Local(s, DoBeginCreate(s, c, id), c, |s.sh.recs|)
  {
    hide CallOk, RecOk, NsOk;
  }

  lemma NearBeginCreate(s: State, c: Caller, id: string)
    requires Inv(s) && c !in s.calls && id !in s.sh.cams && Local(s, DoBeginCreate(s, c, id), c, |s.sh.recs|)
    ensures var s', r := DoBeginCreate(s, c, id), |s.sh.recs|;
            LocalOk(s, s', c, r) && PeersOk(s', c, r) && SpacesOk(s, s', c, r)
  {
    NothingNew(s, c, |s.sh.recs|);
    hide Inv, Local;
  }

  /** A caller or a record that is new has no namespace yet. */
  lemma NothingNew(s: State, c: Caller, r: Rec)
    requires Inv(s) && c !in s.calls
    ensures forall n | 0 <= n < |s.places| && Mine(s, c, r, n) ::
              NsOk(s, n) && r < |s.sh.recs| && s.sh.recs[r].ns == Some(n)
    ensures forall d | d in s.calls :: s.calls[d].rec < |s.sh.recs|
    ensures forall n | n in s.freed :: n < |s.places|
  {
    forall n | 0 <= n < |s.places| && Mine(s, c, r, n)
      ensures NsOk(s, n) && r < |s.sh.recs| && s.sh.recs[r].ns == Some(n) {
      assert NsOk(s, n);
    }
  }

  lemma PeersOfDelete(s: State, c: Caller, id: string)
    requires Inv(s) && c !in s.calls && id in s.sh.cams && s.sh.cams[id] < |s.sh.recs| == |s.hist|
    requires Local(s, DoBeginDelete(s, c, id), c, s.sh.cams[id])
    ensures PeersOk(DoBeginDelete(s, c, id), c, s.sh.cams[id])
  {
    var s', r := DoBeginDelete(s, c, id), s.sh.cams[id];
    forall d | d != c && d in s'.calls && s'.calls[d].rec == r ensures CallOk(s', d) { assert CallOk(s, d); }
  }

  lemma KeepsBeginDelete(s: State, c: Caller, id: string)
    requires Inv(s) && c !in s.calls
    ensures id in s.sh.cams ==> s.sh.cams[id] < |s.sh.recs| == |s.hist|
    ensures Inv(DoBeginDelete(s, c, id))
  {
    if id in s.sh.cams {
      var r := s.sh.cams[id];
      assert r < |s.sh.recs| == |s.hist|;
      var s' := DoBeginDelete(s, c, id);
      LocalBeginDelete(s, c, id);
      NearBeginDelete(s, c, id);
      SpacesBeginDelete(s, c, id);
      PeersOfDelete(s, c, id);
      hide *;
      LocalStep(s, s', c, r);
    }
  }

  lemma LocalBeginDelete(s: State, c: Caller, id: string)
    requires Inv(s) && c !in s.calls && id in s.sh.cams && s.sh.cams[id] < |s.sh.recs| == |s.hist|
    ensures Local(s, DoBeginDelete(s, c, id), c, s.sh.cams[id])
  {
    hide CallOk, RecOk, NsOk;
  }

  lemma NearBeginDelete(s: State, c: Caller, id: string)
    requires Inv(s) && c !in s.calls && id in s.sh.cams && s.sh.cams[id] < |s.sh.recs| == |s.hist|
    requires Local(s, DoBeginDelete(s, c, id), c, s.sh.cams[id])
    ensures LocalOk(s, DoBeginDelete(s, c, id), c, s.sh.cams[id])
  {
    hide Inv, RecOk, CallOk, DoBeginDelete;
    DeletingRec(s, c, id);
    DeletingCall(s, c, id);
  }

  lemma DeletingRec(s: State, c: Caller, id: string)
    requires Inv(s) && c !in s.calls && id in s.sh.cams && s.sh.cams[id] < |s.sh.recs| == |s.hist|
    requires Shape(DoBeginDelete(s, c, id)) && s.sh.cams[id] < |DoBeginDelete(s, c, id).sh.recs|
    ensures RecOk(DoBeginDelete(s, c, id), s.sh.cams[id])
  {
    assert RecOk(s, s.sh.cams[id]) && Shape(s);
    hide Inv, CallOk, NsOk;
  }

  lemma DeletingCall(s: State, c: Caller, id: string)
    requires Inv(s) && c !in s.calls && id in s.sh.cams && s.sh.cams[id] < |s.sh.recs| == |s.hist|
    requires Shape(DoBeginDelete(s, c, id))
    ensures c in DoBeginDelete(s, c, id).calls && CallOk(DoBeginDelete(s, c, id), c)
  {
    hide Inv, RecOk, NsOk, CreateOk;
  }

  lemma SpacesBeginDelete(s: State, c: Caller, id: string)
    requires Inv(s) && c !in s.calls && id in s.sh.cams && s.sh.cams[id] < |s.sh.recs| == |s.hist|
    requires Local(s, DoBeginDelete(s, c, id), c, s.sh.cams[id])
    ensures SpacesOk(s, DoBeginDelete(s, c, id), c, s.sh.cams[id])
  {
    NothingNew(s, c, s.sh.cams[id]);
    hide Inv, Local, CallOk, RecOk;
  }

  lemma KeepsExit(s: State, r: Rec)
    requires Inv(s) && r < |s.hist| && s.hist[r].process == Live
    ensures Inv(s.(hist := s.hist[r := s.hist[r].(process := Exited)]))
  {
    var s' := s.(hist := s.hist[r := s.hist[r].(process := Exited)]);
    assert Shape(s');
    CallsBear(s, s', r);
    assert forall q | 0 <= q < |s'.sh.recs| :: RecOk(s', q) by {
      forall q | 0 <= q < |s'.sh.recs| ensures RecOk(s', q) { assert RecOk(s, q) && RecOk(s, r); }
    }
    assert forall n | 0 <= n < |s'.places| :: NsOk(s', n) by {
      forall n | 0 <= n < |s'.places| ensures NsOk(s', n) { assert NsOk(s, n); }
    }
  }

  lemma KeepsReap(s: State, r: Rec)
    requires Inv(s) && r < |s.hist| == |s.sh.recs| && s.sh.recs[r].cmd && s.hist[r].process == Exited
    ensures Inv(s.(sh := Update(s.sh, r, s.sh.recs[r].(done := true))))
  {
    var s' := s.(sh := Update(s.sh, r, s.sh.recs[r].(done := true)));
    assert Shape(s');
    CallsBear(s, s', r);
    assert forall q | 0 <= q < |s'.sh.recs| :: RecOk(s', q) by {
      forall q | 0 <= q < |s'.sh.recs| ensures RecOk(s', q) { assert RecOk(s, q); }
    }
    assert forall n | 0 <= n < |s'.places| :: NsOk(s', n) by {
      forall n | 0 <= n < |s'.places| ensures NsOk(s', n) { assert NsOk(s, n); }
    }
  }

  /** No call minds that a process it started ends, or that this is noticed. */
  lemma CallsBear(s: State, s': State, r: Rec)
    requires Inv(s) && Shape(s') && s'.calls == s.calls && s'.places == s.places && s'.sh.cams == s.sh.cams
    requires |s'.sh.recs| == |s.sh.recs| && r < |s.sh.recs|
    requires forall q | 0 <= q < |s.sh.recs| :: s'.sh.recs[q] == s.sh.recs[q].(done := s'.sh.recs[q].done)
    requires forall q | 0 <= q < |s.sh.recs| :: s.sh.recs[q].done ==> s'.sh.recs[q].done
    requires forall q | 0 <= q < |s.sh.recs| && q != r :: s'.hist[q] == s.hist[q]
    requires s'.hist[r] == s.hist[r] || (s.hist[r].process == Live && s'.hist[r] == s.hist[r].(process := Exited))
    ensures forall c | c in s'.calls :: CallOk(s', c)
  {
    forall c | c in s'.calls ensures CallOk(s', c) { assert CallOk(s, c); }
  }

  // --------------------------------------------------------------- whole runs

  /** The state after some actions in a row, if each could happen in its turn. */
  function After(run: seq<Action>): Option<State> {
    if run == [] then Some(INIT)
    else
      var before := After(run[..|run| - 1]);
      if before.Some? && Enabled(before.value, run[|run| - 1]) then Some(Apply(before.value, run[|run| - 1])) else None
  }

  lemma {:induction false} EveryRunKeeps(run: seq<Action>)
    requires After(run).Some?
    ensures Inv(After(run).value)
  {
    hide Inv, Apply, Enabled;
    if run == [] {
      InitOk();
    } else {
      EveryRunKeeps(run[..|run| - 1]);
      Keeps(After(run[..|run| - 1]).value, run[|run| - 1]);
    }
  }

  lemma InitOk()
    ensures Inv(INIT)
  {
  }

  /** In every interleaving each namespace made is released at most once, and
      no release is of anything else. */
  lemma ReleasedOnce(run: seq<Action>, n: Ns)
    requires After(run).Some?
    ensures var s := After(run).value;
            s.freed[n] <= 1 && (s.freed[n] == 1 ==> n < |s.places| && s.places[n] == Released)
  {
    EveryRunKeeps(run);
    var s := After(run).value;
    if n < |s.places| {
      assert NsOk(s, n);
    } else {
      assert n !in s.freed;
    }
  }

  /** A record nobody works on any more. */
  predicate Settled(s: State, r: Rec) { forall c | c in s.calls :: s.calls[c].rec != r }

  /** Once all calls on a record have returned, either its creation succeeded,
      nobody asked to delete it and it is listed with its namespace, or it is
      out of the map, its process is not running and all that was made for it
      has been released, once. */
  lemma SettledRecord(run: seq<Action>, r: Rec)
    requires After(run).Some? && r < |After(run).value.sh.recs|
    requires Settled(After(run).value, r)
    ensures var s := After(run).value;
            && Shape(s)
            && (if InMap(s.sh, r) then
                  && s.sh.recs[r].created && s.sh.recs[r].cmd && !s.sh.recs[r].deleting
                  && s.sh.recs[r].ns.Some?
                  && forall n | 0 <= n < |s.places| && s.owners[n] == r ::
                       if s.sh.recs[r].ns == Some(n) then s.freed[n] == 0 else s.freed[n] == 1
                else
                  && s.sh.recs[r].ns == None && s.hist[r].process != Live
                  && forall n | 0 <= n < |s.places| && s.owners[n] == r :: s.freed[n] == 1)
  {
    EveryRunKeeps(run);
    var s := After(run).value;
    assert RecOk(s, r);
    forall n | 0 <= n < |s.places| && s.owners[n] == r
      ensures if s.sh.recs[r].ns == Some(n) then s.freed[n] == 0 else s.freed[n] == 1
    {
      assert NsOk(s, n);
      if s.sh.recs[r].ns == Some(n) { assert s.places[n] == Stored(r); }
    }
  }

  /** Nothing is left behind: when every call has returned, the namespaces not
      released are exactly those of the listed cameras. */
  lemma NothingLeftBehind(run: seq<Action>, n: Ns)
    requires After(run).Some? && After(run).value.calls == map[] && n < |After(run).value.places|
    ensures var s := After(run).value;
            s.freed[n] == 0 <==>
            exists id :: id in s.sh.cams && s.sh.cams[id] < |s.sh.recs| && s.sh.recs[s.sh.cams[id]].ns == Some(n)
  {
    EveryRunKeeps(run);
    var s := After(run).value;
    assert NsOk(s, n);
    if s.freed[n] == 0 {
      var r := s.owners[n];
      SettledRecord(run, r);
      assert s.places[n] == Stored(r);
      assert s.sh.recs[r].id in s.sh.cams && s.sh.cams[s.sh.recs[r].id] == r;
    }
    forall id | id in s.sh.cams && s.sh.recs[s.sh.cams[id]].ns == Some(n) ensures s.freed[n] == 0 {
      assert RecOk(s, s.sh.cams[id]);
    }
  }

  lemma RemovingIsOver(s: State, c: Caller)
    requires Inv(s) && c in s.calls && s.calls[c].Removing?
    ensures s.calls[c].rec < |s.hist| && s.hist[s.calls[c].rec].process != Live
  {
    Own(s, c);
  }

  /** A camera leaves the map only through a call that works on the very record
      listed, never through one that was slow to finish with an older record. */
  lemma RemovesOnlyItsOwn(s: State, a: Action, id: string)
    requires Inv(s) && Enabled(s, a) && id in s.sh.cams
    ensures var s' := Apply(s, a);
            id !in s'.sh.cams || s'.sh.cams[id] != s.sh.cams[id] ==>
              && (a.Fail? || a.EndDelete?) && s.calls[a.c].rec == s.sh.cams[id]
              && id !in s'.sh.cams && (a.Fail? || s.hist[s.sh.cams[id]].process != Live)
  {
    hide CallOk, RecOk, NsOk;
    if a.EndDelete? { RemovingIsOver(s, a.c); }
  }
}
