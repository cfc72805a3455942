/**
 The life of a camera: the states a session goes through, the automatic restarts
 after a failure, and the reconciliation that starts what should be running.
 */
module Lifecycle {
  import opened Common

  datatype CameraState = Stopped | Provisioning | Starting | Running | Degraded | Restarting | Stopping | Error

  function Transitions(st: CameraState): seq<CameraState> {
    match st
    case Stopped => [Provisioning]
    case Provisioning => [Starting, Error, Stopping]
    case Starting => [Running, Error, Stopping]
    case Running => [Degraded, Restarting, Stopping, Error]
    case Degraded => [Running, Stopping, Error]
    case Restarting => [Starting, Stopping, Error]
    case Stopping => [Stopped, Error]
    case Error => [Provisioning, Stopping, Stopped]
  }

  method CanTransition(st: CameraState, next: CameraState) returns (ok: bool)
    ensures ok == (next in Transitions(st))
  {
    var all := Transitions(st);
    for i := 0 to |all|
      invariant next !in all[..i]
    {
      if all[i] == next { return true; }
      assert all[..i + 1] == all[..i] + [all[i]];
    }
    return false;
  }

  // ---------------------------------------------------------------- a session

  /** How a wait for the camera process ends. */
  datatype Wait = Answered | Broken | Refused | StopAsked | TimedOut

  datatype Preparing = Prepared | PrepareFailed | StoppedMeanwhile

  /** What supervising a running camera sees next. */
  datatype Beat = StopSeen | ConnDone | Stable | Tick(alive: bool)

  /** Everything a session meets, in order: what its calls and waits give. */
  datatype Fate = Fate(
    prepare: Preparing, stopPending: bool, spec: bool, launch: bool, hello: Wait, build: bool, configure: bool,
    ready: Wait, beats: seq<Beat>)

  /** Each thing a session meets lets it go on, asks it to stop or is a failure. */
  datatype Met = Fine | AskedToStop | Trouble

  function Call(ok: bool): Met { if ok then Fine else Trouble }

  function Waited(w: Wait): Met { if w.Answered? then Fine else if w.StopAsked? then AskedToStop else Trouble }

  function Beaten(b: Beat): Met {
    match b
    case StopSeen => AskedToStop
    case ConnDone => Trouble
    case Stable => Fine
    case Tick(alive) => Call(alive)
  }

  function Supervised(beats: seq<Beat>): seq<Met> { seq(|beats|, i requires 0 <= i < |beats| => Beaten(beats[i])) }

  function Meets(f: Fate): seq<Met> {
    [ if f.prepare.Prepared? then Fine else if f.prepare.StoppedMeanwhile? then AskedToStop else Trouble,
      if f.stopPending then AskedToStop else Fine, Call(f.spec), Call(f.launch), Waited(f.hello), Call(f.build),
      Call(f.configure), Waited(f.ready) ] + Supervised(f.beats)
  }

  /** Whatever comes first decides how a session ends. */
  function First(ms: seq<Met>): Met {
    if ms == [] then Fine else if ms[0].Fine? then First(ms[1..]) else ms[0]
  }

  function EndsIn(m: Met): CameraState {
    match m
    case Fine => Running
    case AskedToStop => Stopped
    case Trouble => Error
  }

  lemma {:induction false} FirstIs(ms: seq<Met>, n: nat)
    requires n <= |ms| && forall i | 0 <= i < n :: ms[i].Fine?
    ensures First(ms) == if n < |ms| && !ms[n].Fine? then ms[n] else First(ms[n..])
  {
    if n > 0 { FirstIs(ms[1..], n - 1); }
  }

  lemma FirstMet(f: Fate)
    ensures First(Meets(f)) ==
            if f.prepare.StoppedMeanwhile? then AskedToStop else if f.prepare.PrepareFailed? then Trouble
            else if f.stopPending then AskedToStop else if !f.spec || !f.launch then Trouble
            else if !f.hello.Answered? then Waited(f.hello) else if !f.build || !f.configure then Trouble
            else if !f.ready.Answered? then Waited(f.ready) else First(Supervised(f.beats))
  {
    var ms := Meets(f);
    assert ms[0..] == ms && ms[8..] == Supervised(f.beats);
    hide First;
    Peel(ms, 0); Peel(ms, 1); Peel(ms, 2); Peel(ms, 3);
    Peel(ms, 4); Peel(ms, 5); Peel(ms, 6); Peel(ms, 7);
  }

  lemma Peel(ms: seq<Met>, i: nat)
    requires i < |ms|
    ensures First(ms[i..]) == if ms[i].Fine? then First(ms[i + 1..]) else ms[i]
  {
    assert ms[i..][1..] == ms[i + 1..];
  }

  // The same in terms of what the session meets.

  predicate GoesOn(b: Beat) { b == Stable || b == Tick(true) }

  predicate UpToHello(f: Fate) { f.prepare == Prepared && !f.stopPending && f.spec && f.launch }

  predicate UpToReady(f: Fate) { UpToHello(f) && f.hello == Answered && f.build && f.configure }

  /** A stop was asked for, and nothing had failed before. */
  ghost predicate StopComesFirst(f: Fate) {
    || f.prepare == StoppedMeanwhile
    || (f.prepare == Prepared && f.stopPending)
    || (UpToHello(f) && f.hello == StopAsked)
    || (UpToReady(f) && f.ready == StopAsked)
    || (UpToReady(f) && f.ready == Answered &&
        exists i :: 0 <= i < |f.beats| && f.beats[i] == StopSeen && forall j | 0 <= j < i :: GoesOn(f.beats[j]))
  }

  /** Nothing failed, and no stop was asked for. */
  ghost predicate GoesWell(f: Fate) {
    UpToReady(f) && f.ready == Answered && forall i | 0 <= i < |f.beats| :: GoesOn(f.beats[i])
  }

  lemma {:induction false} FirstBeat(beats: seq<Beat>)
    ensures First(Supervised(beats)) == AskedToStop <==>
            exists i :: 0 <= i < |beats| && beats[i] == StopSeen && forall j | 0 <= j < i :: GoesOn(beats[j])
    ensures First(Supervised(beats)) == Fine <==> forall i | 0 <= i < |beats| :: GoesOn(beats[i])
    decreases |beats|
  {
    if beats != [] {
      var rest := beats[1..];
      FirstBeat(rest);
      assert Supervised(beats)[1..] == Supervised(rest);
      assert Beaten(beats[0]) == Fine <==> GoesOn(beats[0]);
      assert Beaten(beats[0]) == AskedToStop <==> beats[0] == StopSeen;
      hide Beaten, GoesOn, Supervised;
      forall i | 0 <= i < |rest| && rest[i] == StopSeen && (forall j | 0 <= j < i :: GoesOn(rest[j])) &&
                 GoesOn(beats[0])
        ensures exists k :: 0 <= k < |beats| && beats[k] == StopSeen && forall j | 0 <= j < k :: GoesOn(beats[j])
      {
        assert beats[i + 1] == StopSeen && forall j | 0 <= j < i + 1 :: GoesOn(beats[j]);
      }
      forall i | 0 < i < |beats| && beats[i] == StopSeen && forall j | 0 <= j < i :: GoesOn(beats[j])
        ensures exists k :: 0 <= k < |rest| && rest[k] == StopSeen && forall j | 0 <= j < k :: GoesOn(rest[j])
      {
        assert rest[i - 1] == StopSeen && forall j | 0 <= j < i - 1 :: GoesOn(rest[j]);
      }
    }
  }

  /** A session ends stopped exactly if a stop came first, goes on running exactly
      if all went well, and ends in an error in every other case. */
  lemma SessionEnds(f: Fate)
    ensures EndsIn(First(Meets(f))) ==
            if GoesWell(f) then Running else if StopComesFirst(f) then Stopped else Error
  {
    FirstMet(f);
    FirstBeat(f.beats);
    hide First, Meets, Supervised;
  }

  predicate Path(trail: seq<CameraState>) {
    forall i | 0 < i < |trail| :: trail[i] in Transitions(trail[i - 1])
  }

  /** A session starts out stopped and goes by the lifecycle. */
  predicate SessionPath(trail: seq<CameraState>, st: CameraState) {
    |trail| > 0 && trail[0] == Stopped && trail[|trail| - 1] == st && Path(trail)
  }

  class Session {
    var state: CameraState
    var trail: seq<CameraState>
    var failures: nat
    var resets: nat

    /** A new session, already provisioning. */
    constructor ()
      ensures SessionPath(trail, state) && state == Provisioning && failures == 0 && resets == 0
    {
      state, trail, failures, resets := Provisioning, [Stopped, Provisioning], 0, 0;
    }

    method SetState(st: CameraState)
      requires SessionPath(trail, state) && st in Transitions(state)
      modifies this`state, this`trail
      ensures SessionPath(trail, state) && state == st && trail == old(trail) + [st]
    {
      state, trail := st, trail + [st];
    }

    method FinishStopped()
      requires SessionPath(trail, state) && Stopping in Transitions(state)
      modifies this`state, this`trail
      ensures SessionPath(trail, state) && state == Stopped && trail == old(trail) + [Stopping, Stopped]
    {
      SetState(Stopping);
      SetState(Stopped);
    }

    method GiveUp()
      requires SessionPath(trail, state) && Error in Transitions(state)
      modifies this`state, this`trail, this`failures
      ensures SessionPath(trail, state) && state == Error && trail == old(trail) + [Error]
      ensures failures == old(failures) + 1
    {
      SetState(Error);
      failures := failures + 1;
    }

    /** run: whatever the session meets, it goes by the lifecycle; the first stop
        or failure ends it, and only a failure asks for a restart, once. */
    method Run(fate: Fate)
      requires SessionPath(trail, state) && state == Provisioning && failures == 0 && resets == 0
      modifies this
      ensures SessionPath(trail, state)
      ensures state == if GoesWell(fate) then Running else if StopComesFirst(fate) then Stopped else Error
      ensures failures == if state == Error then 1 else 0
      ensures resets > 0 ==> Running in trail
    {
      hide Meets, First, Path, GoesWell, StopComesFirst;
      FirstMet(fate);
      SessionEnds(fate);
      if fate.prepare == StoppedMeanwhile { FinishStopped(); return; }
      if fate.prepare == PrepareFailed { GiveUp(); return; }
      if fate.stopPending { FinishStopped(); return; }
      if !fate.spec { GiveUp(); return; }
      if !fate.launch { GiveUp(); return; }
      SetState(Starting);
      match fate.hello {
        case Answered =>
        case StopAsked => FinishStopped(); return;
        case _ => GiveUp(); return;
      }
      if !fate.build || !fate.configure { GiveUp(); return; }
      match fate.ready {
        case Answered =>
        case StopAsked => FinishStopped(); return;
        case _ => GiveUp(); return;
      }
      SetState(Running);
      Supervise(fate.beats);
    }

    /** Supervises heartbeats until a stop or a failure. */
    method Supervise(beats: seq<Beat>)
      requires SessionPath(trail, state) && state == Running && failures == 0 && resets == 0
      modifies this
      ensures SessionPath(trail, state) && Running in trail && state == EndsIn(First(Supervised(beats)))
      ensures failures == if state == Error then 1 else 0
    {
      assert trail[|trail| - 1] == Running;
      for i := 0 to |beats|
        invariant SessionPath(trail, state) && state == Running && failures == 0 && Running in trail
        invariant forall j | 0 <= j < i :: Supervised(beats)[j].Fine?
      {
        FirstIs(Supervised(beats), i);
        match beats[i] {
          case StopSeen => FinishStopped(); return;
          case ConnDone => GiveUp(); return;
          case Stable => resets := resets + 1;
          case Tick(alive) => if !alive { GiveUp(); return; }
        }
      }
      FirstIs(Supervised(beats), |beats|);
    }
  }

  // ------------------------------------------------------------------ retries

  const MAX_AUTO_RETRIES: nat := 5

  /** Two seconds, doubled with each attempt after the first, up to a minute. */
  function Backoff(attempt: nat): nat
    requires attempt >= 1
  {
    if 2 * Pow2(attempt - 1) > 60 then 60 else 2 * Pow2(attempt - 1)
  }

  method RetryBackoff(attempt: int) returns (d: nat)
    ensures d == Backoff(if attempt < 1 then 1 else attempt)
  {
    var n := if attempt < 1 then 1 else attempt;
    d := 2;
    for i := 1 to n
      invariant d == 2 * Pow2(i - 1)
    {
      d := d * 2;
    }
    if d > 60 { d := 60; }
  }

  lemma {:induction false} BackoffGrows(m: nat, n: nat)
    requires 1 <= m <= n
    ensures Backoff(m) <= Backoff(n) <= 60
  {
    if m < n { BackoffGrows(m, n - 1); }
  }

  type TimerId = nat

  datatype Retry = Retry(attempts: nat, timer: Option<TimerId>)

  /** retries, and the timers that run; timers are numbered as they are made. */
  datatype Table = Table(retries: map<string, Retry>, armed: set<TimerId>, made: nat)

  function RetryOf(t: Table, id: string): Retry { if id in t.retries then t.retries[id] else Retry(0, None) }

  /** afterFailure, for a camera that should be running. */
  function CountFailure(t: Table, id: string): Table {
    var r := RetryOf(t, id);
    if r.attempts + 1 > MAX_AUTO_RETRIES then t.(retries := t.retries[id := r.(attempts := r.attempts + 1)])
    else Table(t.retries[id := Retry(r.attempts + 1, Some(t.made))], t.armed + {t.made}, t.made + 1)
  }

  function CancelRetry(t: Table, id: string): Table {
    t.(retries := t.retries - {id},
       armed := if id in t.retries && t.retries[id].timer.Some? then t.armed - {t.retries[id].timer.value} else t.armed)
  }

  function ResetRetries(t: Table, id: string): Table { t.(retries := t.retries - {id}) }

  predicate GaveUp(t: Table, id: string) { id in t.retries && t.retries[id].attempts > MAX_AUTO_RETRIES }

  predicate RetryPending(t: Table, id: string) {
    id in t.retries && t.retries[id].timer.Some? && t.retries[id].attempts <= MAX_AUTO_RETRIES
  }

  class Supervisor {
    var retries: map<string, Retry>
    var armed: set<TimerId>
    var made: nat

    ghost function State(): Table
      reads this
    {
      Table(retries, armed, made)
    }

    constructor ()
      ensures State() == Table(map[], {}, 0)
    {
      retries, armed, made := map[], {}, 0;
    }

    /** Returns the wait of the timer it armed, unless it gave up. */
    method AfterFailure(id: string, desired: bool) returns (wait: Option<nat>)
      modifies this
      ensures State() == if desired then CountFailure(old(State()), id) else old(State())
      ensures wait == if desired && RetryOf(old(State()), id).attempts < MAX_AUTO_RETRIES
                      then Some(Backoff(RetryOf(old(State()), id).attempts + 1)) else None
    {
      if !desired { return None; }
      var r := if id in retries then retries[id] else Retry(0, None);
      r := r.(attempts := r.attempts + 1);
      retries := retries[id := r];
      if r.attempts > MAX_AUTO_RETRIES { return None; }
      var d := RetryBackoff(r.attempts);
      retries := retries[id := r.(timer := Some(made))];
      armed, made := armed + {made}, made + 1;
      assert retries == old(retries)[id := Retry(r.attempts, Some(old(made)))];
      return Some(d);
    }

    method Cancel(id: string)
      modifies this
      ensures State() == CancelRetry(old(State()), id)
    {
      if id in retries && retries[id].timer.Some? { armed := armed - {retries[id].timer.value}; }
      retries := retries - {id};
    }

    method Reset(id: string)
      modifies this
      ensures State() == ResetRetries(old(State()), id)
    {
      retries := retries - {id};
    }

    method HasGivenUp(id: string) returns (r: bool)
      ensures r == GaveUp(State(), id)
    {
      return id in retries && retries[id].attempts > MAX_AUTO_RETRIES;
    }

    method IsPending(id: string) returns (r: bool)
      ensures r == RetryPending(State(), id)
    {
      return id in retries && retries[id].timer.Some? && retries[id].attempts <= MAX_AUTO_RETRIES;
    }
  }

  // -------------------------------------------------------------- whole runs

  /** A session of one camera, before it ends: the state it set last, and
      whether it has counted its failure. */
  datatype Live = Live(st: CameraState, counted: bool)

  /** Where a reconciliation pass is with the camera: not there, having seen no
      session, having seen no retry pending, or decided to start it. */
  datatype Pass = Away | SawNoSession | SawNonePending | Starts

  /** One camera, and the retry table of all. mine are the timers armed for it,
      waits those of them since its record last was removed; clear tells that it
      had no record at some moment since the pass looked at its session. */
  datatype State = State(
    id: string, desired: bool, session: Option<Live>, t: Table, pass: Pass, mine: set<TimerId>, waits: seq<nat>,
    clear: bool)

  /** A user's start or stop cancels what is pending, and then may launch. What
      else launches is admitted or not. */
  datatype Action =
    | Cancels(desired: bool)
    | Launches
    | Moves(next: CameraState)
    | Resets
    | Counts
    | Ends
    | Other(t: Table)
    | Fires(timer: TimerId, admitted: bool)
    | Looks
    | AsksPending
    | AsksGaveUp
    | Acts(admitted: bool)

  const EMPTY := Table(map[], {}, 0)

  /** Sessions move as run does; a running one may reset its retries, and a
      failed one counts its failure before it ends. */
  predicate Enabled(s: State, a: Action) {
    match a
    case Launches => s.session == None
    case Moves(next) =>
      && s.session.Some? && !s.session.value.counted
      && next in Transitions(s.session.value.st) && !s.session.value.st.Error?
    case Resets => s.session.Some? && s.session.value.st.Running?
    case Counts => s.session.Some? && s.session.value == Live(Error, false)
    case Ends => s.session.Some? && (s.session.value.st.Stopped? || s.session.value == Live(Error, true))
    case Other(t) => SameFor(s.t, t, s.id) && t.armed * s.mine == s.t.armed * s.mine
    case Fires(timer, _) => timer in s.t.armed
    case Looks => s.pass.Away? && s.session == None && s.desired
    case AsksPending => s.pass.SawNoSession?
    case AsksGaveUp => s.pass.SawNonePending?
    case Acts(_) => s.pass.Starts?
    case _ => true
  }

  /** What happens to other cameras. */
  predicate SameFor(t: Table, t': Table, id: string) {
    && (id in t.retries <==> id in t'.retries) && (id in t.retries ==> t'.retries[id] == t.retries[id])
    && t.made <= t'.made
  }

  function DoCount(s: State): State {
    var n := RetryOf(s.t, s.id).attempts + 1;
    var s1 := s.(session := Some(Live(Error, true)));
    if !s.desired then s1
    else if n > MAX_AUTO_RETRIES then s1.(t := CountFailure(s.t, s.id))
    else s1.(t := CountFailure(s.t, s.id), mine := s.mine + {s.t.made}, waits := s.waits + [Backoff(n)])
  }

  /** retryStart: there may be a session by now, or the camera may be stopped. */
  function RetryStart(s: State, admitted: bool): State {
    if s.session == None && s.desired && admitted then s.(session := Some(Live(Provisioning, false))) else s
  }

  function Step(s: State, a: Action): State
    requires Enabled(s, a)
  {
    match a
    case Cancels(desired) => s.(desired := desired, t := CancelRetry(s.t, s.id), waits := [])
    case Launches => s.(session := Some(Live(Provisioning, false)))
    case Moves(next) => s.(session := Some(Live(next, false)))
    case Resets => s.(t := ResetRetries(s.t, s.id), waits := [])
    case Counts => DoCount(s)
    case Ends => s.(session := None)
    case Other(t) => s.(t := t)
    case Fires(timer, admitted) =>
      var s1 := s.(t := s.t.(armed := s.t.armed - {timer}));
      if timer in s.mine then RetryStart(s1, admitted) else s1
    case Looks => s.(pass := SawNoSession, clear := false)
    case AsksPending => s.(pass := if RetryPending(s.t, s.id) then Away else SawNonePending)
    case AsksGaveUp => s.(pass := if GaveUp(s.t, s.id) then Away else Starts)
    case Acts(admitted) => RetryStart(s.(pass := Away), admitted)
  }

  function Apply(s: State, a: Action): State
    requires Enabled(s, a)
  {
    var s' := Step(s, a);
    s'.(clear := s'.clear || s.id !in s'.t.retries)
  }

  /** The waits of a camera's first attempts. */
  function Backoffs(n: nat): seq<nat> { if n == 0 then [] else Backoffs(n - 1) + [Backoff(n)] }

  function Fewer(n: nat): nat { if n > MAX_AUTO_RETRIES then MAX_AUTO_RETRIES else n }

  /** A record counts at least one failure, has a timer, and its waits are those
      of its attempts; without a record there are none. */
  predicate Inv(s: State) {
    && s.waits == Backoffs(Fewer(RetryOf(s.t, s.id).attempts))
    && (s.id in s.t.retries ==> s.t.retries[s.id].attempts > 0 && s.t.retries[s.id].timer.Some?)
    && (s.id !in s.t.retries ==> s.clear || s.pass.Away?)
    && (s.pass.SawNonePending? ==> s.clear || GaveUp(s.t, s.id))
    && (s.pass.Starts? ==> s.clear)
  }

  lemma Keeps(s: State, a: Action)
    requires Inv(s) && Enabled(s, a)
    ensures Inv(Apply(s, a))
  {
    hide Transitions, Backoff;
    if a.Counts? && s.desired { assert Backoffs(Fewer(RetryOf(s.t, s.id).attempts + 1)) == DoCount(s).waits; }
  }

  function After(id: string, run: seq<Action>): Option<State> {
    if run == [] then Some(State(id, false, None, EMPTY, Away, {}, [], true))
    else
      var before := After(id, run[..|run| - 1]);
      if before.Some? && Enabled(before.value, run[|run| - 1]) then Some(Apply(before.value, run[|run| - 1])) else None
  }

  lemma {:induction false} EveryRunKeeps(id: string, run: seq<Action>)
    requires After(id, run).Some?
    ensures Inv(After(id, run).value)
  {
    hide Apply, Enabled;
    if run != [] {
      hide Inv;
      EveryRunKeeps(id, run[..|run| - 1]);
      Keeps(After(id, run[..|run| - 1]).value, run[|run| - 1]);
    }
  }

  lemma {:induction false} BackoffsAre(n: nat)
    ensures |Backoffs(n)| == n && forall i | 0 <= i < n :: Backoffs(n)[i] == Backoff(i + 1)
  {
    if n > 0 { BackoffsAre(n - 1); }
  }

  /** Between two removals of its record a camera arms at most so many timers,
      with waits that do not get shorter. */
  lemma RetriesAreBounded(id: string, run: seq<Action>)
    requires After(id, run).Some?
    ensures var waits := After(id, run).value.waits;
            && |waits| <= MAX_AUTO_RETRIES
            && (forall i | 0 <= i < |waits| :: waits[i] == Backoff(i + 1) && waits[i] <= 60)
            && forall i, j | 0 <= i < j < |waits| :: waits[i] <= waits[j]
  {
    hide After, Inv, Backoff, Backoffs;
    EveryRunKeeps(id, run);
    WaitsAre(After(id, run).value);
  }

  lemma WaitsGrow(waits: seq<nat>)
    requires forall i | 0 <= i < |waits| :: waits[i] == Backoff(i + 1)
    ensures forall i | 0 <= i < |waits| :: waits[i] <= 60
    ensures forall i, j | 0 <= i < j < |waits| :: waits[i] <= waits[j]
  {
    hide Backoff;
    forall i | 0 <= i < |waits| ensures waits[i] <= 60 { BackoffGrows(i + 1, i + 1); }
    forall i, j | 0 <= i < j < |waits| ensures waits[i] <= waits[j] { BackoffGrows(i + 1, j + 1); }
  }

  lemma WaitsAre(s: State)
    requires Inv(s)
    ensures |s.waits| <= MAX_AUTO_RETRIES
    ensures forall i | 0 <= i < |s.waits| :: s.waits[i] == Backoff(i + 1) && s.waits[i] <= 60
    ensures forall i, j | 0 <= i < j < |s.waits| :: s.waits[i] <= s.waits[j]
  {
    BackoffsAre(Fewer(RetryOf(s.t, s.id).attempts));
    WaitsGrow(s.waits);
  }

  /** Whether the camera should be running: what the user asked for last. */
  function Wanted(run: seq<Action>): bool {
    if run == [] then false
    else if run[|run| - 1].Cancels? then run[|run| - 1].desired
    else Wanted(run[..|run| - 1])
  }

  /** Its failures since its record last was removed. */
  function Failed(run: seq<Action>): nat {
    if run == [] then 0
    else
      var front, a := run[..|run| - 1], run[|run| - 1];
      if a.Cancels? || a.Resets? then 0
      else if a.Counts? && Wanted(front) then Failed(front) + 1
      else Failed(front)
  }

  lemma CountStep(s: State, a: Action)
    requires Enabled(s, a)
    ensures var s' := Apply(s, a);
            && s'.id == s.id && s'.desired == (if a.Cancels? then a.desired else s.desired)
            && RetryOf(s'.t, s.id).attempts ==
               if a.Cancels? || a.Resets? then 0
               else RetryOf(s.t, s.id).attempts + if a.Counts? && s.desired then 1 else 0
  {
    hide Transitions, Backoff;
  }

  lemma {:induction false} AttemptsAre(id: string, run: seq<Action>)
    requires After(id, run).Some?
    ensures var s := After(id, run).value;
            s.id == id && s.desired == Wanted(run) && RetryOf(s.t, id).attempts == Failed(run)
  {
    hide Apply, Enabled;
    if run != [] {
      AttemptsAre(id, run[..|run| - 1]);
      CountStep(After(id, run[..|run| - 1]).value, run[|run| - 1]);
    }
  }

  /** A camera that should run is retried after each of its first five failures,
      after two, four, eight, sixteen and thirty-two seconds, and given up after
      the sixth. */
  lemma RetriesAreExact(id: string, run: seq<Action>)
    requires After(id, run).Some?
    ensures var s, n := After(id, run).value, Failed(run);
            && s.waits == [2, 4, 8, 16, 32][..if n < 5 then n else 5]
            && (GaveUp(s.t, id) <==> n > 5)
  {
    AttemptsAre(id, run);
    EveryRunKeeps(id, run);
    hide After, RetryOf;
    BackoffsAre(Fewer(Failed(run)));
    FirstBackoffs();
    GivenUpIff(After(id, run).value.t, id);
  }

  lemma FirstBackoffs()
    ensures Backoff(1) == 2 && Backoff(2) == 4 && Backoff(3) == 8 && Backoff(4) == 16 && Backoff(5) == 32
  {
    assert Pow2(1) == 2 && Pow2(2) == 4;
    assert Pow2(3) == 8 && Pow2(4) == 16;
  }

  lemma GivenUpIff(t: Table, id: string)
    ensures GaveUp(t, id) <==> RetryOf(t, id).attempts > 5
  {
  }

  lemma {:induction false} KeepsId(id: string, run: seq<Action>)
    requires After(id, run).Some?
    ensures After(id, run).value.id == id
  {
    hide Enabled, Transitions;
    if run != [] { KeepsId(id, run[..|run| - 1]); }
  }

  /** Reconciliation reads the record twice; it decides to start a camera only if
      the camera had no record at some moment since it was found not running. */
  lemma StartsOnlyWhenClear(id: string, run: seq<Action>)
    requires After(id, run).Some?
    ensures After(id, run).value.pass.Starts? ==> After(id, run).value.clear
  {
    EveryRunKeeps(id, run);
  }

  predicate OfPass(a: Action) { a.Looks? || a.AsksPending? || a.AsksGaveUp? || a.Acts? }

  /** A run goes on; a pass stays where it is unless it acts. */
  lemma {:induction false} PassStays(id: string, run: seq<Action>, more: seq<Action>)
    requires After(id, run).Some? && After(id, run + more).Some? && forall a | a in more :: !OfPass(a)
    ensures After(id, run + more).value.pass == After(id, run).value.pass
    decreases |more|
  {
    hide Enabled, Apply;
    if more == [] {
      assert run + more == run;
    } else {
      var front, last := more[..|more| - 1], more[|more| - 1];
      assert (run + more)[..|run + more| - 1] == run + front && last in more && forall a | a in front :: a in more;
      PassStays(id, run, front);
      PassStep(After(id, run + front).value, last);
    }
  }

  lemma PassStep(s: State, a: Action)
    requires Enabled(s, a) && !OfPass(a)
    ensures Apply(s, a).pass == s.pass
  {
    hide Transitions;
  }

  /** What a pass has decided by its second reading, whatever happens between the
      first and the second. */
  ghost predicate Decides(id: string, run: seq<Action>, between: seq<Action>) {
    var end := After(id, run + [AsksPending] + between + [AsksGaveUp]);
    end.Some? && end.value.pass.Starts?
  }

  /** A pass that found no session decides to start the camera if and only if the
      record was absent or given up at the first reading, and absent or not given
      up at the second. */
  lemma DecidesIff(id: string, run: seq<Action>, between: seq<Action>)
    requires After(id, run).Some? && After(id, run).value.pass.SawNoSession? && forall a | a in between :: !OfPass(a)
    requires After(id, run + [AsksPending] + between).Some?
    ensures var s, t := After(id, run).value.t, After(id, run + [AsksPending] + between).value.t;
            Decides(id, run, between) <==> (id !in s.retries || GaveUp(s, id)) && !GaveUp(t, id)
  {
    hide After, Inv, Apply;
    var s := After(id, run).value;
    EveryRunKeeps(id, run);
    KeepsId(id, run);
    FirstReading(s);
    Then(id, run, s, AsksPending, Apply(s, AsksPending));
    PassStays(id, run + [AsksPending], between);
    var t := After(id, run + [AsksPending] + between).value;
    KeepsId(id, run + [AsksPending] + between);
    if t.pass.SawNonePending? {
      Then(id, run + [AsksPending] + between, t, AsksGaveUp, Apply(t, AsksGaveUp));
      SecondReading(t);
    } else {
      NotEnabled(id, run + [AsksPending] + between, t, AsksGaveUp);
    }
  }

  lemma FirstReading(s: State)
    requires Inv(s) && s.pass.SawNoSession?
    ensures Apply(s, AsksPending).pass == if s.id !in s.t.retries || GaveUp(s.t, s.id) then SawNonePending else Away
  {
  }

  lemma SecondReading(s: State)
    requires s.pass.SawNonePending?
    ensures Apply(s, AsksGaveUp).pass == if GaveUp(s.t, s.id) then Away else Starts
  {
  }

  lemma NotEnabled(id: string, run: seq<Action>, s: State, a: Action)
    requires After(id, run) == Some(s) && !Enabled(s, a)
    ensures After(id, run + [a]) == None
  {
    assert (run + [a])[..|run|] == run;
  }

  /** So it decides with a record present exactly when that record came, or came
      back from being given up, between the two readings. */
  lemma DecidesDespiteRecordIff(id: string, run: seq<Action>, between: seq<Action>)
    requires After(id, run).Some? && After(id, run).value.pass.SawNoSession? && forall a | a in between :: !OfPass(a)
    requires After(id, run + [AsksPending] + between).Some?
    ensures var s, t := After(id, run).value.t, After(id, run + [AsksPending] + between).value.t;
            (Decides(id, run, between) && id in t.retries) <==>
            (id !in s.retries || GaveUp(s, id)) && id in t.retries && !GaveUp(t, id)
  {
    DecidesIff(id, run, between);
  }

  /** And when both readings see the same record, whatever happened between them,
      it decides exactly if there is none. */
  lemma StartsIffNoRecord(id: string, run: seq<Action>, between: seq<Action>)
    requires After(id, run).Some? && After(id, run).value.pass.SawNoSession? && forall a | a in between :: !OfPass(a)
    requires After(id, run + [AsksPending] + between).Some?
    requires var s, t := After(id, run).value.t, After(id, run + [AsksPending] + between).value.t;
             (id in s.retries <==> id in t.retries) && (id in s.retries ==> s.retries[id] == t.retries[id])
    ensures Decides(id, run, between) <==> id !in After(id, run).value.t.retries
  {
    DecidesIff(id, run, between);
    hide After, Decides;
  }

  /** Yet there may be a record, with its timer running, by the time it decides:
      a failure between the two readings makes one. */
  lemma StartsDespiteRecord(id: string) returns (run: seq<Action>)
    ensures After(id, run).Some? && After(id, run).value.pass.Starts?
    ensures RetryPending(After(id, run).value.t, id) && After(id, run).value.t.armed != {}
  {
    run := [];
    var s0 := State(id, false, None, EMPTY, Away, {}, [], true);
    assert After(id, run) == Some(s0);
    hide After;
    var s1 := s0.(desired := true);
    assert EMPTY.retries - {id} == map[];
    Then(id, run, s0, Cancels(true), s1);
    run := run + [Cancels(true)];
    Then(id, run, s1, Looks, s1.(pass := SawNoSession));
    run := run + [Looks];
    var s2 := s1.(pass := SawNonePending);
    Then(id, run, s1.(pass := SawNoSession), AsksPending, s2);
    run := run + [AsksPending];
    Then(id, run, s2, Launches, s2.(session := Some(Live(Provisioning, false))));
    run := run + [Launches];
    Then(id, run, s2.(session := Some(Live(Provisioning, false))), Moves(Error),
         s2.(session := Some(Live(Error, false))));
    run := run + [Moves(Error)];
    var s3 := Apply(s2.(session := Some(Live(Error, false))), Counts);
    Then(id, run, s2.(session := Some(Live(Error, false))), Counts, s3);
    run := run + [Counts];
    Then(id, run, s3, AsksGaveUp, s3.(pass := Starts));
    run := run + [AsksGaveUp];
  }

  /** Nothing will start the camera by itself: it has a record, and no timer of
      its own is running. */
  predicate Hopeless(s: State) {
    && s.desired && s.session == None && s.id in s.t.retries && s.t.armed * s.mine == {}
    && (s.pass.Away? || s.pass.SawNoSession? || (s.pass.SawNonePending? && GaveUp(s.t, s.id)))
  }

  /** Only a user's start or stop ends that. */
  lemma HopelessStays(s: State, a: Action)
    requires Inv(s) && Enabled(s, a) && Hopeless(s) && !a.Cancels? && !a.Launches?
    ensures Hopeless(Apply(s, a))
  {
    if a.Fires? { assert a.timer !in s.mine by { assert a.timer !in s.t.armed * s.mine; } }
  }

  /** However long the run goes on. */
  lemma {:induction false} HopelessForever(id: string, run: seq<Action>, more: seq<Action>)
    requires After(id, run).Some? && After(id, run + more).Some? && Hopeless(After(id, run).value)
    requires forall a | a in more :: !a.Cancels? && !a.Launches?
    ensures Hopeless(After(id, run + more).value)
    decreases |more|
  {
    hide Enabled, Apply, Hopeless, Inv;
    if more == [] {
      assert run + more == run;
    } else {
      var front, last := more[..|more| - 1], more[|more| - 1];
      assert (run + more)[..|run + more| - 1] == run + front && last in more && forall a | a in front :: a in more;
      HopelessForever(id, run, front);
      EveryRunKeeps(id, run + front);
      HopelessStays(After(id, run + front).value, last);
    }
  }

  /** Without a session, a camera that should run and is not in that condition
      can be started by its timer or by the next pass. */
  lemma ElseItCanStart(s: State)
    requires Inv(s) && s.desired && s.session == None && s.pass.Away? && !Hopeless(s)
    ensures || (exists timer :: Enabled(s, Fires(timer, true)) && Apply(s, Fires(timer, true)).session.Some?)
            || (&& s.id !in s.t.retries
                && var s3 := Apply(Apply(Apply(s, Looks), AsksPending), AsksGaveUp);
                Enabled(s3, Acts(true)) && Apply(s3, Acts(true)).session.Some?)
  {
    if s.id in s.t.retries {
      var timer :| timer in s.t.armed * s.mine;
      assert Enabled(s, Fires(timer, true)) && Apply(s, Fires(timer, true)).session.Some?;
    }
  }

  lemma Then(id: string, run: seq<Action>, s: State, a: Action, next: State)
    requires After(id, run) == Some(s) && Enabled(s, a) && Apply(s, a) == next
    ensures After(id, run + [a]) == Some(next)
  {
    assert (run + [a])[..|run|] == run;
  }

  /** It happens after a single failure: the restart comes due and is refused, as
      when the node has no room, and no later one is ever armed. */
  lemma OneRefusalIsEnough(id: string) returns (run: seq<Action>)
    ensures After(id, run).Some? && Hopeless(After(id, run).value)
    ensures RetryOf(After(id, run).value.t, id).attempts == 1
  {
    run := [];
    var s0 := State(id, false, None, EMPTY, Away, {}, [], true);
    assert After(id, run) == Some(s0);
    hide After;
    var s1 := s0.(desired := true);
    assert EMPTY.retries - {id} == map[];
    Then(id, run, s0, Cancels(true), s1);
    run := run + [Cancels(true)];
    Then(id, run, s1, Launches, s1.(session := Some(Live(Provisioning, false))));
    run := run + [Launches];
    Then(id, run, s1.(session := Some(Live(Provisioning, false))), Moves(Error),
         s1.(session := Some(Live(Error, false))));
    run := run + [Moves(Error)];
    run := RefusedRun(id, run, s1);
  }

  lemma RefusedRun(id: string, before: seq<Action>, s: State) returns (run: seq<Action>)
    requires s == State(id, true, None, EMPTY, Away, {}, [], true)
    requires After(id, before) == Some(s.(session := Some(Live(Error, false))))
    ensures After(id, run).Some? && Hopeless(After(id, run).value)
    ensures RetryOf(After(id, run).value.t, id).attempts == 1
  {
    hide After;
    run := before;
    var counted := s.(t := Table(map[id := Retry(1, Some(0))], {0}, 1), mine := {0}, waits := [2]);
    assert CountFailure(EMPTY, id) == counted.t;
    assert Backoff(1) == 2 && [] + [2] == [2];
    Then(id, run, s.(session := Some(Live(Error, false))), Counts, counted.(session := Some(Live(Error, true))));
    run := run + [Counts];
    Then(id, run, counted.(session := Some(Live(Error, true))), Ends, counted);
    run := run + [Ends];
    var fired := counted.(t := counted.t.(armed := {}));
    assert counted.t.armed - {0} == {};
    Then(id, run, counted, Fires(0, false), fired);
    run := run + [Fires(0, false)];
  }
}
