/**
 The locks that serialize the encoding of one rendition: a table of mutexes with
 the number of callers that hold or wait for each. Encoders and the collector of
 unused renditions interleave freely; the service's own mutex guards the table,
 so each critical section is one step.
 */
module EncodeLocks {
  import opened Common

  type Mutex = nat
  type Caller = nat

  /** encodes and the reference counts; mutexes are numbered as they are made. */
  datatype Table = Table(encodes: map<string, Mutex>, refs: seq<int>)

  predicate WellFormed(t: Table) { forall k | k in t.encodes :: t.encodes[k] < |t.refs| }

  function TakeLock(t: Table, key: string): Table
    requires WellFormed(t)
  {
    if key in t.encodes then t.(refs := t.refs[t.encodes[key] := t.refs[t.encodes[key]] + 1])
    else Table(t.encodes[key := |t.refs|], t.refs + [1])
  }

  function DropLock(t: Table, key: string): Table
    requires WellFormed(t)
  {
    if key !in t.encodes then t
    else
      var m := t.encodes[key];
      var refs := t.refs[m := t.refs[m] - 1];
      Table(if refs[m] <= 0 then t.encodes - {key} else t.encodes, refs)
  }

  class Service {
    var encodes: map<string, Mutex>
    var refs: seq<int>

    ghost function State(): Table
      reads this
    {
      Table(encodes, refs)
    }

    constructor ()
      ensures State() == Table(map[], [])
    {
      encodes, refs := map[], [];
    }

    method EncodeLock(key: string) returns (m: Mutex)
      requires WellFormed(State())
      modifies this
      ensures WellFormed(State()) && State() == TakeLock(old(State()), key)
      ensures key in encodes && m == encodes[key]
      ensures key in old(encodes) ==> m == old(encodes[key])
    {
      if key !in encodes {
        encodes, refs := encodes[key := |refs|], refs + [0];
      }
      m := encodes[key];
      refs := refs[m := refs[m] + 1];
      assert key !in old(encodes) ==> refs == old(refs) + [1];
    }

    method DropEncodeLock(key: string)
      requires WellFormed(State())
      modifies this
      ensures WellFormed(State()) && State() == DropLock(old(State()), key)
    {
      if key in encodes {
        var m := encodes[key];
        refs := refs[m := refs[m] - 1];
        if refs[m] <= 0 { encodes := encodes - {key}; }
      }
    }
  }

  // ------------------------------------------------------------- the machine

  /** A use of a lock that has not been dropped. An encoder waits; a collector
      only tries, and leaves a lock it did not get without dropping its use. */
  datatype Call =
    | Waiting(key: string, lock: Mutex)
    | Trying(key: string, lock: Mutex)
    | Working(key: string, lock: Mutex)
    | Dropping(key: string, lock: Mutex)

  /** held tells who has a mutex; skipped counts the uses collectors left. */
  datatype State = State(t: Table, calls: map<Caller, Call>, held: map<Mutex, Caller>, skipped: map<Mutex, nat>)

  /** An attempt on a mutex that is held fails; one on a free mutex may fail, too,
      when it comes at the same time as another. */
  datatype Action =
    | Encode(c: Caller, key: string)
    | Collect(c: Caller, key: string)
    | Lock(c: Caller)
    | TryLock(c: Caller, won: bool)
    | Unlock(c: Caller)
    | Drop(c: Caller)

  const INIT := State(Table(map[], []), map[], map[], map[])

  predicate Enabled(s: State, a: Action) {
    match a
    case Encode(c, _) => c !in s.calls
    case Collect(c, _) => c !in s.calls
    case Lock(c) => c in s.calls && s.calls[c].Waiting? && s.calls[c].lock !in s.held
    case TryLock(c, won) => c in s.calls && s.calls[c].Trying? && (won ==> s.calls[c].lock !in s.held)
    case Unlock(c) => c in s.calls && s.calls[c].Working?
    case Drop(c) => c in s.calls && s.calls[c].Dropping?
  }

  function Skips(s: State, m: Mutex): nat { if m in s.skipped then s.skipped[m] else 0 }

  function Apply(s: State, a: Action): State
    requires WellFormed(s.t) && Enabled(s, a)
  {
    match a
    case Encode(c, key) =>
      var t := TakeLock(s.t, key);
      s.(t := t, calls := s.calls[c := Waiting(key, t.encodes[key])])
    case Collect(c, key) =>
      var t := TakeLock(s.t, key);
      s.(t := t, calls := s.calls[c := Trying(key, t.encodes[key])])
    case Lock(c) =>
      var Waiting(key, m) := s.calls[c];
      s.(calls := s.calls[c := Working(key, m)], held := s.held[m := c])
    case TryLock(c, won) =>
      var Trying(key, m) := s.calls[c];
      if won then s.(calls := s.calls[c := Working(key, m)], held := s.held[m := c])
      else s.(calls := s.calls - {c}, skipped := s.skipped[m := Skips(s, m) + 1])
    case Unlock(c) =>
      var Working(key, m) := s.calls[c];
      s.(calls := s.calls[c := Dropping(key, m)], held := s.held - {m})
    case Drop(c) =>
      s.(t := DropLock(s.t, s.calls[c].key), calls := s.calls - {c})
  }

  function Users(s: State, m: Mutex): set<Caller> { set c | c in s.calls && s.calls[c].lock == m }

  ghost predicate Inv(s: State) { TableOk(s) && CountsOk(s) && UsesOk(s) && HeldOk(s) && SkipsOk(s) }

  ghost predicate TableOk(s: State) {
    && WellFormed(s.t) && (forall m | m in s.skipped :: m < |s.t.refs|)
    && (forall k, l | k in s.t.encodes && l in s.t.encodes && k != l :: s.t.encodes[k] != s.t.encodes[l])
  }

  ghost predicate CountsOk(s: State) { forall k | k in s.t.encodes :: Counted(s, s.t.encodes[k]) }

  ghost predicate UsesOk(s: State) { forall c | c in s.calls :: UsesListed(s, c) }

  ghost predicate HeldOk(s: State) {
    && (forall m | m in s.held :: s.held[m] in s.calls && s.calls[s.held[m]].Working? && s.calls[s.held[m]].lock == m)
    && (forall c | c in s.calls && s.calls[c].Working? :: s.calls[c].lock in s.held && s.held[s.calls[c].lock] == c)
  }

  /** A mutex a collector left stays listed. */
  ghost predicate SkipsOk(s: State) {
    forall m | m in s.skipped :: s.skipped[m] > 0 && m in s.t.encodes.Values
  }

  /** The count of a listed mutex is its users and what was skipped. */
  ghost predicate Counted(s: State, m: Mutex) {
    m < |s.t.refs| && s.t.refs[m] == |Users(s, m)| + Skips(s, m) && s.t.refs[m] > 0
  }

  predicate UsesListed(s: State, c: Caller)
    requires c in s.calls
  {
    s.calls[c].key in s.t.encodes && s.t.encodes[s.calls[c].key] == s.calls[c].lock
  }

  lemma UsersEnter(s: State, s': State, c: Caller, m: Mutex)
    requires c !in s.calls && c in s'.calls && s'.calls[c].lock == m && s'.calls - {c} == s.calls
    ensures |Users(s', m)| == |Users(s, m)| + 1
    ensures forall n | n != m :: Users(s', n) == Users(s, n)
  {
    assert Users(s', m) == Users(s, m) + {c};
    forall n | n != m ensures Users(s', n) == Users(s, n) {}
  }

  lemma UsersStay(s: State, s': State)
    requires s'.calls.Keys == s.calls.Keys && forall c | c in s.calls :: s'.calls[c].lock == s.calls[c].lock
    ensures forall m :: Users(s', m) == Users(s, m)
  {
  }

  predicate Takes(a: Action) { a.Encode? || a.Collect? }

  /** What taking a lock does to the table. */
  lemma TakeTable(t: Table, key: string)
    requires WellFormed(t)
    ensures var t' := TakeLock(t, key);
            && WellFormed(t') && t'.encodes.Keys == t.encodes.Keys + {key} && |t.refs| <= |t'.refs|
            && (forall k | k in t.encodes :: t'.encodes[k] == t.encodes[k])
            && (if key in t.encodes then t'.refs[t'.encodes[key]] == t.refs[t.encodes[key]] + 1
                else t'.encodes[key] == |t.refs| && t'.refs[|t.refs|] == 1)
            && (forall m | 0 <= m < |t.refs| && m != t'.encodes[key] :: t'.refs[m] == t.refs[m])
  {
  }

  /** The counts after a use of the mutex m came in. */
  lemma EnterCounts(s: State, s': State, key: string, c: Caller)
    requires Inv(s) && WellFormed(s'.t) && key in s'.t.encodes && s'.skipped == s.skipped
    requires c !in s.calls && c in s'.calls && s'.calls - {c} == s.calls && s'.calls[c].lock == s'.t.encodes[key]
    requires |s.t.refs| <= |s'.t.refs| && s'.t.encodes.Keys == s.t.encodes.Keys + {key}
    requires forall k | k in s.t.encodes :: s'.t.encodes[k] == s.t.encodes[k]
    requires if key in s.t.encodes then s'.t.refs[s'.t.encodes[key]] == s.t.refs[s.t.encodes[key]] + 1
             else s'.t.encodes[key] == |s.t.refs| && s'.t.refs[|s.t.refs|] == 1
    requires forall m | 0 <= m < |s.t.refs| && m != s'.t.encodes[key] :: s'.t.refs[m] == s.t.refs[m]
    ensures CountsOk(s')
  {
    UsersEnter(s, s', c, s'.t.encodes[key]);
    if key !in s.t.encodes { NewMutexUnused(s); }
    hide HeldOk, UsesOk, Users, TableOk, WellFormed;
    forall k | k in s'.t.encodes ensures Counted(s', s'.t.encodes[k]) {
      if k in s.t.encodes { assert Counted(s, s.t.encodes[k]); }
    }
  }

  lemma TakeCounts(s: State, a: Action)
    requires Inv(s) && Enabled(s, a) && Takes(a)
    ensures CountsOk(Apply(s, a))
  {
    hide CountsOk, UsesOk, HeldOk, Users, TakeLock;
    var s' := Apply(s, a);
    TakeTable(s.t, a.key);
    assert s'.calls - {a.c} == s.calls;
    hide Apply, TableOk;
    EnterCounts(s, s', a.key, a.c);
  }

  lemma NewMutexUnused(s: State)
    requires TableOk(s) && UsesOk(s)
    ensures Users(s, |s.t.refs|) == {} && Skips(s, |s.t.refs|) == 0
  {
    forall c | c in s.calls ensures s.calls[c].lock != |s.t.refs| { assert UsesListed(s, c); }
  }

  lemma TakeUses(s: State, a: Action)
    requires Inv(s) && Enabled(s, a) && Takes(a)
    ensures UsesOk(Apply(s, a))
  {
    hide HeldOk, CountsOk;
    var s' := Apply(s, a);
    forall c | c in s'.calls ensures UsesListed(s', c) {
      if c != a.c { assert UsesListed(s, c); }
    }
  }

  lemma TakeRest(s: State, a: Action)
    requires Inv(s) && Enabled(s, a) && Takes(a)
    ensures TableOk(Apply(s, a)) && HeldOk(Apply(s, a))
  {
    hide CountsOk, UsesOk;
  }

  lemma TakeSkips(s: State, a: Action)
    requires Inv(s) && Enabled(s, a) && Takes(a)
    ensures SkipsOk(Apply(s, a))
  {
    hide CountsOk, UsesOk, HeldOk, TakeLock;
    var s' := Apply(s, a);
    TakeTable(s.t, a.key);
    forall m | m in s'.skipped ensures s'.skipped[m] > 0 && m in s'.t.encodes.Values {
      var k :| k in s.t.encodes && s.t.encodes[k] == m;
      assert s'.t.encodes[k] == m;
    }
  }

  lemma KeepsTake(s: State, a: Action)
    requires Inv(s) && Enabled(s, a) && Takes(a)
    ensures Inv(Apply(s, a))
  {
    TakeCounts(s, a);
    TakeUses(s, a);
    TakeRest(s, a);
    TakeSkips(s, a);
    hide TableOk, CountsOk, UsesOk, HeldOk, SkipsOk, Apply;
  }

  predicate Moves(s: State, a: Action)
    requires Enabled(s, a)
  {
    a.Lock? || a.Unlock? || (a.TryLock? && a.won)
  }

  lemma MoveHeld(s: State, a: Action)
    requires Inv(s) && Enabled(s, a) && Moves(s, a)
    ensures HeldOk(Apply(s, a))
  {
    hide TableOk, CountsOk, UsesOk;
  }

  /** Calls that keep their locks, over a table that stays. */
  ghost predicate SameLocks(s: State, s': State) {
    && s'.t == s.t && s'.skipped == s.skipped && s'.calls.Keys == s.calls.Keys
    && (forall c | c in s.calls :: s'.calls[c].lock == s.calls[c].lock && s'.calls[c].key == s.calls[c].key)
  }

  lemma SameCounts(s: State, s': State)
    requires CountsOk(s) && SameLocks(s, s')
    ensures CountsOk(s')
  {
    UsersStay(s, s');
    assert s'.t == s.t && s'.skipped == s.skipped;
    hide SameLocks, Users;
    forall k | k in s'.t.encodes ensures Counted(s', s'.t.encodes[k]) { assert Counted(s, s.t.encodes[k]); }
  }

  lemma SameListed(s: State, s': State)
    requires TableOk(s) && UsesOk(s) && SkipsOk(s) && SameLocks(s, s')
    ensures TableOk(s') && UsesOk(s') && SkipsOk(s')
  {
    forall c | c in s'.calls ensures UsesListed(s', c) { assert UsesListed(s, c); }
  }

  lemma MoveSame(s: State, a: Action)
    requires WellFormed(s.t) && Enabled(s, a) && Moves(s, a)
    ensures SameLocks(s, Apply(s, a))
  {
    hide WellFormed;
  }

  lemma KeepsMove(s: State, a: Action)
    requires Inv(s) && Enabled(s, a) && Moves(s, a)
    ensures Inv(Apply(s, a))
  {
    MoveHeld(s, a);
    MoveSame(s, a);
    hide TableOk, CountsOk, UsesOk, HeldOk, SkipsOk, Apply, SameLocks, WellFormed, Moves, Enabled;
    SameCounts(s, Apply(s, a));
    SameListed(s, Apply(s, a));
  }

  lemma LeaveRest(s: State, s': State, c: Caller)
    requires Inv(s) && c in s.calls && !s.calls[c].Working? && s'.calls == s.calls - {c} && s'.held == s.held
    ensures HeldOk(s')
  {
    hide TableOk, CountsOk, UsesOk;
  }

  lemma KeepsSkip(s: State, a: Action)
    requires Inv(s) && Enabled(s, a) && a.TryLock? && !a.won
    ensures Inv(Apply(s, a))
  {
    var s' := Apply(s, a);
    LeaveRest(s, s', a.c);
    hide TableOk, CountsOk, UsesOk, HeldOk, SkipsOk, Counted, UsesListed, Users;
    LeftCounts(s, s', a.c);
    LeftListed(s, s', a.c);
  }

  /** A collector left a mutex it did not get, and its use of it. */
  ghost predicate Left(s: State, s': State, c: Caller) {
    && c in s.calls && s'.t == s.t && s'.calls == s.calls - {c}
    && s'.skipped == s.skipped[s.calls[c].lock := Skips(s, s.calls[c].lock) + 1]
  }

  lemma LeftCounts(s: State, s': State, c: Caller)
    requires CountsOk(s) && Left(s, s', c)
    ensures CountsOk(s')
  {
    UsersEnter(s', s, c, s.calls[c].lock);
    hide Users;
    forall k | k in s'.t.encodes ensures Counted(s', s'.t.encodes[k]) { assert Counted(s, s.t.encodes[k]); }
  }

  lemma LeftListed(s: State, s': State, c: Caller)
    requires TableOk(s) && UsesOk(s) && SkipsOk(s) && Left(s, s', c)
    ensures TableOk(s') && UsesOk(s') && SkipsOk(s')
  {
    assert UsesListed(s, c);
    forall d | d in s'.calls ensures UsesListed(s', d) { assert UsesListed(s, d); }
  }

  /** What dropping a use does to the table. */
  ghost predicate Dropped(s: State, s': State, c: Caller) {
    && c in s.calls && TableOk(s) && CountsOk(s) && UsesListed(s, c)
    && s'.t == DropLock(s.t, s.calls[c].key) && s'.calls == s.calls - {c} && s'.skipped == s.skipped
  }

  lemma DropTable(s: State, s': State, c: Caller)
    requires Dropped(s, s', c)
    ensures var m, key := s.calls[c].lock, s.calls[c].key;
            && s'.t.refs == s.t.refs[m := s.t.refs[m] - 1] && TableOk(s')
            && s'.t.encodes == if s.t.refs[m] <= 1 then s.t.encodes - {key} else s.t.encodes
  {
    hide CountsOk, UsesOk, HeldOk;
  }

  lemma DropCounts(s: State, s': State, c: Caller)
    requires Dropped(s, s', c)
    ensures CountsOk(s')
  {
    DropTable(s, s', c);
    UsersEnter(s', s, c, s.calls[c].lock);
    hide Users, DropLock;
    forall k | k in s'.t.encodes ensures Counted(s', s'.t.encodes[k]) { assert Counted(s, s.t.encodes[k]); }
  }

  /** An entry that went had no other user. */
  lemma DropListed(s: State, s': State, c: Caller)
    requires Dropped(s, s', c) && UsesOk(s)
    ensures UsesOk(s')
  {
    var m := s.calls[c].lock;
    DropTable(s, s', c);
    assert Counted(s, m);
    UsersEnter(s', s, c, m);
    hide DropLock, TableOk, CountsOk;
    forall d | d in s'.calls ensures UsesListed(s', d) {
      assert UsesListed(s, d);
      if s.calls[d].lock == m { assert d in Users(s', m); }
    }
  }

  lemma DropSkips(s: State, s': State, c: Caller)
    requires Dropped(s, s', c) && SkipsOk(s)
    ensures SkipsOk(s')
  {
    DropTable(s, s', c);
    var m := s.calls[c].lock;
    assert Counted(s, m);
    assert c in Users(s, m);
    hide DropLock, TableOk, CountsOk, Users;
    forall n | n in s'.skipped ensures s'.skipped[n] > 0 && n in s'.t.encodes.Values {
      var k :| k in s.t.encodes && s.t.encodes[k] == n;
      assert k in s'.t.encodes && s'.t.encodes[k] == n;
    }
  }

  lemma KeepsDrop(s: State, a: Action)
    requires Inv(s) && Enabled(s, a) && a.Drop?
    ensures Inv(Apply(s, a))
  {
    var s' := Apply(s, a);
    LeaveRest(s, s', a.c);
    hide TableOk, CountsOk, HeldOk, SkipsOk, DropLock;
    assert UsesListed(s, a.c);
    hide UsesOk, Apply;
    DropSkips(s, s', a.c);
    DropTable(s, s', a.c);
    DropCounts(s, s', a.c);
    DropListed(s, s', a.c);
  }

  lemma Keeps(s: State, a: Action)
    requires Inv(s) && Enabled(s, a)
    ensures Inv(Apply(s, a))
  {
    hide Apply;
    match a {
      case Encode(_, _) => KeepsTake(s, a);
      case Collect(_, _) => KeepsTake(s, a);
      case Lock(_) => KeepsMove(s, a);
      case TryLock(_, won) => if won { KeepsMove(s, a); } else { KeepsSkip(s, a); }
      case Unlock(_) => KeepsMove(s, a);
      case Drop(_) => KeepsDrop(s, a);
    }
  }

  // --------------------------------------------------------------- whole runs

  function After(run: seq<Action>): Option<State> {
    if run == [] then Some(INIT)
    else
      var before := After(run[..|run| - 1]);
      if before.Some? && WellFormed(before.value.t) && Enabled(before.value, run[|run| - 1])
      then Some(Apply(before.value, run[|run| - 1])) else None
  }

  lemma {:induction false} EveryRunKeeps(run: seq<Action>)
    requires After(run).Some?
    ensures Inv(After(run).value)
  {
    if run == [] {
      assert Inv(INIT);
    } else {
      hide Apply, Inv;
      EveryRunKeeps(run[..|run| - 1]);
      Keeps(After(run[..|run| - 1]).value, run[|run| - 1]);
    }
  }

  /** A mutex stays in the table, under its key, as long as anyone holds it,
      waits for it or has yet to drop it; so two encoders or collectors never
      work on one rendition at once. */
  lemma NeverTwoAtOnce(run: seq<Action>, c: Caller, d: Caller)
    requires After(run).Some?
    ensures var s := After(run).value;
            && (c in s.calls ==> UsesListed(s, c))
            && (c in s.calls && d in s.calls && s.calls[c].Working? && s.calls[d].Working? ==>
                  s.calls[c].key == s.calls[d].key ==> c == d)
  {
    EveryRunKeeps(run);
    var s := After(run).value;
    if c in s.calls && d in s.calls { assert UsesListed(s, c) && UsesListed(s, d); }
  }

  /** The table holds a mutex exactly as long as someone uses it or a
      collector once failed to get it: only such renditions make the table grow. */
  lemma ListedIffUsedOrSkipped(run: seq<Action>, m: Mutex)
    requires After(run).Some?
    ensures var s := After(run).value;
            m in s.t.encodes.Values <==> Users(s, m) != {} || Skips(s, m) > 0
  {
    EveryRunKeeps(run);
    var s := After(run).value;
    hide After, HeldOk, TableOk;
    if m in s.t.encodes.Values {
      var k :| k in s.t.encodes && s.t.encodes[k] == m;
      assert Counted(s, m);
    }
    if c :| c in Users(s, m) { assert UsesListed(s, c); }
  }

  lemma {:induction false} SkippedStays(run: seq<Action>, more: seq<Action>, key: string)
    requires After(run).Some? && After(run + more).Some?
    requires key in After(run).value.t.encodes && Skips(After(run).value, After(run).value.t.encodes[key]) > 0
    ensures WellFormed(After(run).value.t)
    ensures var s, s' := After(run).value, After(run + more).value;
            && key in s'.t.encodes && s'.t.encodes[key] == s.t.encodes[key]
            && Skips(s', s.t.encodes[key]) >= Skips(s, s.t.encodes[key])
    decreases |more|
  {
    if more == [] {
      assert run + more == run;
    } else {
      var front := more[..|more| - 1];
      assert (run + more)[..|run + more| - 1] == run + front;
      SkippedStays(run, front, key);
      EveryRunKeeps(run + front);
      SkippedStep(After(run + front).value, more[|more| - 1], key);
    }
  }

  lemma SkippedStep(s: State, a: Action, key: string)
    requires Inv(s) && Enabled(s, a) && key in s.t.encodes && Skips(s, s.t.encodes[key]) > 0
    ensures var s', m := Apply(s, a), s.t.encodes[key];
            key in s'.t.encodes && s'.t.encodes[key] == m && Skips(s', m) >= Skips(s, m)
  {
    hide HeldOk, SkipsOk;
    var m := s.t.encodes[key];
    assert Counted(s, m);
    if a.Drop? {
      assert UsesListed(s, a.c);
      if s.calls[a.c].lock == m {
        assert a.c in Users(s, m);
        assert |Users(s, m)| >= 1;
      }
    }
  }

  /** Such a run: one collector meets one encoder at work. */
  lemma CollectorLeaksAnEntry(key: string)
    ensures var run := [Encode(0, key), Lock(0), Collect(1, key), TryLock(1, false), Unlock(0), Drop(0)];
            && After(run).Some? && After(run).value.calls == map[]
            && key in After(run).value.t.encodes
  {
    var run := [Encode(0, key), Lock(0), Collect(1, key), TryLock(1, false), Unlock(0), Drop(0)];
    var t2 := Table(map[key := 0], [2]);
    BusyCollector(key);
    hide After;
    var s4 := State(t2, map[0 := Working(key, 0)], map[0 := 0], map[0 := 1]);
    var s5 := State(t2, map[0 := Dropping(key, 0)], map[], map[0 := 1]);
    assert s4.held - {0} == map[] && run[..4] == [Encode(0, key), Lock(0), Collect(1, key), TryLock(1, false)];
    Then(run[..4], s4, Unlock(0), s5);
    assert run[..4] + [Unlock(0)] == run[..5];
    assert s5.calls - {0} == map[];
    Then(run[..5], s5, Drop(0), State(Table(map[key := 0], [1]), map[], map[], map[0 := 1]));
    assert run[..5] + [Drop(0)] == run;
  }

  lemma BusyCollector(key: string)
    ensures After([Encode(0, key), Lock(0), Collect(1, key), TryLock(1, false)]) ==
            Some(State(Table(map[key := 0], [2]), map[0 := Working(key, 0)], map[0 := 0], map[0 := 1]))
  {
    var run := [Encode(0, key), Lock(0), Collect(1, key), TryLock(1, false)];
    EncoderWorks(key);
    hide After;
    var t1, t2, w := Table(map[key := 0], [1]), Table(map[key := 0], [2]), Working(key, 0);
    var s3 := State(t2, map[0 := w, 1 := Trying(key, 0)], map[0 := 0], map[]);
    assert run[..2] == [Encode(0, key), Lock(0)];
    Then(run[..2], State(t1, map[0 := w], map[0 := 0], map[]), Collect(1, key), s3);
    assert run[..2] + [Collect(1, key)] == run[..3];
    assert s3.calls - {1} == map[0 := w];
    Then(run[..3], s3, TryLock(1, false), State(t2, map[0 := w], map[0 := 0], map[0 := 1]));
    assert run[..3] + [TryLock(1, false)] == run;
  }

  lemma EncoderWorks(key: string)
    ensures After([Encode(0, key), Lock(0)]) ==
            Some(State(Table(map[key := 0], [1]), map[0 := Working(key, 0)], map[0 := 0], map[]))
  {
    var t1 := Table(map[key := 0], [1]);
    assert After([]) == Some(INIT);
    Then([], INIT, Encode(0, key), State(t1, map[0 := Waiting(key, 0)], map[], map[]));
    assert [] + [Encode(0, key)] == [Encode(0, key)];
    Then([Encode(0, key)], State(t1, map[0 := Waiting(key, 0)], map[], map[]), Lock(0),
         State(t1, map[0 := Working(key, 0)], map[0 := 0], map[]));
    assert [Encode(0, key)] + [Lock(0)] == [Encode(0, key), Lock(0)];
  }

  lemma Then(run: seq<Action>, s: State, a: Action, next: State)
    requires After(run) == Some(s) && WellFormed(s.t) && Enabled(s, a) && Apply(s, a) == next
    ensures After(run + [a]) == Some(next)
  {
    assert (run + [a])[..|run|] == run;
  }
}
