/**
 The background job runner: what its mutex guards and the jobs in the store.
 Each operation is a function on that state; the class changes the state step by
 step, as the runner does while it holds the mutex, and is proved against them.
 */
module Worker {
  import opened Common

  /** Job IDs sort in the order the jobs were submitted. */
  type Id = nat
  type Waiter = nat

  datatype Status = Queued | Running | Waiting | Completed | Failed | Canceled | Interrupted
  {
    predicate Final() { Completed? || Failed? || Canceled? }

    predicate Busy() { Queued? || Running? || Waiting? }

    predicate Open() { Busy() || Interrupted? }
  }

  datatype Question = Question(id: nat, options: seq<string>, fallback: string)

  datatype Job = Job(kind: string, key: string, status: Status, question: Option<Question>)

  datatype Cause = ByUser | ByShutdown

  datatype Execution = Execution(job: Job, answer: Option<string>, cause: Option<Cause>)

  /** How a handler ends: with a result, by an expired or a stopping question,
      or with any other error. */
  datatype Outcome = Succeeded | Unanswered | Erred

  /** The store's two tables, then the runner's fields; closed holds the
      channels of waiters that have been woken. */
  datatype Core = Core(
    rows: map<Id, Job>, events: map<Id, seq<nat>>,
    running: map<Id, Execution>, waiters: map<Id, set<Waiter>>, seqs: map<Id, nat>,
    closed: set<Waiter>, stopping: bool)

  const MAX_QUEUED: nat := 500
  const RECOVER_LIMIT: nat := 100_000

  // --------------------------------------------------------------- the store

  function Max(s: seq<nat>): nat {
    if s == [] then 0 else if s[|s| - 1] > Max(s[..|s| - 1]) then s[|s| - 1] else Max(s[..|s| - 1])
  }

  function History(c: Core, id: Id): seq<nat> { if id in c.events then c.events[id] else [] }

  function Save(c: Core, id: Id, j: Job): Core { if id in c.rows then c.(rows := c.rows[id := j]) else c }

  /** Appends to a job's history; a job that is not stored has none. */
  function Event(c: Core, id: Id): Core {
    var n := (if id in c.seqs then c.seqs[id] else Max(History(c, id))) + 1;
    c.(seqs := c.seqs[id := n], events := if id in c.rows then c.events[id := History(c, id) + [n]] else c.events)
  }

  function WithStatus(c: Core, st: Status): set<Id> { set id | id in c.rows && c.rows[id].status == st }

  /** What a query for some jobs of a status returns: the oldest, in order. */
  ghost predicate Listing(c: Core, st: Status, limit: nat, ids: seq<Id>) {
    && |ids| <= limit && (forall i, j | 0 <= i < j < |ids| :: ids[i] < ids[j])
    && (forall id | id in ids :: id in WithStatus(c, st))
    && (forall id | id in WithStatus(c, st) && id !in ids :: |ids| == limit && forall k | k in ids :: k < id)
  }

  predicate IsOpen(c: Core, key: string, id: Id) {
    id in c.rows && c.rows[id].key == key && c.rows[id].status.Open()
  }

  /** Jobs with the same key share one open job. */
  ghost predicate KeysOk(c: Core) {
    forall i, j | i in c.rows && j in c.rows && c.rows[i].key == c.rows[j].key != "" &&
                  c.rows[i].status.Open() && c.rows[j].status.Open() :: i == j
  }

  ghost predicate HasOpen(c: Core, key: string) { key != "" && exists id :: IsOpen(c, key, id) }

  ghost function OpenJob(c: Core, key: string): Id
    requires HasOpen(c, key)
  {
    var id :| IsOpen(c, key, id);
    id
  }

  // -------------------------------------------------------------- operations

  function Busy(c: Core): set<Id> { set id | id in c.running && c.running[id].job.status != Waiting }

  function Slots(c: Core, limit: int): nat {
    if c.stopping || limit <= |Busy(c)| then 0 else limit - |Busy(c)|
  }

  /** Wakes whoever waits for a job that stopped running. */
  function Close(c: Core, id: Id, st: Status): Core {
    if st.Busy() then c
    else
      var woken := if id in c.waiters then c.waiters[id] else {};
      c.(closed := c.closed + woken, waiters := c.waiters - {id}, seqs := if st.Final() then c.seqs - {id} else c.seqs)
  }

  function Start(c: Core, kinds: set<string>, id: Id): Core
    requires id in c.rows
  {
    var j := c.rows[id];
    if j.kind !in kinds then Event(Save(c, id, j.(status := Failed)), id)
    else
      var run := j.(status := Running);
      var c1 := Event(Save(c, id, run), id);
      c1.(running := c1.running[id := Execution(run, None, None)])
  }

  function StartAll(c: Core, kinds: set<string>, ids: seq<Id>): (r: Core)
    requires forall id | id in ids :: id in c.rows
    ensures r.rows.Keys == c.rows.Keys
  {
    if ids == [] then c else Start(StartAll(c, kinds, ids[..|ids| - 1]), kinds, ids[|ids| - 1])
  }

  function EndStatus(o: Outcome, cause: Option<Cause>): Status {
    if o.Succeeded? then Completed
    else if cause == Some(ByShutdown) then Interrupted
    else if cause == Some(ByUser) then Canceled
    else if o.Unanswered? then Canceled
    else Failed
  }

  function Finish(c: Core, id: Id, o: Outcome, cause: Option<Cause>): Core
    requires id in c.running
  {
    var j := c.running[id].job.(question := None, status := EndStatus(o, cause));
    var c1 := Event(Save(c, id, j), id);
    Close(c1.(running := c1.running - {id}), id, j.status)
  }

  function Requeue(c: Core, id: Id): Core
    requires id in c.rows
  {
    Event(Save(c, id, c.rows[id].(status := Queued)), id)
  }

  function Insert(c: Core, id: Id, kind: string, key: string): Core {
    Event(c.(rows := c.rows[id := Job(kind, key, Queued, None)], events := c.events[id := []]), id)
  }

  ghost function Submit(c: Core, kinds: set<string>, kind: string, key: string, id: Id): Core {
    if kind !in kinds then c
    else if HasOpen(c, key) then
      if c.rows[OpenJob(c, key)].status.Interrupted? then Requeue(c, OpenJob(c, key)) else c
    else if |WithStatus(c, Queued)| >= MAX_QUEUED then c
    else Insert(c, id, kind, key)
  }

  /** A context keeps the first reason it was canceled for. */
  function Stop(ex: Execution, cause: Cause): Execution {
    if ex.cause == None then ex.(cause := Some(cause)) else ex
  }

  predicate Cancelable(c: Core, id: Id) {
    id in c.rows && (c.rows[id].status.Queued? || c.rows[id].status.Interrupted?)
  }

  function Cancel(c: Core, id: Id): Core {
    if id in c.running then c.(running := c.running[id := Stop(c.running[id], ByUser)])
    else if !Cancelable(c, id) then c
    else Close(Event(Save(c, id, c.rows[id].(status := Canceled, question := None)), id), id, Canceled)
  }

  predicate Resumable(c: Core, kinds: set<string>, id: Id) {
    id in c.rows && c.rows[id].status.Interrupted? && c.rows[id].kind in kinds
  }

  function Resume(c: Core, kinds: set<string>, id: Id): Core {
    if Resumable(c, kinds, id) then Requeue(c, id) else c
  }

  /** A question is open to one answer, and only to one of its options. */
  predicate Answerable(c: Core, id: Id, answer: string) {
    && id in c.running && c.running[id].job.status.Waiting? && c.running[id].job.question.Some?
    && answer in c.running[id].job.question.value.options && c.running[id].answer == None
  }

  function Answer(c: Core, id: Id, answer: string): Core {
    if Answerable(c, id, answer) then c.(running := c.running[id := c.running[id].(answer := Some(answer))]) else c
  }

  function Show(c: Core, id: Id, ex: Execution): Core {
    Event(Save(c.(running := c.running[id := ex]), id, ex.job), id)
  }

  function Ask(c: Core, id: Id, q: Question): Core
    requires id in c.running
  {
    Show(c, id, c.running[id].(answer := None, job := c.running[id].job.(status := Waiting, question := Some(q))))
  }

  function EndAsk(c: Core, id: Id): Core
    requires id in c.running
  {
    Show(c, id, c.running[id].(job := c.running[id].job.(status := Running, question := None)))
  }

  function Shutdown(c: Core): Core {
    c.(stopping := true, running := map id | id in c.running :: Stop(c.running[id], ByShutdown))
  }

  function Enter(c: Core, w: Waiter, id: Id): Core {
    c.(waiters := c.waiters[id := (if id in c.waiters then c.waiters[id] else {}) + {w}])
  }

  function Leave(c: Core, w: Waiter, id: Id): Core {
    var left := (if id in c.waiters then c.waiters[id] else {}) - {w};
    c.(waiters := if left == {} then c.waiters - {id} else c.waiters[id := left])
  }

  function Interrupt(c: Core, id: Id): Core
    requires id in c.rows
  {
    Event(Save(c, id, c.rows[id].(status := Interrupted, question := None)), id)
  }

  function InterruptAll(c: Core, ids: seq<Id>): (r: Core)
    requires forall id | id in ids :: id in c.rows
    ensures r.rows.Keys == c.rows.Keys
  {
    if ids == [] then c else Interrupt(InterruptAll(c, ids[..|ids| - 1]), ids[|ids| - 1])
  }

  /** What a restart of the node leaves: the store, and nothing in memory. */
  function Fresh(c: Core): Core { Core(c.rows, c.events, map[], map[], map[], {}, false) }

  lemma OldestOf(s: set<Id>) returns (m: Id)
    requires s != {}
    ensures m in s && forall k | k in s :: m <= k
  {
    m :| m in s;
    if s != {m} {
      var n := OldestOf(s - {m});
      assert forall k | k in s :: k == m || k in s - {m};
      if n < m { m := n; }
    }
  }

  // ---------------------------------------------------------------- the class

  class Runner {
    const kinds: set<string>
    var rows: map<Id, Job>
    var events: map<Id, seq<nat>>
    var running: map<Id, Execution>
    var waiters: map<Id, set<Waiter>>
    var seqs: map<Id, nat>
    var closed: set<Waiter>
    var stopping: bool

    ghost function State(): Core
      reads this
    {
      Core(rows, events, running, waiters, seqs, closed, stopping)
    }

    /** A new runner over the store an earlier one left. */
    constructor (kinds: set<string>, rows: map<Id, Job>, events: map<Id, seq<nat>>)
      ensures this.kinds == kinds && State() == Core(rows, events, map[], map[], map[], {}, false)
    {
      this.kinds, this.rows, this.events := kinds, rows, events;
      running, waiters, seqs, closed, stopping := map[], map[], map[], {}, false;
    }

    method SaveJob(id: Id, j: Job)
      modifies this`rows
      ensures State() == Save(old(State()), id, j)
    {
      if id in rows { rows := rows[id := j]; }
    }

    method AddEvent(id: Id)
      modifies this`seqs, this`events
      ensures State() == Event(old(State()), id)
    {
      var n: nat := 0;
      if id in seqs { n := seqs[id]; } else if id in events { n := Max(events[id]); }
      n := n + 1;
      seqs := seqs[id := n];
      if id in rows { events := events[id := (if id in events then events[id] else []) + [n]]; }
    }

    method ListJobsByStatus(st: Status, limit: nat) returns (ids: seq<Id>)
      ensures Listing(State(), st, limit, ids)
    {
      var all := set id | id in rows && rows[id].status == st;
      assert all == WithStatus(State(), st);
      ids := Oldest(all, limit);
    }

    static method Oldest(all: set<Id>, limit: nat) returns (ids: seq<Id>)
      ensures |ids| <= limit && (forall i, j | 0 <= i < j < |ids| :: ids[i] < ids[j])
      ensures forall id | id in ids :: id in all
      ensures forall id | id in all && id !in ids :: |ids| == limit && forall k | k in ids :: k < id
    {
      var left := all;
      ids := [];
      while left != {} && |ids| < limit
        invariant |ids| <= limit && left <= all
        invariant forall i, j | 0 <= i < j < |ids| :: ids[i] < ids[j]
        invariant forall id | id in all :: id in left <==> id !in ids
        invariant forall id | id in ids :: id in all
        invariant forall k, id | k in ids && id in left :: k < id
        decreases left
      {
        ghost var oldest := OldestOf(left);
        var m :| m in left && forall k | k in left :: m <= k;
        forall i | 0 <= i < |ids| ensures ids[i] < m { assert ids[i] in ids; }
        ids, left := ids + [m], left - {m};
      }
    }

    /** finishLocked: closes every waiter's channel. */
    method FinishLocked(id: Id, st: Status)
      modifies this`closed, this`waiters, this`seqs
      ensures State() == Close(old(State()), id, st)
    {
      if st.Busy() { return; }
      var left := if id in waiters then waiters[id] else {};
      ghost var all := left;
      while left != {}
        invariant waiters == old(waiters) && seqs == old(seqs)
        invariant closed + left == old(closed) + all
        decreases left
      {
        var w :| w in left;
        assert closed + left == (closed + {w}) + (left - {w});
        closed, left := closed + {w}, left - {w};
      }
      waiters := waiters - {id};
      if st.Final() { seqs := seqs - {id}; }
    }

    method Recover()
      requires running == map[] && waiters == map[] && seqs == map[] && closed == {} && !stopping
      modifies this
      ensures exists first: seq<Id>, second: seq<Id> ::
                && Listing(old(State()), Running, RECOVER_LIMIT, first)
                && Listing(InterruptAll(old(State()), first), Waiting, RECOVER_LIMIT, second)
                && State() == InterruptAll(InterruptAll(old(State()), first), second)
    {
      var first := ListJobsByStatus(Running, RECOVER_LIMIT);
      MarkInterrupted(first);
      label Half:
      var second := ListJobsByStatus(Waiting, RECOVER_LIMIT);
      MarkInterrupted(second);
      assert State() == InterruptAll(old@Half(State()), second);
    }

    method MarkInterrupted(ids: seq<Id>)
      requires forall id | id in ids :: id in rows
      modifies this
      ensures State() == InterruptAll(old(State()), ids)
    {
      for i := 0 to |ids|
        invariant rows.Keys == old(rows.Keys) && State() == InterruptAll(old(State()), ids[..i])
      {
        assert ids[..i + 1][..i] == ids[..i] && ids[i] in ids;
        SaveJob(ids[i], rows[ids[i]].(status := Interrupted, question := None));
        AddEvent(ids[i]);
      }
      assert ids[..|ids|] == ids;
    }

    /** Starts the oldest queued jobs while slots are free. */
    method Dispatch(limit: int) returns (ids: seq<Id>)
      modifies this
      ensures Listing(old(State()), Queued, Slots(old(State()), limit), ids)
      ensures State() == StartAll(old(State()), kinds, ids)
    {
      ids := [];
      if stopping {
        assert Listing(State(), Queued, 0, ids);
        return;
      }
      var busy := 0;
      var left := running.Keys;
      while left != {}
        invariant left <= running.Keys
        invariant busy == |set id | id in running && id !in left && running[id].job.status != Waiting|
        decreases left
      {
        var id :| id in left;
        ghost var before := set i | i in running && i !in left && running[i].job.status != Waiting;
        left := left - {id};
        assert (set i | i in running && i !in left && running[i].job.status != Waiting) ==
               before + if running[id].job.status != Waiting then {id} else {};
        if running[id].job.status != Waiting { busy := busy + 1; }
      }
      assert (set id | id in running && id !in left && running[id].job.status != Waiting) == Busy(State());
      var free := limit - busy;
      if free <= 0 {
        assert Listing(State(), Queued, 0, ids);
        return;
      }
      ids := ListJobsByStatus(Queued, free);
      StartJobs(ids);
    }

    method StartJobs(ids: seq<Id>)
      requires forall id | id in ids :: id in rows
      modifies this
      ensures State() == StartAll(old(State()), kinds, ids)
    {
      for i := 0 to |ids|
        invariant rows.Keys == old(rows.Keys) && State() == StartAll(old(State()), kinds, ids[..i])
      {
        assert ids[..i + 1][..i] == ids[..i] && ids[i] in ids;
        StartJob(ids[i]);
      }
      assert ids[..|ids|] == ids;
    }

    method StartJob(id: Id)
      requires id in rows
      modifies this
      ensures State() == Start(old(State()), kinds, id)
    {
      var j := rows[id];
      if j.kind !in kinds {
        SaveJob(id, j.(status := Failed));
        AddEvent(id);
        return;
      }
      j := j.(status := Running);
      SaveJob(id, j);
      AddEvent(id);
      running := running[id := Execution(j, None, None)];
    }

    /** The end of execute, once the handler returned and its context's cause
        was read. */
    method EndExecution(id: Id, o: Outcome, cause: Option<Cause>)
      requires id in running
      modifies this
      ensures State() == Finish(old(State()), id, o, cause)
    {
      var j := running[id].job.(question := None);
      if o.Succeeded? { j := j.(status := Completed); }
      else if cause == Some(ByShutdown) { j := j.(status := Interrupted); }
      else if cause == Some(ByUser) { j := j.(status := Canceled); }
      else if o.Unanswered? { j := j.(status := Canceled); }
      else { j := j.(status := Failed); }
      SaveJob(id, j);
      AddEvent(id);
      running := running - {id};
      FinishLocked(id, j.status);
    }

    method SubmitJob(kind: string, key: string, newId: Id) returns (r: Option<Id>, created: bool)
      requires KeysOk(State()) && newId !in rows
      modifies this
      ensures State() == Submit(old(State()), kinds, kind, key, newId)
      ensures r == None <==>
              (kind !in kinds || (!HasOpen(old(State()), key) && |WithStatus(old(State()), Queued)| >= MAX_QUEUED))
      ensures r.Some? ==> created == !HasOpen(old(State()), key)
      ensures r.Some? ==> r.value == if created then newId else OpenJob(old(State()), key)
    {
      created := false;
      if kind !in kinds { return None, false; }
      if key != "" {
        var found := GetOpenJobByKey(key);
        if found.Some? {
          assert found.value == OpenJob(State(), key);
          if rows[found.value].status.Interrupted? { RequeueLocked(found.value); }
          return found, false;
        }
      }
      var n := |set id | id in rows && rows[id].status == Queued|;
      assert (set id | id in rows && rows[id].status == Queued) == WithStatus(State(), Queued);
      if n >= MAX_QUEUED { return None, false; }
      rows, events := rows[newId := Job(kind, key, Queued, None)], events[newId := []];
      AddEvent(newId);
      return Some(newId), true;
    }

    method GetOpenJobByKey(key: string) returns (found: Option<Id>)
      requires KeysOk(State()) && key != ""
      ensures found.Some? <==> HasOpen(State(), key)
      ensures found.Some? ==> IsOpen(State(), key, found.value) && found.value == OpenJob(State(), key)
    {
      var matching := set id | id in rows && rows[id].key == key && rows[id].status.Open();
      if matching == {} {
        assert forall id | id in rows :: id !in matching;
        return None;
      }
      var id :| id in matching;
      assert IsOpen(State(), key, id);
      return Some(id);
    }

    method RequeueLocked(id: Id)
      requires id in rows
      modifies this
      ensures State() == Requeue(old(State()), id)
    {
      SaveJob(id, rows[id].(status := Queued));
      AddEvent(id);
    }

    method CancelJob(id: Id) returns (ok: bool)
      modifies this
      ensures State() == Cancel(old(State()), id)
      ensures ok <==> id in old(running) || Cancelable(old(State()), id)
    {
      if id in running {
        var ex := running[id];
        if ex.cause == None { running := running[id := ex.(cause := Some(ByUser))]; }
        assert running == old(running)[id := Stop(old(running)[id], ByUser)];
        return true;
      }
      if id !in rows { return false; }
      var j := rows[id];
      if !j.status.Queued? && !j.status.Interrupted? { return false; }
      SaveJob(id, j.(status := Canceled, question := None));
      AddEvent(id);
      FinishLocked(id, Canceled);
      return true;
    }

    method ResumeJob(id: Id) returns (ok: bool)
      modifies this
      ensures State() == Resume(old(State()), kinds, id)
      ensures ok <==> Resumable(old(State()), kinds, id)
    {
      if id !in rows || rows[id].status != Interrupted || rows[id].kind !in kinds { return false; }
      RequeueLocked(id);
      return true;
    }

    method AnswerJob(id: Id, answer: string) returns (ok: bool)
      modifies this`running
      ensures State() == Answer(old(State()), id, answer)
      ensures ok <==> Answerable(old(State()), id, answer)
    {
      if id !in running || running[id].job.status != Waiting || running[id].job.question == None { return false; }
      var ex := running[id];
      if answer !in ex.job.question.value.options || ex.answer.Some? { return false; }
      running := running[id := ex.(answer := Some(answer))];
      return true;
    }

    method AskQuestion(id: Id, q: Question)
      requires id in running
      modifies this
      ensures State() == Ask(old(State()), id, q)
    {
      var ex := running[id];
      running := running[id := ex.(answer := None, job := ex.job.(status := Waiting, question := Some(q)))];
      SaveJob(id, running[id].job);
      AddEvent(id);
    }

    method EndQuestion(id: Id)
      requires id in running
      modifies this
      ensures State() == EndAsk(old(State()), id)
    {
      var ex := running[id];
      running := running[id := ex.(job := ex.job.(status := Running, question := None))];
      SaveJob(id, running[id].job);
      AddEvent(id);
    }

    method StopAll()
      modifies this
      ensures State() == Shutdown(old(State()))
    {
      stopping := true;
      var left := running.Keys;
      while left != {}
        invariant left <= running.Keys == old(running.Keys)
        invariant forall id | id in running ::
                    running[id] == if id in left then old(running)[id] else Stop(old(running)[id], ByShutdown)
        invariant State() == old(State()).(stopping := true, running := running)
        decreases left
      {
        var id :| id in left;
        if running[id].cause == None { running := running[id := running[id].(cause := Some(ByShutdown))]; }
        left := left - {id};
      }
      assert running == Shutdown(old(State())).running;
    }

    method EnterWait(w: Waiter, id: Id)
      modifies this`waiters
      ensures State() == Enter(old(State()), w, id)
    {
      waiters := waiters[id := (if id in waiters then waiters[id] else {}) + {w}];
    }

    method LeaveWait(w: Waiter, id: Id)
      modifies this`waiters
      ensures State() == Leave(old(State()), w, id)
    {
      if id in waiters { waiters := waiters[id := waiters[id] - {w}]; }
      if id !in waiters || waiters[id] == {} { waiters := waiters - {id}; }
      assert waiters == Leave(old(State()), w, id).waiters;
    }
  }
}
