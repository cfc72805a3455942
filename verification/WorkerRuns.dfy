/**
 Whole runs of the job runner. Handlers, waiting callers, pruning and restarts of
 the node interleave freely; every critical section of the runner's mutex and
 every step a call takes outside it is one action.
 */
module WorkerRuns {
  import opened Common
  import opened Worker

  /** Where an execution is: in its handler, in a question, between the end of a
      question and taking the mutex again, or past its handler. given is the
      question a user's answer was for. */
  datatype Phase =
    | Handling
    | Asking(q: Question)
    | Answered(q: Question, answer: string, given: Option<nat>)
    | Ending(outcome: Outcome, cause: Option<Cause>)

  /** asked: it has asked before; answered: the last question a user answered. */
  datatype Pc = Pc(phase: Phase, asked: bool, answered: nat)

  /** A call of Wait; blocked, it knows the kind of the busy job it saw. */
  datatype Call = Registered(id: Id) | Looking(id: Id) | Blocked(id: Id, kind: string) | Leaving(id: Id)

  /** pruning: finished jobs listed to be deleted. The last four fields are a
      record: the IDs handed out, the jobs put back in the queue, the number of
      questions and the largest limit the dispatcher has read. */
  datatype State = State(
    core: Core, kinds: set<string>, pcs: map<Id, Pc>, calls: map<Waiter, Call>, pruning: set<Id>,
    used: set<Id>, again: set<Id>, questions: nat, top: nat)

  datatype Action =
    | Restart(kinds: set<string>, first: seq<Id>, second: seq<Id>)
    | Submitting(kind: string, key: string, id: Id)
    | Dispatching(limit: int, ids: seq<Id>)
    | Report(id: Id)
    | BeginAsk(id: Id, options: seq<string>, fallback: string)
    | Take(id: Id)
    | Expire(id: Id)
    | GiveUp(id: Id)
    | TakeBack(id: Id)
    | Return(id: Id, o: Outcome)
    | Finishing(id: Id)
    | Canceling(id: Id)
    | Resuming(id: Id)
    | Answering(id: Id, answer: string)
    | Shutting
    | ListFinished(done: set<Id>)
    | Delete(id: Id)
    | Entering(w: Waiter, id: Id)
    | Look(w: Waiter)
    | Read(w: Waiter)
    | StopWaiting(w: Waiter)
    | LeaveWait(w: Waiter)

  const NOTHING := Core(map[], map[], map[], map[], map[], {}, false)
  const INIT := State(NOTHING, {}, map[], map[], {}, {}, {}, 0, 0)

  predicate In(s: State, id: Id) { id in s.pcs && id in s.core.running }

  ghost predicate Enabled(s: State, a: Action) {
    match a
    case Restart(_, first, second) =>
      && Listing(Fresh(s.core), Running, RECOVER_LIMIT, first)
      && Listing(InterruptAll(Fresh(s.core), first), Waiting, RECOVER_LIMIT, second)
      && |WithStatus(s.core, Running)| <= RECOVER_LIMIT && |WithStatus(s.core, Waiting)| <= RECOVER_LIMIT
    case Submitting(_, _, id) => id !in s.used
    case Dispatching(limit, ids) => Listing(s.core, Queued, Slots(s.core, limit), ids)
    case Report(id) => In(s, id) && s.pcs[id].phase.Handling?
    case BeginAsk(id, _, _) => In(s, id) && s.pcs[id].phase.Handling?
    case Take(id) => In(s, id) && s.pcs[id].phase.Asking? && s.core.running[id].answer.Some?
    case Expire(id) => In(s, id) && s.pcs[id].phase.Asking?
    case GiveUp(id) => In(s, id) && s.pcs[id].phase.Asking?
    case TakeBack(id) => In(s, id) && s.pcs[id].phase.Answered?
    case Return(id, _) => In(s, id) && s.pcs[id].phase.Handling?
    case Finishing(id) => In(s, id) && s.pcs[id].phase.Ending?
    case ListFinished(done) => forall id | id in done :: id in s.core.rows && s.core.rows[id].status.Final()
    case Delete(id) => id in s.pruning
    case Entering(w, _) => w !in s.calls && w !in s.core.closed
    case Look(w) => w in s.calls && s.calls[w].Registered?
    case Read(w) => w in s.calls && s.calls[w].Looking?
    case StopWaiting(w) => w in s.calls && s.calls[w].Blocked?
    case LeaveWait(w) => w in s.calls && s.calls[w].Leaving?
    case _ => true
  }

  function At(s: State, id: Id, phase: Phase): State
    requires id in s.pcs
  {
    s.(pcs := s.pcs[id := s.pcs[id].(phase := phase)])
  }

  /** One job the dispatcher read from the queue. */
  function Begin(s: State, id: Id): State
    requires id in s.core.rows
  {
    s.(core := Start(s.core, s.kinds, id),
       pcs := if s.core.rows[id].kind in s.kinds then s.pcs[id := Pc(Handling, false, 0)] else s.pcs)
  }

  function BeginAll(s: State, ids: seq<Id>): (r: State)
    requires forall id | id in ids :: id in s.core.rows
    ensures r.core.rows.Keys == s.core.rows.Keys
  {
    if ids == [] then s else Begin(BeginAll(s, ids[..|ids| - 1]), ids[|ids| - 1])
  }

  function DoAsk(s: State, id: Id, options: seq<string>, fallback: string): State
    requires In(s, id)
  {
    var q := Question(s.questions, options, fallback);
    s.(core := Ask(s.core, id, q), pcs := s.pcs[id := Pc(Asking(q), true, s.pcs[id].answered)],
       questions := s.questions + 1)
  }

  function DoTake(s: State, id: Id): State
    requires In(s, id) && s.pcs[id].phase.Asking? && s.core.running[id].answer.Some?
  {
    var ex, pc := s.core.running[id], s.pcs[id];
    At(s, id, Answered(pc.phase.q, ex.answer.value, Some(pc.answered)))
      .(core := s.core.(running := s.core.running[id := ex.(answer := None)]))
  }

  function DoFinish(s: State, id: Id): State
    requires In(s, id) && s.pcs[id].phase.Ending?
  {
    s.(core := Finish(s.core, id, s.pcs[id].phase.outcome, s.pcs[id].phase.cause), pcs := s.pcs - {id})
  }

  function DoAnswer(s: State, id: Id, answer: string): State {
    s.(core := Answer(s.core, id, answer),
       pcs := if Answerable(s.core, id, answer) && id in s.pcs
              then s.pcs[id := s.pcs[id].(answered := s.core.running[id].job.question.value.id)] else s.pcs)
  }

  /** The jobs a submission or a resumption puts back in the queue. */
  ghost function PutBack(s: State, kind: string, key: string): set<Id> {
    if kind in s.kinds && HasOpen(s.core, key) && s.core.rows[OpenJob(s.core, key)].status.Interrupted?
    then {OpenJob(s.core, key)} else {}
  }

  function Resumed(s: State, id: Id): set<Id> { if Resumable(s.core, s.kinds, id) then {id} else {} }

  ghost function DoSubmit(s: State, kind: string, key: string, id: Id): State {
    s.(core := Submit(s.core, s.kinds, kind, key, id), used := s.used + {id},
       again := s.again + PutBack(s, kind, key))
  }

  function DoDelete(s: State, id: Id): State {
    s.(core := s.core.(rows := s.core.rows - {id}, events := s.core.events - {id}), pruning := s.pruning - {id})
  }

  function AfterLook(s: State, id: Id): Call {
    if id in s.core.running then Blocked(id, s.core.running[id].job.kind) else Looking(id)
  }

  function AfterRead(s: State, id: Id): Call {
    if id in s.core.rows && s.core.rows[id].status.Busy() then Blocked(id, s.core.rows[id].kind) else Leaving(id)
  }

  function DoLeave(s: State, w: Waiter): State
    requires w in s.calls
  {
    s.(core := Leave(s.core, w, s.calls[w].id), calls := s.calls - {w})
  }

  function DoRestart(s: State, kinds: set<string>, ids: seq<Id>): State
    requires forall id | id in ids :: id in s.core.rows
  {
    s.(core := InterruptAll(Fresh(s.core), ids), kinds := kinds, pcs := map[], calls := map[], pruning := {})
  }

  ghost function Apply(s: State, a: Action): State
    requires Enabled(s, a)
  {
    match a
    case Restart(kinds, first, second) => DoRestart(s, kinds, first + second)
    case Submitting(kind, key, id) => DoSubmit(s, kind, key, id)
    case Dispatching(limit, ids) => BeginAll(s, ids).(top := if limit > s.top then limit else s.top)
    case Report(id) => s.(core := Show(s.core, id, s.core.running[id]))
    case BeginAsk(id, options, fallback) => DoAsk(s, id, options, fallback)
    case Take(id) => DoTake(s, id)
    case Expire(id) => At(s, id, Answered(s.pcs[id].phase.q, s.pcs[id].phase.q.fallback, None))
    case GiveUp(id) => At(s, id, Handling)
    case TakeBack(id) => At(s, id, Handling).(core := EndAsk(s.core, id))
    case Return(id, o) => At(s, id, Ending(o, s.core.running[id].cause))
    case Finishing(id) => DoFinish(s, id)
    case Canceling(id) => s.(core := Cancel(s.core, id))
    case Resuming(id) => s.(core := Resume(s.core, s.kinds, id), again := s.again + Resumed(s, id))
    case Answering(id, answer) => DoAnswer(s, id, answer)
    case Shutting => s.(core := Shutdown(s.core))
    case ListFinished(done) => s.(pruning := s.pruning + done)
    case Delete(id) => DoDelete(s, id)
    case Entering(w, id) => s.(core := Enter(s.core, w, id), calls := s.calls[w := Registered(id)])
    case Look(w) => s.(calls := s.calls[w := AfterLook(s, s.calls[w].id)])
    case Read(w) => s.(calls := s.calls[w := AfterRead(s, s.calls[w].id)])
    case StopWaiting(w) => s.(calls := s.calls[w := Leaving(s.calls[w].id)])
    case LeaveWait(w) => DoLeave(s, w)
  }

  // -------------------------------------------------------------- invariant

  predicate Numbered(h: seq<nat>) { forall i | 0 <= i < |h| :: h[i] == i + 1 }

  /** All that the store and the memory say about one job. */
  datatype View = View(row: Option<Job>, history: Option<seq<nat>>,
                       ex: Option<Execution>, seqno: Option<nat>, pc: Option<Pc>)

  function Lookup<T>(m: map<Id, T>, id: Id): Option<T> { if id in m then Some(m[id]) else None }

  function ViewOf(c: Core, pcs: map<Id, Pc>, id: Id): View {
    View(Lookup(c.rows, id), Lookup(c.events, id), Lookup(c.running, id), Lookup(c.seqs, id), Lookup(pcs, id))
  }

  /** An answer a user gave is an option of that very question. */
  predicate Fits(p: Phase)
    requires p.Answered?
  {
    if p.given.Some? then p.given.value == p.q.id && p.answer in p.q.options else p.answer == p.q.fallback
  }

  predicate PcOk(ex: Execution, pc: Pc) {
    && (!pc.asked ==> ex.job.status.Running? && (pc.phase.Handling? || pc.phase.Ending?))
    && (pc.phase.Asking? ==>
          && ex.job.question == Some(pc.phase.q)
          && (ex.answer.Some? ==> ex.answer.value in pc.phase.q.options && pc.answered == pc.phase.q.id))
    && (pc.phase.Answered? ==> ex.job.question == Some(pc.phase.q) && Fits(pc.phase))
  }

  /** A job runs in memory exactly while it is stored as running or waiting, as
      it is stored; its history is numbered from one without a gap. */
  predicate JobOk(v: View) {
    if v.row == None then v.history == None && v.ex == None && v.pc == None
    else
      var j := v.row.value;
      && v.history.Some? && Numbered(v.history.value)
      && (v.seqno.Some? ==> v.seqno.value == |v.history.value|)
      && (j.question.Some? <==> j.status.Waiting?)
      && (v.ex.Some? <==> j.status.Running? || j.status.Waiting?)
      && (v.pc.Some? <==> v.ex.Some?)
      && (v.ex.Some? ==> v.ex.value.job == j && PcOk(v.ex.value, v.pc.value))
  }

  ghost predicate JobsOk(c: Core, pcs: map<Id, Pc>) { forall id :: JobOk(ViewOf(c, pcs, id)) }

  predicate Stays(c: Core, id: Id, kind: string) {
    id in c.rows && c.rows[id].kind == kind && c.rows[id].status.Busy()
  }

  /** A caller that blocked on a busy job of a known kind is woken, or the job
      still is busy. */
  predicate CallOk(s: State, w: Waiter)
    requires w in s.calls
  {
    var call := s.calls[w];
    && (w in s.core.closed || (call.id in s.core.waiters && w in s.core.waiters[call.id]))
    && (call.Blocked? ==> w in s.core.closed || call.kind !in s.kinds || Stays(s.core, call.id, call.kind))
  }

  ghost predicate CallsOk(s: State) { forall w | w in s.calls :: CallOk(s, w) }

  /** Only channels that are open are listed, each for the job it is about. */
  ghost predicate ListsOk(s: State) {
    forall id, w | id in s.core.waiters && w in s.core.waiters[id] ::
      w in s.calls && s.calls[w].id == id && w !in s.core.closed
  }

  ghost predicate PruneOk(s: State) {
    forall id | id in s.pruning :: id in s.used && (id in s.core.rows ==> s.core.rows[id].status.Final())
  }

  ghost predicate UsedOk(s: State) { s.core.rows.Keys <= s.used && s.core.seqs.Keys <= s.used }

  function NeverAsked(s: State): set<Id> { set id | id in s.pcs && !s.pcs[id].asked }

  function NewQueued(s: State): set<Id> {
    set id | id in s.core.rows && s.core.rows[id].status.Queued? && id !in s.again
  }

  ghost predicate CountsOk(s: State) { |NeverAsked(s)| <= s.top && |NewQueued(s)| <= MAX_QUEUED }

  ghost predicate Sound(s: State) {
    && JobsOk(s.core, s.pcs) && KeysOk(s.core) && CallsOk(s) && ListsOk(s) && PruneOk(s) && UsedOk(s)
  }

  ghost predicate Inv(s: State) { Sound(s) && CountsOk(s) }

  // ------------------------------------------------------- steps on one job

  /** Everything about the other jobs stays. */
  ghost predicate Elsewhere(s: State, s': State, id: Id) {
    && (forall j | j != id :: ViewOf(s'.core, s'.pcs, j) == ViewOf(s.core, s.pcs, j))
    && s'.calls == s.calls && s'.kinds == s.kinds && s'.pruning <= s.pruning && s'.used == s.used
    && s.again <= s'.again && s'.top == s.top
  }

  /** The job is not reopened, and keeps what it is. */
  predicate SameJob(c: Core, c': Core, id: Id) {
    id in c'.rows ==>
      && id in c.rows && c'.rows[id].key == c.rows[id].key && c'.rows[id].kind == c.rows[id].kind
      && (c'.rows[id].status.Open() ==> c.rows[id].status.Open())
      && (c.rows[id].status.Final() ==> c'.rows[id].status == c.rows[id].status)
  }

  /** Whoever waits for the job is woken, unless it stays busy or there was
      nobody to be told that a job of an unknown kind failed. */
  predicate Wakes(c: Core, c': Core, kinds: set<string>, id: Id) {
    || (&& c'.waiters == c.waiters && c'.closed == c.closed
        && (id in c.rows && c.rows[id].kind in kinds && c.rows[id].status.Busy() ==>
              id in c'.rows && c'.rows[id].status.Busy()))
    || (&& c'.closed == c.closed + (if id in c.waiters then c.waiters[id] else {})
        && c'.waiters == c.waiters - {id})
  }

  ghost predicate JobStep(s: State, s': State, id: Id) {
    && Elsewhere(s, s', id) && JobOk(ViewOf(s'.core, s'.pcs, id)) && SameJob(s.core, s'.core, id)
    && Wakes(s.core, s'.core, s.kinds, id)
  }

  lemma JobStepJobs(s: State, s': State, id: Id)
    requires JobsOk(s.core, s.pcs) && JobStep(s, s', id)
    ensures JobsOk(s'.core, s'.pcs)
  {
    hide JobOk, SameJob, Wakes;
    forall j ensures JobOk(ViewOf(s'.core, s'.pcs, j)) {
      assert JobOk(ViewOf(s.core, s.pcs, j));
    }
  }

  lemma RowElsewhere(s: State, s': State, id: Id, j: Id)
    requires Elsewhere(s, s', id) && j != id
    ensures (j in s'.core.rows <==> j in s.core.rows) && (j in s.core.rows ==> s'.core.rows[j] == s.core.rows[j])
    ensures (j in s'.core.seqs <==> j in s.core.seqs) && (j in s'.pcs <==> j in s.pcs)
    ensures j in s.pcs ==> s'.pcs[j] == s.pcs[j]
  {
    assert ViewOf(s'.core, s'.pcs, j) == ViewOf(s.core, s.pcs, j);
  }

  lemma JobStepKeys(s: State, s': State, id: Id)
    requires KeysOk(s.core) && JobStep(s, s', id)
    ensures KeysOk(s'.core)
  {
    hide JobOk, Wakes, ViewOf;
    forall i, j | i in s'.core.rows && j in s'.core.rows && s'.core.rows[i].key == s'.core.rows[j].key != "" &&
                  s'.core.rows[i].status.Open() && s'.core.rows[j].status.Open()
      ensures i == j
    {
      if i != id { RowElsewhere(s, s', id, i); }
      if j != id { RowElsewhere(s, s', id, j); }
    }
  }

  lemma JobStepCalls(s: State, s': State, id: Id)
    requires CallsOk(s) && ListsOk(s) && JobStep(s, s', id)
    ensures CallsOk(s') && ListsOk(s')
  {
    hide JobOk, ViewOf, Elsewhere;
    SameCalls(s, s', id);
    forall w | w in s'.calls ensures CallOk(s', w) {
      assert CallOk(s, w);
      var call := s.calls[w];
      if call.id != id { RowElsewhere(s, s', id, call.id); }
    }
  }

  lemma SameCalls(s: State, s': State, id: Id)
    requires Elsewhere(s, s', id)
    ensures s'.calls == s.calls && s'.kinds == s.kinds && s'.pruning <= s.pruning && s'.used == s.used
  {
  }

  lemma JobStepRest(s: State, s': State, id: Id)
    requires PruneOk(s) && UsedOk(s) && JobStep(s, s', id) && (id in s'.core.seqs ==> id in s.used)
    ensures PruneOk(s') && UsedOk(s')
  {
    SameCalls(s, s', id);
    hide JobOk, ViewOf, Elsewhere, Wakes;
    forall j | j in s'.pruning ensures j in s'.used && (j in s'.core.rows ==> s'.core.rows[j].status.Final()) {
      if j != id { RowElsewhere(s, s', id, j); }
    }
    forall j | j in s'.core.rows ensures j in s'.used {
      if j != id { RowElsewhere(s, s', id, j); }
    }
    forall j | j in s'.core.seqs ensures j in s'.used {
      if j != id { RowElsewhere(s, s', id, j); }
    }
  }

  lemma StepSound(s: State, s': State, id: Id)
    requires Sound(s) && JobStep(s, s', id) && (id in s'.core.seqs ==> id in s.used)
    ensures Sound(s')
  {
    hide JobsOk, KeysOk, CallsOk, ListsOk, PruneOk, UsedOk, JobStep;
    JobStepJobs(s, s', id);
    JobStepKeys(s, s', id);
    JobStepCalls(s, s', id);
    JobStepRest(s, s', id);
  }

  /** The counted sets do not grow. */
  predicate Counts(s: State, s': State, id: Id) {
    && (id in s'.pcs && !s'.pcs[id].asked ==> id in s.pcs && !s.pcs[id].asked)
    && (id in s'.core.rows && s'.core.rows[id].status.Queued? && id !in s'.again ==>
          id in s.core.rows && s.core.rows[id].status.Queued?)
  }

  lemma StepCounts(s: State, s': State, id: Id)
    requires CountsOk(s) && Elsewhere(s, s', id) && Counts(s, s', id)
    ensures CountsOk(s')
  {
    hide ViewOf;
    forall j | j in NeverAsked(s') ensures j in NeverAsked(s) {
      if j != id { RowElsewhere(s, s', id, j); }
    }
    forall j | j in NewQueued(s') ensures j in NewQueued(s) {
      if j != id { RowElsewhere(s, s', id, j); }
    }
    SubsetCard(NeverAsked(s'), NeverAsked(s));
    SubsetCard(NewQueued(s'), NewQueued(s));
  }

  lemma StepKeeps(s: State, s': State, id: Id)
    requires Inv(s) && JobStep(s, s', id) && Counts(s, s', id) && (id in s'.core.seqs ==> id in s.used)
    ensures Inv(s')
  {
    StepSound(s, s', id);
    hide Sound, CountsOk, JobOk, SameJob, Wakes, Counts, Elsewhere;
    StepCounts(s, s', id);
  }

  // ------------------------------------------------------- each such action

  lemma Own(s: State, id: Id)
    requires Sound(s)
    ensures JobOk(ViewOf(s.core, s.pcs, id)) && UsedOk(s)
  {
    hide JobOk, ViewOf;
    assert JobOk(ViewOf(s.core, s.pcs, id));
  }

  lemma {:induction false} MaxOfNumbered(h: seq<nat>)
    requires Numbered(h)
    ensures Max(h) == |h|
  {
    if h != [] { MaxOfNumbered(h[..|h| - 1]); }
  }

  /** Saving a job and adding to its history. */
  lemma Recorded(c: Core, id: Id, j: Job)
    requires id in c.rows && id in c.events && Numbered(c.events[id])
    requires id in c.seqs ==> c.seqs[id] == |c.events[id]|
    ensures var n := |c.events[id]| + 1;
            && Event(Save(c, id, j), id) == c.(rows := c.rows[id := j], seqs := c.seqs[id := n],
                                              events := c.events[id := c.events[id] + [n]])
            && Numbered(c.events[id] + [n])
  {
    MaxOfNumbered(c.events[id]);
  }

  ghost predicate Good(s: State, s': State, id: Id) {
    JobStep(s, s', id) && Counts(s, s', id) && (id in s'.core.seqs ==> id in s.used)
  }

  lemma UpdateElsewhere(s: State, s': State, id: Id, j: Job, h: seq<nat>, n: nat, ex: Execution, pc: Pc)
    requires s'.core.rows == s.core.rows[id := j] && s'.core.events == s.core.events[id := h]
    requires s'.core.seqs == s.core.seqs[id := n] && s'.core.running == s.core.running[id := ex]
    requires s'.pcs == s.pcs[id := pc] && s' == s.(core := s'.core, pcs := s'.pcs)
    ensures Elsewhere(s, s', id)
  {
  }

  lemma ShowGood(s: State, id: Id, ex: Execution, pc: Pc)
    requires Sound(s) && In(s, id) && ex.job.kind == s.core.running[id].job.kind &&
             ex.job.key == s.core.running[id].job.key
    requires (ex.job.status.Running? || ex.job.status.Waiting?) && (ex.job.question.Some? <==> ex.job.status.Waiting?)
    requires PcOk(ex, pc) && (s.pcs[id].asked ==> pc.asked)
    ensures Good(s, s.(core := Show(s.core, id, ex), pcs := s.pcs[id := pc]), id)
  {
    hide Sound, PcOk;
    Own(s, id);
    Recorded(s.core.(running := s.core.running[id := ex]), id, ex.job);
    hide Event, Save, Numbered, Elsewhere;
    UpdateElsewhere(s, s.(core := Show(s.core, id, ex), pcs := s.pcs[id := pc]), id, ex.job,
                    s.core.events[id] + [|s.core.events[id]| + 1], |s.core.events[id]| + 1, ex, pc);
  }

  /** Only what the execution of the job is at changes. */
  lemma MoveGood(s: State, id: Id, ex: Execution, pc: Pc)
    requires Sound(s) && In(s, id) && ex.job == s.core.running[id].job
    requires PcOk(ex, pc) && (s.pcs[id].asked ==> pc.asked)
    ensures Good(s, s.(core := s.core.(running := s.core.running[id := ex]), pcs := s.pcs[id := pc]), id)
  {
    hide Sound, PcOk, Numbered;
    Own(s, id);
  }

  lemma ReportGood(s: State, id: Id)
    requires Sound(s) && In(s, id) && s.pcs[id].phase.Handling?
    ensures Good(s, s.(core := Show(s.core, id, s.core.running[id])), id)
  {
    hide Sound, Show, Good, Numbered;
    Own(s, id);
    ShowGood(s, id, s.core.running[id], s.pcs[id]);
    assert s.pcs[id := s.pcs[id]] == s.pcs;
  }

  lemma AskGood(s: State, id: Id, options: seq<string>, fallback: string)
    requires Sound(s) && In(s, id) && s.pcs[id].phase.Handling?
    ensures Good(s, DoAsk(s, id, options, fallback), id)
  {
    hide Sound, Show, Good, Numbered;
    Own(s, id);
    var q := Question(s.questions, options, fallback);
    var ex := s.core.running[id].(answer := None,
                                  job := s.core.running[id].job.(status := Waiting, question := Some(q)));
    var pc := Pc(Asking(q), true, s.pcs[id].answered);
    ShowGood(s, id, ex, pc);
    SameGood(s, s.(core := Show(s.core, id, ex), pcs := s.pcs[id := pc]), DoAsk(s, id, options, fallback), id);
  }

  lemma SameGood(s: State, s': State, t: State, id: Id)
    requires Good(s, s', id) && t == s'.(questions := t.questions)
    ensures Good(s, t, id)
  {
    hide JobOk, ViewOf, Wakes, SameJob;
    assert ViewOf(t.core, t.pcs, id) == ViewOf(s'.core, s'.pcs, id);
  }

  lemma TakeGood(s: State, id: Id)
    requires Sound(s) && In(s, id) && s.pcs[id].phase.Asking? && s.core.running[id].answer.Some?
    ensures Good(s, DoTake(s, id), id)
  {
    hide Sound, Good, Numbered;
    Own(s, id);
    var ex, pc := s.core.running[id], s.pcs[id];
    MoveGood(s, id, ex.(answer := None), pc.(phase := Answered(pc.phase.q, ex.answer.value, Some(pc.answered))));
  }

  lemma PhaseGood(s: State, id: Id, phase: Phase)
    requires Sound(s) && In(s, id)
    requires phase.Handling? || phase.Ending? ||
             (s.pcs[id].phase.Asking? && phase == Answered(s.pcs[id].phase.q, s.pcs[id].phase.q.fallback, None))
    ensures Good(s, At(s, id, phase), id)
  {
    hide Sound, Good, Numbered;
    Own(s, id);
    MoveGood(s, id, s.core.running[id], s.pcs[id].(phase := phase));
    assert s.core.running[id := s.core.running[id]] == s.core.running;
  }

  lemma TakeBackGood(s: State, id: Id)
    requires Sound(s) && In(s, id) && s.pcs[id].phase.Answered?
    ensures Good(s, At(s, id, Handling).(core := EndAsk(s.core, id)), id)
  {
    hide Sound, Show, Good, Numbered;
    Own(s, id);
    ShowGood(s, id, s.core.running[id].(job := s.core.running[id].job.(status := Running, question := None)),
             s.pcs[id].(phase := Handling));
  }

  function Ended(s: State, id: Id, j: Job): State {
    var c := Event(Save(s.core, id, j), id);
    s.(core := Close(c.(running := c.running - {id}), id, j.status), pcs := s.pcs - {id})
  }

  /** The end of a job that is not running any more. */
  lemma CloseGood(s: State, id: Id, j: Job)
    requires Sound(s) && id in s.core.rows && j.kind == s.core.rows[id].kind && j.key == s.core.rows[id].key
    requires s.core.rows[id].status.Open() && (j.status.Final() || j.status.Interrupted?) && j.question == None
    ensures Good(s, Ended(s, id, j), id)
  {
    hide Sound, PcOk, Numbered, Event, Save, Elsewhere, Close, Ended;
    Own(s, id);
    CloseFacts(s, id, j);
    CloseElsewhere(s, id, j);
  }

  lemma CloseFacts(s: State, id: Id, j: Job)
    requires JobOk(ViewOf(s.core, s.pcs, id)) && id in s.core.rows && !j.status.Busy()
    ensures var c, c' := s.core, Ended(s, id, j).core;
            && c'.rows == c.rows[id := j] && c'.running == c.running - {id} && c'.seqs.Keys <= c.seqs.Keys + {id}
            && id in c'.events && Numbered(c'.events[id]) && (id in c'.seqs ==> c'.seqs[id] == |c'.events[id]|)
            && c'.closed == c.closed + (if id in c.waiters then c.waiters[id] else {})
            && c'.waiters == c.waiters - {id}
    ensures Ended(s, id, j).pcs == s.pcs - {id} && Ended(s, id, j).again == s.again
  {
    hide PcOk, Numbered;
    Recorded(s.core, id, j);
    hide Event, Save;
  }

  lemma CloseElsewhere(s: State, id: Id, j: Job)
    requires id in s.core.rows
    ensures Elsewhere(s, Ended(s, id, j), id)
  {
    hide JobOk;
  }

  lemma FinishGood(s: State, id: Id)
    requires Sound(s) && In(s, id) && s.pcs[id].phase.Ending?
    ensures Good(s, DoFinish(s, id), id)
  {
    hide Sound, Good, Numbered, Close, Event, Save, PcOk;
    Own(s, id);
    CloseGood(s, id, s.core.running[id].job.(question := None,
              status := EndStatus(s.pcs[id].phase.outcome, s.pcs[id].phase.cause)));
  }

  lemma CancelGood(s: State, id: Id)
    requires Sound(s) && (id in s.core.running || Cancelable(s.core, id))
    ensures Good(s, s.(core := Cancel(s.core, id)), id)
  {
    hide Sound, Good, Numbered, Close, Event, Save;
    Own(s, id);
    if id in s.core.running {
      MoveGood(s, id, Stop(s.core.running[id], ByUser), s.pcs[id]);
      assert s.pcs[id := s.pcs[id]] == s.pcs;
    } else {
      var j := s.core.rows[id].(status := Canceled, question := None);
      CloseGood(s, id, j);
      hide JobOk;
      EventKeepsRunning(s.core, id, j);
      assert s.core.running - {id} == s.core.running && s.pcs - {id} == s.pcs;
      var c1 := Event(Save(s.core, id, j), id);
      assert c1.(running := c1.running - {id}) == c1;
    }
  }

  lemma EventKeepsRunning(c: Core, id: Id, j: Job)
    ensures Event(Save(c, id, j), id).running == c.running
  {
  }

  lemma SavedElsewhere(s: State, s': State, id: Id, j: Job, h: seq<nat>, n: nat)
    requires s'.core.rows == s.core.rows[id := j] && s'.core.events == s.core.events[id := h]
    requires s'.core.seqs == s.core.seqs[id := n] && s'.core.running == s.core.running && s'.pcs == s.pcs
    requires s' == s.(core := s'.core, again := s'.again) && s.again <= s'.again
    ensures Elsewhere(s, s', id)
  {
  }

  /** A job put back in the queue. */
  lemma RequeueGood(s: State, id: Id)
    requires Sound(s) && id in s.core.rows && s.core.rows[id].status.Interrupted?
    ensures Good(s, s.(core := Requeue(s.core, id), again := s.again + {id}), id)
  {
    hide Sound, PcOk;
    Own(s, id);
    var j := s.core.rows[id].(status := Queued);
    Recorded(s.core, id, j);
    hide Event, Save, Numbered, Elsewhere;
    SavedElsewhere(s, s.(core := Requeue(s.core, id), again := s.again + {id}), id, j,
                   s.core.events[id] + [|s.core.events[id]| + 1], |s.core.events[id]| + 1);
  }

  lemma AnswerGood(s: State, id: Id, answer: string)
    requires Sound(s) && Answerable(s.core, id, answer)
    ensures Good(s, DoAnswer(s, id, answer), id)
  {
    hide Sound, Good, Numbered;
    Own(s, id);
    var ex := s.core.running[id];
    MoveGood(s, id, ex.(answer := Some(answer)), s.pcs[id].(answered := ex.job.question.value.id));
  }

  lemma DeleteGood(s: State, id: Id)
    requires Sound(s) && id in s.pruning
    ensures Good(s, DoDelete(s, id), id)
  {
    hide JobsOk, KeysOk, CallsOk, ListsOk, Numbered, PcOk;
    Own(s, id);
  }

  lemma BeginKnown(s: State, id: Id)
    requires Sound(s) && id in s.core.rows && s.core.rows[id].status.Queued? && s.core.rows[id].kind in s.kinds
    ensures JobStep(s, Begin(s, id), id)
  {
    hide Sound, Numbered;
    Own(s, id);
    var j := s.core.rows[id].(status := Running);
    Recorded(s.core, id, j);
    hide Event, Save, Elsewhere;
    UpdateElsewhere(s, Begin(s, id), id, j, s.core.events[id] + [|s.core.events[id]| + 1], |s.core.events[id]| + 1,
                    Execution(j, None, None), Pc(Handling, false, 0));
  }

  lemma BeginUnknown(s: State, id: Id)
    requires Sound(s) && id in s.core.rows && s.core.rows[id].status.Queued? && s.core.rows[id].kind !in s.kinds
    ensures JobStep(s, Begin(s, id), id)
  {
    hide Sound, Numbered, PcOk;
    Own(s, id);
    Recorded(s.core, id, s.core.rows[id].(status := Failed));
    hide Event, Save;
  }

  lemma BeginGood(s: State, id: Id)
    requires Sound(s) && id in s.core.rows && s.core.rows[id].status.Queued?
    ensures JobStep(s, Begin(s, id), id) && (id in Begin(s, id).core.seqs ==> id in s.used)
  {
    hide Sound, JobStep, Begin;
    Own(s, id);
    if s.core.rows[id].kind in s.kinds { BeginKnown(s, id); } else { BeginUnknown(s, id); }
  }

  // ------------------------------------------------------ the other actions

  lemma InsertJobs(s: State, kind: string, key: string, id: Id)
    requires Sound(s) && id !in s.used
    ensures JobsOk(Insert(s.core, id, kind, key), s.pcs)
  {
    hide KeysOk, CallsOk, ListsOk, PruneOk;
    var c := Insert(s.core, id, kind, key);
    MaxOfNumbered([]);
    forall j ensures JobOk(ViewOf(c, s.pcs, j)) {
      Own(s, j);
      if j == id { assert id !in s.core.rows && id !in s.core.seqs; }
    }
  }

  lemma InsertFacts(c: Core, kind: string, key: string, id: Id)
    ensures var c' := Insert(c, id, kind, key);
            && c'.rows == c.rows[id := Job(kind, key, Queued, None)] && c'.seqs.Keys == c.seqs.Keys + {id}
            && c'.waiters == c.waiters && c'.closed == c.closed
  {
  }

  lemma InsertKeys(c: Core, kind: string, key: string, id: Id)
    requires KeysOk(c) && !HasOpen(c, key)
    ensures KeysOk(Insert(c, id, kind, key))
  {
    InsertFacts(c, kind, key, id);
    hide Insert;
    forall i | i in c.rows && c.rows[i].status.Open() && c.rows[i].key == key ensures key == "" {
      assert IsOpen(c, key, i);
    }
  }

  lemma InsertRest(s: State, kind: string, key: string, id: Id)
    requires Sound(s) && id !in s.used
    ensures var s' := s.(core := Insert(s.core, id, kind, key), used := s.used + {id});
            CallsOk(s') && ListsOk(s') && PruneOk(s') && UsedOk(s')
  {
    hide JobsOk, KeysOk, Insert;
    var s' := s.(core := Insert(s.core, id, kind, key), used := s.used + {id});
    InsertFacts(s.core, kind, key, id);
    forall w | w in s'.calls ensures CallOk(s', w) { assert CallOk(s, w); }
  }

  lemma InsertKeeps(s: State, kind: string, key: string, id: Id)
    requires Inv(s) && id !in s.used && !HasOpen(s.core, key) && |WithStatus(s.core, Queued)| < MAX_QUEUED
    ensures Inv(s.(core := Insert(s.core, id, kind, key), used := s.used + {id}))
  {
    hide JobsOk, KeysOk, CallsOk, ListsOk, PruneOk, UsedOk, HasOpen, Insert;
    var s' := s.(core := Insert(s.core, id, kind, key), used := s.used + {id});
    InsertJobs(s, kind, key, id);
    InsertKeys(s.core, kind, key, id);
    InsertRest(s, kind, key, id);
    InsertFacts(s.core, kind, key, id);
    assert NeverAsked(s') == NeverAsked(s);
    assert NewQueued(s') <= WithStatus(s.core, Queued) + {id};
    SubsetCard(NewQueued(s'), WithStatus(s.core, Queued) + {id});
  }

  lemma SubmitKeeps(s: State, kind: string, key: string, id: Id)
    requires Inv(s) && id !in s.used
    ensures Inv(DoSubmit(s, kind, key, id))
  {
    var s' := DoSubmit(s, kind, key, id);
    var joined := if kind in s.kinds && HasOpen(s.core, key) then Some(OpenJob(s.core, key)) else None;
    if joined.Some? && s.core.rows[joined.value].status.Interrupted? {
      RequeueGood(s, joined.value);
      GoodKeeps(s, s.(core := Requeue(s.core, joined.value), again := s.again + {joined.value}), joined.value);
      Widen(s.(core := s'.core, again := s'.again), s'.used, s'.again);
    } else if kind in s.kinds && joined == None && |WithStatus(s.core, Queued)| < MAX_QUEUED {
      InsertKeeps(s, kind, key, id);
      assert s.again + {} == s.again;
    } else {
      Widen(s, s'.used, s'.again);
    }
  }

  lemma GoodKeeps(s: State, s': State, id: Id)
    requires Inv(s) && Good(s, s', id)
    ensures Inv(s')
  {
    hide Inv, JobStep, Counts;
    StepKeeps(s, s', id);
  }

  /** What is recorded may grow. */
  lemma Widen(s: State, used: set<Id>, again: set<Id>)
    requires Inv(s) && s.used <= used && s.again <= again
    ensures Inv(s.(used := used, again := again))
  {
    var s' := s.(used := used, again := again);
    hide JobsOk, KeysOk;
    assert forall w | w in s'.calls :: CallOk(s, w) == CallOk(s', w);
    assert NeverAsked(s') == NeverAsked(s) && NewQueued(s') <= NewQueued(s);
    SubsetCard(NewQueued(s'), NewQueued(s));
  }

  /** Steps of waiting calls: the store and the executions stay. */
  ghost predicate SameJobs(s: State, s': State) {
    && s'.core == s.core.(waiters := s'.core.waiters) && s' == s.(core := s'.core, calls := s'.calls)
  }

  lemma SameJobsSound(s: State, s': State)
    requires Inv(s) && SameJobs(s, s') && CallsOk(s') && ListsOk(s')
    ensures Inv(s')
  {
    hide CallsOk, ListsOk, JobOk;
    forall id ensures JobOk(ViewOf(s'.core, s'.pcs, id)) {
      assert ViewOf(s'.core, s'.pcs, id) == ViewOf(s.core, s.pcs, id);
      assert JobOk(ViewOf(s.core, s.pcs, id));
    }
    assert NeverAsked(s') == NeverAsked(s) && NewQueued(s') == NewQueued(s);
  }

  lemma EnterCalls(s: State, w: Waiter, id: Id)
    requires CallsOk(s) && w !in s.calls
    ensures CallsOk(s.(core := Enter(s.core, w, id), calls := s.calls[w := Registered(id)]))
  {
    var s' := s.(core := Enter(s.core, w, id), calls := s.calls[w := Registered(id)]);
    forall v | v in s'.calls ensures CallOk(s', v) {
      if v != w { assert CallOk(s, v); }
    }
  }

  lemma EnterLists(s: State, w: Waiter, id: Id)
    requires ListsOk(s) && w !in s.calls && w !in s.core.closed
    ensures ListsOk(s.(core := Enter(s.core, w, id), calls := s.calls[w := Registered(id)]))
  {
  }

  lemma EnterKeeps(s: State, w: Waiter, id: Id)
    requires Inv(s) && w !in s.calls && w !in s.core.closed
    ensures Inv(s.(core := Enter(s.core, w, id), calls := s.calls[w := Registered(id)]))
  {
    hide JobsOk, KeysOk, PruneOk, UsedOk, CallsOk, ListsOk, CountsOk;
    EnterCalls(s, w, id);
    EnterLists(s, w, id);
    hide CallOk;
    SameJobsSound(s, s.(core := Enter(s.core, w, id), calls := s.calls[w := Registered(id)]));
  }

  lemma MoveCallKeeps(s: State, w: Waiter, call: Call)
    requires Inv(s) && w in s.calls && call.id == s.calls[w].id
    requires call.Blocked? ==> w in s.core.closed || call.kind !in s.kinds || Stays(s.core, call.id, call.kind)
    ensures Inv(s.(calls := s.calls[w := call]))
  {
    hide JobsOk, KeysOk, PruneOk, UsedOk;
    var s' := s.(calls := s.calls[w := call]);
    forall v | v in s'.calls ensures CallOk(s', v) { assert CallOk(s, v); }
    SameJobsSound(s, s');
  }

  lemma LookKeeps(s: State, w: Waiter)
    requires Inv(s) && w in s.calls && s.calls[w].Registered?
    ensures Inv(s.(calls := s.calls[w := AfterLook(s, s.calls[w].id)]))
  {
    Own(s, s.calls[w].id);
    hide Inv, Sound, CountsOk, JobsOk, Numbered, PcOk;
    MoveCallKeeps(s, w, AfterLook(s, s.calls[w].id));
  }

  lemma ReadKeeps(s: State, w: Waiter)
    requires Inv(s) && w in s.calls && s.calls[w].Looking?
    ensures Inv(s.(calls := s.calls[w := AfterRead(s, s.calls[w].id)]))
  {
    hide Inv;
    MoveCallKeeps(s, w, AfterRead(s, s.calls[w].id));
  }

  lemma LeaveCalls(s: State, w: Waiter)
    requires CallsOk(s) && w in s.calls
    ensures CallsOk(DoLeave(s, w))
  {
    var s' := DoLeave(s, w);
    forall v | v in s'.calls ensures CallOk(s', v) { assert CallOk(s, v); }
  }

  lemma LeaveLists(s: State, w: Waiter)
    requires ListsOk(s) && w in s.calls
    ensures ListsOk(DoLeave(s, w))
  {
  }

  lemma LeaveKeeps(s: State, w: Waiter)
    requires Inv(s) && w in s.calls
    ensures Inv(DoLeave(s, w))
  {
    hide JobsOk, KeysOk, PruneOk, UsedOk, CallsOk, ListsOk, Leave;
    LeaveCalls(s, w);
    LeaveLists(s, w);
    assert Leave(s.core, w, s.calls[w].id) == s.core.(waiters := Leave(s.core, w, s.calls[w].id).waiters) by {
      LeaveOnly(s.core, w, s.calls[w].id);
    }
    SameJobsSound(s, DoLeave(s, w));
  }

  lemma LeaveOnly(c: Core, w: Waiter, id: Id)
    ensures Leave(c, w, id) == c.(waiters := Leave(c, w, id).waiters)
  {
  }

  lemma ShutdownKeeps(s: State)
    requires Inv(s)
    ensures Inv(s.(core := Shutdown(s.core)))
  {
    var s' := s.(core := Shutdown(s.core));
    hide Numbered;
    forall id ensures JobOk(ViewOf(s'.core, s'.pcs, id)) { Own(s, id); }
    hide JobsOk, JobOk;
    forall w | w in s'.calls ensures CallOk(s', w) { assert CallOk(s, w); }
    assert NeverAsked(s') == NeverAsked(s) && NewQueued(s') == NewQueued(s);
  }

  lemma ListFinishedKeeps(s: State, done: set<Id>)
    requires Inv(s) && forall id | id in done :: id in s.core.rows && s.core.rows[id].status.Final()
    ensures Inv(s.(pruning := s.pruning + done))
  {
    hide JobsOk, KeysOk;
    var s' := s.(pruning := s.pruning + done);
    assert forall w | w in s'.calls :: CallOk(s, w) == CallOk(s', w);
    assert NeverAsked(s') == NeverAsked(s) && NewQueued(s') == NewQueued(s);
  }

  // --------------------------------------------------------------- dispatch

  /** What dispatching some queued jobs does, and what it leaves alone. */
  ghost predicate Begun(s: State, t: State, ids: seq<Id>)
    requires forall id | id in ids :: id in s.core.rows
  {
    && Sound(t) && t.kinds == s.kinds && t.used == s.used && t.again == s.again && t.top == s.top
    && t.core.rows.Keys == s.core.rows.Keys
    && (forall j | j in s.core.rows && j !in ids :: t.core.rows[j] == s.core.rows[j])
    && (forall j | j in ids :: j in t.core.rows && Started(s.core.rows[j], t.core.rows[j], s.kinds))
    && (forall j | j in t.pcs :: t.pcs[j].phase.Handling? || (j in s.pcs && t.pcs[j] == s.pcs[j]))
    && |Busy(t.core)| <= |Busy(s.core)| + |ids| && NewQueued(t) <= NewQueued(s)
    && t.core.closed == s.core.closed && t.calls == s.calls && t.questions == s.questions
  }

  predicate Started(j: Job, j': Job, kinds: set<string>) {
    j' == j.(status := if j.kind in kinds then Running else Failed)
  }

  lemma {:induction false} BeginAllSound(s: State, ids: seq<Id>)
    requires Sound(s) && (forall i, j | 0 <= i < j < |ids| :: ids[i] != ids[j])
    requires forall id | id in ids :: id in s.core.rows && s.core.rows[id].status.Queued?
    ensures Begun(s, BeginAll(s, ids), ids)
  {
    hide Sound;
    if ids != [] {
      var front, id := ids[..|ids| - 1], ids[|ids| - 1];
      forall j | j in front ensures j in ids {}
      BeginAllSound(s, front);
      LastBegin(s, ids);
      assert id in ids && id !in front && ids == front + [id];
      hide BeginAll;
      BegunMore(s, BeginAll(s, front), front, id);
    }
  }

  lemma BegunMore(s: State, t: State, front: seq<Id>, id: Id)
    requires (forall j | j in front + [id] :: j in s.core.rows) && id !in front && s.core.rows[id].status.Queued?
    requires (forall j | j in front :: j in s.core.rows) && Begun(s, t, front) && id in t.core.rows
    ensures Begun(s, Begin(t, id), front + [id])
  {
    hide Sound, Started, Busy, NewQueued, JobStep, Begin;
    BeginGood(t, id);
    StepSound(t, Begin(t, id), id);
    BeginFacts(t, id);
  }

  lemma LastBegin(s: State, ids: seq<Id>)
    requires ids != [] && forall id | id in ids :: id in s.core.rows
    ensures BeginAll(s, ids) == Begin(BeginAll(s, ids[..|ids| - 1]), ids[|ids| - 1])
  {
  }

  lemma StartFacts(c: Core, kinds: set<string>, id: Id)
    requires id in c.rows
    ensures var c' := Start(c, kinds, id);
            && c'.rows.Keys == c.rows.Keys && (forall j | j in c.rows && j != id :: c'.rows[j] == c.rows[j])
            && Started(c.rows[id], c'.rows[id], kinds) && c'.closed == c.closed
            && c'.running.Keys <= c.running.Keys + {id}
            && (forall j | j in c.running && j != id :: j in c'.running && c'.running[j] == c.running[j])
  {
  }

  lemma BeginFacts(s: State, id: Id)
    requires id in s.core.rows && s.core.rows[id].status.Queued?
    ensures var t := Begin(s, id);
            && t.kinds == s.kinds && t.used == s.used && t.again == s.again && t.top == s.top
            && t.core.rows.Keys == s.core.rows.Keys
            && (forall j | j in s.core.rows && j != id :: t.core.rows[j] == s.core.rows[j])
            && Started(s.core.rows[id], t.core.rows[id], s.kinds)
            && (forall j | j in t.pcs :: t.pcs[j].phase.Handling? || (j in s.pcs && t.pcs[j] == s.pcs[j]))
            && |Busy(t.core)| <= |Busy(s.core)| + 1 && NewQueued(t) <= NewQueued(s)
            && t.core.closed == s.core.closed && t.calls == s.calls && t.questions == s.questions
  {
    hide Start;
    StartFacts(s.core, s.kinds, id);
    var t := Begin(s, id);
    hide Begin;
    assert t.core == Start(s.core, s.kinds, id);
    assert Busy(t.core) <= Busy(s.core) + {id};
    SubsetCard(Busy(t.core), Busy(s.core) + {id});
  }

  lemma NeverAskedIsBusy(s: State)
    requires Sound(s)
    ensures |NeverAsked(s)| <= |Busy(s.core)|
  {
    hide Sound, Numbered;
    forall id | id in NeverAsked(s) ensures id in Busy(s.core) { Own(s, id); }
    SubsetCard(NeverAsked(s), Busy(s.core));
  }

  lemma DispatchKeeps(s: State, limit: int, ids: seq<Id>)
    requires Inv(s) && Listing(s.core, Queued, Slots(s.core, limit), ids)
    ensures Inv(BeginAll(s, ids).(top := if limit > s.top then limit else s.top))
  {
    var t := BeginAll(s, ids);
    BeginAllSound(s, ids);
    hide BeginAll;
    var top: nat := if limit > s.top then limit else s.top;
    SubsetCard(NewQueued(t), NewQueued(s));
    if ids == [] { assert t == s by { NoBegin(s); } } else { NeverAskedIsBusy(t); }
    assert NewQueued(t.(top := top)) == NewQueued(t) && NeverAsked(t.(top := top)) == NeverAsked(t);
    hide Busy, NewQueued, NeverAsked, JobsOk, KeysOk, ListsOk, PruneOk, UsedOk, Listing;
    TopFree(t, top);
  }

  lemma DispatchRest(s: State, limit: int, ids: seq<Id>)
    requires Inv(s) && Listing(s.core, Queued, Slots(s.core, limit), ids)
    ensures var t := BeginAll(s, ids);
            t.core.closed == s.core.closed && t.calls == s.calls && t.questions == s.questions
  {
    hide BeginAll, Slots, JobsOk, KeysOk, CallsOk, ListsOk, PruneOk, UsedOk, CountsOk;
    BeginAllSound(s, ids);
  }

  lemma NoBegin(s: State)
    ensures BeginAll(s, []) == s
  {
  }

  lemma TopFree(s: State, top: nat)
    requires Sound(s)
    ensures Sound(s.(top := top))
  {
    hide JobsOk, KeysOk;
    assert forall w | w in s.calls :: CallOk(s.(top := top), w) == CallOk(s, w);
  }

  /** The machine dispatches as the runner's operation does. */
  lemma {:induction false} DispatchIsStartAll(s: State, ids: seq<Id>)
    requires forall id | id in ids :: id in s.core.rows
    ensures BeginAll(s, ids).core == StartAll(s.core, s.kinds, ids) && BeginAll(s, ids).kinds == s.kinds
  {
    if ids != [] {
      assert forall id | id in ids[..|ids| - 1] :: id in ids;
      DispatchIsStartAll(s, ids[..|ids| - 1]);
    }
  }

  // ---------------------------------------------------------------- restart

  /** A job's history before or while a restarted node marks jobs. */
  predicate HistoryOk(c: Core, id: Id) {
    && (id in c.rows <==> id in c.events) && (id in c.seqs ==> id in c.rows)
    && (id in c.rows ==> Numbered(c.events[id]) && (id in c.seqs ==> c.seqs[id] == |c.events[id]|))
  }

  ghost predicate Halted(c: Core, c': Core, ids: seq<Id>) {
    && c' == c.(rows := c'.rows, events := c'.events, seqs := c'.seqs) && c'.rows.Keys == c.rows.Keys
    && (forall id | id in c.rows :: c'.rows[id] ==
          if id in ids then c.rows[id].(status := Interrupted, question := None) else c.rows[id])
    && (forall id :: HistoryOk(c', id))
  }

  lemma {:induction false} InterruptAllHalts(c: Core, ids: seq<Id>)
    requires (forall id | id in ids :: id in c.rows) && (forall id :: HistoryOk(c, id))
    ensures Halted(c, InterruptAll(c, ids), ids)
  {
    hide Interrupt, HistoryOk;
    if ids != [] {
      var front, id := ids[..|ids| - 1], ids[|ids| - 1];
      assert forall j | j in front :: j in ids;
      assert ids == front + [id];
      InterruptAllHalts(c, front);
      InterruptHalts(InterruptAll(c, front), id);
      hide InterruptAll;
      assert InterruptAll(c, ids) == Interrupt(InterruptAll(c, front), id) by { LastInterrupt(c, ids); }
    }
  }

  lemma LastInterrupt(c: Core, ids: seq<Id>)
    requires ids != [] && forall id | id in ids :: id in c.rows
    ensures InterruptAll(c, ids) == Interrupt(InterruptAll(c, ids[..|ids| - 1]), ids[|ids| - 1])
  {
  }

  lemma InterruptHalts(c: Core, id: Id)
    requires id in c.rows && forall j :: HistoryOk(c, j)
    ensures var c' := Interrupt(c, id);
            && c' == c.(rows := c.rows[id := c.rows[id].(status := Interrupted, question := None)],
                        events := c'.events, seqs := c'.seqs)
            && forall j :: HistoryOk(c', j)
  {
    hide Numbered;
    assert HistoryOk(c, id);
    Recorded(c, id, c.rows[id].(status := Interrupted, question := None));
    hide Event, Save;
    forall j ensures HistoryOk(Interrupt(c, id), j) { assert HistoryOk(c, j); }
  }

  lemma {:induction false} InterruptAllTwice(c: Core, a: seq<Id>, b: seq<Id>)
    requires forall id | id in a + b :: id in c.rows
    ensures forall id | id in a :: id in c.rows
    ensures forall id | id in b :: id in InterruptAll(c, a).rows
    ensures InterruptAll(c, a + b) == InterruptAll(InterruptAll(c, a), b)
  {
    forall id | id in a ensures id in c.rows { assert id in a + b; }
    forall id | id in b ensures id in c.rows { assert id in a + b; }
    if b == [] {
      assert a + b == a;
    } else {
      var front := b[..|b| - 1];
      assert (a + b)[..|a + b| - 1] == a + front;
      forall id | id in a + front ensures id in c.rows { assert id in a + b; }
      InterruptAllTwice(c, a, front);
    }
  }

  /** A query with room for all jobs of a status returns them all, and only
      such a query. */
  lemma ListingIsFull(c: Core, st: Status, limit: nat, ids: seq<Id>)
    requires Listing(c, st, limit, ids)
    ensures (forall id | id in WithStatus(c, st) :: id in ids) <==> |WithStatus(c, st)| <= limit
  {
    DistinctCard(ids);
    var got := Members(ids);
    assert got <= WithStatus(c, st);
    if forall id | id in WithStatus(c, st) :: id in ids {
      assert got == WithStatus(c, st);
    } else {
      var id :| id in WithStatus(c, st) && id !in ids;
      SubsetCard(got + {id}, WithStatus(c, st));
    }
  }

  lemma FreshHistory(s: State)
    requires JobsOk(s.core, s.pcs)
    ensures forall id :: HistoryOk(Fresh(s.core), id)
  {
    hide Numbered, PcOk;
    forall id ensures HistoryOk(Fresh(s.core), id) { assert JobOk(ViewOf(s.core, s.pcs, id)); }
  }

  /** Marking jobs of one status leaves those of the others. */
  lemma OthersStay(c: Core, c': Core, ids: seq<Id>, st: Status, other: Status)
    requires Halted(c, c', ids) && (forall id | id in ids :: id in WithStatus(c, st))
    requires st != other && other != Interrupted
    ensures WithStatus(c', other) == WithStatus(c, other)
  {
    hide HistoryOk;
  }

  lemma MarkedIffFew(c: Core, c': Core, ids: seq<Id>, st: Status, limit: nat)
    requires Halted(c, c', ids) && Listing(c, st, limit, ids) && st != Interrupted
    ensures WithStatus(c', st) == {} <==> |WithStatus(c, st)| <= limit
  {
    hide HistoryOk;
    ListingIsFull(c, st, limit, ids);
    hide Listing;
    forall id ensures id in WithStatus(c', st) <==> id in WithStatus(c, st) && id !in ids {}
  }

  /** The jobs a restart marks are those stored as running or waiting. */
  lemma RestartMarksAll(s: State, first: seq<Id>, second: seq<Id>)
    requires JobsOk(s.core, s.pcs) && Enabled(s, Restart({}, first, second))
    ensures forall id :: id in first + second <==>
              id in s.core.rows && (s.core.rows[id].status.Running? || s.core.rows[id].status.Waiting?)
    ensures forall id :: HistoryOk(Fresh(s.core), id)
  {
    hide JobsOk, HistoryOk;
    var c := Fresh(s.core);
    FreshHistory(s);
    InterruptAllHalts(c, first);
    var c1 := InterruptAll(c, first);
    hide InterruptAll;
    OthersStay(c, c1, first, Running, Waiting);
    assert WithStatus(c, Running) == WithStatus(s.core, Running);
    assert WithStatus(c, Waiting) == WithStatus(s.core, Waiting);
    ListingIsFull(c, Running, RECOVER_LIMIT, first);
    ListingIsFull(c1, Waiting, RECOVER_LIMIT, second);
    hide Halted, Listing;
    forall id ensures id in first + second <==>
        id in s.core.rows && (s.core.rows[id].status.Running? || s.core.rows[id].status.Waiting?)
    {
      assert id in first <==> id in WithStatus(c, Running) by { ListedAre(c, Running, RECOVER_LIMIT, first, id); }
      assert id in second <==> id in WithStatus(c1, Waiting) by { ListedAre(c1, Waiting, RECOVER_LIMIT, second, id); }
    }
  }

  lemma ListedAre(c: Core, st: Status, limit: nat, ids: seq<Id>, id: Id)
    requires Listing(c, st, limit, ids) && |WithStatus(c, st)| <= limit
    ensures id in ids <==> id in WithStatus(c, st)
  {
    ListingIsFull(c, st, limit, ids);
  }

  lemma RestartJobs(s: State, ids: seq<Id>)
    requires JobsOk(s.core, s.pcs) && forall id :: HistoryOk(Fresh(s.core), id)
    requires forall id :: id in ids <==>
              id in s.core.rows && (s.core.rows[id].status.Running? || s.core.rows[id].status.Waiting?)
    ensures Halted(Fresh(s.core), InterruptAll(Fresh(s.core), ids), ids)
    ensures JobsOk(InterruptAll(Fresh(s.core), ids), map[])
  {
    hide Numbered, PcOk;
    var c, c' := Fresh(s.core), InterruptAll(Fresh(s.core), ids);
    InterruptAllHalts(c, ids);
    hide InterruptAll;
    forall id ensures JobOk(ViewOf(c', map[], id)) {
      assert JobOk(ViewOf(s.core, s.pcs, id)) && HistoryOk(c', id);
    }
  }

  lemma RestartKeeps(s: State, kinds: set<string>, first: seq<Id>, second: seq<Id>)
    requires Inv(s) && Enabled(s, Restart(kinds, first, second))
    ensures Inv(DoRestart(s, kinds, first + second))
  {
    RestartMarksAll(s, first, second);
    RestartJobs(s, first + second);
    var s' := DoRestart(s, kinds, first + second);
    hide JobsOk, JobOk, InterruptAll, Listing, CallsOk, ListsOk, PruneOk;
    assert s'.core.rows.Keys == s.core.rows.Keys && s'.calls == map[] && s'.pruning == {};
    RestartRest(s, s', first + second);
  }

  lemma RestartRest(s: State, s': State, ids: seq<Id>)
    requires KeysOk(s.core) && UsedOk(s) && CountsOk(s) && Halted(Fresh(s.core), s'.core, ids)
    requires s'.pcs == map[] && s'.used == s.used && s'.again == s.again && s'.calls == map[] && s'.pruning == {}
    requires forall id | id in ids :: id in s.core.rows && s.core.rows[id].status.Open()
    ensures KeysOk(s'.core) && UsedOk(s') && CountsOk(s') && CallsOk(s') && ListsOk(s') && PruneOk(s')
  {
    assert forall id | id in s'.core.seqs :: HistoryOk(s'.core, id);
    assert NewQueued(s') <= NewQueued(s);
    SubsetCard(NewQueued(s'), NewQueued(s));
    assert NeverAsked(s') == {};
  }

  /** After a restart no job is left stored as running or waiting exactly when
      no more than the limit of either had to be marked. */
  lemma RecoversAllIffFew(c: Core, first: seq<Id>, second: seq<Id>)
    requires forall id :: HistoryOk(c, id)
    requires Listing(c, Running, RECOVER_LIMIT, first)
    requires Listing(InterruptAll(c, first), Waiting, RECOVER_LIMIT, second)
    ensures var c' := InterruptAll(InterruptAll(c, first), second);
            WithStatus(c', Running) == WithStatus(c', Waiting) == {} <==>
            |WithStatus(c, Running)| <= RECOVER_LIMIT && |WithStatus(c, Waiting)| <= RECOVER_LIMIT
  {
    var c1 := InterruptAll(c, first);
    InterruptAllHalts(c, first);
    InterruptAllHalts(c1, second);
    var c' := InterruptAll(c1, second);
    hide InterruptAll, HistoryOk, WithStatus;
    OthersStay(c, c1, first, Running, Waiting);
    OthersStay(c1, c', second, Waiting, Running);
    hide Halted;
    MarkedIffFew(c, c1, first, Running, RECOVER_LIMIT);
    MarkedIffFew(c1, c', second, Waiting, RECOVER_LIMIT);
  }

  // -------------------------------------------------------------- every step

  predicate OnJob(a: Action) {
    || a.Report? || a.BeginAsk? || a.Take? || a.Expire? || a.GiveUp? || a.TakeBack? || a.Return?
    || a.Finishing? || a.Answering? || a.Delete?
  }

  lemma KeepsOnJob(s: State, a: Action)
    requires Inv(s) && Enabled(s, a) && OnJob(a)
    ensures Inv(Apply(s, a))
  {
    hide Sound, CountsOk, Good, Answer, Show, EndAsk, At, DoAsk, DoTake, DoFinish, DoDelete, Fits;
    match a {
      case Report(id) => ReportGood(s, id);
      case BeginAsk(id, options, fallback) => AskGood(s, id, options, fallback);
      case Take(id) => TakeGood(s, id);
      case Expire(id) => PhaseGood(s, id, Answered(s.pcs[id].phase.q, s.pcs[id].phase.q.fallback, None));
      case GiveUp(id) => PhaseGood(s, id, Handling);
      case TakeBack(id) => TakeBackGood(s, id);
      case Return(id, o) => PhaseGood(s, id, Ending(o, s.core.running[id].cause));
      case Finishing(id) => FinishGood(s, id);
      case Delete(id) => DeleteGood(s, id);
      case Answering(id, answer) =>
        if Answerable(s.core, id, answer) { AnswerGood(s, id, answer); } else { NoAnswer(s, id, answer); }
    }
    hide Inv;
    if Apply(s, a) != s { GoodKeeps(s, Apply(s, a), a.id); }
  }

  lemma NoAnswer(s: State, id: Id, answer: string)
    requires !Answerable(s.core, id, answer)
    ensures DoAnswer(s, id, answer) == s
  {
  }

  lemma CancelKeeps(s: State, id: Id)
    requires Inv(s)
    ensures Inv(s.(core := Cancel(s.core, id)))
  {
    hide Sound, CountsOk, Good, Close, Event, Save;
    if id in s.core.running || Cancelable(s.core, id) {
      CancelGood(s, id);
      hide Inv;
      GoodKeeps(s, s.(core := Cancel(s.core, id)), id);
    }
  }

  lemma ResumeKeeps(s: State, id: Id)
    requires Inv(s)
    ensures Inv(s.(core := Resume(s.core, s.kinds, id), again := s.again + Resumed(s, id)))
  {
    hide Sound, CountsOk, Good, Requeue;
    if Resumable(s.core, s.kinds, id) {
      RequeueGood(s, id);
      hide Inv;
      GoodKeeps(s, s.(core := Requeue(s.core, id), again := s.again + {id}), id);
    } else {
      assert s.again + {} == s.again;
    }
  }

  lemma Keeps(s: State, a: Action)
    requires Inv(s) && Enabled(s, a)
    ensures Inv(Apply(s, a))
  {
    hide Inv, Cancel, Resume, Shutdown, BeginAll, DoRestart, DoSubmit, DoLeave, Enter, AfterLook, AfterRead, Listing;
    match a {
      case Restart(kinds, first, second) => RestartKeeps(s, kinds, first, second);
      case Submitting(kind, key, id) => SubmitKeeps(s, kind, key, id);
      case Dispatching(limit, ids) => DispatchKeeps(s, limit, ids);
      case Canceling(id) => CancelKeeps(s, id);
      case Resuming(id) => ResumeKeeps(s, id);
      case Shutting => ShutdownKeeps(s);
      case ListFinished(done) => ListFinishedKeeps(s, done);
      case Entering(w, id) => EnterKeeps(s, w, id);
      case Look(w) => LookKeeps(s, w);
      case Read(w) => ReadKeeps(s, w);
      case StopWaiting(w) => MoveCallKeeps(s, w, Leaving(s.calls[w].id));
      case LeaveWait(w) => LeaveKeeps(s, w);
      case _ => KeepsOnJob(s, a);
    }
  }

  // -------------------------------------------------------------- whole runs

  /** The state after some actions in a row, if each could happen in its turn. */
  ghost function After(run: seq<Action>): Option<State> {
    if run == [] then Some(INIT)
    else
      var before := After(run[..|run| - 1]);
      if before.Some? && Enabled(before.value, run[|run| - 1]) then Some(Apply(before.value, run[|run| - 1])) else None
  }

  lemma {:induction false} EveryRunKeeps(run: seq<Action>)
    requires After(run).Some?
    ensures Inv(After(run).value)
  {
    hide Inv, Apply, Enabled;
    if run == [] {
      InitOk();
    } else {
      EveryRunKeeps(run[..|run| - 1]);
      Keeps(After(run[..|run| - 1]).value, run[|run| - 1]);
    }
  }

  lemma InitOk()
    ensures Inv(INIT)
  {
    assert NeverAsked(INIT) == {} && NewQueued(INIT) == {};
  }

  /** The memory holds exactly the jobs stored as running or waiting, as they
      are stored. */
  lemma RunningIsStored(run: seq<Action>, id: Id)
    requires After(run).Some?
    ensures var c := After(run).value.core;
            && (id in c.running <==> id in c.rows && (c.rows[id].status.Running? || c.rows[id].status.Waiting?))
            && (id in c.running ==> c.running[id].job == c.rows[id])
  {
    EveryRunKeeps(run);
    Own(After(run).value, id);
  }

  lemma OneOpenJobPerKey(run: seq<Action>, i: Id, j: Id, key: string)
    requires After(run).Some? && key != ""
    requires IsOpen(After(run).value.core, key, i) && IsOpen(After(run).value.core, key, j)
    ensures i == j
  {
    EveryRunKeeps(run);
  }

  /** A job's history is numbered from one without a gap, whatever restarts
      there were. */
  lemma HistoryIsNumbered(run: seq<Action>, id: Id)
    requires After(run).Some? && id in After(run).value.core.rows
    ensures var c := After(run).value.core;
            id in c.events && forall i | 0 <= i < |c.events[id]| :: c.events[id][i] == i + 1
  {
    EveryRunKeeps(run);
    Own(After(run).value, id);
  }

  /** A caller blocked on a job of a registered kind has been woken as soon as
      the job is not queued, running or waiting. */
  lemma NoLostWakeUp(run: seq<Action>, w: Waiter)
    requires After(run).Some? && w in After(run).value.calls && After(run).value.calls[w].Blocked?
    ensures var s := After(run).value;
            s.calls[w].kind in s.kinds && !Stays(s.core, s.calls[w].id, s.calls[w].kind) ==> w in s.core.closed
  {
    EveryRunKeeps(run);
    assert CallOk(After(run).value, w);
  }

  /** When the dispatcher takes a job somebody waits for, the caller is left
      without anyone to wake it exactly when the kind of the job is unknown. */
  lemma DispatchStrandsUnknownKinds(s: State, limit: int, ids: seq<Id>, w: Waiter)
    requires Inv(s) && Enabled(s, Dispatching(limit, ids)) && w in s.calls && s.calls[w].Blocked?
    requires w !in s.core.closed && s.calls[w].id in ids && s.core.rows[s.calls[w].id].kind == s.calls[w].kind
    ensures var s', call := Apply(s, Dispatching(limit, ids)), s.calls[w];
            && w in s'.calls && s'.calls[w] == call
            && (w in s'.core.closed || Stays(s'.core, call.id, call.kind) <==> call.kind in s.kinds)
  {
    hide Sound, CountsOk, BeginAll, Slots;
    BeginAllSound(s, ids);
  }

  /** Such a run: the job was queued by a node that knew its kind. */
  lemma UnknownKindStrandsCaller()
    ensures exists run :: After(run).Some? && Stranded(After(run).value, 0)
  {
    var t := State(NOTHING.(rows := map[0 := Job("a", "", Queued, None)], events := map[0 := [1]],
                            waiters := map[0 := {0}]), {}, map[], map[0 := Blocked(0, "a")], {}, {0}, {}, 0, 0);
    var run := BlockedRun(t);
    EveryRunKeeps(run);
    hide After;
    assert Busy(t.core) == {} && WithStatus(t.core, Queued) == {0};
    assert Listing(t.core, Queued, 1, [0]);
    hide Inv, Listing, Apply;
    DispatchStrandsUnknownKinds(t, 1, [0], 0);
    var u := Apply(t, Dispatching(1, [0]));
    Then(run, t, Dispatching(1, [0]), u);
    assert Stranded(u, 0);
  }

  lemma BlockedRun(s: State) returns (run: seq<Action>)
    requires s == State(NOTHING.(rows := map[0 := Job("a", "", Queued, None)], events := map[0 := [1]],
                                 waiters := map[0 := {0}]), {}, map[], map[0 := Blocked(0, "a")], {}, {0}, {}, 0, 0)
    ensures After(run) == Some(s)
  {
    hide After;
    var t := s.(calls := map[0 := Looking(0)]);
    run := LookingRun(t);
    Then(run, t, Read(0), s);
    run := run + [Read(0)];
  }

  ghost predicate Stranded(s: State, w: Waiter) {
    && w in s.calls && s.calls[w].Blocked? && w !in s.core.closed
    && !Stays(s.core, s.calls[w].id, s.calls[w].kind)
  }

  lemma LookingRun(s: State) returns (run: seq<Action>)
    requires s == State(NOTHING.(rows := map[0 := Job("a", "", Queued, None)], events := map[0 := [1]],
                                 waiters := map[0 := {0}]), {}, map[], map[0 := Looking(0)], {}, {0}, {}, 0, 0)
    ensures After(run) == Some(s)
  {
    hide After;
    var t := s.(calls := map[0 := Registered(0)]);
    run := EnteredRun(t);
    Then(run, t, Look(0), s);
    run := run + [Look(0)];
  }

  lemma EnteredRun(s: State) returns (run: seq<Action>)
    requires s == State(NOTHING.(rows := map[0 := Job("a", "", Queued, None)], events := map[0 := [1]],
                                 waiters := map[0 := {0}]), {}, map[], map[0 := Registered(0)], {}, {0}, {}, 0, 0)
    ensures After(run) == Some(s)
  {
    hide After;
    var t := s.(core := s.core.(waiters := map[]), calls := map[]);
    run := QueuedRun(t);
    var none: set<Waiter> := {};
    assert none + {0} == {0};
    assert Enter(t.core, 0, 0).waiters == s.core.waiters;
    Then(run, t, Entering(0, 0), s);
    run := run + [Entering(0, 0)];
  }

  lemma QueuedRun(s: State) returns (run: seq<Action>)
    requires s == State(NOTHING.(rows := map[0 := Job("a", "", Queued, None)], events := map[0 := [1]]),
                        {}, map[], map[], {}, {0}, {}, 0, 0)
    ensures After(run) == Some(s)
  {
    assert After([]) == Some(INIT);
    hide After;
    EmptyRestart(INIT);
    Then([], INIT, Restart({"a"}, [], []), INIT.(kinds := {"a"}));
    var t := s.(core := s.core.(seqs := map[0 := 1]), kinds := {"a"});
    FirstSubmit();
    Then([] + [Restart({"a"}, [], [])], INIT.(kinds := {"a"}), Submitting("a", "", 0), t);
    EmptyRestart(t);
    run := [] + [Restart({"a"}, [], [])] + [Submitting("a", "", 0)];
    Then(run, t, Restart({}, [], []), s);
    run := run + [Restart({}, [], [])];
  }

  lemma FirstSubmit()
    ensures Apply(INIT.(kinds := {"a"}), Submitting("a", "", 0)) ==
            State(NOTHING.(rows := map[0 := Job("a", "", Queued, None)], events := map[0 := [1]], seqs := map[0 := 1]),
                  {"a"}, map[], map[], {}, {0}, {}, 0, 0)
  {
    var h: seq<nat> := [];
    MaxOfNumbered(h);
    assert WithStatus(NOTHING, Queued) == {};
    assert h + [1] == [1];
    var c := Insert(NOTHING, 0, "a", "");
    assert c.rows == map[0 := Job("a", "", Queued, None)];
    assert c.events == map[0 := [1]];
    assert c.seqs == map[0 := 1];
  }

  lemma EmptyRestart(s: State)
    requires forall id | id in s.core.rows :: s.core.rows[id].status.Queued?
    ensures forall kinds :: Enabled(s, Restart(kinds, [], []))
    ensures InterruptAll(Fresh(s.core), []) == Fresh(s.core)
  {
    var c := Fresh(s.core);
    assert WithStatus(c, Running) == {} && WithStatus(c, Waiting) == {};
    assert WithStatus(s.core, Running) == {} && WithStatus(s.core, Waiting) == {};
    assert InterruptAll(c, []) == c;
    assert Listing(c, Running, RECOVER_LIMIT, []) && Listing(c, Waiting, RECOVER_LIMIT, []);
  }

  lemma Then(run: seq<Action>, s: State, a: Action, next: State)
    requires After(run) == Some(s) && Enabled(s, a) && Apply(s, a) == next
    ensures After(run + [a]) == Some(next)
  {
    assert (run + [a])[..|run|] == run;
  }

  // A job's status only moves along these lines, and never out of a final one.

  predicate Becomes(st: Status, st': Status) {
    match st
    case Queued => st'.Running? || st'.Failed? || st'.Canceled?
    case Running => st'.Waiting? || st'.Final() || st'.Interrupted?
    case Waiting => st'.Running? || st'.Final() || st'.Interrupted?
    case Interrupted => st'.Queued? || st'.Canceled?
    case _ => false
  }

  /** A step moves one job, if at all, along a line; a job that is gone does not
      come back. */
  predicate RowStep(c: Core, c': Core, id: Id) {
    id in c'.rows ==>
      && id in c.rows && c'.rows[id].kind == c.rows[id].kind && c'.rows[id].key == c.rows[id].key
      && (c'.rows[id].status == c.rows[id].status || Becomes(c.rows[id].status, c'.rows[id].status))
  }

  lemma SaveRows(c: Core, id: Id, j: Job)
    ensures Event(Save(c, id, j), id).rows == if id in c.rows then c.rows[id := j] else c.rows
    ensures Event(Save(c, id, j), id).running == c.running
  {
  }

  lemma OnJobRow(s: State, a: Action, id: Id)
    requires Inv(s) && Enabled(s, a) && OnJob(a)
    ensures RowStep(s.core, Apply(s, a).core, id)
  {
    hide Inv, Sound, Numbered;
    InvSound(s);
    Own(s, a.id);
    hide JobOk, RowStep, JobsOk, Becomes;
    if a.Report? || a.BeginAsk? || a.TakeBack? || a.Finishing? { SavedRow(s, a, id); } else { OtherRow(s, a, id); }
  }

  lemma SavedRow(s: State, a: Action, id: Id)
    requires Enabled(s, a) && (a.Report? || a.BeginAsk? || a.TakeBack? || a.Finishing?)
    requires JobOk(ViewOf(s.core, s.pcs, a.id))
    ensures RowStep(s.core, Apply(s, a).core, id)
  {
    hide Fits, Close, Event, Save, Numbered, Finish, Ask, EndAsk;
    match a {
      case Report(j) => SaveRows(s.core.(running := s.core.running[j := s.core.running[j]]), j, s.core.running[j].job);
      case BeginAsk(_, _, _) => AskRows(s, a);
      case TakeBack(_) => AskRows(s, a);
      case Finishing(_) => FinishRows(s, a);
      case _ =>
    }
  }

  lemma OtherRow(s: State, a: Action, id: Id)
    requires Enabled(s, a) && OnJob(a) && !a.Report? && !a.BeginAsk? && !a.TakeBack? && !a.Finishing?
    ensures RowStep(s.core, Apply(s, a).core, id)
  {
  }

  lemma InvSound(s: State)
    requires Inv(s)
    ensures Sound(s) && CountsOk(s) && JobsOk(s.core, s.pcs)
  {
  }

  lemma AskRows(s: State, a: Action)
    requires Enabled(s, a)
    ensures a.BeginAsk? ==> var q := Question(s.questions, a.options, a.fallback);
              Apply(s, a).core.rows == if a.id in s.core.rows then
                s.core.rows[a.id := s.core.running[a.id].job.(status := Waiting, question := Some(q))] else s.core.rows
    ensures a.TakeBack? ==>
              Apply(s, a).core.rows == if a.id in s.core.rows then
                s.core.rows[a.id := s.core.running[a.id].job.(status := Running, question := None)] else s.core.rows
  {
  }

  lemma FinishRows(s: State, a: Action)
    requires Enabled(s, a) && a.Finishing?
    ensures var st := EndStatus(s.pcs[a.id].phase.outcome, s.pcs[a.id].phase.cause);
            Apply(s, a).core.rows == if a.id in s.core.rows then
              s.core.rows[a.id := s.core.running[a.id].job.(question := None, status := st)] else s.core.rows
  {
  }

  lemma DispatchRow(s: State, limit: int, ids: seq<Id>, id: Id)
    requires Inv(s) && Enabled(s, Dispatching(limit, ids))
    ensures RowStep(s.core, BeginAll(s, ids).core, id) && BeginAll(s, ids).used == s.used
  {
    hide BeginAll, Inv, Sound, Busy, NewQueued, Slots;
    InvSound(s);
    BeginAllSound(s, ids);
  }

  lemma RestartRow(s: State, kinds: set<string>, first: seq<Id>, second: seq<Id>, id: Id)
    requires Inv(s) && Enabled(s, Restart(kinds, first, second))
    ensures RowStep(s.core, DoRestart(s, kinds, first + second).core, id)
    ensures DoRestart(s, kinds, first + second).used == s.used
  {
    hide Inv, Sound, JobsOk, InterruptAll, HistoryOk, Listing, JobOk;
    InvSound(s);
    RestartMarksAll(s, first, second);
    RestartJobs(s, first + second);
  }

  lemma SubmitRow(s: State, kind: string, key: string, newId: Id, id: Id)
    requires id != newId
    ensures RowStep(s.core, DoSubmit(s, kind, key, newId).core, id)
  {
    hide Inv, HasOpen, Event, Save;
    if HasOpen(s.core, key) {
      var j := OpenJob(s.core, key);
      if j in s.core.rows { SaveRows(s.core, j, s.core.rows[j].(status := Queued)); }
    }
    InsertFacts(s.core, kind, key, newId);
    hide Insert;
  }

  lemma CancelRow(c: Core, id: Id, j: Id)
    ensures RowStep(c, Cancel(c, id), j)
  {
    if id in c.rows { SaveRows(c, id, c.rows[id].(status := Canceled, question := None)); }
    hide Event, Save;
  }

  lemma ResumeRow(c: Core, kinds: set<string>, id: Id, j: Id)
    ensures RowStep(c, Resume(c, kinds, id), j)
  {
    if id in c.rows { SaveRows(c, id, c.rows[id].(status := Queued)); }
    hide Event, Save;
  }

  /** Every step of a reachable state, on every job submitted before it. */
  lemma StatusPath(s: State, a: Action, id: Id)
    requires Inv(s) && Enabled(s, a) && id in s.used
    ensures RowStep(s.core, Apply(s, a).core, id) && id in Apply(s, a).used
  {
    hide Inv, Cancel, Resume, Shutdown, BeginAll, DoRestart, Submit, RowStep, Listing, Becomes;
    match a {
      case Restart(kinds, first, second) => RestartRow(s, kinds, first, second, id);
      case Submitting(kind, key, newId) => SubmitRow(s, kind, key, newId, id);
      case Dispatching(limit, ids) => DispatchRow(s, limit, ids, id);
      case Canceling(j) => CancelRow(s.core, j, id);
      case Resuming(j) => ResumeRow(s.core, s.kinds, j, id);
      case Shutting => SameRow(s.core, Shutdown(s.core), id) by { ShutdownRows(s.core); }
      case _ => if OnJob(a) { OnJobRow(s, a, id); } else { WaitRow(s, a, id); }
    }
  }

  lemma WaitRow(s: State, a: Action, id: Id)
    requires Enabled(s, a) && !OnJob(a) && id in s.used
    requires a.ListFinished? || a.Entering? || a.Look? || a.Read? || a.StopWaiting? || a.LeaveWait?
    ensures RowStep(s.core, Apply(s, a).core, id) && id in Apply(s, a).used
  {
  }

  lemma SameRow(c: Core, c': Core, id: Id)
    requires c'.rows == c.rows
    ensures RowStep(c, c', id)
  {
  }

  lemma ShutdownRows(c: Core)
    ensures Shutdown(c).rows == c.rows
  {
  }

  /** A job that is over stays as it ended, until it is deleted for good. */
  lemma {:induction false} FinalForever(run: seq<Action>, more: seq<Action>, id: Id)
    requires After(run).Some? && After(run + more).Some?
    requires id in After(run).value.core.rows && After(run).value.core.rows[id].status.Final()
    ensures var s, s' := After(run).value, After(run + more).value;
            && id in s'.used
            && (id in s'.core.rows ==> s'.core.rows[id].status == s.core.rows[id].status)
    decreases |more|
  {
    hide Inv, Apply, Enabled;
    EveryRunKeeps(run);
    InvSound(After(run).value);
    if more == [] {
      assert run + more == run;
    } else {
      var front, a := more[..|more| - 1], more[|more| - 1];
      assert (run + more)[..|run + more| - 1] == run + front && (run + more)[|run + more| - 1] == a;
      FinalForever(run, front, id);
      EveryRunKeeps(run + front);
      StatusPath(After(run + front).value, a, id);
    }
  }

  // ------------------------------------------------- callers left for good

  /** Blocked with an open channel on a job that is over. */
  ghost predicate Stuck(s: State, w: Waiter) {
    && w in s.calls && s.calls[w].Blocked? && w !in s.core.closed && s.calls[w].id in s.used
    && (s.calls[w].id in s.core.rows ==> s.core.rows[s.calls[w].id].status.Final())
  }

  function Listed(c: Core, id: Id): set<Waiter> { if id in c.waiters then c.waiters[id] else {} }

  lemma FinishCloses(c: Core, id: Id, o: Outcome, cause: Option<Cause>)
    requires id in c.running
    ensures Finish(c, id, o, cause).closed <= c.closed + Listed(c, id)
  {
  }

  lemma CancelCloses(c: Core, id: Id)
    ensures Cancel(c, id).closed <= c.closed + if Cancelable(c, id) then Listed(c, id) else {}
  {
  }

  /** Nothing else closes a channel. */
  lemma ClosesNone(s: State, a: Action)
    requires Enabled(s, a) && !a.Restart? && !a.Dispatching? && !a.Finishing? && !a.Canceling?
    ensures Apply(s, a).core.closed == s.core.closed
  {
    hide Fits, HasOpen, Answerable, Resumable;
  }

  lemma KeepsClosed(s: State, a: Action, w: Waiter)
    requires Inv(s) && Enabled(s, a) && !a.Restart? && Stuck(s, w)
    ensures w !in Apply(s, a).core.closed
  {
    hide Inv, Cancel, Finish, BeginAll, Listing;
    InvSound(s);
    if a.Dispatching? {
      DispatchRest(s, a.limit, a.ids);
    } else if a.Finishing? {
      Own(s, s.calls[w].id);
      FinishCloses(s.core, a.id, s.pcs[a.id].phase.outcome, s.pcs[a.id].phase.cause);
    } else if a.Canceling? {
      CancelCloses(s.core, a.id);
    } else {
      ClosesNone(s, a);
    }
  }

  /** A blocked call goes on only when it is told to stop. */
  lemma KeepsCall(s: State, a: Action, w: Waiter)
    requires Inv(s) && Enabled(s, a) && !a.Restart? && a != StopWaiting(w) && w in s.calls && s.calls[w].Blocked?
    ensures w in Apply(s, a).calls && Apply(s, a).calls[w] == s.calls[w]
  {
    hide Inv, BeginAll, Listing, Submit, Cancel, Resume, Finish, Ask, EndAsk, Answer, Show, Shutdown, Fits;
    if a.Dispatching? { DispatchRest(s, a.limit, a.ids); }
  }

  lemma StuckStep(s: State, a: Action, w: Waiter)
    requires Inv(s) && Enabled(s, a) && !a.Restart? && a != StopWaiting(w) && Stuck(s, w)
    ensures Stuck(Apply(s, a), w) && Apply(s, a).calls[w] == s.calls[w]
  {
    hide Inv, Apply, Enabled;
    KeepsCall(s, a, w);
    KeepsClosed(s, a, w);
    StatusPath(s, a, s.calls[w].id);
  }

  /** Until it stops waiting itself, or the node is restarted. */
  lemma {:induction false} StuckForGood(run: seq<Action>, more: seq<Action>, w: Waiter)
    requires After(run).Some? && After(run + more).Some? && Stuck(After(run).value, w)
    requires forall a | a in more :: !a.Restart? && a != StopWaiting(w)
    ensures Stuck(After(run + more).value, w)
    decreases |more|
  {
    hide Inv, Apply, Enabled, Stuck;
    if more == [] {
      assert run + more == run;
    } else {
      var front, a := more[..|more| - 1], more[|more| - 1];
      assert (run + more)[..|run + more| - 1] == run + front && a in more && forall b | b in front :: b in more;
      StuckForGood(run, front, w);
      EveryRunKeeps(run + front);
      StuckStep(After(run + front).value, a, w);
    }
  }

  /** So a caller that waits for a job of a kind that is unknown when the
      dispatcher takes it stays blocked, its channel open, whatever happens. */
  lemma StrandedForGood(run: seq<Action>, limit: int, ids: seq<Id>, more: seq<Action>, w: Waiter)
    requires After(run).Some? && Enabled(After(run).value, Dispatching(limit, ids))
    requires var s := After(run).value;
             && w in s.calls && s.calls[w].Blocked? && w !in s.core.closed && s.calls[w].id in ids
             && s.core.rows[s.calls[w].id].kind !in s.kinds
    requires After(run + [Dispatching(limit, ids)] + more).Some?
    requires forall a | a in more :: !a.Restart? && a != StopWaiting(w)
    ensures var s' := After(run + [Dispatching(limit, ids)] + more).value;
            w in s'.calls && s'.calls[w].Blocked? && w !in s'.core.closed
  {
    hide Inv, Apply, BeginAll, Slots, After;
    var s := After(run).value;
    var s' := Apply(s, Dispatching(limit, ids));
    EveryRunKeeps(run);
    InvSound(s);
    BeginAllSound(s, ids);
    Then(run, s, Dispatching(limit, ids), s');
    DispatchStuck(s, limit, ids, w);
    StuckForGood(run + [Dispatching(limit, ids)], more, w);
  }

  lemma DispatchStuck(s: State, limit: int, ids: seq<Id>, w: Waiter)
    requires Inv(s) && Enabled(s, Dispatching(limit, ids))
    requires w in s.calls && s.calls[w].Blocked? && w !in s.core.closed && s.calls[w].id in ids
    requires s.core.rows[s.calls[w].id].kind !in s.kinds
    ensures Stuck(Apply(s, Dispatching(limit, ids)), w)
  {
    hide BeginAll, Slots, Sound, CountsOk;
    BeginAllSound(s, ids);
    UsedRow(s, s.calls[w].id);
  }

  lemma UsedRow(s: State, id: Id)
    requires Sound(s) && id in s.core.rows
    ensures id in s.used
  {
  }

  // -------------------------------------------------------- slots and answers

  /** Running jobs that asked a question before. */
  function Back(s: State): set<Id> { set id | id in Busy(s.core) && id in s.pcs && s.pcs[id].asked }

  /** Jobs that never asked hold no more slots than the largest limit read, so
      the limit is exceeded by no more than the jobs back from a question. */
  lemma SlotsAreBounded(run: seq<Action>)
    requires After(run).Some?
    ensures var s := After(run).value;
            |NeverAsked(s)| <= s.top && |Busy(s.core)| <= s.top + |Back(s)|
  {
    EveryRunKeeps(run);
    var s := After(run).value;
    InvSound(s);
    hide Sound, After, Numbered;
    forall id | id in Busy(s.core) ensures id in NeverAsked(s) + Back(s) { Own(s, id); }
    SubsetCard(Busy(s.core), NeverAsked(s) + Back(s));
  }

  /** With a fixed limit, that is the limit. */
  lemma {:induction false} TopIsTheLimit(run: seq<Action>, m: nat)
    requires After(run).Some? && forall a | a in run && a.Dispatching? :: a.limit <= m
    ensures After(run).value.top <= m
  {
    hide Inv, Enabled;
    if run != [] {
      var front, a := run[..|run| - 1], run[|run| - 1];
      assert forall b | b in front :: b in run;
      TopIsTheLimit(front, m);
      EveryRunKeeps(front);
      TopStep(After(front).value, a, m);
    }
  }

  lemma TopStep(s: State, a: Action, m: nat)
    requires Inv(s) && Enabled(s, a) && s.top <= m && (a.Dispatching? ==> a.limit <= m)
    ensures Apply(s, a).top <= m
  {
    hide Inv, Submit, Cancel, Resume, BeginAll, Listing;
  }

  /** Jobs newly submitted fill the queue no further than its bound; only jobs
      put back in it, which nothing bounds, can. */
  lemma QueueIsBounded(run: seq<Action>)
    requires After(run).Some?
    ensures var s := After(run).value;
            && |NewQueued(s)| <= MAX_QUEUED
            && |WithStatus(s.core, Queued)| <= MAX_QUEUED + |WithStatus(s.core, Queued) * s.again|
  {
    EveryRunKeeps(run);
    var s := After(run).value;
    InvSound(s);
    hide Sound, After;
    assert WithStatus(s.core, Queued) == NewQueued(s) + WithStatus(s.core, Queued) * s.again;
  }

  /** A question numbered before n. */
  predicate Older(p: Phase, n: nat) { p.Asking? || p.Answered? ==> p.q.id < n }

  ghost predicate AllOlder(s: State) { forall id | id in s.pcs :: Older(s.pcs[id].phase, s.questions) }

  /** Of all actions only asking counts, and it takes the next number. */
  lemma QuestionCount(s: State, a: Action)
    requires Inv(s) && Enabled(s, a)
    ensures Apply(s, a).questions == s.questions + if a.BeginAsk? then 1 else 0
  {
    hide Inv, Submit, Cancel, Resume, BeginAll, Listing, Sound, Fits, Finish, Ask, EndAsk, Answer, Show, Shutdown;
    hide Close, Event, Save, Requeue, Enter, Leave, InterruptAll, Fresh, WithStatus, Answerable, HasOpen, Begun;
    if a.Dispatching? { DispatchRest(s, a.limit, a.ids); }
  }

  lemma QuestionStep(s: State, a: Action)
    requires Inv(s) && Enabled(s, a) && AllOlder(s)
    ensures AllOlder(Apply(s, a))
  {
    hide Inv, Sound, Begun, BeginAll, Submit, Cancel, Resume, Fits, Finish, Ask, EndAsk, Answer, Show, Shutdown;
    if a.Dispatching? {
      InvSound(s);
      BeginAllSound(s, a.ids);
      QuestionCount(s, a);
      BegunPcs(s, BeginAll(s, a.ids), a.ids);
    } else {
      QuestionOther(s, a);
    }
  }

  lemma QuestionOther(s: State, a: Action)
    requires Enabled(s, a) && AllOlder(s) && !a.Dispatching?
    ensures AllOlder(Apply(s, a))
  {
    hide Submit, Cancel, Resume, BeginAll, Listing, Fits, Finish, Ask, EndAsk, Answer, Show, Shutdown, Answerable;
  }

  lemma BegunPcs(s: State, t: State, ids: seq<Id>)
    requires (forall id | id in ids :: id in s.core.rows) && Begun(s, t, ids)
    ensures forall j | j in t.pcs :: t.pcs[j].phase.Handling? || (j in s.pcs && t.pcs[j] == s.pcs[j])
  {
  }

  lemma {:induction false} QuestionsAreOlder(run: seq<Action>)
    requires After(run).Some?
    ensures AllOlder(After(run).value)
  {
    hide Inv, Apply, Enabled, Older;
    if run != [] {
      QuestionsAreOlder(run[..|run| - 1]);
      EveryRunKeeps(run[..|run| - 1]);
      QuestionStep(After(run[..|run| - 1]).value, run[|run| - 1]);
    }
  }

  /** The states of a run come one after the other, and the count grows. */
  lemma {:induction false} Prefixes(run: seq<Action>, i: nat)
    requires After(run).Some? && i <= |run|
    ensures After(run[..i]).Some? && After(run[..i]).value.questions <= After(run).value.questions
    decreases |run|
  {
    hide Inv, Apply, Enabled;
    if i < |run| {
      var front := run[..|run| - 1];
      Prefixes(front, i);
      assert front[..i] == run[..i];
      EveryRunKeeps(front);
      QuestionCount(After(front).value, run[|run| - 1]);
    } else {
      assert run[..i] == run;
    }
  }

  /** No two questions asked in a run, of one job or of two, have a number in
      common. */
  lemma QuestionsDiffer(run: seq<Action>, i: nat, j: nat)
    requires After(run).Some? && i < j < |run| && run[i].BeginAsk? && run[j].BeginAsk?
    ensures After(run[..i]).Some? && After(run[..j]).Some?
    ensures var m, n := After(run[..i]).value.questions, After(run[..j]).value.questions;
            && m < n
            && Asked(run, i) == Some(Question(m, run[i].options, run[i].fallback))
            && Asked(run, j) == Some(Question(n, run[j].options, run[j].fallback))
  {
    hide Inv, Enabled, After;
    Prefixes(run, i);
    Prefixes(run, j);
    Prefixes(run, i + 1);
    Prefixes(run, j + 1);
    Prefixes(run[..j], i + 1);
    assert run[..j][..i + 1] == run[..i + 1];
    AskedIs(run, i);
    AskedIs(run, j);
  }

  /** The question the execution is at once an action has asked it. */
  ghost function Asked(run: seq<Action>, i: nat): Option<Question>
    requires i < |run| && run[i].BeginAsk?
  {
    var s := After(run[..i + 1]);
    if s.Some? && run[i].id in s.value.pcs && s.value.pcs[run[i].id].phase.Asking?
    then Some(s.value.pcs[run[i].id].phase.q) else None
  }

  lemma AskedIs(run: seq<Action>, i: nat)
    requires i < |run| && run[i].BeginAsk? && After(run[..i + 1]).Some?
    ensures After(run[..i]).Some? && After(run[..i + 1]).value.questions == After(run[..i]).value.questions + 1
    ensures Asked(run, i) == Some(Question(After(run[..i]).value.questions, run[i].options, run[i].fallback))
  {
    hide Inv, Ask;
    assert run[..i + 1][..i] == run[..i];
  }

  /** An answer that ends a question was given by a user to that very question,
      whose number no other has, and is one of its options; or the time was up
      and it is the question's default. */
  lemma AnswersFit(run: seq<Action>, id: Id)
    requires After(run).Some? && id in After(run).value.pcs && After(run).value.pcs[id].phase.Answered?
    ensures var s := After(run).value; var p := s.pcs[id].phase;
            && p.q.id < s.questions
            && (p.given.Some? ==> p.given.value == p.q.id && p.answer in p.q.options)
            && (p.given == None ==> p.answer == p.q.fallback)
  {
    EveryRunKeeps(run);
    QuestionsAreOlder(run);
    Own(After(run).value, id);
    hide After, Sound;
  }
}