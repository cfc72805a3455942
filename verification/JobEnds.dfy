/**
 How jobs move and end, told by what happened to them alone: the actions of a run
 and the rows stored, and not the operations that make the one from the other.
 */
module JobEnds {
  import opened Common
  import opened Worker
  import opened WorkerRuns

  /** Since a job started: what it was first asked to stop for, before its handler
      returned, and how that returned. */
  datatype Tale = Tale(first: Option<Cause>, outcome: Option<Outcome>)

  function Heard(t: Tale, cause: Cause): Tale {
    if t == Tale(None, None) then Tale(Some(cause), None) else t
  }

  function Told(t: Tale, a: Action, id: Id): Tale {
    match a
    case Restart(_, _, _) => Tale(None, None)
    case Dispatching(_, ids) => if id in ids then Tale(None, None) else t
    case Canceling(j) => if j == id then Heard(t, ByUser) else t
    case Shutting => Heard(t, ByShutdown)
    case Return(j, o) => if j == id then t.(outcome := Some(o)) else t
    case _ => t
  }

  function TaleOf(run: seq<Action>, id: Id): Tale {
    if run == [] then Tale(None, None) else Told(TaleOf(run[..|run| - 1], id), run[|run| - 1], id)
  }

  /** What an execution holds is what the tale says. */
  predicate TaleOk(ex: Execution, pc: Pc, t: Tale) {
    if pc.phase.Ending? then t == Tale(pc.phase.cause, Some(pc.phase.outcome)) else t == Tale(ex.cause, None)
  }

  predicate Tells(s: State, id: Id, t: Tale) { In(s, id) ==> TaleOk(s.core.running[id], s.pcs[id], t) }

  lemma BeginTells(s: State, id: Id, j: Id, t: Tale)
    requires id in s.core.rows && Tells(s, j, t) && (j == id ==> j !in s.pcs)
    ensures Tells(Begin(s, id), j, if j == id then Tale(None, None) else t)
    ensures j != id && j !in s.pcs ==> j !in Begin(s, id).pcs
  {
    hide Max, History;
  }

  lemma {:induction false} BeginAllTells(s: State, ids: seq<Id>, j: Id, t: Tale)
    requires (forall id | id in ids :: id in s.core.rows) && (forall a, b | 0 <= a < b < |ids| :: ids[a] != ids[b])
    requires Tells(s, j, t) && (j in ids ==> j !in s.pcs)
    ensures Tells(BeginAll(s, ids), j, if j in ids then Tale(None, None) else t)
    ensures j !in ids && j !in s.pcs ==> j !in BeginAll(s, ids).pcs
  {
    hide Tells, Begin;
    if ids != [] {
      var front, id := ids[..|ids| - 1], ids[|ids| - 1];
      assert ids == front + [id];
      BeginAllTells(s, front, j, t);
      BeginTells(BeginAll(s, front), id, j, if j in front then Tale(None, None) else t);
    }
  }

  lemma QueuedHasNone(s: State, id: Id)
    requires Inv(s) && id in s.core.rows && s.core.rows[id].status.Queued?
    ensures id !in s.pcs
  {
    Own(s, id);
  }

  lemma SavesKeepRunning()
    ensures forall c: Core, id: Id, j: Job :: Event(Save(c, id, j), id).running == c.running
  {
  }

  lemma ClosesKeepRunning()
    ensures forall c: Core, id: Id, st: Status :: Close(c, id, st).running == c.running
  {
  }

  /** An action of one job tells only of that job. */
  lemma OnJobTells(s: State, a: Action, id: Id, t: Tale)
    requires Enabled(s, a) && OnJob(a) && Tells(s, id, t)
    ensures Tells(Apply(s, a), id, Told(t, a, id))
  {
    hide Event, Save, Close, Fits, Max, History;
    SavesKeepRunning();
    ClosesKeepRunning();
  }

  /** What the runner does for jobs that are not running leaves the others. */
  lemma CoreTells(s: State, a: Action, id: Id, t: Tale)
    requires Enabled(s, a) && (a.Submitting? || a.Resuming?) && Tells(s, id, t)
    ensures Tells(Apply(s, a), id, Told(t, a, id))
  {
    hide Event, Save, Max, History, HasOpen, PutBack;
    SavesKeepRunning();
    EventsKeepRunning();
  }

  lemma EventsKeepRunning()
    ensures forall c: Core, id: Id :: Event(c, id).running == c.running
  {
  }

  lemma StopTells(s: State, a: Action, id: Id, t: Tale)
    requires Enabled(s, a) && (a.Canceling? || a.Shutting?) && Tells(s, id, t)
    ensures Tells(Apply(s, a), id, Told(t, a, id))
  {
    hide Event, Save, Close, Max, History;
    SavesKeepRunning();
    ClosesKeepRunning();
  }

  lemma WaitTells(s: State, a: Action, id: Id, t: Tale)
    requires Enabled(s, a) && !OnJob(a) && Tells(s, id, t)
    requires a.ListFinished? || a.Entering? || a.Look? || a.Read? || a.StopWaiting? || a.LeaveWait?
    ensures Tells(Apply(s, a), id, Told(t, a, id))
  {
  }

  lemma TaleStep(s: State, a: Action, id: Id, t: Tale)
    requires Inv(s) && Enabled(s, a) && Tells(s, id, t)
    ensures Tells(Apply(s, a), id, Told(t, a, id))
  {
    hide Inv, TaleOk, BeginAll, InterruptAll, Submit, Cancel, Resume, Shutdown;
    if OnJob(a) { OnJobTells(s, a, id, t); }
    else if a.Submitting? || a.Resuming? { CoreTells(s, a, id, t); }
    else if a.Canceling? || a.Shutting? { StopTells(s, a, id, t); }
    else if a.Restart? { assert Apply(s, a).pcs == map[]; }
    else if a.Dispatching? {
      if id in a.ids { QueuedHasNone(s, id); }
      BeginAllTells(s, a.ids, id, t);
    } else {
      WaitTells(s, a, id, t);
    }
  }

  lemma {:induction false} TaleIs(run: seq<Action>, id: Id)
    requires After(run).Some?
    ensures Tells(After(run).value, id, TaleOf(run, id))
  {
    hide Inv, Apply, Enabled, Tells, Told;
    if run == [] {
      NothingTells(id);
    } else {
      var front := run[..|run| - 1];
      TaleIs(front, id);
      EveryRunKeeps(front);
      TaleStep(After(front).value, run[|run| - 1], id, TaleOf(front, id));
    }
  }

  lemma NothingTells(id: Id)
    ensures Tells(INIT, id, Tale(None, None))
  {
  }

  lemma StoredEnd(s: State, id: Id)
    requires Inv(s) && Enabled(s, Finishing(id))
    ensures id in s.core.rows && s.pcs[id].phase.Ending?
    ensures id in Apply(s, Finishing(id)).core.rows
    ensures Apply(s, Finishing(id)).core.rows[id] ==
            s.core.rows[id].(question := None, status := EndStatus(s.pcs[id].phase.outcome, s.pcs[id].phase.cause))
  {
    Own(s, id);
    hide Inv, Sound, JobsOk, Finish;
    FinishRows(s, Finishing(id));
  }

  /** A job whose handler succeeded is completed, whatever it was asked. Any other
      is interrupted if the node was to stop before a user canceled it, canceled
      if a user canceled it first, or nobody did and its question ran out, and
      failed in the remaining case. */
  lemma JobEnds(run: seq<Action>, id: Id)
    requires After(run + [Finishing(id)]).Some?
    ensures var s, t := After(run + [Finishing(id)]).value, TaleOf(run, id);
            && id in s.core.rows && t.outcome.Some?
            && var st, succeeded := s.core.rows[id].status, t.outcome == Some(Succeeded);
            && (st == Completed <==> succeeded)
            && (st == Interrupted <==> !succeeded && t.first == Some(ByShutdown))
            && (st == Canceled <==>
                  !succeeded && (t.first == Some(ByUser) || (t.first == None && t.outcome == Some(Unanswered))))
            && (st == Failed <==> t.first == None && t.outcome == Some(Erred))
  {
    hide Inv, Apply, Enabled, EndStatus, Tells;
    assert (run + [Finishing(id)])[..|run|] == run;
    TaleIs(run, id);
    EveryRunKeeps(run);
    StoredEnd(After(run).value, id);
    EndTold(After(run).value, id, TaleOf(run, id));
  }

  lemma EndTold(s: State, id: Id, t: Tale)
    requires Enabled(s, Finishing(id)) && s.pcs[id].phase.Ending? && Tells(s, id, t)
    ensures t.outcome.Some?
    ensures var st := EndStatus(s.pcs[id].phase.outcome, s.pcs[id].phase.cause);
            var succeeded := t.outcome == Some(Succeeded);
            && (st == Completed <==> succeeded)
            && (st == Interrupted <==> !succeeded && t.first == Some(ByShutdown))
            && (st == Canceled <==>
                  !succeeded && (t.first == Some(ByUser) || (t.first == None && t.outcome == Some(Unanswered))))
            && (st == Failed <==> t.first == None && t.outcome == Some(Erred))
  {
    match s.pcs[id].phase.cause { case None => case Some(ByUser) => case Some(ByShutdown) => }
    match s.pcs[id].phase.outcome { case Succeeded => case Unanswered => case Erred => }
  }

  // ------------------------------------------------------------ every status

  /** The status of a stored job after an action, if it is not the end of its own
      execution. */
  function StatusAfter(s: State, a: Action, id: Id): Status
    requires id in s.core.rows
  {
    var j := s.core.rows[id];
    match a
    case Restart(_, _, _) => if j.status.Running? || j.status.Waiting? then Interrupted else j.status
    case Submitting(kind, key, _) =>
      if j.status.Interrupted? && key != "" && j.key == key && kind in s.kinds then Queued else j.status
    case Resuming(k) => if j.status.Interrupted? && k == id && j.kind in s.kinds then Queued else j.status
    case Dispatching(_, ids) => if id in ids then (if j.kind in s.kinds then Running else Failed) else j.status
    case BeginAsk(k, _, _) => if k == id then Waiting else j.status
    case TakeBack(k) => if k == id then Running else j.status
    case Canceling(k) => if k == id && (j.status.Queued? || j.status.Interrupted?) then Canceled else j.status
    case _ => j.status
  }

  ghost predicate As(s: State, s': State, a: Action, id: Id) {
    id in s.core.rows && id in s'.core.rows ==> s'.core.rows[id].status == StatusAfter(s, a, id)
  }

  lemma RestartAs(s: State, a: Action, id: Id)
    requires Inv(s) && Enabled(s, a) && a.Restart?
    ensures As(s, Apply(s, a), a, id)
  {
    hide Inv, Sound, JobsOk, InterruptAll, HistoryOk, Listing, JobOk;
    InvSound(s);
    RestartMarksAll(s, a.first, a.second);
    RestartJobs(s, a.first + a.second);
  }

  lemma DispatchAs(s: State, a: Action, id: Id)
    requires Inv(s) && Enabled(s, a) && a.Dispatching?
    ensures As(s, Apply(s, a), a, id)
  {
    hide BeginAll, Inv, Sound, Busy, NewQueued, Slots;
    InvSound(s);
    BeginAllSound(s, a.ids);
  }

  lemma SubmitAs(s: State, a: Action, id: Id)
    requires Inv(s) && Enabled(s, a) && a.Submitting?
    ensures As(s, Apply(s, a), a, id)
  {
    hide Inv, Event, Save, JobsOk, CallsOk, ListsOk, PruneOk;
    InvSound(s);
    hide Sound;
    if HasOpen(s.core, a.key) {
      var j := OpenJob(s.core, a.key);
      SaveRows(s.core, j, s.core.rows[j].(status := Queued));
      OnlyOpen(s, a.key, id);
    } else if id in s.core.rows {
      assert !IsOpen(s.core, a.key, id) || a.key == "";
      InUse(s, id);
    }
    InsertFacts(s.core, a.kind, a.key, a.id);
    hide Insert;
  }

  lemma OnlyOpen(s: State, key: string, id: Id)
    requires Sound(s) && HasOpen(s.core, key)
    ensures IsOpen(s.core, key, id) <==> id == OpenJob(s.core, key)
  {
  }

  lemma InUse(s: State, id: Id)
    requires Sound(s) && id in s.core.rows
    ensures id in s.used
  {
  }

  lemma RunningIsBusy(s: State, id: Id)
    requires Inv(s)
    ensures id in s.core.running ==>
              && id in s.core.rows && s.core.running[id].job == s.core.rows[id]
              && (s.core.rows[id].status.Running? || s.core.rows[id].status.Waiting?)
  {
    Own(s, id);
    hide Inv, Sound, JobsOk, Numbered, PcOk;
  }

  lemma ClosesKeepRows()
    ensures forall c: Core, id: Id, st: Status :: Close(c, id, st).rows == c.rows
  {
  }

  lemma StopAs(s: State, a: Action, id: Id)
    requires Inv(s) && Enabled(s, a) && (a.Canceling? || a.Resuming?)
    ensures As(s, Apply(s, a), a, id)
  {
    RunningIsBusy(s, a.id);
    hide Inv, Cancel, Resume;
    if a.Canceling? { CancelRows(s.core, a.id); } else { ResumeRows(s.core, s.kinds, a.id); }
  }

  lemma CancelRows(c: Core, id: Id)
    requires id in c.running ==> id in c.rows && (c.rows[id].status.Running? || c.rows[id].status.Waiting?)
    ensures Cancel(c, id).rows == if Cancelable(c, id)
                                  then c.rows[id := c.rows[id].(status := Canceled, question := None)] else c.rows
  {
    hide Event, Save, Close, Stop;
    ClosesKeepRows();
    if id in c.rows { SaveRows(c, id, c.rows[id].(status := Canceled, question := None)); }
  }

  lemma ResumeRows(c: Core, kinds: set<string>, id: Id)
    ensures Resume(c, kinds, id).rows == if Resumable(c, kinds, id)
                                         then c.rows[id := c.rows[id].(status := Queued)] else c.rows
  {
    hide Event, Save;
    if id in c.rows { SaveRows(c, id, c.rows[id].(status := Queued)); }
  }

  lemma ReportRows(s: State, a: Action)
    requires Enabled(s, a) && a.Report?
    ensures Apply(s, a).core.rows ==
            if a.id in s.core.rows then s.core.rows[a.id := s.core.running[a.id].job] else s.core.rows
  {
    hide Event, Save;
    SaveRows(s.core.(running := s.core.running[a.id := s.core.running[a.id]]), a.id, s.core.running[a.id].job);
  }

  /** The rows after an action of one job, other than its end. */
  lemma OnJobRows(s: State, a: Action)
    requires Enabled(s, a) && OnJob(a) && !a.Finishing? && a.id in s.core.rows
    requires a.id in s.core.running ==> s.core.running[a.id].job == s.core.rows[a.id]
    ensures var j, rows := s.core.rows[a.id], Apply(s, a).core.rows;
            && (a.Delete? ==> rows == s.core.rows - {a.id})
            && (!a.Delete? ==>
                  && rows.Keys == s.core.rows.Keys
                  && (forall k | k in rows && k != a.id :: rows[k] == s.core.rows[k])
                  && rows[a.id].status == if a.BeginAsk? then Waiting else if a.TakeBack? then Running else j.status)
  {
    if a.Report? { ReportRows(s, a); }
    else if a.BeginAsk? || a.TakeBack? { AskRows(s, a); }
    else { QuietRows(s, a); }
    hide Apply;
  }

  lemma QuietRows(s: State, a: Action)
    requires Enabled(s, a) && OnJob(a) && !a.Finishing? && !a.Report? && !a.BeginAsk? && !a.TakeBack?
    ensures Apply(s, a).core.rows == if a.Delete? then s.core.rows - {a.id} else s.core.rows
  {
    hide Fits;
  }

  lemma OnJobAs(s: State, a: Action, id: Id)
    requires Inv(s) && Enabled(s, a) && OnJob(a) && !a.Finishing?
    ensures As(s, Apply(s, a), a, id)
  {
    RunningIsBusy(s, a.id);
    InOrQuiet(s, a);
    hide Inv, Apply, Enabled;
    if a.id in s.core.rows { OnJobRows(s, a); } else { QuietRows(s, a); }
  }

  lemma InOrQuiet(s: State, a: Action)
    requires Enabled(s, a) && OnJob(a)
    ensures a.id in s.core.running || a.Delete? || a.Answering?
  {
  }

  lemma WaitAs(s: State, a: Action, id: Id)
    requires Enabled(s, a) && !OnJob(a)
    requires a.Shutting? || a.ListFinished? || a.Entering? || a.Look? || a.Read? || a.StopWaiting? || a.LeaveWait?
    ensures As(s, Apply(s, a), a, id)
  {
  }

  lemma FinishAs(s: State, a: Action, id: Id)
    requires Inv(s) && Enabled(s, a) && a.Finishing? && a.id != id
    ensures As(s, Apply(s, a), a, id)
  {
    hide Inv, Finish;
    FinishRows(s, a);
  }

  /** Exactly what each action makes of a stored job's status. */
  lemma StatusIs(run: seq<Action>, a: Action, id: Id)
    requires After(run + [a]).Some? && !(a.Finishing? && a.id == id)
    ensures After(run).Some?
    ensures var s, s' := After(run).value, After(run + [a]).value;
            id in s.core.rows && id in s'.core.rows ==> s'.core.rows[id].status == StatusAfter(s, a, id)
  {
    hide Inv, Apply, Enabled, StatusAfter;
    assert (run + [a])[..|run|] == run;
    EveryRunKeeps(run);
    var s := After(run).value;
    if OnJob(a) { if a.Finishing? { FinishAs(s, a, id); } else { OnJobAs(s, a, id); } }
    else if a.Restart? { RestartAs(s, a, id); }
    else if a.Dispatching? { DispatchAs(s, a, id); }
    else if a.Submitting? { SubmitAs(s, a, id); }
    else if a.Canceling? || a.Resuming? { StopAs(s, a, id); }
    else { WaitAs(s, a, id); }
  }

  /** The jobs stored after an action. */
  ghost function StoredAfter(s: State, a: Action): set<Id> {
    match a
    case Submitting(kind, key, id) =>
      if kind in s.kinds && |WithStatus(s.core, Queued)| < MAX_QUEUED &&
         (key == "" || forall j | j in s.core.rows && s.core.rows[j].key == key :: s.core.rows[j].status.Final())
      then s.core.rows.Keys + {id} else s.core.rows.Keys
    case Delete(id) => s.core.rows.Keys - {id}
    case _ => s.core.rows.Keys
  }

  lemma OpenIsNotFinal(c: Core, key: string)
    ensures HasOpen(c, key) <==>
            key != "" && exists j :: j in c.rows && c.rows[j].key == key && !c.rows[j].status.Final()
  {
    if j :| j in c.rows && c.rows[j].key == key && !c.rows[j].status.Final() { assert IsOpen(c, key, j); }
    if j :| IsOpen(c, key, j) { assert j in c.rows && c.rows[j].key == key && !c.rows[j].status.Final(); }
  }

  lemma SubmitStores(s: State, a: Action)
    requires Enabled(s, a) && a.Submitting?
    ensures Apply(s, a).core.rows.Keys == StoredAfter(s, a)
    ensures a.id in StoredAfter(s, a) && a.id !in s.core.rows ==>
              Apply(s, a).core.rows[a.id] == Job(a.kind, a.key, Queued, None)
  {
    hide Event, Save, Insert, WithStatus;
    OpenIsNotFinal(s.core, a.key);
    if HasOpen(s.core, a.key) {
      var j := OpenJob(s.core, a.key);
      SaveRows(s.core, j, s.core.rows[j].(status := Queued));
    }
    InsertFacts(s.core, a.kind, a.key, a.id);
  }

  lemma OnJobStores(s: State, a: Action)
    requires Enabled(s, a) && OnJob(a)
    ensures Apply(s, a).core.rows.Keys == StoredAfter(s, a)
  {
    hide Apply, Enabled;
    if a.Report? { ReportRows(s, a); }
    else if a.BeginAsk? || a.TakeBack? { AskRows(s, a); }
    else if a.Finishing? { FinishRows(s, a); }
    else { QuietRows(s, a); }
  }

  lemma OtherStores(s: State, a: Action)
    requires Enabled(s, a) && !OnJob(a) && !a.Submitting?
    ensures Apply(s, a).core.rows.Keys == s.core.rows.Keys
  {
    ClosesKeepRows();
    if (a.Canceling? || a.Resuming?) && a.id in s.core.rows {
      SaveRows(s.core, a.id, s.core.rows[a.id].(status := Canceled, question := None));
      SaveRows(s.core, a.id, s.core.rows[a.id].(status := Queued));
    }
    hide Event, Save, Close, BeginAll, InterruptAll, Listing;
  }

  /** Exactly which jobs are stored after each action: a submission adds one if
      its kind is registered, no job of its key is open and fewer than 500 wait. */
  lemma StoredIs(run: seq<Action>, a: Action)
    requires After(run + [a]).Some?
    ensures After(run).Some?
    ensures var s, s' := After(run).value, After(run + [a]).value;
            && s'.core.rows.Keys == StoredAfter(s, a)
            && (a.Submitting? && a.id in s'.core.rows && a.id !in s.core.rows ==>
                  s'.core.rows[a.id] == Job(a.kind, a.key, Queued, None))
  {
    hide Apply, Enabled;
    assert (run + [a])[..|run|] == run;
    var s := After(run).value;
    if OnJob(a) { OnJobStores(s, a); } else if a.Submitting? { SubmitStores(s, a); } else { OtherStores(s, a); }
  }

  /** Nobody is woken early: a caller's channel is closed only by the end or the
      cancellation of its own job, which is not busy after that. */
  lemma WokenIsOver(run: seq<Action>, a: Action, w: Waiter)
    requires After(run + [a]).Some? && After(run).Some? && w in After(run).value.calls
    requires w !in After(run).value.core.closed && w in After(run + [a]).value.core.closed
    ensures var s, s' := After(run).value, After(run + [a]).value;
            && (a.Finishing? || a.Canceling?) && a.id == s.calls[w].id
            && a.id in s'.core.rows && !s'.core.rows[a.id].status.Busy()
  {
    assert (run + [a])[..|run|] == run;
    EveryRunKeeps(run);
    hide After, Inv, EndStatus;
    var s := After(run).value;
    InvSound(s);
    if a.Restart? {
      RestartWakesNone(s, a);
    } else if a.Dispatching? {
      DispatchRest(s, a.limit, a.ids);
    } else if a.Finishing? {
      FinishWakes(s, a, w);
    } else if a.Canceling? {
      CancelWakes(s, a, w);
    } else {
      ClosesNone(s, a);
    }
    hide Apply, Enabled;
  }

  lemma RestartWakesNone(s: State, a: Action)
    requires Inv(s) && Enabled(s, a) && a.Restart?
    ensures Apply(s, a).core.closed == {}
  {
    hide Inv, Sound, JobsOk, InterruptAll, HistoryOk, Listing, JobOk;
    InvSound(s);
    RestartMarksAll(s, a.first, a.second);
    RestartJobs(s, a.first + a.second);
  }

  lemma FinishWakes(s: State, a: Action, w: Waiter)
    requires Inv(s) && Enabled(s, a) && a.Finishing? && w in s.calls
    requires w !in s.core.closed && w in Apply(s, a).core.closed
    ensures a.id == s.calls[w].id && a.id in Apply(s, a).core.rows && !Apply(s, a).core.rows[a.id].status.Busy()
  {
    StoredEnd(s, a.id);
    InvSound(s);
    hide Inv, Finish;
    FinishCloses(s.core, a.id, s.pcs[a.id].phase.outcome, s.pcs[a.id].phase.cause);
  }

  lemma CancelWakes(s: State, a: Action, w: Waiter)
    requires Inv(s) && Enabled(s, a) && a.Canceling? && w in s.calls
    requires w !in s.core.closed && w in Apply(s, a).core.closed
    ensures a.id == s.calls[w].id && a.id in Apply(s, a).core.rows && !Apply(s, a).core.rows[a.id].status.Busy()
  {
    RunningIsBusy(s, a.id);
    InvSound(s);
    hide Inv, Cancel;
    CancelCloses(s.core, a.id);
    CancelRows(s.core, a.id);
  }

  // ------------------------------------------------------- slots and answers

  /** The node is to stop. */
  function Stopping(run: seq<Action>): bool {
    if run == [] then false
    else if run[|run| - 1].Restart? then false
    else run[|run| - 1].Shutting? || Stopping(run[..|run| - 1])
  }

  lemma SavesKeepStopping()
    ensures forall c: Core, id: Id, j: Job :: Event(Save(c, id, j), id).stopping == c.stopping
    ensures forall c: Core, id: Id :: Event(c, id).stopping == c.stopping
    ensures forall c: Core, id: Id, st: Status :: Close(c, id, st).stopping == c.stopping
  {
  }

  lemma OnJobKeepsStopping(s: State, a: Action)
    requires Enabled(s, a) && OnJob(a)
    ensures Apply(s, a).core.stopping == s.core.stopping
  {
    hide Event, Save, Close, Fits, Answerable, Max, History;
    SavesKeepStopping();
  }

  lemma OthersKeepStopping(s: State, a: Action)
    requires Enabled(s, a) && !OnJob(a) && !a.Restart? && !a.Dispatching?
    ensures Apply(s, a).core.stopping == (a.Shutting? || s.core.stopping)
  {
    hide Event, Save, Close, Max, History;
    SavesKeepStopping();
  }

  lemma RestartIsFresh(s: State, a: Action)
    requires Inv(s) && Enabled(s, a) && a.Restart?
    ensures !Apply(s, a).core.stopping
  {
    hide Inv, Sound, JobsOk, InterruptAll, HistoryOk, Listing, JobOk;
    InvSound(s);
    RestartMarksAll(s, a.first, a.second);
    InterruptKeepsStopping(Fresh(s.core), a.first + a.second);
  }

  lemma DispatchKeepsStopping(s: State, a: Action)
    requires Enabled(s, a) && a.Dispatching?
    ensures Apply(s, a).core.stopping == s.core.stopping
  {
    hide BeginAll, Slots;
    BeginKeepsStopping(s, a.ids);
  }

  lemma StoppingStep(s: State, a: Action)
    requires Inv(s) && Enabled(s, a)
    ensures Apply(s, a).core.stopping == if a.Restart? then false else a.Shutting? || s.core.stopping
  {
    hide Inv, Apply, Enabled;
    if OnJob(a) { OnJobKeepsStopping(s, a); }
    else if a.Restart? { RestartIsFresh(s, a); }
    else if a.Dispatching? { DispatchKeepsStopping(s, a); }
    else { OthersKeepStopping(s, a); }
  }

  lemma {:induction false} InterruptKeepsStopping(c: Core, ids: seq<Id>)
    ensures (forall id | id in ids :: id in c.rows) ==> InterruptAll(c, ids).stopping == c.stopping
    decreases |ids|
  {
    if ids != [] && forall id | id in ids :: id in c.rows { InterruptKeepsStopping(c, ids[..|ids| - 1]); }
  }

  lemma {:induction false} BeginKeepsStopping(s: State, ids: seq<Id>)
    requires forall id | id in ids :: id in s.core.rows
    ensures BeginAll(s, ids).core.stopping == s.core.stopping
    decreases |ids|
  {
    if ids != [] {
      assert forall id | id in ids[..|ids| - 1] :: id in ids;
      BeginKeepsStopping(s, ids[..|ids| - 1]);
    }
  }

  lemma {:induction false} StoppingIs(run: seq<Action>)
    requires After(run).Some?
    ensures After(run).value.core.stopping == Stopping(run)
  {
    hide Inv, Apply, Enabled;
    if run != [] {
      StoppingIs(run[..|run| - 1]);
      EveryRunKeeps(run[..|run| - 1]);
      StoppingStep(After(run[..|run| - 1]).value, run[|run| - 1]);
    }
  }

  lemma BusyIsRunning(s: State)
    requires Inv(s)
    ensures Busy(s.core) == WithStatus(s.core, Running)
  {
    forall id ensures id in Busy(s.core) <==> id in WithStatus(s.core, Running) { BusyIff(s, id); }
  }

  lemma BusyIff(s: State, id: Id)
    requires Inv(s)
    ensures (id in s.core.running && s.core.running[id].job.status != Waiting) <==>
            (id in s.core.rows && s.core.rows[id].status == Running)
  {
    Own(s, id);
    hide Inv, Sound, JobsOk, Numbered, PcOk;
  }

  /** What a dispatch starts: nothing while the node is to stop, and else the
      oldest queued jobs, so many that the limit is reached or none is left. */
  lemma DispatchFills(run: seq<Action>, limit: int, ids: seq<Id>)
    requires After(run + [Dispatching(limit, ids)]).Some?
    ensures After(run).Some?
    ensures var c := After(run).value.core;
            var queued, running := WithStatus(c, Queued), WithStatus(c, Running);
            && (forall id | id in ids :: id in queued)
            && (forall id, k | id in queued && id !in ids && k in ids :: k < id)
            && (Stopping(run) || limit <= |running| ==> ids == [])
            && (!Stopping(run) && limit > |running| ==>
                  |running| + |ids| <= limit
                  && (|running| + |ids| == limit || forall id | id in queued :: id in ids))
  {
    assert (run + [Dispatching(limit, ids)])[..|run|] == run;
    EveryRunKeeps(run);
    StoppingIs(run);
    var s := After(run).value;
    BusyIsRunning(s);
    assert Listing(s.core, Queued, Slots(s.core, limit), ids);
    hide After, Inv, WithStatus, Busy;
  }

  // The first answer that is an option of a question is the one it gets.

  function Answers(id: Id, answers: seq<string>): seq<Action> {
    if answers == [] then [] else Answers(id, answers[..|answers| - 1]) + [Answering(id, answers[|answers| - 1])]
  }

  function FirstOption(answers: seq<string>, options: seq<string>): Option<string> {
    if answers == [] then None
    else if FirstOption(answers[..|answers| - 1], options).Some? then FirstOption(answers[..|answers| - 1], options)
    else if answers[|answers| - 1] in options then Some(answers[|answers| - 1])
    else None
  }

  predicate Open(s: State, id: Id, q: Question, answer: Option<string>) {
    && In(s, id) && s.pcs[id].phase == Asking(q)
    && s.core.running[id].answer == answer && s.core.running[id].job.status == Waiting
    && s.core.running[id].job.question == Some(q)
  }

  lemma AskOpens(s: State, id: Id, options: seq<string>, fallback: string)
    requires Inv(s) && Enabled(s, BeginAsk(id, options, fallback))
    ensures Open(Apply(s, BeginAsk(id, options, fallback)), id, Question(s.questions, options, fallback), None)
  {
    hide Inv, Event, Save;
    SavesKeepRunning();
  }

  lemma AnswerStep(s: State, id: Id, q: Question, had: Option<string>, answer: string)
    requires Open(s, id, q, had)
    ensures Open(Apply(s, Answering(id, answer)), id, q,
                 if had == None && answer in q.options then Some(answer) else had)
  {
  }

  /** Of all answers given to a question while it is open, it gets the first that
      is one of its options; and none if there is none. */
  lemma {:induction false} FirstOptionIsTaken(run: seq<Action>, id: Id, options: seq<string>, fallback: string,
                                              answers: seq<string>)
    requires After(run + [BeginAsk(id, options, fallback)]).Some?
    ensures After(run).Some? && After(run + [BeginAsk(id, options, fallback)] + Answers(id, answers)).Some?
    ensures var s := After(run + [BeginAsk(id, options, fallback)] + Answers(id, answers)).value;
            Open(s, id, Question(After(run).value.questions, options, fallback), FirstOption(answers, options))
    decreases |answers|
  {
    var a := BeginAsk(id, options, fallback);
    assert (run + [a])[..|run|] == run;
    EveryRunKeeps(run);
    hide Inv, Apply, Enabled, Open;
    if answers == [] {
      assert run + [a] + Answers(id, answers) == run + [a];
      AskOpens(After(run).value, id, options, fallback);
    } else {
      var front, last := answers[..|answers| - 1], answers[|answers| - 1];
      FirstOptionIsTaken(run, id, options, fallback, front);
      var all := run + [a] + Answers(id, front);
      var s := After(all).value;
      assert run + [a] + Answers(id, answers) == all + [Answering(id, last)];
      AnswerEnabled(s, id, last);
      Then(all, s, Answering(id, last), Apply(s, Answering(id, last)));
      AnswerStep(s, id, Question(After(run).value.questions, options, fallback), FirstOption(front, options), last);
    }
  }

  lemma AnswerEnabled(s: State, id: Id, answer: string)
    ensures Enabled(s, Answering(id, answer))
  {
  }

  /** And that answer is what the handler is given. */
  lemma AnswerIsGiven(s: State, id: Id, q: Question, answer: string)
    requires Open(s, id, q, Some(answer))
    ensures Enabled(s, Take(id))
    ensures var s' := Apply(s, Take(id));
            id in s'.pcs && s'.pcs[id].phase.Answered? && s'.pcs[id].phase.q == q && s'.pcs[id].phase.answer == answer
  {
  }
}
