/** What the handler's shutdown waits for: the jobs in its map, and not the ones it has replaced. */
module ShutdownJoin {
  import opened Support
  import opened Fsm
  import opened JobModel
  import opened JobInvariant
  import opened JobProperties
  import opened HandlerModel
  import opened HandlerInvariant
  import opened HandlerProperties
  import opened RetiringWindow

  // ── what it waits for ─────────────────────────────────────────────────

  lemma {:induction false} ExitedStays(j: Job, s: Step, now: nat)
    requires Enabled(j, s, now) && j.loop == Exited
    ensures Next(j, s, now).loop == Exited
  {
  }

  lemma {:induction false} CancelKeeps(cells: seq<Cell>, id: JobId)
    requires id < |cells|
    ensures |CancelCells(cells)| == |cells|
    ensures CancelCells(cells)[id].job.loop == cells[id].job.loop && CancelCells(cells)[id].params == cells[id].params
  {
  }

  lemma {:induction false} WorkKeepsExited(s: Sys, i: JobId, step: Step, id: JobId)
    requires CanStep(s, Work(i, step))
    requires id < |s.cells| && s.cells[id].job.loop == Exited
    ensures var t := DoWork(s, i, step);
            |t.cells| == |s.cells| && t.cells[id].job.loop == Exited && t.cells[id].params == s.cells[id].params
  {
    if i == id { ExitedStays(s.cells[id].job, step, s.now); }
  }

  lemma {:induction false} OthersKeepCells(s: Sys, st: SysStep)
    requires CanStep(s, st) && IsClosing(s.pc) && !st.Work? && !st.CancelAll?
    ensures Advance(s, st).cells == s.cells
  {
    if st.WriterAttempt? { assert Advance(s, st) == Attempted(s, st.ok, st.applied); }
  }

  /** While the handler closes, a loop that has exited stays so. */
  lemma {:induction false} ClosingKeepsExited(s: Sys, st: SysStep, t: Sys, id: JobId)
    requires CanStep(s, st) && t == Advance(s, st) && IsClosing(s.pc)
    requires id < |s.cells| && s.cells[id].job.loop == Exited
    ensures |t.cells| == |s.cells| && t.cells[id].job.loop == Exited && t.cells[id].params == s.cells[id].params
  {
    match st
    case Work(i, step) => WorkKeepsExited(s, i, step, id);
    case CancelAll => CancelKeeps(s.cells, id);
    case _ => OthersKeepCells(s, st);
  }

  lemma {:induction false} JoinedStep(s: Sys, st: SysStep, t: Sys)
    requires CanStep(s, st) && t == Advance(s, st) && IsClosing(s.pc) && AllJoined(s)
    ensures IsClosing(t.pc) && AllJoined(t)
  {
    ClosingStep(s, st, t);
    forall key | key in t.jobs ensures t.jobs[key] < |t.cells| && t.cells[t.jobs[key]].job.loop == Exited {
      ClosingKeepsExited(s, st, t, s.jobs[key]);
    }
  }

  lemma {:induction false} JoinEnds(s: Sys, t: Sys)
    requires CanStep(s, FinishClosing(false)) && t == Advance(s, FinishClosing(false))
    ensures IsClosing(t.pc) && AllJoined(t)
  {
  }

  /** From the end of a join that did not time out, every job in the map has exited for good. */
  lemma {:induction false} JoinedForGood(r: SysRun, i: nat, k: nat)
    requires IsSysRun(r) && i < k < |r.states| && r.steps[i] == FinishClosing(false)
    ensures IsClosing(r.states[k].pc) && AllJoined(r.states[k])
    decreases k
  {
    StepOfRun(r, k - 1);
    var s, st, t := r.states[k - 1], r.steps[k - 1], r.states[k];
    if i == k - 1 {
      JoinEnds(s, t);
    } else {
      JoinedForGood(r, i, k - 1);
      JoinedStep(s, st, t);
    }
  }

  /**
   * When the join does not time out, a tracked task that is still unfinished from
   * then on belongs to a job that is not in the map: it was replaced, or retired
   * after it had reported that it was done.
   */
  lemma {:induction false} OnlyForgottenJobsOutliveShutdown(r: SysRun, i: nat, k: nat, id: JobId, t: nat)
    requires IsSysRun(r) && i < k < |r.states| && r.steps[i] == FinishClosing(false)
    requires id < |r.states[k].cells| && t < |r.states[k].cells[id].job.tasks|
    requires IsTracked(r.states[k].cells[id].job.tasks[t]) && r.states[k].cells[id].job.tasks[t].pc != Finished
    ensures !IsCurrent(r.states[k], id)
    ensures r.states[k].cells[id].job.replaced || r.states[k].cells[id].job.doneSent == 1
    ensures r.states[k].cells[id].job.cancelled
  {
    JoinedForGood(r, i, k);
    SysRunInv(r, k);
    var s := r.states[k];
    assert CellFits(s.cells[id], s.now) && OwnerFits(s, id);
    if IsCurrent(s, id) { ExitedHasNoBackground(s.cells[id].job, t); }
    if !s.cells[id].job.replaced { DoneMeansFinished(s.cells[id].job); }
  }

  // ── and what it does not wait for ─────────────────────────────────────

  /** The second run goes on where the first one ends. */
  ghost predicate GoesOn(r: SysRun, q: SysRun) {
    IsSysRun(q) && r.steps <= q.steps && r.states <= q.states
  }

  /** Closing has come to where the given jobs may have changed, and nothing else. */
  ghost predicate ClosesOn(r: SysRun, q: SysRun)
    requires IsSysRun(r)
  {
    GoesOn(r, q) && Last(r).pc == Closing && Last(q) == Last(r).(cells := Last(q).cells)
  }

  /** How many moves of its own a cancelled task is away from its end, at most. */
  function MovesLeft(pc: Pc): nat {
    match pc
    case Calling(_) => 2
    case Finished => 0
    case _ => 1
  }

  /** A move that needs nobody else: to give up, or to let a call return. */
  function LastMove(t: Task): Move {
    match t.pc
    case Calling(Resolve(_)) => Unresolved
    case Calling(Attempt(_, _)) => if t.kind == Lookup then Drop else Succeed
    case _ => Drop
  }

  lemma {:induction false} MovesNearer(j: Job, t: nat, now: nat)
    requires j.cancelled && t < |j.tasks| && j.tasks[t].pc != Finished
    ensures Enabled(j, Run(t, LastMove(j.tasks[t])), now) && LastMove(j.tasks[t]) != Put
    ensures var k := Next(j, Run(t, LastMove(j.tasks[t])), now);
            && |k.tasks| == |j.tasks|
            && k == j.(tasks := j.tasks[t := k.tasks[t]]) && k.tasks[t].kind == j.tasks[t].kind
            && MovesLeft(k.tasks[t].pc) < MovesLeft(j.tasks[t].pc)
  {
  }

  /** A step of one job that sends nothing to the handler. */
  lemma {:induction false} JobGoesOn(r: SysRun, id: JobId, step: Step) returns (q: SysRun)
    requires IsSysRun(r) && Last(r).pc == Closing && id < |Last(r).cells| && IsOwnStep(step)
    requires var j := Last(r).cells[id].job;
             Enabled(j, step, Last(r).now) && !SendsDone(j, step) && !SendsRestarted(j, step)
    ensures ClosesOn(r, q) && Last(q) == SetJob(Last(r), id, Next(Last(r).cells[id].job, step, Last(r).now))
  {
    var s := Last(r);
    assert SendEffect(s, id, step) == s;
    q := Extended(r, Work(id, step), SetJob(s, id, Next(s.cells[id].job, step, s.now)));
  }

  lemma {:induction false} GoingOnGoesOn(r: SysRun, q: SysRun, p: SysRun)
    requires IsSysRun(r) && ClosesOn(r, q) && ClosesOn(q, p)
    ensures ClosesOn(r, p)
  {
  }

  /** Only this job has changed, and of it only its tasks. */
  predicate TasksMoved(s: Sys, t: Sys, id: JobId)
    requires id < |s.cells|
  {
    && |t.cells| == |s.cells|
    && t.cells == s.cells[id := t.cells[id]]
    && t.cells[id] == s.cells[id].(job := s.cells[id].job.(tasks := t.cells[id].job.tasks))
    && |t.cells[id].job.tasks| == |s.cells[id].job.tasks|
  }

  /** The task ends. */
  lemma {:induction false} TaskEnds(r: SysRun, id: JobId, t: nat) returns (q: SysRun)
    requires IsSysRun(r) && Last(r).pc == Closing && id < |Last(r).cells|
    requires Last(r).cells[id].job.cancelled && t < |Last(r).cells[id].job.tasks|
    ensures ClosesOn(r, q) && TasksMoved(Last(r), Last(q), id)
    ensures var was, tasks := Last(r).cells[id].job.tasks, Last(q).cells[id].job.tasks;
            tasks == was[t := tasks[t]] && tasks[t].pc == Finished && tasks[t].kind == was[t].kind
    decreases MovesLeft(Last(r).cells[id].job.tasks[t].pc)
  {
    if Last(r).cells[id].job.tasks[t].pc == Finished { return r; }
    var p := TaskMoves(r, id, t);
    q := TaskEnds(p, id, t);
    GoingOnGoesOn(r, p, q);
  }

  lemma {:induction false} TaskMoves(r: SysRun, id: JobId, t: nat) returns (q: SysRun)
    requires IsSysRun(r) && Last(r).pc == Closing && id < |Last(r).cells|
    requires Last(r).cells[id].job.cancelled && t < |Last(r).cells[id].job.tasks|
    requires Last(r).cells[id].job.tasks[t].pc != Finished
    ensures ClosesOn(r, q) && TasksMoved(Last(r), Last(q), id)
    ensures var was, tasks := Last(r).cells[id].job.tasks, Last(q).cells[id].job.tasks;
            && tasks == was[t := tasks[t]] && tasks[t].kind == was[t].kind
            && MovesLeft(tasks[t].pc) < MovesLeft(was[t].pc)
  {
    var j := Last(r).cells[id].job;
    MovesNearer(j, t, Last(r).now);
    q := JobGoesOn(r, id, Run(t, LastMove(j.tasks[t])));
  }

  /** The first `n` tasks end. */
  lemma {:induction false} TasksEnd(r: SysRun, id: JobId, n: nat) returns (q: SysRun)
    requires IsSysRun(r) && Last(r).pc == Closing && id < |Last(r).cells|
    requires Last(r).cells[id].job.cancelled && n <= |Last(r).cells[id].job.tasks|
    ensures ClosesOn(r, q) && TasksMoved(Last(r), Last(q), id)
    ensures forall t :: 0 <= t < n ==> Last(q).cells[id].job.tasks[t].pc == Finished
  {
    if n == 0 { return r; }
    var p := TasksEnd(r, id, n - 1);
    q := TaskEnds(p, id, n - 1);
    GoingOnGoesOn(r, p, q);
  }

  /** Only this job has changed. */
  predicate OnlyJob(s: Sys, t: Sys, id: JobId)
    requires id < |s.cells|
  {
    |t.cells| == |s.cells| && t.cells == s.cells[id := t.cells[id]] && t.cells[id].params == s.cells[id].params
  }

  /** A loop that drains exits once its tasks have ended. */
  lemma {:induction false} DrainingExits(r: SysRun, id: JobId) returns (q: SysRun)
    requires IsSysRun(r) && Last(r).pc == Closing && id < |Last(r).cells|
    requires Last(r).cells[id].job.cancelled && Last(r).cells[id].job.loop == Draining
    ensures ClosesOn(r, q) && OnlyJob(Last(r), Last(q), id) && Last(q).cells[id].job.loop == Exited
  {
    var p := TasksEnd(r, id, |Last(r).cells[id].job.tasks|);
    CountNone(Last(p).cells[id].job.tasks, IsBackground);
    q := JobGoesOn(p, id, ExitLoop);
    GoingOnGoesOn(r, p, q);
  }

  /** Any started job that was cancelled can come to its end by itself. */
  lemma {:induction false} JobExits(r: SysRun, id: JobId) returns (q: SysRun)
    requires IsSysRun(r) && Last(r).pc == Closing && id < |Last(r).cells|
    requires Last(r).cells[id].job.cancelled && Last(r).cells[id].job.loop != NotStarted
    ensures ClosesOn(r, q) && OnlyJob(Last(r), Last(q), id) && Last(q).cells[id].job.loop == Exited
  {
    match Last(r).cells[id].job.loop
    case Exited => q := r;
    case Draining => q := DrainingExits(r, id);
    case Running =>
      var p := JobGoesOn(r, id, Shutdown);
      q := DrainingExits(p, id);
      GoingOnGoesOn(r, p, q);
  }

  /** The jobs that are not in the map are as they were. */
  predicate OnlyCurrent(s: Sys, t: Sys) {
    && |t.cells| == |s.cells|
    && forall id :: 0 <= id < |s.cells| && !IsCurrent(s, id) ==> t.cells[id] == s.cells[id]
  }

  /** A job of the map is cancelled by now, and was started. */
  lemma {:induction false} ClosingJob(r: SysRun, key: JobKey)
    requires IsSysRun(r) && Last(r).pc == Closing && key in Last(r).jobs
    ensures var s := Last(r);
            && s.jobs[key] < |s.cells| && IsCurrent(s, s.jobs[key])
            && s.cells[s.jobs[key]].job.cancelled && s.cells[s.jobs[key]].job.loop != NotStarted
  {
    RunParts(r, |r.steps|);
    RunOwner(r, |r.steps|, Last(r).jobs[key]);
  }

  predicate IsJoined(s: Sys, key: JobKey) {
    key in s.jobs ==> s.jobs[key] < |s.cells| && s.cells[s.jobs[key]].job.loop == Exited
  }

  /** The jobs of the map exit, one after the other. */
  lemma {:induction false} MapExits(r: SysRun, keys: set<JobKey>) returns (q: SysRun)
    requires IsSysRun(r) && Last(r).pc == Closing && keys <= Last(r).jobs.Keys
    requires forall key :: key !in keys ==> IsJoined(Last(r), key)
    ensures ClosesOn(r, q) && AllJoined(Last(q)) && OnlyCurrent(Last(r), Last(q))
    decreases keys
  {
    if keys == {} {
      forall key | key in Last(r).jobs
        ensures Last(r).jobs[key] < |Last(r).cells| && Last(r).cells[Last(r).jobs[key]].job.loop == Exited
      {
        assert IsJoined(Last(r), key);
      }
      return r;
    }
    var key :| key in keys;
    ClosingJob(r, key);
    var p := JobExits(r, Last(r).jobs[key]);
    ExitJoins(Last(r), Last(p), keys, key);
    q := MapExits(p, keys - {key});
    GoingOnGoesOn(r, p, q);
    CurrentOnly(Last(r), Last(p), Last(q), Last(r).jobs[key]);
  }

  lemma {:induction false} ExitJoins(s: Sys, t: Sys, keys: set<JobKey>, key: JobKey)
    requires key in s.jobs && s.jobs[key] < |s.cells| && t == s.(cells := t.cells)
    requires OnlyJob(s, t, s.jobs[key]) && t.cells[s.jobs[key]].job.loop == Exited
    requires forall k :: k !in keys ==> IsJoined(s, k)
    ensures forall k :: k !in keys - {key} ==> IsJoined(t, k)
  {
    forall k | k !in keys - {key} ensures IsJoined(t, k) {
      if k != key { assert IsJoined(s, k); }
    }
  }

  lemma {:induction false} CurrentOnly(s: Sys, t: Sys, u: Sys, id: JobId)
    requires id < |s.cells| && IsCurrent(s, id) && OnlyJob(s, t, id) && t.jobs == s.jobs && OnlyCurrent(t, u)
    ensures OnlyCurrent(s, u)
  {
    forall i | 0 <= i < |s.cells| && !IsCurrent(s, i) ensures u.cells[i] == s.cells[i] {
      assert t.cells[i] == s.cells[i] && !IsCurrent(t, i);
    }
  }

  // ── the writer, and the end ───────────────────────────────────────────

  /** The writer finishes what it has in hand. */
  lemma {:induction false} HandEmpties(r: SysRun) returns (q: SysRun)
    requires IsSysRun(r) && Last(r).pc == AwaitingWriter
    ensures GoesOn(r, q) && Last(q).pc == AwaitingWriter && Last(q).writer == Resting
    ensures Last(q).storeQueue == Last(r).storeQueue && Last(q).cells == Last(r).cells
  {
    q := r;
    if Last(r).writer.Writing? {
      q := Extended(r, WriterAttempt(true, true), Attempted(Last(r), true, true));
    }
  }

  /** The writer drains its queue. */
  lemma {:induction false} QueueEmpties(r: SysRun) returns (q: SysRun)
    requires IsSysRun(r) && Last(r).pc == AwaitingWriter && Last(r).writer == Resting
    ensures GoesOn(r, q) && Last(q).pc == AwaitingWriter && Last(q).writer == Resting
    ensures Last(q).storeQueue == [] && Last(q).cells == Last(r).cells
    decreases |Last(r).storeQueue|
  {
    if Last(r).storeQueue == [] { return r; }
    var p := Extended(r, WriterTake, Advance(Last(r), WriterTake));
    p := HandEmpties(p);
    q := QueueEmpties(p);
  }

  /** Once the jobs of the map have exited, closing can go through without touching any job. */
  lemma {:induction false} JoinedRunEnds(r: SysRun) returns (q: SysRun)
    requires IsSysRun(r) && Last(r).pc == Closing && AllJoined(Last(r))
    ensures GoesOn(r, q) && r.steps + [FinishClosing(false)] <= q.steps
    ensures Last(q).pc == Stopped && Last(q).cells == Last(r).cells
  {
    q := Extended(r, FinishClosing(false), Last(r).(pc := AwaitingWriter));
    q := HandEmpties(q);
    q := QueueEmpties(q);
    q := Extended(q, FinishWriting, Last(q).(pc := Stopped));
  }

  /** Whatever is going on when it begins to close, the service can end without a timeout by its map's jobs alone. */
  lemma {:induction false} ClosingCanEnd(r: SysRun) returns (q: SysRun, i: nat)
    requires IsSysRun(r) && Last(r).pc == Closing
    ensures GoesOn(r, q) && Last(q).pc == Stopped && OnlyCurrent(Last(r), Last(q))
    ensures |r.steps| <= i < |q.steps| && q.steps[i] == FinishClosing(false)
  {
    var p := MapExits(r, Last(r).jobs.Keys);
    i := |p.steps|;
    q := JoinedRunEnds(p);
  }

  /** The job has a tracked task that has not ended. */
  predicate IsUnfinished(s: Sys, id: JobId, t: nat) {
    && id < |s.cells| && t < |s.cells[id].job.tasks|
    && IsTracked(s.cells[id].job.tasks[t]) && s.cells[id].job.tasks[t].pc != Finished
  }

  /** The run closes after `r`, without a timeout and to the end, and the task is still unfinished. */
  ghost predicate Outlives(r: SysRun, q: SysRun, i: nat, id: JobId, t: nat) {
    && GoesOn(r, q) && Last(q).pc == Stopped && IsUnfinished(Last(q), id, t)
    && |r.steps| <= i < |q.steps| && q.steps[i] == FinishClosing(false)
  }

  /**
   * Shutdown waits for exactly the jobs in the map: of what is unfinished when the
   * service begins to close, a task may outlive a close without a timeout if and only
   * if its job is not in the map.
   */
  lemma {:induction false} JoinWaitsForTheMap(r: SysRun, id: JobId, t: nat)
    requires IsSysRun(r) && Last(r).pc == Closing && IsUnfinished(Last(r), id, t)
    ensures (exists q, i :: Outlives(r, q, i, id, t)) <==> !IsCurrent(Last(r), id)
  {
    if !IsCurrent(Last(r), id) {
      var q, i := ClosingCanEnd(r);
      assert Outlives(r, q, i, id, t);
    }
    forall q, i | Outlives(r, q, i, id, t) ensures !IsCurrent(Last(r), id) {
      OnlyForgottenJobsOutliveShutdown(q, i, |q.steps|, id, t);
      if IsCurrent(Last(r), id) { StaysCurrent(r, q, id); }
    }
  }

  lemma {:induction false} StaysCurrent(r: SysRun, q: SysRun, id: JobId)
    requires IsSysRun(r) && Last(r).pc == Closing && GoesOn(r, q) && IsCurrent(Last(r), id)
    ensures IsCurrent(Last(q), id)
  {
    assert q.states[|r.steps|] == Last(r);
    ClosingMapIsFinal(q, |r.steps|, |q.steps|);
    RunParts(q, |q.steps|);
    SameMapSameCurrent(Last(r), Last(q), id);
  }

  lemma {:induction false} SameMapSameCurrent(s: Sys, t: Sys, id: JobId)
    requires MapFits(t) && t.jobs == s.jobs && IsCurrent(s, id)
    ensures IsCurrent(t, id)
  {
  }

  // ── both kinds of such jobs exist ─────────────────────────────────────

  /** The replaced job, its restart attempt in flight. */
  function ReplacedJob(): Job {
    MarkReplaced(ConnectedJob(Calling(Attempt(10, 0)), []))
  }

  const AGAIN: StoreOp := Save(KeyOf(LEAVE), StoredJob(LEAVE, 0), Some(1))

  /** The service with both jobs and both Saves decided. */
  function Both(pc: HandlerPc, queue: seq<StoreOp>, j: Job): Sys {
    Sys(0, true, false, j.cancelled, pc, map[KeyOf(LEAVE) := 1], [Cell(LEAVE, ReplacedJob(), 0), Cell(LEAVE, j, 0)],
        [], [], [], [], queue, Resting, map[], [Reply(0, false, false), Reply(1, false, false)], map[],
        [SAVE, AGAIN], [], {})
  }

  lemma {:induction false} Attempts()
    ensures var j := ConnectedJob(Calling(Check(10, 0)), []);
            && Enabled(j, Run(2, Start), 0)
            && Next(j, Run(2, Start), 0) == ConnectedJob(Calling(Attempt(10, 0)), [])
  {
  }

  lemma {:induction false} TakesAgain(s: Sys, t: Sys)
    requires s == Serving(Idle, ConnectedJob(Calling(Attempt(10, 0)), [])).(addQueue := [LEAVE])
    requires t == Both(Enqueuing(AGAIN, StartJob(1)), [SAVE], NewJob(10, false))
    ensures CanStep(s, TakeAdd) && Advance(s, TakeAdd) == t
  {
    assert s.addQueue[1..] == [];
    var rest := s.(addQueue := []);
    var d := Displaced(rest, KeyOf(LEAVE));
    assert d.cells == [Cell(LEAVE, ReplacedJob(), 0)];
    var a := Added(rest, LEAVE);
    assert a.cells == [Cell(LEAVE, ReplacedJob(), 0), Cell(LEAVE, NewJob(10, false), 0)];
    assert a.jobs == map[KeyOf(LEAVE) := 1];
    assert a.replies == [Reply(0, false, false), Reply(1, false, false)];
    assert a.decided + [AGAIN] == [SAVE, AGAIN];
  }

  /** The job is replaced while its attempt is in flight. */
  lemma {:induction false} Tries() returns (r: SysRun)
    ensures IsSysRun(r) && Last(r) == Serving(Idle, ConnectedJob(Calling(Attempt(10, 0)), []))
  {
    r := Joins();
    Attempts();
    r := Works(r, ConnectedJob(Calling(Check(10, 0)), []), Run(2, Start), ConnectedJob(Calling(Attempt(10, 0)), []));
  }

  lemma {:induction false} Replaces() returns (r: SysRun)
    ensures IsSysRun(r) && Last(r) == Both(Idle, [SAVE, AGAIN], WaitingJob([]))
  {
    r := Tries();
    r := Extended(r, Submit(LEAVE), Last(r).(addQueue := [LEAVE]));
    var t := Both(Enqueuing(AGAIN, StartJob(1)), [SAVE], NewJob(10, false));
    TakesAgain(Last(r), t);
    r := Extended(r, TakeAdd, t);
    Starts();
    assert [SAVE] + [AGAIN] == [SAVE, AGAIN];
    assert t.cells[1 := Cell(LEAVE, WaitingJob([]), 0)]
           == [Cell(LEAVE, ReplacedJob(), 0), Cell(LEAVE, WaitingJob([]), 0)];
    r := Extended(r, Enqueue, Both(Idle, [SAVE, AGAIN], WaitingJob([])));
  }

  /** Shutdown begins. */
  lemma {:induction false} Closes(r: SysRun) returns (q: SysRun)
    requires IsSysRun(r) && Last(r).pc == Idle
    ensures GoesOn(r, q) && Last(q).pc == Closing && Last(q).jobs == Last(r).jobs
    ensures Last(q).cells == CancelCells(Last(r).cells)
  {
    q := Extended(r, CancelAll, Last(r).(cancelled := true, cells := CancelCells(Last(r).cells)));
    q := Extended(q, StartClosing, Last(q).(pc := Closing, doneQueue := []));
  }

  /** A task whose job is not in the map when shutdown begins may be as unfinished when it ends. */
  lemma {:induction false} ForgottenOutlives(r: SysRun, id: JobId, t: nat) returns (q: SysRun, i: nat)
    requires IsSysRun(r) && Last(r).pc == Idle && id < |Last(r).cells| && !IsCurrent(Last(r), id)
    requires t < |Last(r).cells[id].job.tasks|
    ensures GoesOn(r, q) && Last(q).pc == Stopped && i < |q.steps| && q.steps[i] == FinishClosing(false)
    ensures id < |Last(q).cells| && Last(q).cells[id].job == MarkCancelled(Last(r).cells[id].job)
  {
    var p := Closes(r);
    assert !IsCurrent(Last(p), id);
    q, i := ClosingCanEnd(p);
  }

  /**
   * There is a run in which the handler, without any timeout, has flagged that it is
   * done while the restart attempt of a replaced job is still in flight.
   */
  lemma {:induction false} ReplacedJobOutlivesShutdown() returns (r: SysRun, i: nat)
    ensures IsSysRun(r) && Last(r).pc == Stopped
    ensures i < |r.steps| && r.steps[i] == FinishClosing(false)
    ensures var s := Last(r);
            && |s.cells| > 0 && s.cells[0].job.replaced && |s.cells[0].job.tasks| > 2
            && s.cells[0].job.tasks[2] == Task(Restart, Calling(Attempt(10, 0)))
  {
    r := Replaces();
    r, i := ForgottenOutlives(r, 0, 2);
  }

  /** The same of a job that had retired after reporting that its leave was done. */
  lemma {:induction false} RetiredJobOutlivesShutdown() returns (r: SysRun, i: nat)
    ensures IsSysRun(r) && Last(r).pc == Stopped
    ensures i < |r.steps| && r.steps[i] == FinishClosing(false)
    ensures var s := Last(r);
            && |s.cells| > 0 && !s.cells[0].job.replaced && s.cells[0].job.doneSent == 1 && |s.cells[0].job.tasks| > 2
            && s.cells[0].job.tasks[2] == Task(Restart, Calling(Attempt(10, 0)))
  {
    r := Retired();
    r, i := ForgottenOutlives(r, 0, 2);
  }

  /** The retired job starts its attempt, and then its Delete is queued. */
  lemma {:induction false} Retired() returns (r: SysRun)
    ensures IsSysRun(r) && Last(r).pc == Idle && |Last(r).cells| == 1 && Last(r).jobs == map[]
    ensures var j := Last(r).cells[0].job;
            && !j.replaced && j.doneSent == 1 && |j.tasks| > 2
            && j.tasks[2] == Task(Restart, Calling(Attempt(10, 0)))
  {
    r := ReachesWindow();
    var s := Last(r);
    WindowAllows(s);
    r := Extended(r, Work(0, Run(2, Start)), DoWork(s, 0, Run(2, Start)));
    s := Last(r);
    r := Extended(r, Enqueue, AfterEnqueue(s.(storeQueue := s.storeQueue + [s.pc.op], pc := Idle), s.pc.next));
  }
}
