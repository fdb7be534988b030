/**
 * A job the handler has taken out of its map is stopped only once its Delete is
 * queued. This module walks one run into that window and finds the retired job
 * about to start a restart attempt.
 */
module RetiringWindow {
  import opened Support
  import opened Fsm
  import opened JobModel
  import opened JobProperties
  import opened HandlerModel
  import opened HandlerInvariant

  const LEAVE: Params := Params("room", "alice", 10, "")

  function Last(r: SysRun): Sys
    requires |r.states| > 0
  {
    r.states[|r.states| - 1]
  }

  lemma {:induction false} Extended(r: SysRun, st: SysStep, t: Sys) returns (q: SysRun)
    requires IsSysRun(r) && CanStep(Last(r), st) && t == Advance(Last(r), st)
    ensures IsSysRun(q) && Last(q) == t && q.steps == r.steps + [st] && q.states == r.states + [t]
  {
    q := SysTrace(r.states + [t], r.steps + [st]);
    var n := |r.steps|;
    forall i | 0 <= i < |q.steps| ensures IsStepAt(q, i) {
      if i < n {
        assert IsStepAt(r, i);
        assert q.states[i] == r.states[i] && q.states[i + 1] == r.states[i + 1] && q.steps[i] == r.steps[i];
      }
    }
    assert q.states[0] == r.states[0];
  }

  // ── the job's own part ────────────────────────────────────────────────

  const LOOKING: Task := Task(Lookup, Calling(Check(10, 0)))

  function WaitingJob(events: seq<Signal>): Job {
    Job(10, false, WaitingForInitialConnect, None, Some(1), None,
        [LOOKING, Task(WaitingTimer, Sleep(10, false))], events, None,
        false, Running, false, [WaitingForInitialConnect], [], 0)
  }

  function ConnectedJob(restart: Pc, events: seq<Signal>): Job {
    Job(10, false, Connected, Some(10), None, None,
        [LOOKING, Task(WaitingTimer, Sleep(10, true)), Task(Restart, restart)], events, None,
        false, Running, false, [WaitingForInitialConnect, Connected], [], 0)
  }

  function DisconnectedJob(send: Pc, sent: nat): Job {
    Job(10, false, Disconnected, Some(10), None, None,
        [LOOKING, Task(WaitingTimer, Sleep(10, true)), Task(Restart, Calling(Check(10, 0))),
         Task(SendAction, send)], [], None,
        false, Running, false, [WaitingForInitialConnect, Connected, Disconnected], [], sent)
  }

  lemma {:induction false} Starts()
    ensures Launch(NewJob(10, false), 0) == WaitingJob([])
  {
  }

  lemma {:induction false} Connects()
    ensures Enabled(WaitingJob([ParticipantConnected]), Dispatch, 0)
    ensures Next(WaitingJob([ParticipantConnected]), Dispatch, 0) == ConnectedJob(Calling(Resolve(10)), [])
  {
    var j := WaitingJob([ParticipantConnected]);
    assert j.events[1..] == [];
    var t := StopTimer(j.tasks, Some(1));
    assert t == [LOOKING, Task(WaitingTimer, Sleep(10, true))];
  }

  lemma {:induction false} Resolves()
    ensures Enabled(ConnectedJob(Calling(Resolve(10)), []), Run(2, Resolved), 0)
    ensures Next(ConnectedJob(Calling(Resolve(10)), []), Run(2, Resolved), 0) == ConnectedJob(Calling(Check(10, 0)), [])
  {
  }

  lemma {:induction false} Disconnects()
    ensures var j := ConnectedJob(Calling(Check(10, 0)), [ParticipantDisconnectedIntentionally]);
            Enabled(j, Dispatch, 0) && Next(j, Dispatch, 0) == DisconnectedJob(Calling(Resolve(SECOND)), 0)
  {
    var j := ConnectedJob(Calling(Check(10, 0)), [ParticipantDisconnectedIntentionally]);
    assert j.events[1..] == [];
  }

  lemma {:induction false} Fails()
    ensures var j := DisconnectedJob(Calling(Resolve(SECOND)), 0);
            Enabled(j, Run(3, Unresolved), 0) && Next(j, Run(3, Unresolved), 0) == DisconnectedJob(Notify, 0)
  {
  }

  lemma {:induction false} Notifies()
    ensures Enabled(DisconnectedJob(Notify, 0), Run(3, Put), 0)
    ensures Next(DisconnectedJob(Notify, 0), Run(3, Put), 0) == DisconnectedJob(Finished, 1)
  {
  }

  // ── the handler's part ────────────────────────────────────────────────

  const SAVE: StoreOp := Save(KeyOf(LEAVE), StoredJob(LEAVE, 0), Some(0))

  /** The service with this one job, its Save queued. */
  function Serving(pc: HandlerPc, j: Job): Sys {
    Sys(0, true, false, false, pc, map[KeyOf(LEAVE) := 0], [Cell(LEAVE, j, 0)], [], [], [], [],
        [SAVE], Resting, map[], [Reply(0, false, false)], map[], [SAVE], [], {})
  }

  /** The service before it has any job. */
  const EMPTY: Sys :=
    Sys(0, true, false, false, Idle, map[], [], [], [], [], [], [], Resting, map[], [], map[], [], [], {})

  lemma {:induction false} Boots() returns (r: SysRun)
    ensures IsSysRun(r) && Last(r) == Serving(Idle, WaitingJob([]))
  {
    var s := EMPTY.(pc := Recovering([]));
    r := SysTrace([s], []);
    assert IsBoot(s);
    r := Extended(r, FinishRecovery, s.(pc := Idle));
    r := Extended(r, Submit(LEAVE), s.(pc := Idle, addQueue := [LEAVE]));
    var fresh' := NewJob(10, false);
    var t := Serving(Enqueuing(SAVE, StartJob(0)), fresh').(storeQueue := []);
    Takes(Last(r), t);
    r := Extended(r, TakeAdd, t);
    Starts();
    Queues(t);
    r := Extended(r, Enqueue, Serving(Idle, WaitingJob([])));
  }

  lemma {:induction false} Takes(s: Sys, t: Sys)
    requires s == EMPTY.(addQueue := [LEAVE])
    requires t == Serving(Enqueuing(SAVE, StartJob(0)), NewJob(10, false)).(storeQueue := [])
    ensures CanStep(s, TakeAdd) && Advance(s, TakeAdd) == t
  {
    var rest := s.(addQueue := []);
    assert s.addQueue[1..] == [];
    var a := Added(rest, LEAVE);
    assert a.cells == [Cell(LEAVE, NewJob(10, false), 0)];
    assert a.jobs == map[KeyOf(LEAVE) := 0];
    assert a.replies == [Reply(0, false, false)];
  }

  lemma {:induction false} Queues(t: Sys)
    requires t == Serving(Enqueuing(SAVE, StartJob(0)), NewJob(10, false)).(storeQueue := [])
    ensures CanStep(t, Enqueue) && Advance(t, Enqueue) == Serving(Idle, Launch(NewJob(10, false), 0))
  {
  }

  lemma {:induction false} Receives(j: Job, h: Webhook, e: Signal)
    requires FromWebhook(h) == Some(e)
    ensures CanStep(Serving(Idle, j), Hook(KeyOf(LEAVE), h))
    ensures Advance(Serving(Idle, j), Hook(KeyOf(LEAVE), h))
            == Serving(Idle, j).(sfuQueue := [SfuEvent(KeyOf(LEAVE), e)])
  {
  }

  lemma {:induction false} Routes(j: Job, e: Signal)
    requires IsWebhookSignal(e)
    ensures var s := Serving(Idle, j).(sfuQueue := [SfuEvent(KeyOf(LEAVE), e)]);
            CanStep(s, TakeSfu) && Advance(s, TakeSfu) == Serving(Routing(0, e), j)
  {
    var s := Serving(Idle, j).(sfuQueue := [SfuEvent(KeyOf(LEAVE), e)]);
    assert s.sfuQueue[1..] == [];
  }

  lemma {:induction false} Forwards(j: Job, e: Signal, k: Job)
    requires IsWebhookSignal(e) && j.events == [] && j.loop == Running && k == j.(events := [e])
    ensures CanStep(Serving(Routing(0, e), j), Forward)
    ensures Advance(Serving(Routing(0, e), j), Forward) == Serving(Idle, k)
  {
    var s := Serving(Routing(0, e), j);
    assert j.events + [e] == [e];
    assert s.cells[0 := Cell(LEAVE, k, 0)] == [Cell(LEAVE, k, 0)];
  }

  /** A webhook for the job is received, routed and delivered. */
  lemma {:induction false} Delivers(r: SysRun, j: Job, h: Webhook, e: Signal, k: Job) returns (q: SysRun)
    requires IsSysRun(r) && Last(r) == Serving(Idle, j)
    requires FromWebhook(h) == Some(e) && IsWebhookSignal(e)
    requires j.events == [] && j.loop == Running && k == j.(events := [e])
    ensures IsSysRun(q) && Last(q) == Serving(Idle, k)
  {
    Receives(j, h, e);
    q := Extended(r, Hook(KeyOf(LEAVE), h), Serving(Idle, j).(sfuQueue := [SfuEvent(KeyOf(LEAVE), e)]));
    Routes(j, e);
    q := Extended(q, TakeSfu, Serving(Routing(0, e), j));
    Forwards(j, e, k);
    q := Extended(q, Forward, Serving(Idle, k));
  }

  /** A step of the job that sends nothing to the handler. */
  lemma {:induction false} Works(r: SysRun, j: Job, step: Step, k: Job) returns (q: SysRun)
    requires IsSysRun(r) && Last(r) == Serving(Idle, j) && IsOwnStep(step)
    requires Enabled(j, step, 0) && Next(j, step, 0) == k
    requires !SendsDone(j, step) && !SendsRestarted(j, step)
    ensures IsSysRun(q) && Last(q) == Serving(Idle, k)
  {
    assert Serving(Idle, j).cells[0 := Cell(LEAVE, k, 0)] == [Cell(LEAVE, k, 0)];
    q := Extended(r, Work(0, step), Serving(Idle, k));
  }

  lemma {:induction false} ReportsDone(r: SysRun) returns (q: SysRun)
    requires IsSysRun(r) && Last(r) == Serving(Idle, DisconnectedJob(Notify, 0))
    ensures IsSysRun(q) && Last(q) == Serving(Idle, DisconnectedJob(Finished, 1)).(doneQueue := [0])
  {
    Notifies();
    var k := DisconnectedJob(Finished, 1);
    assert Serving(Idle, DisconnectedJob(Notify, 0)).cells[0 := Cell(LEAVE, k, 0)] == [Cell(LEAVE, k, 0)];
    q := Extended(r, Work(0, Run(3, Put)), Serving(Idle, k).(doneQueue := [0]));
  }

  lemma {:induction false} Retires(r: SysRun, t: Sys) returns (q: SysRun)
    requires IsSysRun(r) && Last(r) == Serving(Idle, DisconnectedJob(Finished, 1)).(doneQueue := [0])
    requires var op := Delete(KeyOf(LEAVE));
             t == Serving(Enqueuing(op, StopJob(0)), DisconnectedJob(Finished, 1))
                    .(jobs := map[], decided := [SAVE, op])
    ensures IsSysRun(q) && Last(q) == t
  {
    var s := Last(r);
    assert s.doneQueue[1..] == [];
    assert s.jobs - {KeyOf(LEAVE)} == map[];
    assert s.decided + [Delete(KeyOf(LEAVE))] == [SAVE, Delete(KeyOf(LEAVE))];
    q := Extended(r, TakeDone, t);
  }

  /** The participant joins, and the first restart resolves the URL. */
  lemma {:induction false} Joins() returns (r: SysRun)
    ensures IsSysRun(r) && Last(r) == Serving(Idle, ConnectedJob(Calling(Check(10, 0)), []))
  {
    r := Boots();
    r := Delivers(r, WaitingJob([]), Webhook.Joined, ParticipantConnected, WaitingJob([ParticipantConnected]));
    Connects();
    r := Works(r, WaitingJob([ParticipantConnected]), Dispatch, ConnectedJob(Calling(Resolve(10)), []));
    Resolves();
    r := Works(r, ConnectedJob(Calling(Resolve(10)), []), Run(2, Resolved), ConnectedJob(Calling(Check(10, 0)), []));
  }

  /** And then leaves. */
  lemma {:induction false} Leaves() returns (r: SysRun)
    ensures IsSysRun(r) && Last(r) == Serving(Idle, DisconnectedJob(Calling(Resolve(SECOND)), 0))
  {
    r := Joins();
    var leaving := ConnectedJob(Calling(Check(10, 0)), [ParticipantDisconnectedIntentionally]);
    r := Delivers(r, ConnectedJob(Calling(Check(10, 0)), []), Webhook.Left(true), ParticipantDisconnectedIntentionally,
      leaving);
    Disconnects();
    r := Works(r, leaving, Dispatch, DisconnectedJob(Calling(Resolve(SECOND)), 0));
  }

  predicate IsWindow(s: Sys) {
    var op := Delete(KeyOf(LEAVE));
    s == Serving(Enqueuing(op, StopJob(0)), DisconnectedJob(Finished, 1)).(jobs := map[], decided := [SAVE, op])
  }

  lemma {:induction false} WindowAllows(s: Sys)
    requires IsWindow(s)
    ensures |s.cells| == 1 && !IsCurrent(s, 0) && !s.cancelled
    ensures CanStep(s, Work(0, Run(2, Start))) && StartsAttempt(s.cells[0].job, Run(2, Start))
    ensures s.cells[0].job.tasks[2].kind == Restart
  {
  }

  lemma {:induction false} ReachesWindow() returns (r: SysRun)
    ensures IsSysRun(r) && IsWindow(Last(r))
  {
    r := Leaves();
    Fails();
    r := Works(r, DisconnectedJob(Calling(Resolve(SECOND)), 0), Run(3, Unresolved), DisconnectedJob(Notify, 0));
    r := ReportsDone(r);
    var op := Delete(KeyOf(LEAVE));
    var t := Serving(Enqueuing(op, StopJob(0)), DisconnectedJob(Finished, 1)).(jobs := map[], decided := [SAVE, op]);
    r := Retires(r, t);
  }

  /**
   * There is a run in which a retired job, out of the map and its leave given up,
   * may start a restart attempt: its restart was still trying when the participant
   * left, and the handler has yet to queue the Delete.
   */
  lemma {:induction false} RetiredJobMayStartRestart() returns (r: SysRun, step: Step)
    ensures IsSysRun(r)
    ensures var s := Last(r);
            && |s.cells| == 1 && !IsCurrent(s, 0) && !s.cancelled
            && CanStep(s, Work(0, step)) && StartsAttempt(s.cells[0].job, step)
            && s.cells[0].job.tasks[step.task].kind == Restart
  {
    r := ReachesWindow();
    step := Run(2, Start);
    WindowAllows(Last(r));
  }
}
