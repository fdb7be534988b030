/**
 * Seen from one of its jobs, a run of the whole system is a run of that job. So what
 * holds over the runs of a job holds for each job the handler creates.
 */
module JobsOfTheHandler {
  import opened Support
  import opened Fsm
  import opened JobModel
  import opened JobInvariant
  import opened JobProperties
  import opened HandlerModel
  import opened HandlerInvariant
  import opened HandlerProperties
  import opened LastWord

  // ── what a step of the system is to a job ─────────────────────────────

  predicate Moves(j: Job, k: Job, now: nat, step: Option<Step>) {
    match step
    case None => k == j
    case Some(x) => Enabled(j, x, now) && k == Next(j, x, now)
  }

  lemma {:induction false} FollowedMoves(cells: seq<Cell>, next: Then, now: nat, id: JobId) returns (step: Option<Step>)
    requires id < |cells|
    ensures |Followed(cells, next, now)| == |cells|
    ensures Moves(cells[id].job, Followed(cells, next, now)[id].job, now, step)
    ensures step.None? || step == Some(Begin) || step == Some(Cancel)
  {
    step := None;
    if next == StartJob(id) && cells[id].job.loop == NotStarted { step := Some(Begin); }
    if next == StopJob(id) { step := Some(Cancel); }
  }

  lemma {:induction false} DecideMoves(s: Sys, op: StoreOp, next: Then, id: JobId) returns (step: Option<Step>)
    requires id < |s.cells|
    ensures |Decide(s, op, next).cells| == |s.cells|
    ensures Moves(s.cells[id].job, Decide(s, op, next).cells[id].job, s.now, step)
    ensures step.None? || step == Some(Begin) || step == Some(Cancel)
  {
    step := None;
    if !s.hasStore { step := FollowedMoves(s.cells, next, s.now, id); }
  }

  lemma {:induction false} AddMoves(s: Sys, p: Params, id: JobId) returns (step: Option<Step>)
    requires MapFits(s) && id < |s.cells|
    ensures |AddJob(s, p).cells| == |s.cells| + 1
    ensures Moves(s.cells[id].job, AddJob(s, p).cells[id].job, s.now, step)
    ensures step.None? || step == Some(Replace)
  {
    DisplacedIs(s, KeyOf(p), id);
    AddedIs(s, p, id);
    AddedSize(s, p);
    step := if IsCurrent(s, id) && KeyOf(s.cells[id].params) == KeyOf(p) then Some(Replace) else None;
    assert AddJob(s, p).cells[id] == Added(s, p).cells[id];
  }

  lemma {:induction false} AddedSize(s: Sys, p: Params)
    requires MapFits(s)
    ensures var t := Added(s, p);
            && |t.cells| == |s.cells| + 1 && t.now == s.now && t.hasStore == s.hasStore
            && t.cells[|s.cells|].job == NewJob(p.timeout, s.sanity).(cancelled := s.cancelled)
  {
    var d := Displaced(s, KeyOf(p));
    assert d == s.(cells := d.cells) && |d.cells| == |s.cells|;
  }

  lemma {:induction false} TakeMoves(s: Sys, st: SysStep, id: JobId) returns (step: Option<Step>)
    requires MapFits(s) && CanStep(s, st) && id < |s.cells| && (st.TakeAdd? || st.TakeDone? || st.TakeRestarted?)
    ensures id < |Advance(s, st).cells| && Moves(s.cells[id].job, Advance(s, st).cells[id].job, s.now, step)
    ensures step.None? || !IsOwnStep(step.value)
  {
    step := None;
    match st
    case TakeAdd =>
      if s.addQueue[0].timeout > 0 { step := AddMoves(s.(addQueue := s.addQueue[1..]), s.addQueue[0], id); }
    case TakeDone =>
      var rest, head := s.(doneQueue := s.doneQueue[1..]), s.doneQueue[0];
      var key := KeyOf(s.cells[head].params);
      if IsCurrent(rest, head) {
        step := DecideMoves(rest.(jobs := s.jobs - {key}), Delete(key), StopJob(head), id);
      }
    case TakeRestarted => NotedSame(s, id);
  }

  lemma {:induction false} NotedSame(s: Sys, id: JobId)
    requires CanStep(s, TakeRestarted) && id < |s.cells|
    ensures |Advance(s, TakeRestarted).cells| == |s.cells|
    ensures Advance(s, TakeRestarted).cells[id].job == s.cells[id].job
  {
  }

  lemma {:induction false} RecoverMoves(s: Sys, ok: bool, applied: bool, id: JobId)
    requires CanStep(s, RecoverNext(ok, applied)) && id < |s.cells|
    ensures var t := Advance(s, RecoverNext(ok, applied)); id < |t.cells| && t.cells[id] == s.cells[id]
  {
    var e, rest := s.pc.rest[0], s.pc.rest[1..];
    assert Advance(s, RecoverNext(ok, applied)).cells
           == if Survives(e, s.now) then Revive(s, e, rest).cells else Discard(s, e, rest, ok, applied).cells;
  }

  lemma {:induction false} WorkMoves(s: Sys, i: JobId, step: Step, id: JobId)
    requires CanStep(s, Work(i, step)) && id < |s.cells|
    ensures var t := DoWork(s, i, step);
            && |t.cells| == |s.cells|
            && t.cells[id].job == if i == id then Next(s.cells[id].job, step, s.now) else s.cells[id].job
  {
  }

  lemma {:induction false} ForwardMoves(s: Sys, id: JobId)
    requires CanStep(s, Forward) && id < |s.cells|
    ensures var t := Advance(s, Forward);
            && |t.cells| == |s.cells|
            && t.cells[id].job
               == if s.pc.id == id then Next(s.cells[id].job, Deliver(s.pc.signal), s.now) else s.cells[id].job
  {
  }

  lemma {:induction false} CancelMoves(s: Sys, id: JobId)
    requires id < |s.cells|
    ensures |Advance(s, CancelAll).cells| == |s.cells|
    ensures Advance(s, CancelAll).cells[id].job == Next(s.cells[id].job, Cancel, s.now)
  {
  }

  /** A step of the system is one step of a job that exists, or none; only Work is a step of the job's own. */
  lemma {:induction false} SysStepMoves(s: Sys, st: SysStep, id: JobId) returns (step: Option<Step>)
    requires MapFits(s) && CanStep(s, st) && id < |s.cells|
    ensures id < |Advance(s, st).cells| && Moves(s.cells[id].job, Advance(s, st).cells[id].job, s.now, step)
    ensures step.Some? && IsOwnStep(step.value) ==> st == Work(id, step.value)
  {
    step := None;
    match st
    case RecoverNext(ok, applied) => RecoverMoves(s, ok, applied, id);
    case TakeAdd => step := TakeMoves(s, st, id);
    case TakeDone => step := TakeMoves(s, st, id);
    case TakeRestarted => step := TakeMoves(s, st, id);
    case Enqueue => step := FollowedMoves(s.cells, s.pc.next, s.now, id);
    case Work(i, own) =>
      WorkMoves(s, i, own, id);
      if i == id { step := Some(own); }
    case Forward =>
      ForwardMoves(s, id);
      if s.pc.id == id { step := Some(Deliver(s.pc.signal)); }
    case CancelAll =>
      CancelMoves(s, id);
      step := Some(Cancel);
    case Tick(_) =>
    case _ => CellsUntouched(s, st);
  }

  // ── new jobs ──────────────────────────────────────────────────────────

  /** A job as the handler creates it: fresh, cancelled if the service is, and started at once if no Save is queued. */
  ghost predicate IsCreated(j: Job, now: nat) {
    exists timeout, sanity, cancelled :: IsCreatedAs(j, now, timeout, sanity, cancelled)
  }

  predicate IsCreatedAs(j: Job, now: nat, timeout: nat, sanity: bool, cancelled: bool) {
    var fresh' := NewJob(timeout, sanity).(cancelled := cancelled);
    timeout > 0 && (j == fresh' || j == Launch(fresh', now))
  }

  lemma {:induction false} AddCreates(s: Sys, p: Params)
    requires MapFits(s) && p.timeout > 0
    ensures |AddJob(s, p).cells| == |s.cells| + 1 && IsCreated(AddJob(s, p).cells[|s.cells|].job, s.now)
  {
    AddedSize(s, p);
    assert IsCreatedAs(AddJob(s, p).cells[|s.cells|].job, s.now, p.timeout, s.sanity, s.cancelled);
  }

  lemma {:induction false} RecoverCreates(s: Sys, ok: bool, applied: bool)
    requires CanStep(s, RecoverNext(ok, applied))
    ensures var t := Advance(s, RecoverNext(ok, applied));
            t.cells == s.cells || (|t.cells| == |s.cells| + 1 && IsCreated(t.cells[|s.cells|].job, s.now))
  {
    var e, rest := s.pc.rest[0], s.pc.rest[1..];
    assert Advance(s, RecoverNext(ok, applied)) == RecoverEntry(s, e, rest, ok, applied);
    if Survives(e, s.now) { ReviveCreates(s, e, rest); }
  }

  lemma {:induction false} ReviveCreates(s: Sys, e: StoredJob, rest: seq<StoredJob>)
    requires e.params.timeout > 0
    ensures |Revive(s, e, rest).cells| == |s.cells| + 1 && IsCreated(Revive(s, e, rest).cells[|s.cells|].job, s.now)
  {
    assert IsCreatedAs(Revive(s, e, rest).cells[|s.cells|].job, s.now, e.params.timeout, s.sanity, s.cancelled);
  }

  lemma {:induction false} TakeSize(s: Sys, st: SysStep)
    requires CanStep(s, st) && (st.TakeDone? || st.TakeRestarted? || st.Enqueue?)
    ensures |Advance(s, st).cells| == |s.cells|
  {
  }

  lemma {:induction false} TouchSize(s: Sys, st: SysStep)
    requires CanStep(s, st) && (st.Work? || st.Forward? || st.CancelAll? || st.Tick?)
    ensures |Advance(s, st).cells| == |s.cells|
  {
    if st.Work? { assert Advance(s, st) == DoWork(s, st.id, st.step); }
  }

  /** At most one job is new. */
  lemma {:induction false} SysStepCreates(s: Sys, st: SysStep)
    requires MapFits(s) && CanStep(s, st)
    ensures var t := Advance(s, st);
            |t.cells| == |s.cells| || (|t.cells| == |s.cells| + 1 && IsCreated(t.cells[|s.cells|].job, s.now))
  {
    if st.RecoverNext? {
      RecoverCreates(s, st.ok, st.applied);
    } else if st.TakeAdd? {
      var rest, p := s.(addQueue := s.addQueue[1..]), s.addQueue[0];
      if p.timeout > 0 { AddCreates(rest, p); }
    } else if st.TakeDone? || st.TakeRestarted? || st.Enqueue? {
      TakeSize(s, st);
    } else if st.Work? || st.Forward? || st.CancelAll? || st.Tick? {
      TouchSize(s, st);
    } else {
      CellsUntouched(s, st);
    }
  }

  /** A run that ends with the job as it was created, before any step of its own. */
  lemma {:induction false} CreationRun(j: Job, now: nat, later: nat) returns (q: JobRun)
    requires IsCreated(j, now) && now <= later
    ensures IsRun(q) && q.jobs[|q.steps|] == j && q.clocks[|q.steps|] == later
    ensures forall k :: 0 <= k < |q.steps| ==> !IsOwnStep(q.steps[k])
  {
    var timeout, sanity, cancelled :| IsCreatedAs(j, now, timeout, sanity, cancelled);
    var fresh' := NewJob(timeout, sanity);
    q := Trace([fresh'], [now], []);
    if cancelled { q := Longer(q, Cancel, fresh'.(cancelled := true), now); }
    fresh' := fresh'.(cancelled := cancelled);
    if j != fresh' { q := Longer(q, Begin, j, now); }
    q := Later(q, later);
  }

  // ── the projection ────────────────────────────────────────────────────

  /** Step `k` of the job's run is a step of its own that happened in the system's run at moment `i`. */
  predicate IsWorkOf(r: SysRun, i: nat, id: JobId, q: JobRun, k: nat)
    requires i < |r.steps| < |r.states| && k < |q.steps| < |q.jobs| && |q.clocks| == |q.jobs|
  {
    && r.steps[i] == Work(id, q.steps[k])
    && id < |r.states[i].cells| && r.states[i].cells[id].job == q.jobs[k] && r.states[i].now == q.clocks[k]
  }

  /** The job's run ends with the state the job is in at moment `n`, and its own steps all happened before. */
  ghost predicate IsRunOf(r: SysRun, n: nat, id: JobId, q: JobRun)
    requires IsSysRun(r) && n < |r.states| && id < |r.states[n].cells|
  {
    && IsRun(q) && q.jobs[|q.steps|] == r.states[n].cells[id].job && q.clocks[|q.steps|] == r.states[n].now
    && forall k :: 0 <= k < |q.steps| && IsOwnStep(q.steps[k]) ==> exists i :: 0 <= i < n && IsWorkOf(r, i, id, q, k)
  }

  lemma {:induction false} WorksStay(r: SysRun, n: nat, m: nat, id: JobId, p: JobRun, q: JobRun)
    requires IsSysRun(r) && n <= m <= |r.steps| && IsRun(p) && IsRun(q)
    requires p.jobs <= q.jobs && p.steps <= q.steps && p.clocks[..|p.steps|] == q.clocks[..|p.steps|]
    requires forall k :: 0 <= k < |p.steps| && IsOwnStep(p.steps[k]) ==>
               exists i :: 0 <= i < n && IsWorkOf(r, i, id, p, k)
    ensures forall k :: 0 <= k < |p.steps| && IsOwnStep(q.steps[k]) ==>
              exists i :: 0 <= i < m && IsWorkOf(r, i, id, q, k)
  {
    forall k | 0 <= k < |p.steps| && IsOwnStep(q.steps[k]) ensures exists i :: 0 <= i < m && IsWorkOf(r, i, id, q, k) {
      var i :| 0 <= i < n && IsWorkOf(r, i, id, p, k);
      assert q.clocks[k] == p.clocks[..|p.steps|][k];
      assert IsWorkOf(r, i, id, q, k);
    }
  }

  /** Every job of every run of the system has such a run of its own. */
  lemma {:induction false} RunOfJob(r: SysRun, n: nat, id: JobId) returns (q: JobRun)
    requires IsSysRun(r) && n < |r.states| && id < |r.states[n].cells|
    ensures IsRunOf(r, n, id, q)
    decreases n
  {
    BootsWithoutJobs(r);
    SysRunInv(r, n - 1);
    if id < |r.states[n - 1].cells| {
      var p := RunOfJob(r, n - 1, id);
      q := RunGoesOn(r, n, id, p);
    } else {
      q := RunStarts(r, n, id);
    }
  }

  lemma {:induction false} BootsWithoutJobs(r: SysRun)
    requires IsSysRun(r)
    ensures r.states[0].cells == []
  {
  }

  lemma {:induction false} RunStarts(r: SysRun, n: nat, id: JobId) returns (q: JobRun)
    requires IsSysRun(r) && 0 < n < |r.states| && |r.states[n - 1].cells| <= id < |r.states[n].cells|
    requires MapFits(r.states[n - 1])
    ensures IsRunOf(r, n, id, q)
  {
    var s, st := r.states[n - 1], r.steps[n - 1];
    StepOfRun(r, n - 1);
    StepClock(s, st);
    SysStepCreates(s, st);
    q := CreationRun(r.states[n].cells[id].job, s.now, r.states[n].now);
  }

  lemma {:induction false} RunGoesOn(r: SysRun, n: nat, id: JobId, p: JobRun) returns (q: JobRun)
    requires IsSysRun(r) && 0 < n < |r.states| && id < |r.states[n - 1].cells| && IsRunOf(r, n - 1, id, p)
    requires MapFits(r.states[n - 1])
    ensures id < |r.states[n].cells| && IsRunOf(r, n, id, q)
  {
    var s, st := r.states[n - 1], r.steps[n - 1];
    StepOfRun(r, n - 1);
    StepClock(s, st);
    var step := SysStepMoves(s, st, id);
    match step
    case None => q := RunWaits(r, n, id, p);
    case Some(x) => q := RunSteps(r, n, id, p, x);
  }

  lemma {:induction false} RunWaits(r: SysRun, n: nat, id: JobId, p: JobRun) returns (q: JobRun)
    requires IsSysRun(r) && 0 < n < |r.states| && id < |r.states[n - 1].cells| && IsRunOf(r, n - 1, id, p)
    requires id < |r.states[n].cells| && r.states[n].cells[id].job == r.states[n - 1].cells[id].job
    requires r.states[n - 1].now <= r.states[n].now
    ensures IsRunOf(r, n, id, q)
  {
    q := Later(p, r.states[n].now);
    WorksStay(r, n - 1, n, id, p, q);
  }

  lemma {:induction false} RunSteps(r: SysRun, n: nat, id: JobId, p: JobRun, x: Step) returns (q: JobRun)
    requires IsSysRun(r) && 0 < n < |r.states| && id < |r.states[n - 1].cells| && IsRunOf(r, n - 1, id, p)
    requires id < |r.states[n].cells| && r.states[n - 1].now <= r.states[n].now
    requires Moves(r.states[n - 1].cells[id].job, r.states[n].cells[id].job, r.states[n - 1].now, Some(x))
    requires IsOwnStep(x) ==> r.steps[n - 1] == Work(id, x)
    ensures IsRunOf(r, n, id, q)
  {
    q := Longer(p, x, r.states[n].cells[id].job, r.states[n].now);
    WorksStay(r, n - 1, n, id, p, q);
    if IsOwnStep(x) { assert IsWorkOf(r, n - 1, id, q, |p.steps|); }
  }

  // ── a leave, from end to end ──────────────────────────────────────────

  lemma {:induction false} ReplacedStays(j: Job, s: Step, now: nat)
    requires Enabled(j, s, now) && j.replaced
    ensures Next(j, s, now).replaced
  {
    if s == Dispatch { DispatchSameFrame(j, now); }
  }

  lemma {:induction false} NotReplacedBefore(q: JobRun, k: nat, l: nat)
    requires IsRun(q) && k <= l < |q.jobs| && !q.jobs[l].replaced
    ensures !q.jobs[k].replaced
  {
    if k < l {
      StepOfJobRun(q, l - 1);
      if q.jobs[l - 1].replaced { ReplacedStays(q.jobs[l - 1], q.steps[l - 1], q.clocks[l - 1]); }
      NotReplacedBefore(q, k, l - 1);
    }
  }

  lemma {:induction false} DoneStep(j: Job, s: Step, now: nat)
    requires Enabled(j, s, now)
    ensures Next(j, s, now).doneSent == j.doneSent || (IsOwnStep(s) && SendsDone(j, s))
  {
    if s == Dispatch { DispatchSameFrame(j, now); }
  }

  /** The step of the run that reported the job done. */
  lemma {:induction false} ReportingStep(q: JobRun, n: nat) returns (k: nat)
    requires IsRun(q) && n < |q.jobs| && q.jobs[n].doneSent > 0
    ensures k < n && q.jobs[k].doneSent == 0 && q.jobs[k + 1].doneSent > 0 && IsOwnStep(q.steps[k])
    decreases n
  {
    if q.jobs[n - 1].doneSent == 0 {
      k := n - 1;
      StepOfJobRun(q, k);
      DoneStep(q.jobs[k], q.steps[k], q.clocks[k]);
    } else {
      k := ReportingStep(q, n - 1);
    }
  }

  lemma {:induction false} CancelledBefore(r: SysRun, i: nat, n: nat)
    requires IsSysRun(r) && i <= n < |r.states| && !r.states[n].cancelled
    ensures !r.states[i].cancelled
  {
    if i < n {
      StepOfRun(r, n - 1);
      if r.states[n - 1].cancelled { ShutdownStays(r.states[n - 1], r.steps[n - 1]); }
      CancelledBefore(r, i, n - 1);
    }
  }

  lemma {:induction false} ShutdownStays(s: Sys, st: SysStep)
    requires CanStep(s, st) && s.cancelled
    ensures Advance(s, st).cancelled
  {
    if st.TakeAdd? {
      AddStaysShut(s.(addQueue := s.addQueue[1..]), s.addQueue[0]);
    } else if st.Work? {
      assert Advance(s, st) == DoWork(s, st.id, st.step);
    } else if st.RecoverNext? {
      assert Advance(s, st) == RecoverEntry(s, s.pc.rest[0], s.pc.rest[1..], st.ok, st.applied);
    }
  }

  lemma {:induction false} AddStaysShut(s: Sys, p: Params)
    ensures AddJob(s, p).cancelled == s.cancelled
  {
    assert Added(s, p).cancelled == s.cancelled;
  }

  /** In the map, and neither replaced nor shut down: a job that has not reported done is not cancelled. */
  lemma {:induction false} UnreportedIsLive(r: SysRun, i: nat, id: JobId)
    requires IsSysRun(r) && i < |r.states| && id < |r.states[i].cells| && !r.states[i].cancelled
    requires !r.states[i].cells[id].job.replaced && r.states[i].cells[id].job.doneSent == 0
    ensures !r.states[i].cells[id].job.cancelled
  {
    RunOwner(r, i, id);
  }

  /** What has been entered by the end, when the job had reported done long before. */
  lemma {:induction false} EnteredByThen(q: JobRun, k: nat, n: nat)
    requires IsRun(q) && k <= n < |q.jobs| && q.jobs[k].doneSent > 0 && Disconnected in q.jobs[n].entered
    ensures Disconnected in q.jobs[k].entered
  {
    RunInv(q, k);
    RunClimbs(q, n);
    HistoryGrows(q, k, n);
    TerminalsExclude(q.jobs[n].entered, q.jobs[n].state);
  }

  /** When the job reported done its send had been tried. */
  lemma {:induction false} TriedWhenReporting(q: JobRun, k: nat, n: nat) returns (t: nat)
    requires IsRun(q) && k < n < |q.jobs| && Disconnected in q.jobs[n].entered
    requires q.jobs[k + 1].doneSent > 0 && IsOwnStep(q.steps[k]) && !q.jobs[k].cancelled
    ensures t < |q.jobs[n].tasks| && q.jobs[n].tasks[t].kind == SendAction && WasTried(q, k + 1, t)
  {
    EnteredByThen(q, k + 1, n);
    t := DisconnectedMeansSendStarted(q, k + 1);
    SendsOnceNotifiesOnce(q, k + 1);
    assert IsNotifier(q.jobs[k + 1].tasks[t]);
    KindStays(q, k + 1, n, t);
    LeaveIsTried(q, k + 1, t);
    StepOfJobRun(q, k);
    RunInv(q, k);
    OwnStepFacts(q.jobs[k], q.steps[k], q.clocks[k]);
  }

  /** The system took this step of the send: an attempt was started, or no URL was found. */
  predicate IsTry(r: SysRun, i: nat, id: JobId, t: nat)
    requires i < |r.steps|
  {
    r.steps[i] == Work(id, Run(t, Start)) || r.steps[i] == Work(id, Run(t, Unresolved))
  }

  /**
   * From the signal to the homeserver: unless it is replaced or the service shuts
   * down, a job that entered Disconnected stays in the map until its send has
   * started an attempt, or found no URL to send to.
   */
  lemma {:induction false} LeaveReachesTheHomeserver(r: SysRun, n: nat, id: JobId) returns (i: nat, t: nat)
    requires IsSysRun(r) && n < |r.states| && id < |r.states[n].cells| && !r.states[n].cancelled
    requires !r.states[n].cells[id].job.replaced && Disconnected in r.states[n].cells[id].job.entered
    requires !IsCurrent(r.states[n], id)
    ensures i < n && IsTry(r, i, id, t)
    ensures t < |r.states[n].cells[id].job.tasks| && r.states[n].cells[id].job.tasks[t].kind == SendAction
  {
    OnlyDoneJobsRetire(r, n, id);
    var q := RunOfJob(r, n, id);
    var last := |q.steps|;
    var k := ReportingStep(q, last);
    var m :| 0 <= m < n && IsWorkOf(r, m, id, q, k);
    CancelledBefore(r, m, n);
    NotReplacedBefore(q, k, last);
    UnreportedIsLive(r, m, id);
    t := TriedWhenReporting(q, k, last);
    var l :| 0 <= l < k + 1 && (q.steps[l] == Run(t, Start) || q.steps[l] == Run(t, Unresolved));
    i :| 0 <= i < n && IsWorkOf(r, i, id, q, l);
  }
}
