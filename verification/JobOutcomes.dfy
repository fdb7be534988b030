/**
 * What the calls of a job are granted, what comes of them, and what that makes of
 * the job: over whole runs, from each cause to its effect and back.
 */
module JobOutcomes {
  import opened Support
  import opened Fsm
  import opened JobModel
  import opened JobInvariant
  import opened JobProperties

  const SECOND_NS: nat := 1_000_000_000
  const HOUR_NS: nat := 3_600_000_000_000

  // ── spawning ──────────────────────────────────────────────────────────

  /** Step `i` spawned the task. */
  predicate IsSpawn(r: JobRun, i: nat, t: nat)
    requires i < |r.steps| < |r.jobs|
  {
    |r.jobs[i].tasks| <= t < |r.jobs[i + 1].tasks|
  }

  lemma {:induction false} SpawnOf(r: JobRun, n: nat, t: nat) returns (i: nat)
    requires IsRun(r) && n < |r.jobs| && t < |r.jobs[n].tasks|
    ensures i < n && IsSpawn(r, i, t)
    decreases n
  {
    StartsWithoutTasks(r);
    if t < |r.jobs[n - 1].tasks| { i := SpawnOf(r, n - 1, t); } else { i := n - 1; }
  }

  lemma {:induction false} StartsWithoutTasks(r: JobRun)
    requires IsRun(r)
    ensures r.jobs[0].tasks == [] && r.jobs[0].timeout > 0
  {
  }

  /** The time until the deadline, in the window from one second to one hour. */
  predicate IsSendTime(budget: nat, deadline: Option<nat>, now: nat) {
    match deadline
    case None => budget == SECOND_NS
    case Some(d) =>
      && (d <= now + SECOND_NS ==> budget == SECOND_NS)
      && (now + SECOND_NS <= d <= now + HOUR_NS ==> now + budget == d)
      && (now + HOUR_NS <= d ==> budget == HOUR_NS)
  }

  predicate IsAtMostAnHour(time: nat, timeout: nat) {
    time == timeout <= HOUR_NS || time == HOUR_NS <= timeout
  }

  /** A task as the step `s` of the job spawns it. */
  predicate IsNew(j: Job, s: Step, now: nat, u: Task) {
    match u.kind
    case Lookup => (
      && s == Begin
      && match u.pc
         case Calling(Check(budget, start)) => IsAtMostAnHour(budget, j.timeout) && start == now
         case _ => false)
    case WaitingTimer => (
      && s == Begin
      && match u.pc
         case Sleep(at, stopped) => at >= now && IsAtMostAnHour(at - now, j.timeout) && !stopped
         case _ => false)
    case ResetTimer => s == Rearm && j.state == Connected && u.pc == Sleep(now + j.timeout * 8 / 10, false)
    case Restart => (
      && s == Dispatch
      && match u.pc
         case Calling(Resolve(budget)) =>
           budget > 0
           && if j.state == Connected then j.deadline == Some(now + budget) else budget == j.timeout
         case Emit(e) =>
           e == DelayedEventTimedOut && j.state == Connected && (j.deadline.None? || j.deadline.value <= now)
         case _ => false)
    case SendAction => (
      && s == Dispatch
      && match u.pc case Calling(Resolve(budget)) => IsSendTime(budget, j.deadline, now) case _ => false)
    case AbortNotice => s == Dispatch && u.pc == Notify
  }

  lemma {:induction false} RestartIsNew(j: Job, now: nat)
    requires j.timeout > 0
    ensures j.state == Connected ==> IsNew(j, Dispatch, now, Task(Restart, RestartPc(j.deadline, now)))
    ensures j.state != Connected ==> IsNew(j, Dispatch, now, Task(Restart, RestartPc(Some(now + j.timeout), now)))
  {
  }

  lemma {:induction false} SendIsNew(j: Job, now: nat)
    ensures IsNew(j, Dispatch, now, Task(SendAction, Calling(Resolve(SendBudget(j.deadline, now)))))
  {
  }

  lemma {:induction false} CrossingDates(p: Job, next: State, now: nat)
    ensures var c := Crossing(p, next, now);
            && c.timeout == p.timeout && c.state == next && |c.tasks| == |p.tasks|
            && c.deadline == if next == Connected then Some(now + p.timeout) else p.deadline
  {
    CrossingLength(p, next, now);
  }

  /** What is spawned by entering a state, or by the reset of the restart timer. */
  lemma {:induction false} EntrySpawns(c: Job, now: nat)
    requires c.state != Connected
    ensures EntryAction(c, now).tasks
            == c.tasks + if c.state == Disconnected
                         then [Task(SendAction, Calling(Resolve(SendBudget(c.deadline, now))))]
                         else if c.state == Aborted then [Task(AbortNotice, Notify)] else []
  {
  }

  lemma {:induction false} NewOfDispatch(j: Job, now: nat, t: nat)
    requires Enabled(j, Dispatch, now) && |j.tasks| <= t < |Next(j, Dispatch, now).tasks| && j.timeout > 0
    ensures IsNew(j, Dispatch, now, Next(j, Dispatch, now).tasks[t])
  {
    DispatchIs(j, now);
    RestartIsNew(j, now);
    SendIsNew(j, now);
    var p, next := Popped(j), Transition(j.state, j.events[0]);
    if IsInternal(j.state, j.events[0]) {
      assert StartRestart(p, now).tasks == j.tasks + [Task(Restart, RestartPc(j.deadline, now))];
    } else if next.Some? {
      TransitionClimbs(j.state, j.events[0]);
      CrossingDates(p, next.value, now);
      var c := Crossing(p, next.value, now);
      if next.value == Connected {
        assert StartRestart(c, now).tasks == c.tasks + [Task(Restart, RestartPc(Some(now + j.timeout), now))];
      } else {
        EntrySpawns(c, now);
      }
    }
  }

  lemma {:induction false} NewOfOther(j: Job, s: Step, now: nat, t: nat)
    requires Enabled(j, s, now) && s != Dispatch && |j.tasks| <= t < |Next(j, s, now).tasks| && j.timeout > 0
    ensures IsNew(j, s, now, Next(j, s, now).tasks[t])
  {
  }

  /** Every task starts as its kind does, with the time it is due. */
  lemma {:induction false} SpawnIsNew(r: JobRun, i: nat, t: nat)
    requires IsRun(r) && i < |r.steps| && IsSpawn(r, i, t)
    ensures IsNew(r.jobs[i], r.steps[i], r.clocks[i], r.jobs[i + 1].tasks[t])
  {
    RunInv(r, i);
    StepOfJobRun(r, i);
    if r.steps[i] == Dispatch {
      NewOfDispatch(r.jobs[i], r.clocks[i], t);
    } else {
      NewOfOther(r.jobs[i], r.steps[i], r.clocks[i], t);
    }
  }

  // ── what a call is granted ────────────────────────────────────────────

  lemma {:induction false} CallStep(j: Job, s: Step, now: nat, t: nat)
    requires Enabled(j, s, now) && t < |j.tasks|
    requires t < |Next(j, s, now).tasks| && Next(j, s, now).tasks[t].pc.Calling?
    ensures j.tasks[t].pc.Calling? && Next(j, s, now).tasks[t].kind == j.tasks[t].kind
    ensures var c, d := j.tasks[t].pc.call, Next(j, s, now).tasks[t].pc.call;
            && d.budget == c.budget
            && if s == Run(t, Resolved) then !d.Resolve? && d.start == now
               else (d.Resolve? <==> c.Resolve?) && (!c.Resolve? ==> d.start == c.start)
  {
    TaskStep(j, s, now, t);
  }

  lemma {:induction false} CallStepAt(r: JobRun, n: nat, t: nat)
    requires IsRun(r) && 0 < n < |r.jobs| && t < |r.jobs[n - 1].tasks|
    requires t < |r.jobs[n].tasks| && r.jobs[n].tasks[t].pc.Calling?
    ensures r.jobs[n - 1].tasks[t].pc.Calling? && r.jobs[n].tasks[t].kind == r.jobs[n - 1].tasks[t].kind
    ensures var c, d := r.jobs[n - 1].tasks[t].pc.call, r.jobs[n].tasks[t].pc.call;
            && d.budget == c.budget
            && if r.steps[n - 1] == Run(t, Resolved) then !d.Resolve? && d.start == r.clocks[n - 1]
               else (d.Resolve? <==> c.Resolve?) && (!c.Resolve? ==> d.start == c.start)
  {
    StepOfJobRun(r, n - 1);
    CallStep(r.jobs[n - 1], r.steps[n - 1], r.clocks[n - 1], t);
  }

  lemma {:induction false} BudgetStays(r: JobRun, i: nat, n: nat, t: nat)
    requires IsRun(r) && i < n < |r.jobs| && IsSpawn(r, i, t)
    requires t < |r.jobs[n].tasks| && r.jobs[n].tasks[t].pc.Calling?
    ensures r.jobs[i + 1].tasks[t].pc.Calling? && r.jobs[n].tasks[t].kind == r.jobs[i + 1].tasks[t].kind
    ensures r.jobs[n].tasks[t].pc.call.budget == r.jobs[i + 1].tasks[t].pc.call.budget
    decreases n
  {
    if i + 1 < n {
      KindStays(r, i + 1, n - 1, t);
      CallStepAt(r, n, t);
      BudgetStays(r, i, n - 1, t);
    }
  }

  /**
   * Throughout its call a task has the budget it was granted when it was spawned: a
   * lookup the delay timeout, but at most an hour; a restart exactly the time until
   * the deadline, which is the whole delay timeout on entering Connected; a send the
   * time until the deadline, raised to one second and cut to one hour, and one second
   * if there is no deadline.
   */
  lemma {:induction false} CallsGetTheTimeLeft(r: JobRun, i: nat, n: nat, t: nat)
    requires IsRun(r) && i < n < |r.jobs| && IsSpawn(r, i, t)
    requires t < |r.jobs[n].tasks| && r.jobs[n].tasks[t].pc.Calling?
    ensures var j, now, u := r.jobs[i], r.clocks[i], r.jobs[n].tasks[t];
            var budget := u.pc.call.budget;
            && (u.kind == Lookup ==> r.steps[i] == Begin && IsAtMostAnHour(budget, j.timeout))
            && (u.kind == Restart ==>
                  && r.steps[i] == Dispatch && budget > 0
                  && if j.state == Connected then j.deadline == Some(now + budget) else budget == j.timeout)
            && (u.kind == SendAction ==> r.steps[i] == Dispatch && IsSendTime(budget, j.deadline, now))
            && (u.kind == Lookup || u.kind == Restart || u.kind == SendAction)
  {
    SpawnIsNew(r, i, t);
    BudgetStays(r, i, n, t);
  }

  /** The clock of a call starts when the URL is known; that of the lookup, which needs none, when it is spawned. */
  lemma {:induction false} CallsStartWithTheUrl(r: JobRun, i: nat, n: nat, t: nat) returns (k: nat)
    requires IsRun(r) && i < n < |r.jobs| && IsSpawn(r, i, t)
    requires t < |r.jobs[n].tasks| && r.jobs[n].tasks[t].pc.Calling? && !r.jobs[n].tasks[t].pc.call.Resolve?
    ensures i <= k < n && r.jobs[n].tasks[t].pc.call.start == r.clocks[k]
    ensures if r.jobs[n].tasks[t].kind == Lookup then k == i else r.steps[k] == Run(t, Resolved)
    decreases n
  {
    if n == i + 1 {
      SpawnIsNew(r, i, t);
      k := i;
    } else {
      KindStays(r, i + 1, n - 1, t);
      CallStepAt(r, n, t);
      if r.steps[n - 1] == Run(t, Resolved) {
        k := n - 1;
        SpawnedCallKind(r, i, n - 1, t);
      } else {
        k := CallsStartWithTheUrl(r, i, n - 1, t);
      }
    }
  }

  /** A lookup never resolves a URL. */
  lemma {:induction false} SpawnedCallKind(r: JobRun, i: nat, n: nat, t: nat)
    requires IsRun(r) && n < |r.steps| && r.steps[n] == Run(t, Resolved) && t < |r.jobs[n].tasks|
    ensures r.jobs[n].tasks[t].kind != Lookup
  {
    RunInv(r, n);
    StepOfJobRun(r, n);
    assert TaskFits(r.jobs[n], r.jobs[n].tasks[t], r.clocks[n]);
  }

  // ── what comes of a call ──────────────────────────────────────────────

  /** The wait would end past the budget of the call. */
  predicate IsPastBudget(c: Call, wait: nat, now: nat) {
    !c.Resolve? && c.start + c.budget < now + wait
  }

  /** Where an answer, a wait or the cancellation of its job leaves a call. */
  predicate IsAnswered(t: Task, m: Move, now: nat, timeout: nat, u: Pc)
    requires t.pc.Calling?
  {
    var c := t.pc.call;
    match m
    case Resolved => u == Calling(Check(c.budget, now))
    case Unresolved => u == if t.kind == Restart then Emit(CsApiUrlNotFound) else Notify
    case Start => !c.Resolve? && u == Calling(Attempt(c.budget, c.start))
    case Succeed =>
      u == if t.kind == Lookup then Emit(ParticipantLookupSuccessful)
           else if t.kind == Restart then Report(now, now + timeout) else Notify
    case Gone => u == Emit(DelayedEventNotFound)
    case Again(wait) =>
      && !c.Resolve?
      && u == if !IsPastBudget(c, wait, now) then Calling(Backoff(c.budget, c.start, now + wait))
              else if t.kind == Lookup then Finished
              else if t.kind == Restart then Emit(DelayedEventTimedOut) else Notify
    case Wake => !c.Resolve? && u == Calling(Check(c.budget, c.start))
    case _ => u == if t.kind == SendAction then Notify else Finished
  }

  lemma {:induction false} CallAnswered(j: Job, t: nat, m: Move, now: nat)
    requires Enabled(j, Run(t, m), now) && TaskFits(j, j.tasks[t], now) && j.tasks[t].pc.Calling?
    ensures Next(j, Run(t, m), now).tasks[t].kind == j.tasks[t].kind
    ensures IsAnswered(j.tasks[t], m, now, j.timeout, Next(j, Run(t, m), now).tasks[t].pc)
  {
  }

  /** Whatever a call is answered, at any time it is in the run. */
  lemma {:induction false} AnswersCount(r: JobRun, i: nat, t: nat, m: Move)
    requires IsRun(r) && i < |r.steps| && r.steps[i] == Run(t, m)
    requires t < |r.jobs[i].tasks| && r.jobs[i].tasks[t].pc.Calling?
    ensures t < |r.jobs[i + 1].tasks| && r.jobs[i + 1].tasks[t].kind == r.jobs[i].tasks[t].kind
    ensures IsAnswered(r.jobs[i].tasks[t], m, r.clocks[i], r.jobs[i].timeout, r.jobs[i + 1].tasks[t].pc)
  {
    RunInv(r, i);
    StepOfJobRun(r, i);
    CallAnswered(r.jobs[i], t, m, r.clocks[i]);
  }

  // ── what a task has to say is said ────────────────────────────────────

  /** The task put its signal into the queue, which takes anything and keeps nothing once the loop has exited. */
  predicate IsPut(r: JobRun, k: nat, t: nat, e: Signal)
    requires k < |r.steps| < |r.jobs|
  {
    r.steps[k] == Run(t, Put) && (r.jobs[k].loop == Exited || r.jobs[k + 1].events == r.jobs[k].events + [e])
  }

  predicate WasPut(r: JobRun, i: nat, n: nat, t: nat, e: Signal)
    requires n <= |r.steps| < |r.jobs|
  {
    exists k :: i <= k < n && IsPut(r, k, t, e)
  }

  lemma {:induction false} EmitStep(j: Job, s: Step, now: nat, t: nat, e: Signal)
    requires Enabled(j, s, now) && t < |j.tasks| && j.tasks[t].pc == Emit(e)
    ensures t < |Next(j, s, now).tasks|
    ensures || Next(j, s, now).tasks[t] == j.tasks[t]
            || (s == Run(t, Put) && (j.loop == Exited || Next(j, s, now).events == j.events + [e]))
            || (s == Run(t, Drop) && j.cancelled)
  {
    TaskCount(j, s, now);
    TaskStep(j, s, now, t);
  }

  /** A signal a task has to put is put, unless the job is cancelled first. */
  lemma {:induction false} SignalIsPut(r: JobRun, i: nat, n: nat, t: nat, e: Signal)
    requires IsRun(r) && i <= n < |r.jobs| && t < |r.jobs[i].tasks| && r.jobs[i].tasks[t].pc == Emit(e)
    ensures t < |r.jobs[n].tasks|
    ensures r.jobs[n].tasks[t].pc == Emit(e) || WasPut(r, i, n, t, e) || r.jobs[n].cancelled
    decreases n
  {
    KindStays(r, i, n, t);
    if i < n {
      SignalIsPut(r, i, n - 1, t, e);
      StepOfJobRun(r, n - 1);
      if r.jobs[n - 1].cancelled { CancelStays(r.jobs[n - 1], r.steps[n - 1], r.clocks[n - 1]); }
      if r.jobs[n - 1].tasks[t].pc == Emit(e) && !WasPut(r, i, n - 1, t, e) {
        EmitStep(r.jobs[n - 1], r.steps[n - 1], r.clocks[n - 1], t, e);
        if r.steps[n - 1] == Run(t, Put) && r.jobs[n].tasks[t] != r.jobs[n - 1].tasks[t] {
          assert IsPut(r, n - 1, t, e);
        }
      }
    }
  }

  // ── a restart that succeeds ───────────────────────────────────────────

  /** The task told the handler when the restart succeeded. */
  predicate IsReport(r: JobRun, k: nat, t: nat, at: nat)
    requires k < |r.steps| < |r.jobs|
  {
    && r.steps[k] == Run(t, Put) && t < |r.jobs[k].tasks|
    && r.jobs[k].tasks[t].pc.Report? && r.jobs[k].tasks[t].pc.restartedAt == at
  }

  /** The task put the new deadline into the slot. */
  predicate IsHandOver(r: JobRun, k: nat, t: nat, deadline: nat)
    requires k < |r.steps| < |r.jobs|
  {
    r.steps[k] == Run(t, Put) && (r.jobs[k].loop == Exited || r.jobs[k + 1].result == Some(deadline))
  }

  predicate WasReported(r: JobRun, i: nat, n: nat, t: nat, at: nat)
    requires n <= |r.steps| < |r.jobs|
  {
    exists k :: i <= k < n && IsReport(r, k, t, at)
  }

  predicate WasHandedOver(r: JobRun, i: nat, n: nat, t: nat, deadline: nat)
    requires n <= |r.steps| < |r.jobs|
  {
    exists k :: i <= k < n && IsHandOver(r, k, t, deadline)
  }

  lemma {:induction false} ReportStep(j: Job, s: Step, now: nat, t: nat, at: nat, d: nat)
    requires Enabled(j, s, now) && t < |j.tasks| && j.tasks[t].pc == Report(at, d)
    ensures t < |Next(j, s, now).tasks|
    ensures var u := Next(j, s, now).tasks[t];
            || u == j.tasks[t]
            || (s == Run(t, Put) && u.pc == HandOver(d))
            || (s == Run(t, Drop) && j.cancelled && u.pc == Finished)
  {
    TaskCount(j, s, now);
    TaskStep(j, s, now, t);
  }

  lemma {:induction false} HandOverStep(j: Job, s: Step, now: nat, t: nat, d: nat)
    requires Enabled(j, s, now) && t < |j.tasks| && j.tasks[t].pc == HandOver(d)
    ensures t < |Next(j, s, now).tasks|
    ensures var u := Next(j, s, now).tasks[t];
            || u == j.tasks[t]
            || (s == Run(t, Put) && u.pc == Finished && (j.loop == Exited || Next(j, s, now).result == Some(d)))
            || (s == Run(t, Drop) && j.cancelled && u.pc == Finished)
  {
    TaskCount(j, s, now);
    TaskStep(j, s, now, t);
  }

  lemma {:induction false} FinishedStep(j: Job, s: Step, now: nat, t: nat)
    requires Enabled(j, s, now) && t < |j.tasks| && j.tasks[t].pc == Finished
    ensures t < |Next(j, s, now).tasks| && Next(j, s, now).tasks[t] == j.tasks[t]
  {
    TaskCount(j, s, now);
    TaskStep(j, s, now, t);
  }

  /** How far a successful restart has come: it has yet to report, or to hand over, or has done both. */
  predicate GoesOn(r: JobRun, i: nat, n: nat, t: nat, at: nat, d: nat)
    requires n <= |r.steps| < |r.jobs|
  {
    && t < |r.jobs[n].tasks|
    && (|| r.jobs[n].tasks[t].pc == Report(at, d)
        || (r.jobs[n].tasks[t].pc == HandOver(d) && WasReported(r, i, n, t, at))
        || (r.jobs[n].tasks[t].pc == Finished
            && ((WasReported(r, i, n, t, at) && WasHandedOver(r, i, n, t, d)) || r.jobs[n].cancelled)))
  }

  lemma {:induction false} GoesOnStep(r: JobRun, i: nat, n: nat, t: nat, at: nat, d: nat)
    requires IsRun(r) && i < n <= |r.steps| && GoesOn(r, i, n - 1, t, at, d) && t < |r.jobs[n].tasks|
    ensures GoesOn(r, i, n, t, at, d)
  {
    var j, s, now := r.jobs[n - 1], r.steps[n - 1], r.clocks[n - 1];
    StepOfJobRun(r, n - 1);
    if j.cancelled { CancelStays(j, s, now); }
    if j.tasks[t].pc == Finished {
      FinishedStep(j, s, now, t);
    } else if j.tasks[t].pc == Report(at, d) {
      ReportStep(j, s, now, t, at, d);
      if s == Run(t, Put) { assert IsReport(r, n - 1, t, at); }
    } else {
      HandOverStep(j, s, now, t, d);
      if s == Run(t, Put) && r.jobs[n].tasks[t] != j.tasks[t] { assert IsHandOver(r, n - 1, t, d); }
    }
  }

  /**
   * A restart the homeserver accepted is reported to the handler with the time it
   * succeeded, and then its new deadline, one delay timeout after that, is handed to
   * the loop; nothing else comes of it, unless the job is cancelled.
   */
  lemma {:induction false} SuccessIsPassedOn(r: JobRun, i: nat, n: nat, t: nat)
    requires IsRun(r) && i < n < |r.jobs| && r.steps[i] == Run(t, Succeed)
    requires t < |r.jobs[i].tasks| && r.jobs[i].tasks[t].kind == Restart
    ensures GoesOn(r, i, n, t, r.clocks[i], r.clocks[i] + r.jobs[i].timeout)
    decreases n
  {
    KindStays(r, i, n, t);
    if n == i + 1 {
      SucceedsInCall(r, i, t);
      AnswersCount(r, i, t, Succeed);
    } else {
      SuccessIsPassedOn(r, i, n - 1, t);
      GoesOnStep(r, i, n, t, r.clocks[i], r.clocks[i] + r.jobs[i].timeout);
    }
  }

  lemma {:induction false} SucceedsInCall(r: JobRun, i: nat, t: nat)
    requires IsRun(r) && i < |r.steps| && r.steps[i] == Run(t, Succeed)
    ensures t < |r.jobs[i].tasks| && r.jobs[i].tasks[t].pc.Calling?
  {
    StepOfJobRun(r, i);
  }

  // ── the loop takes the new deadline ───────────────────────────────────

  /** The loop took the deadline while Connected: it is the deadline now, and a timer sleeps for 80 % of the timeout. */
  predicate IsTaken(r: JobRun, l: nat, d: nat)
    requires l < |r.steps| && |r.clocks| == |r.jobs| == |r.steps| + 1
  {
    var j, k, q := r.jobs[l], r.jobs[l + 1], |r.jobs[l].tasks|;
    && r.steps[l] == Rearm && j.state == Connected && j.result == Some(d)
    && k.result == None && k.deadline == Some(d) && k.restart == Some(q)
    && |k.tasks| == q + 1 && k.tasks[q] == Task(ResetTimer, Sleep(r.clocks[l] + j.timeout * 8 / 10, false))
  }

  lemma {:induction false} RearmTakes(r: JobRun, l: nat)
    requires IsRun(r) && l < |r.steps| && r.steps[l] == Rearm
    ensures r.jobs[l].result.Some?
    ensures if r.jobs[l].state == Connected then IsTaken(r, l, r.jobs[l].result.value)
            else r.jobs[l + 1] == r.jobs[l].(result := None)
  {
    StepOfJobRun(r, l);
  }

  lemma {:induction false} ResultStep(j: Job, s: Step, now: nat)
    requires Enabled(j, s, now) && j.result.Some? && s != Rearm
    ensures Next(j, s, now).result == j.result
  {
    if s == Dispatch { DispatchSameFrame(j, now); }
  }

  predicate WasRearmed(r: JobRun, k: nat, n: nat, d: nat)
    requires n <= |r.steps| < |r.jobs|
  {
    exists l :: k <= l < n && r.steps[l] == Rearm && r.jobs[l].result == Some(d)
  }

  /** What is in the slot stays there until the loop takes it. */
  lemma {:induction false} SlotKeeps(r: JobRun, k: nat, n: nat, d: nat)
    requires IsRun(r) && k <= n < |r.jobs| && r.jobs[k].result == Some(d)
    ensures r.jobs[n].result == Some(d) || WasRearmed(r, k, n, d)
    decreases n
  {
    if k < n {
      SlotKeeps(r, k, n - 1, d);
      if r.jobs[n - 1].result == Some(d) && !WasRearmed(r, k, n - 1, d) {
        StepOfJobRun(r, n - 1);
        if r.steps[n - 1] != Rearm { ResultStep(r.jobs[n - 1], r.steps[n - 1], r.clocks[n - 1]); }
      }
    }
  }

  /** Between two moments at which the job is Connected, or the cycle had begun, it was Connected all along. */
  lemma {:induction false} ConnectedBetween(r: JobRun, i: nat, l: nat, n: nat)
    requires IsRun(r) && i <= l <= n < |r.jobs| && Connected in r.jobs[i].entered && r.jobs[n].state == Connected
    ensures r.jobs[l].state == Connected
  {
    HistoryGrows(r, i, l);
    HistoryGrows(r, l, n);
    RunClimbs(r, l);
    RunClimbs(r, n);
    EndsThere(r.jobs[l], r.jobs[n]);
  }

  lemma {:induction false} EndsThere(j: Job, k: Job)
    requires Climbs(j.entered, j.state) && Climbs(k.entered, k.state) && j.entered <= k.entered
    requires Connected in j.entered && k.state == Connected
    ensures j.state == Connected
  {
    var a :| 0 <= a < |j.entered| && j.entered[a] == Connected;
    var b := |k.entered| - 1;
    assert k.entered[a] == Connected && k.entered[b] == Connected;
    assert a == b;
  }

  lemma {:induction false} LiveNotExited(r: JobRun, n: nat)
    requires IsRun(r) && n < |r.jobs| && !r.jobs[n].cancelled
    ensures r.jobs[n].loop != Exited && r.jobs[n].loop != Draining
  {
    RunInv(r, n);
  }

  lemma {:induction false} UncancelledBefore(r: JobRun, k: nat, n: nat)
    requires IsRun(r) && k <= n < |r.jobs| && !r.jobs[n].cancelled
    ensures !r.jobs[k].cancelled
    decreases n
  {
    if k < n {
      StepOfJobRun(r, n - 1);
      if r.jobs[n - 1].cancelled { CancelStays(r.jobs[n - 1], r.steps[n - 1], r.clocks[n - 1]); }
      UncancelledBefore(r, k, n - 1);
    }
  }

  /** The restart has been reported, and its deadline is on its way to the slot, in it, or taken. */
  predicate HasArrived(r: JobRun, i: nat, n: nat, t: nat, d: nat)
    requires n <= |r.steps| && |r.clocks| == |r.jobs| == |r.steps| + 1
  {
    && t < |r.jobs[n].tasks|
    && (|| r.jobs[n].tasks[t].pc == HandOver(d)
        || r.jobs[n].result == Some(d)
        || exists l :: i < l < n && IsTaken(r, l, d))
  }

  /**
   * The keep-alive goes on: while the job stays Connected and uncancelled, a restart
   * that succeeded at one moment has by any later moment yet to report just that, or
   * has reported it, and one delay timeout after it is the deadline on its way to
   * the loop, or the loop has taken it and set a timer for 80 % of the timeout.
   */
  lemma {:induction false} SuccessKeepsTheCycle(r: JobRun, i: nat, n: nat, t: nat)
    requires IsRun(r) && i < n < |r.jobs| && r.steps[i] == Run(t, Succeed)
    requires t < |r.jobs[i].tasks| && r.jobs[i].tasks[t].kind == Restart
    requires r.jobs[n].state == Connected && !r.jobs[n].cancelled
    ensures var at, d := r.clocks[i], r.clocks[i] + r.jobs[i].timeout;
            && t < |r.jobs[n].tasks|
            && (r.jobs[n].tasks[t].pc == Report(at, d)
                || (WasReported(r, i, n, t, at) && HasArrived(r, i, n, t, d)))
  {
    var d := r.clocks[i] + r.jobs[i].timeout;
    SuccessIsPassedOn(r, i, n, t);
    if r.jobs[n].tasks[t].pc != Report(r.clocks[i], d) && r.jobs[n].tasks[t].pc != HandOver(d) {
      var k :| i <= k < n && IsHandOver(r, k, t, d);
      UncancelledBefore(r, k, n);
      LiveNotExited(r, k);
      SlotKeeps(r, k + 1, n, d);
      if r.jobs[n].result != Some(d) {
        var l :| k + 1 <= l < n && r.steps[l] == Rearm && r.jobs[l].result == Some(d);
        RestartMeansConnected(r, i, t);
        ConnectedBetween(r, i, l, n);
        RearmTakes(r, l);
        assert IsTaken(r, l, d);
      }
    }
  }

  lemma {:induction false} RestartMeansConnected(r: JobRun, i: nat, t: nat)
    requires IsRun(r) && i < |r.jobs| && t < |r.jobs[i].tasks| && r.jobs[i].tasks[t].kind == Restart
    ensures Connected in r.jobs[i].entered
  {
    RunInv(r, i);
    assert TaskFits(r.jobs[i], r.jobs[i].tasks[t], r.clocks[i]);
  }

  // ── the restart timer ─────────────────────────────────────────────────

  /** The timer ran out, no earlier than at this time. */
  predicate IsFired(r: JobRun, k: nat, q: nat, at: nat)
    requires k < |r.steps| < |r.jobs| && |r.clocks| == |r.jobs|
  {
    r.steps[k] == Run(q, Fire) && at <= r.clocks[k] && q < |r.jobs[k + 1].tasks| && r.jobs[k + 1].tasks[q].pc.Emit?
  }

  predicate HasFired(r: JobRun, i: nat, n: nat, q: nat, at: nat)
    requires n <= |r.steps| < |r.jobs| && |r.clocks| == |r.jobs|
  {
    exists k :: i <= k < n && IsFired(r, k, q, at)
  }

  lemma {:induction false} SleepStep(j: Job, s: Step, now: nat, q: nat)
    requires Enabled(j, s, now) && q < |j.tasks| && j.tasks[q].pc.Sleep?
    ensures q < |Next(j, s, now).tasks|
    ensures var u := Next(j, s, now).tasks[q];
            && u.kind == j.tasks[q].kind
            && (|| (u.pc.Sleep? && u.pc.fireAt == j.tasks[q].pc.fireAt)
                || (s == Run(q, Fire) && now >= j.tasks[q].pc.fireAt
                    && u.pc == Emit(if u.kind == WaitingTimer then WaitingStateTimedOut else DelayedEventReset))
                || (s == Run(q, Drop) && u.pc == Finished && (j.cancelled || j.tasks[q].pc.stopped)))
  {
    TaskCount(j, s, now);
    if s == Dispatch {
      DispatchSleeps(j, now, q);
    } else {
      OtherSleeps(j, s, now, q);
    }
  }

  lemma {:induction false} OtherSleeps(j: Job, s: Step, now: nat, q: nat)
    requires Enabled(j, s, now) && s != Dispatch && q < |j.tasks| && j.tasks[q].pc.Sleep?
    requires q < |Next(j, s, now).tasks|
    ensures var u := Next(j, s, now).tasks[q];
            && u.kind == j.tasks[q].kind
            && (|| (u.pc.Sleep? && u.pc.fireAt == j.tasks[q].pc.fireAt)
                || (s == Run(q, Fire) && now >= j.tasks[q].pc.fireAt
                    && u.pc == Emit(if u.kind == WaitingTimer then WaitingStateTimedOut else DelayedEventReset))
                || (s == Run(q, Drop) && u.pc == Finished && (j.cancelled || j.tasks[q].pc.stopped)))
  {
    if s.Run? { RunSleeps(j, s.task, s.move, now, q); }
  }

  lemma {:induction false} RunSleeps(j: Job, t: nat, m: Move, now: nat, q: nat)
    requires Enabled(j, Run(t, m), now) && q < |j.tasks| && j.tasks[q].pc.Sleep?
    ensures var u := Next(j, Run(t, m), now).tasks[q];
            && (t != q ==> u == j.tasks[q])
            && (t == q && m == Fire ==>
                  && now >= j.tasks[q].pc.fireAt && u.kind == j.tasks[q].kind
                  && u.pc == Emit(if u.kind == WaitingTimer then WaitingStateTimedOut else DelayedEventReset))
            && (t == q && m != Fire ==>
                  m == Drop && u == j.tasks[q].(pc := Finished) && (j.cancelled || j.tasks[q].pc.stopped))
  {
  }

  lemma {:induction false} DispatchSleeps(j: Job, now: nat, q: nat)
    requires Enabled(j, Dispatch, now) && q < |j.tasks| && j.tasks[q].pc.Sleep?
    requires q < |Next(j, Dispatch, now).tasks|
    ensures var u := Next(j, Dispatch, now).tasks[q];
            u.kind == j.tasks[q].kind && u.pc.Sleep? && u.pc.fireAt == j.tasks[q].pc.fireAt
  {
    DispatchIs(j, now);
    var p, next := Popped(j), Transition(j.state, j.events[0]);
    if !IsInternal(j.state, j.events[0]) && next.Some? {
      CrossingSleeps(p, next.value, now, q);
      CrossingDates(p, next.value, now);
      var c := Crossing(p, next.value, now);
      if next.value != Connected { EntrySpawns(c, now); }
    }
  }

  lemma {:induction false} CrossingSleeps(p: Job, next: State, now: nat, q: nat)
    requires q < |p.tasks| && p.tasks[q].pc.Sleep?
    ensures var c := Crossing(p, next, now);
            && q < |c.tasks| && c.tasks[q].kind == p.tasks[q].kind
            && c.tasks[q].pc.Sleep? && c.tasks[q].pc.fireAt == p.tasks[q].pc.fireAt
  {
  }

  /**
   * The timer the loop sets runs out, and not before its time: while the job stays
   * Connected and uncancelled it still sleeps with its token good, or it has fired,
   * after 80 % of the timeout or later, to put the next reset into the queue.
   */
  lemma {:induction false} TimerRunsOut(r: JobRun, l: nat, n: nat, d: nat)
    requires IsRun(r) && l < n < |r.jobs| && l < |r.steps| && IsTaken(r, l, d)
    requires r.jobs[n].state == Connected && !r.jobs[n].cancelled
    ensures var q, at := |r.jobs[l].tasks|, r.clocks[l] + r.jobs[l].timeout * 8 / 10;
            && q < |r.jobs[n].tasks| && r.jobs[n].tasks[q].kind == ResetTimer
            && (r.jobs[n].tasks[q].pc == Sleep(at, false) || HasFired(r, l, n, q, at))
    decreases n
  {
    var q, at := |r.jobs[l].tasks|, r.clocks[l] + r.jobs[l].timeout * 8 / 10;
    if l + 1 < n {
      ConnectedEarlier(r, l, n - 1, n);
      UncancelledBefore(r, n - 1, n);
      TimerRunsOut(r, l, n - 1, d);
      KindStays(r, n - 1, n, q);
      if r.jobs[n - 1].tasks[q].pc == Sleep(at, false) {
        StepOfJobRun(r, n - 1);
        SleepStep(r.jobs[n - 1], r.steps[n - 1], r.clocks[n - 1], q);
        NotStopped(r, n, q);
        if r.jobs[n].tasks[q].pc.Emit? { assert IsFired(r, n - 1, q, at); }
      }
    }
  }

  lemma {:induction false} ConnectedEarlier(r: JobRun, i: nat, l: nat, n: nat)
    requires IsRun(r) && i <= l <= n < |r.jobs| && r.jobs[i].state == Connected && r.jobs[n].state == Connected
    ensures r.jobs[l].state == Connected
  {
    RunClimbs(r, i);
    ConnectedBetween(r, i, l, n);
  }

  lemma {:induction false} NotStopped(r: JobRun, n: nat, q: nat)
    requires IsRun(r) && n < |r.jobs| && r.jobs[n].state == Connected && !r.jobs[n].cancelled
    requires q < |r.jobs[n].tasks| && r.jobs[n].tasks[q].kind == ResetTimer
    ensures !(r.jobs[n].tasks[q].pc.Sleep? && r.jobs[n].tasks[q].pc.stopped)
  {
    RunInv(r, n);
    assert !IsKilledTimer(r.jobs[n].tasks[q]);
  }

  lemma {:induction false} SleepsUntil(r: JobRun, i: nat, n: nat, q: nat)
    requires IsRun(r) && i < n < |r.jobs| && IsSpawn(r, i, q)
    requires q < |r.jobs[n].tasks| && r.jobs[n].tasks[q].pc.Sleep?
    ensures r.jobs[i + 1].tasks[q].pc.Sleep? && r.jobs[n].tasks[q].pc.fireAt == r.jobs[i + 1].tasks[q].pc.fireAt
    decreases n
  {
    if i + 1 < n {
      KindStays(r, i + 1, n - 1, q);
      StepOfJobRun(r, n - 1);
      TaskStep(r.jobs[n - 1], r.steps[n - 1], r.clocks[n - 1], q);
      if r.jobs[n - 1].tasks[q].pc.Sleep? { SleepStep(r.jobs[n - 1], r.steps[n - 1], r.clocks[n - 1], q); }
      SleepsUntil(r, i, n - 1, q);
    }
  }

  /** No timer fires early: the waiting timer sleeps for the timeout, at most an hour, the other for 80 % of it. */
  lemma {:induction false} TimersSleepTheirTime(r: JobRun, i: nat, n: nat, q: nat) returns (time: nat)
    requires IsRun(r) && i < n < |r.steps| && IsSpawn(r, i, q) && r.steps[n] == Run(q, Fire)
    ensures r.clocks[n] >= r.clocks[i] + time
    ensures || (r.steps[i] == Begin && IsAtMostAnHour(time, r.jobs[i].timeout))
            || (r.steps[i] == Rearm && time == r.jobs[i].timeout * 8 / 10)
  {
    StepOfJobRun(r, n);
    KindStays(r, i + 1, n, q);
    SleepsUntil(r, i, n, q);
    SpawnIsNew(r, i, q);
    time := r.jobs[n].tasks[q].pc.fireAt - r.clocks[i];
  }

  // ── every event has its cause ─────────────────────────────────────────

  /** Step `i` gave the task its signal. */
  predicate IsCause(r: JobRun, i: nat, t: nat, kind: Kind, e: Signal)
    requires i < |r.steps| && |r.clocks| == |r.jobs| == |r.steps| + 1
  {
    var j, s, now := r.jobs[i], r.steps[i], r.clocks[i];
    match e
    case ParticipantLookupSuccessful => kind == Lookup && s == Run(t, Succeed)
    case SfuParticipantGone => kind == Lookup && s == Run(t, Absent)
    case WaitingStateTimedOut => kind == WaitingTimer && s == Run(t, Fire)
    case DelayedEventReset => kind == ResetTimer && s == Run(t, Fire)
    case DelayedEventNotFound => kind == Restart && s == Run(t, Gone)
    case CsApiUrlNotFound => kind == Restart && s == Run(t, Unresolved)
    case DelayedEventTimedOut =>
      && kind == Restart
      && (|| (s == Dispatch && IsSpawn(r, i, t) && (j.deadline.None? || j.deadline.value <= now))
          || (s.Run? && s.task == t && s.move.Again? && t < |j.tasks| && j.tasks[t].pc.Calling?
              && IsPastBudget(j.tasks[t].pc.call, s.move.wait, now)))
    case _ => false
  }

  lemma {:induction false} EmitFrom(j: Job, t: nat, m: Move, now: nat, e: Signal)
    requires Enabled(j, Run(t, m), now) && TaskFits(j, j.tasks[t], now)
    requires !j.tasks[t].pc.Emit? && Next(j, Run(t, m), now).tasks[t].pc == Emit(e)
    ensures match e
            case ParticipantLookupSuccessful => j.tasks[t].kind == Lookup && m == Succeed
            case SfuParticipantGone => j.tasks[t].kind == Lookup && m == Absent
            case WaitingStateTimedOut => j.tasks[t].kind == WaitingTimer && m == Fire
            case DelayedEventReset => j.tasks[t].kind == ResetTimer && m == Fire
            case DelayedEventNotFound => j.tasks[t].kind == Restart && m == Gone
            case CsApiUrlNotFound => j.tasks[t].kind == Restart && m == Unresolved
            case DelayedEventTimedOut =>
              j.tasks[t].kind == Restart && m.Again? && j.tasks[t].pc.Calling?
              && IsPastBudget(j.tasks[t].pc.call, m.wait, now)
            case _ => false
  {
    if j.tasks[t].pc.Calling? { CallAnswered(j, t, m, now); }
  }

  lemma {:induction false} SignalStaysOwn(j: Job, s: Step, now: nat, t: nat)
    requires Enabled(j, s, now) && TasksFit(j, now) && t < |j.tasks| && j.tasks[t].pc.Emit?
    requires t < |Next(j, s, now).tasks| && Next(j, s, now).tasks[t].pc.Emit?
    ensures Next(j, s, now).tasks[t].pc == j.tasks[t].pc
  {
    TaskStep(j, s, now, t);
    assert TaskFits(j, j.tasks[t], now);
  }

  /** A signal a task is about to put was given to it by its cause. */
  lemma {:induction false} SignalHasItsCause(r: JobRun, n: nat, t: nat) returns (i: nat)
    requires IsRun(r) && n < |r.jobs| && t < |r.jobs[n].tasks| && r.jobs[n].tasks[t].pc.Emit?
    ensures i < n && IsCause(r, i, t, r.jobs[n].tasks[t].kind, r.jobs[n].tasks[t].pc.signal)
    decreases n
  {
    StartsWithoutTasks(r);
    i := n - 1;
    if t >= |r.jobs[n - 1].tasks| {
      SpawnIsNew(r, i, t);
    } else {
      var j, s, now := r.jobs[i], r.steps[i], r.clocks[i];
      StepOfJobRun(r, i);
      RunInv(r, i);
      assert TaskFits(j, j.tasks[t], now);
      KindStays(r, i, n, t);
      if j.tasks[t].pc.Emit? {
        SignalStaysOwn(j, s, now, t);
        i := SignalHasItsCause(r, n - 1, t);
      } else {
        TaskStep(j, s, now, t);
        EmitFrom(j, t, s.move, now, r.jobs[n].tasks[t].pc.signal);
      }
    }
  }

  /** Step `k` put the event into the queue: a webhook, a replacement, or a task. */
  predicate IsSource(r: JobRun, k: nat, e: Signal)
    requires k < |r.steps| < |r.jobs|
  {
    var j, s := r.jobs[k], r.steps[k];
    || s == Deliver(e)
    || (s == Replace && e == JobReplaced)
    || (s.Run? && s.move == Put && s.task < |j.tasks| && j.tasks[s.task].pc == Emit(e))
  }

  lemma {:induction false} EventsStep(j: Job, s: Step, now: nat, e: Signal)
    requires Enabled(j, s, now) && e in Next(j, s, now).events && e !in j.events
    ensures || s == Deliver(e)
            || (s == Replace && e == JobReplaced)
            || (s.Run? && s.move == Put && s.task < |j.tasks| && j.tasks[s.task].pc == Emit(e))
  {
    if s == Dispatch { DispatchSameFrame(j, now); }
  }

  lemma {:induction false} EventHasItsSource(r: JobRun, n: nat, e: Signal) returns (k: nat)
    requires IsRun(r) && n < |r.jobs| && e in r.jobs[n].events
    ensures k < n && IsSource(r, k, e)
    decreases n
  {
    StartsWithoutEvents(r);
    if e in r.jobs[n - 1].events {
      k := EventHasItsSource(r, n - 1, e);
    } else {
      k := n - 1;
      StepOfJobRun(r, k);
      EventsStep(r.jobs[k], r.steps[k], r.clocks[k], e);
    }
  }

  lemma {:induction false} StartsWithoutEvents(r: JobRun)
    requires IsRun(r)
    ensures r.jobs[0].events == []
  {
  }

  /** The event came in from outside, or some task was caused to put it. */
  ghost predicate HasCause(r: JobRun, n: nat, e: Signal)
    requires n <= |r.steps| && |r.clocks| == |r.jobs| == |r.steps| + 1
  {
    || (exists k :: 0 <= k < n && r.steps[k] == Deliver(e))
    || (exists k :: 0 <= k < n && r.steps[k] == Replace && e == JobReplaced)
    || (exists i, t, kind :: 0 <= i < n && IsCause(r, i, t, kind, e))
  }

  /**
   * Nothing is dispatched without a cause: a success of the lookup only after the
   * SFU confirmed the participant, a timeout, a missing event or a missing URL only
   * after a restart ended in just that way, and so on.
   */
  lemma {:induction false} EveryEventHasItsCause(r: JobRun, n: nat, e: Signal)
    requires IsRun(r) && n < |r.jobs| && e in r.jobs[n].events
    ensures HasCause(r, n, e)
  {
    var k := EventHasItsSource(r, n, e);
    if r.steps[k].Run? {
      var i := SignalHasItsCause(r, k, r.steps[k].task);
    }
  }

  // ── every cause has its effect ────────────────────────────────────────

  /** What a task does with a cause: it is to put the signal. */
  lemma {:induction false} CauseGivesSignal(r: JobRun, i: nat, t: nat, e: Signal)
    requires IsRun(r) && i < |r.steps| && r.steps[i].Run? && r.steps[i].task == t && t < |r.jobs[i].tasks|
    requires IsCause(r, i, t, r.jobs[i].tasks[t].kind, e)
    ensures t < |r.jobs[i + 1].tasks| && r.jobs[i + 1].tasks[t].pc == Emit(e)
  {
    var j, m, now := r.jobs[i], r.steps[i].move, r.clocks[i];
    StepOfJobRun(r, i);
    RunInv(r, i);
    assert TaskFits(j, j.tasks[t], now);
    if j.tasks[t].pc.Calling? {
      CallAnswered(j, t, m, now);
    } else if j.tasks[t].pc.Sleep? {
      SleepStep(j, Run(t, m), now, t);
    }
  }

  /** A cause has its event: the task puts it, unless the job is cancelled first. */
  lemma {:induction false} EveryCauseHasItsEvent(r: JobRun, i: nat, n: nat, t: nat, e: Signal)
    requires IsRun(r) && i < n < |r.jobs| && r.steps[i].Run? && r.steps[i].task == t && t < |r.jobs[i].tasks|
    requires IsCause(r, i, t, r.jobs[i].tasks[t].kind, e)
    ensures t < |r.jobs[n].tasks|
    ensures r.jobs[n].tasks[t].pc == Emit(e) || WasPut(r, i + 1, n, t, e) || r.jobs[n].cancelled
  {
    CauseGivesSignal(r, i, t, e);
    SignalIsPut(r, i + 1, n, t, e);
  }

  // ── what an event does to the state ───────────────────────────────────

  /**
   * The state after a dispatch, told by the state that is entered. Every other step
   * leaves the state alone.
   */
  lemma {:induction false} StatesAreEnteredSo(r: JobRun, n: nat)
    requires IsRun(r) && n < |r.steps|
    ensures r.steps[n] != Dispatch ==> r.jobs[n + 1].state == r.jobs[n].state
    ensures r.steps[n] == Dispatch ==>
              && |r.jobs[n].events| > 0
              && var was, e, now := r.jobs[n].state, r.jobs[n].events[0], r.jobs[n + 1].state;
                 && (now == WaitingForInitialConnect ==> was == now)
                 && (was != Connected == now <==>
                       && was == WaitingForInitialConnect
                       && (e == ParticipantConnected || e == ParticipantLookupSuccessful))
                 && (was != Disconnected == now <==>
                       || (was == WaitingForInitialConnect && e == WaitingStateTimedOut)
                       || (was == Connected && (e == ParticipantDisconnectedIntentionally
                                                || e == ParticipantConnectionAborted || e == SfuParticipantGone)))
                 && (was != Aborted == now <==>
                       || (was == WaitingForInitialConnect && e == ParticipantConnectionAborted)
                       || (was == Connected && (e == DelayedEventTimedOut || e == DelayedEventNotFound
                                                || e == CsApiUrlNotFound)))
                 && (was != Replaced == now <==> was != Replaced && e == JobReplaced)
  {
    StepOfJobRun(r, n);
    if r.steps[n] == Dispatch {
      DispatchIs(r.jobs[n], r.clocks[n]);
      var j, next := r.jobs[n], Transition(r.jobs[n].state, r.jobs[n].events[0]);
      if !IsInternal(j.state, j.events[0]) && next.Some? {
        CrossingDates(Popped(j), next.value, r.clocks[n]);
        if next.value != Connected { LeavesFor(Popped(j), next.value, r.clocks[n]); }
      }
    } else {
      OnlyDispatchMoves(r.jobs[n], r.steps[n], r.clocks[n]);
    }
  }

  /** A restart has failed: its URL or its event was not found, or its time was up. */
  ghost predicate HasFailed(r: JobRun, n: nat)
    requires n <= |r.steps| && |r.clocks| == |r.jobs| == |r.steps| + 1
  {
    exists i, t, e :: 0 <= i < n && IsFailure(r, i, t, e)
  }

  predicate IsFailure(r: JobRun, i: nat, t: nat, e: Signal)
    requires i < |r.steps| && |r.clocks| == |r.jobs| == |r.steps| + 1
  {
    (e == DelayedEventTimedOut || e == DelayedEventNotFound || e == CsApiUrlNotFound) && IsCause(r, i, t, Restart, e)
  }

  /**
   * How Connected ends: with Disconnected when the participant has left, as a webhook
   * or the lookup said; with Aborted only after a restart has failed; with Replaced
   * only when the handler replaced the job. So a job none of whose restarts fails and
   * that is not replaced stays Connected until the participant leaves.
   */
  lemma {:induction false} ConnectedEndsSo(r: JobRun, n: nat)
    requires IsRun(r) && n < |r.steps| && r.jobs[n].state == Connected && r.jobs[n + 1].state != Connected
    ensures |r.jobs[n].events| > 0 && HasCause(r, n, r.jobs[n].events[0])
    ensures var e := r.jobs[n].events[0];
            match r.jobs[n + 1].state
            case Disconnected =>
              e == ParticipantDisconnectedIntentionally || e == ParticipantConnectionAborted || e == SfuParticipantGone
            case Aborted => HasFailed(r, n)
            case Replaced => exists k :: 0 <= k < n && r.steps[k] == Replace
            case _ => false
  {
    StatesAreEnteredSo(r, n);
    var e := r.jobs[n].events[0];
    EveryEventHasItsCause(r, n, e);
    RunInv(r, n);
    if e == JobReplaced {
      var k := EventHasItsSource(r, n, e);
      if r.steps[k].Run? {
        var i := SignalHasItsCause(r, k, r.steps[k].task);
      }
      StepOfJobRun(r, k);
    } else if r.jobs[n + 1].state == Aborted {
      var k := EventHasItsSource(r, n, e);
      StepOfJobRun(r, k);
      RunInv(r, k);
      var i := SignalHasItsCause(r, k, r.steps[k].task);
      assert IsFailure(r, i, r.steps[k].task, e);
    }
  }

  // ── the deadline ──────────────────────────────────────────────────────

  /** The deadline moves only on entering Connected, and when the loop takes a new one while Connected. */
  lemma {:induction false} DeadlineMovesSo(r: JobRun, n: nat)
    requires IsRun(r) && n < |r.steps|
    ensures var j, k := r.jobs[n], r.jobs[n + 1];
            && k.timeout == j.timeout
            && k.deadline == if j.state != Connected == k.state then Some(r.clocks[n] + j.timeout)
                             else if r.steps[n] == Rearm && j.state == Connected then j.result else j.deadline
  {
    StepOfJobRun(r, n);
    DeadlineStep(r.jobs[n], r.steps[n], r.clocks[n]);
  }

  lemma {:induction false} DeadlineStep(j: Job, s: Step, now: nat)
    requires Enabled(j, s, now)
    ensures var k := Next(j, s, now);
            && k.timeout == j.timeout
            && k.deadline == if j.state != Connected == k.state then Some(now + j.timeout)
                             else if s == Rearm && j.state == Connected then j.result else j.deadline
  {
    if s == Dispatch {
      DispatchDates(j, now);
      DispatchSameFrame(j, now);
    } else {
      OnlyDispatchMoves(j, s, now);
      if s != Rearm { OtherDeadline(j, s, now); }
    }
  }

  lemma {:induction false} DispatchDates(j: Job, now: nat)
    requires Enabled(j, Dispatch, now)
    ensures var k := Next(j, Dispatch, now);
            k.deadline == if j.state != Connected == k.state then Some(now + j.timeout) else j.deadline
  {
    DispatchIs(j, now);
    var next := Transition(j.state, j.events[0]);
    if !IsInternal(j.state, j.events[0]) && next.Some? {
      TransitionClimbs(j.state, j.events[0]);
      CrossingDates(Popped(j), next.value, now);
      if next.value != Connected {
        EntryFrame(Crossing(Popped(j), next.value, now), now);
      }
    }
  }

  lemma {:induction false} TimeoutStays(r: JobRun, i: nat, n: nat)
    requires IsRun(r) && i <= n < |r.jobs|
    ensures r.jobs[n].timeout == r.jobs[i].timeout
  {
    if i < n {
      TimeoutStays(r, i, n - 1);
      DeadlineMovesSo(r, n - 1);
    }
  }

  /** A restart succeeded at step `i`, and this is its deadline. */
  predicate IsSuccess(r: JobRun, i: nat, t: nat, deadline: nat)
    requires i < |r.steps| && |r.clocks| == |r.jobs| == |r.steps| + 1
  {
    && r.steps[i] == Run(t, Succeed) && t < |r.jobs[i].tasks| && r.jobs[i].tasks[t].kind == Restart
    && deadline == r.clocks[i] + r.jobs[i].timeout
  }

  lemma {:induction false} MessageStep(j: Job, s: Step, now: nat, t: nat)
    requires Enabled(j, s, now) && TasksFit(j, now) && t < |Next(j, s, now).tasks|
    requires Next(j, s, now).tasks[t].pc.Report? || Next(j, s, now).tasks[t].pc.HandOver?
    requires t >= |j.tasks| ==> IsNew(j, s, now, Next(j, s, now).tasks[t])
    ensures t < |j.tasks|
    ensures var u, d := j.tasks[t], Next(j, s, now).tasks[t].pc.deadline;
            || ((u.pc.Report? || u.pc.HandOver?) && u.pc.deadline == d
                && (Next(j, s, now).tasks[t].pc.Report? ==> u.pc == Next(j, s, now).tasks[t].pc))
            || (s == Run(t, Succeed) && u.kind == Restart && d == now + j.timeout
                && Next(j, s, now).tasks[t].pc == Report(now, d))
  {
    if t < |j.tasks| {
      TaskStep(j, s, now, t);
      assert TaskFits(j, j.tasks[t], now);
      if s.Run? && s.task == t && j.tasks[t].pc.Calling? { CallAnswered(j, t, s.move, now); }
    }
  }

  /** What a restart has to tell, it tells of its own success. */
  lemma {:induction false} MessageComesFrom(r: JobRun, n: nat, t: nat) returns (i: nat)
    requires IsRun(r) && n < |r.jobs| && t < |r.jobs[n].tasks|
    requires r.jobs[n].tasks[t].pc.Report? || r.jobs[n].tasks[t].pc.HandOver?
    ensures i < n && IsSuccess(r, i, t, r.jobs[n].tasks[t].pc.deadline)
    ensures r.jobs[n].tasks[t].pc.Report? ==> r.jobs[n].tasks[t].pc.restartedAt == r.clocks[i]
    decreases n
  {
    StartsWithoutTasks(r);
    i := n - 1;
    MessageStepAt(r, i, t);
    if !IsSuccess(r, i, t, r.jobs[n].tasks[t].pc.deadline) || r.jobs[i].tasks[t].pc.Report? {
      i := MessageComesFrom(r, n - 1, t);
    }
  }

  lemma {:induction false} MessageStepAt(r: JobRun, i: nat, t: nat)
    requires IsRun(r) && i < |r.steps| && t < |r.jobs[i + 1].tasks|
    requires r.jobs[i + 1].tasks[t].pc.Report? || r.jobs[i + 1].tasks[t].pc.HandOver?
    ensures t < |r.jobs[i].tasks|
    ensures var u, v := r.jobs[i].tasks[t], r.jobs[i + 1].tasks[t];
            || ((u.pc.Report? || u.pc.HandOver?) && u.pc.deadline == v.pc.deadline && (v.pc.Report? ==> u.pc == v.pc))
            || (IsSuccess(r, i, t, v.pc.deadline) && !u.pc.Report? && v.pc == Report(r.clocks[i], v.pc.deadline))
  {
    StepOfJobRun(r, i);
    RunInv(r, i);
    if t >= |r.jobs[i].tasks| { SpawnIsNew(r, i, t); }
    MessageStep(r.jobs[i], r.steps[i], r.clocks[i], t);
  }

  lemma {:induction false} ResultFrom(j: Job, s: Step, now: nat)
    requires Enabled(j, s, now) && Next(j, s, now).result.Some? && Next(j, s, now).result != j.result
    ensures s.Run? && s.move == Put && s.task < |j.tasks|
    ensures j.tasks[s.task].pc == HandOver(Next(j, s, now).result.value)
  {
    if s == Dispatch { DispatchSameFrame(j, now); }
  }

  lemma {:induction false} ResultComesFrom(r: JobRun, n: nat) returns (i: nat, t: nat)
    requires IsRun(r) && n < |r.jobs| && r.jobs[n].result.Some?
    ensures i < n && IsSuccess(r, i, t, r.jobs[n].result.value)
    decreases n
  {
    StartsWithoutResult(r);
    if r.jobs[n - 1].result == r.jobs[n].result {
      i, t := ResultComesFrom(r, n - 1);
    } else {
      StepOfJobRun(r, n - 1);
      ResultFrom(r.jobs[n - 1], r.steps[n - 1], r.clocks[n - 1]);
      t := r.steps[n - 1].task;
      i := MessageComesFrom(r, n - 1, t);
    }
  }

  lemma {:induction false} StartsWithoutResult(r: JobRun)
    requires IsRun(r)
    ensures r.jobs[0].result == None && r.jobs[0].deadline == None
  {
  }

  /** The deadline is one delay timeout after the job entered Connected, or after a restart that succeeded. */
  lemma {:induction false} DeadlineComesFrom(r: JobRun, n: nat) returns (i: nat)
    requires IsRun(r) && n < |r.jobs| && r.jobs[n].deadline.Some?
    ensures i < n && r.jobs[n].deadline == Some(r.clocks[i] + r.jobs[n].timeout)
    ensures || (r.jobs[i].state != Connected == r.jobs[i + 1].state)
            || (exists t :: IsSuccess(r, i, t, r.jobs[n].deadline.value))
    decreases n
  {
    StartsWithoutResult(r);
    i := n - 1;
    DeadlineMovesSo(r, i);
    if r.jobs[i].state != Connected == r.jobs[n].state {
    } else if r.steps[i] == Rearm && r.jobs[i].state == Connected {
      RearmTakes(r, i);
      var l, t := ResultComesFrom(r, i);
      TimeoutStays(r, l, n);
      i := l;
    } else {
      i := DeadlineComesFrom(r, n - 1);
    }
  }

  // ── what is spawned, and how it ends ──────────────────────────────────

  /**
   * A dispatch spawns one task on entering Connected or by the reset of the restart
   * timer, a restart; one on entering Disconnected, a send; one on entering Aborted,
   * a notice; and none otherwise.
   */
  lemma {:induction false} DispatchSpawnsSo(r: JobRun, n: nat)
    requires IsRun(r) && n < |r.steps| && r.steps[n] == Dispatch
    ensures |r.jobs[n].events| > 0 && r.jobs[n + 1].events == r.jobs[n].events[1..]
    ensures var j, k := r.jobs[n], r.jobs[n + 1];
            var spawned := |k.tasks| - |j.tasks|;
            && (k.state == Connected && (j.state != Connected || j.events[0] == DelayedEventReset) ==>
                  spawned == 1 && k.tasks[|j.tasks|].kind == Restart)
            && (j.state != Disconnected == k.state ==> spawned == 1 && k.tasks[|j.tasks|].kind == SendAction)
            && (j.state != Aborted == k.state ==> spawned == 1 && k.tasks[|j.tasks|].kind == AbortNotice)
            && (k.state == j.state && !(k.state == Connected && j.events[0] == DelayedEventReset) ==> spawned == 0)
            && (k.state == Replaced ==> spawned == 0)
  {
    StepOfJobRun(r, n);
    DispatchSameFrame(r.jobs[n], r.clocks[n]);
    DispatchSpawns(r.jobs[n], r.clocks[n]);
  }

  lemma {:induction false} DispatchSpawns(j: Job, now: nat)
    requires Enabled(j, Dispatch, now)
    ensures var k := Next(j, Dispatch, now);
            var spawned := |k.tasks| - |j.tasks|;
            && (k.state == Connected && (j.state != Connected || j.events[0] == DelayedEventReset) ==>
                  spawned == 1 && k.tasks[|j.tasks|].kind == Restart)
            && (j.state != Disconnected == k.state ==> spawned == 1 && k.tasks[|j.tasks|].kind == SendAction)
            && (j.state != Aborted == k.state ==> spawned == 1 && k.tasks[|j.tasks|].kind == AbortNotice)
            && (k.state == j.state && !(k.state == Connected && j.events[0] == DelayedEventReset) ==> spawned == 0)
            && (k.state == Replaced ==> spawned == 0)
  {
    DispatchIs(j, now);
    var p, next := Popped(j), Transition(j.state, j.events[0]);
    if !IsInternal(j.state, j.events[0]) && next.Some? {
      TransitionClimbs(j.state, j.events[0]);
      CrossingDates(p, next.value, now);
      var c := Crossing(p, next.value, now);
      if next.value != Connected {
        EntrySpawns(c, now);
        LeavesFor(p, next.value, now);
      }
    }
  }

  lemma {:induction false} NotifierStep(j: Job, s: Step, now: nat, t: nat)
    requires Enabled(j, s, now) && TasksFit(j, now) && t < |j.tasks| && IsNotifier(j.tasks[t])
    ensures j.doneSent <= Next(j, s, now).doneSent && t < |Next(j, s, now).tasks|
    ensures Next(j, s, now).tasks[t].pc == Finished ==>
              || j.tasks[t].pc == Finished || Next(j, s, now).doneSent == j.doneSent + 1 || j.cancelled
  {
    TaskCount(j, s, now);
    TaskStep(j, s, now, t);
    assert TaskFits(j, j.tasks[t], now);
    if s == Dispatch { DispatchSameFrame(j, now); }
    if s.Run? && s.task == t && j.tasks[t].pc.Calling? { CallAnswered(j, t, s.move, now); }
  }

  /** A send or a notice that has ended has told the handler that the job is done, unless the job was cancelled. */
  lemma {:induction false} NotifiersReport(r: JobRun, n: nat, t: nat)
    requires IsRun(r) && n < |r.jobs| && t < |r.jobs[n].tasks| && IsNotifier(r.jobs[n].tasks[t])
    requires r.jobs[n].tasks[t].pc == Finished && !r.jobs[n].cancelled
    ensures r.jobs[n].doneSent == 1
    decreases n
  {
    StartsWithoutTasks(r);
    var m := n - 1;
    StepOfJobRun(r, m);
    RunInv(r, m);
    SendsOnceNotifiesOnce(r, n);
    UncancelledBefore(r, m, n);
    if t < |r.jobs[m].tasks| {
      KindStays(r, m, n, t);
      NotifierStep(r.jobs[m], r.steps[m], r.clocks[m], t);
      if r.jobs[m].tasks[t].pc == Finished { NotifiersReport(r, m, t); }
    } else {
      SpawnIsNew(r, m, t);
    }
  }

  /** Being replaced cancels the job, and tells it so if there is room in its queue. */
  lemma {:induction false} ReplacementIsTold(r: JobRun, n: nat)
    requires IsRun(r) && n < |r.steps| && r.steps[n] == Replace
    ensures r.jobs[n + 1].cancelled && r.jobs[n + 1].replaced
    ensures r.jobs[n + 1].events == r.jobs[n].events
            + if |r.jobs[n].events| < 10 && r.jobs[n].loop != Exited then [JobReplaced] else []
  {
    StepOfJobRun(r, n);
    RunInv(r, n);
  }

  // ── what may happen next ──────────────────────────────────────────────

  /**
   * The environment is free: a call in flight may be answered in any way at any time,
   * a failure with any wait; and a job that is not cancelled never gives up a call by
   * itself.
   */
  lemma {:induction false} AnyAnswerMayCome(r: JobRun, n: nat, t: nat, now: nat, m: Move)
    requires IsRun(r) && n < |r.jobs| && t < |r.jobs[n].tasks| && r.jobs[n].tasks[t].pc.Calling?
    requires !r.jobs[n].cancelled
    ensures var u := r.jobs[n].tasks[t];
            Enabled(r.jobs[n], Run(t, m), now)
            <==> match u.pc.call
                 case Resolve(_) => m == Resolved || m == Unresolved
                 case Check(_, _) => m == Start
                 case Attempt(_, _) => m == Succeed || m.Again? || (m == Gone && u.kind == Restart)
                 case Backoff(_, _, until) => m == Wake && until <= now
  {
  }

  /** What a task of a live job has to say it may say as soon as there is room, and a timer may fire when it is time. */
  lemma {:induction false} SayingMayGoOn(r: JobRun, n: nat, t: nat, now: nat)
    requires IsRun(r) && n < |r.jobs| && t < |r.jobs[n].tasks| && !r.jobs[n].cancelled
    ensures r.jobs[n].tasks[t].pc.Emit? ==> (Enabled(r.jobs[n], Run(t, Put), now) <==> |r.jobs[n].events| < 10)
    ensures r.jobs[n].tasks[t].pc.HandOver? ==> Enabled(r.jobs[n], Run(t, Put), now)
    ensures r.jobs[n].tasks[t].pc.Report? || r.jobs[n].tasks[t].pc.Notify? ==> Enabled(r.jobs[n], Run(t, Put), now)
    ensures r.jobs[n].tasks[t].pc.Sanity? ==> Enabled(r.jobs[n], Run(t, Absent), now)
    ensures r.jobs[n].tasks[t].pc.Sleep? ==>
              (Enabled(r.jobs[n], Run(t, Fire), now) <==> r.jobs[n].tasks[t].pc.fireAt <= now)
  {
    RunInv(r, n);
    LiveNotExited(r, n);
    assert TaskFits(r.jobs[n], r.jobs[n].tasks[t], r.clocks[n]);
    if r.jobs[n].tasks[t].pc.HandOver? { HandOverAlone(r.jobs[n], t); }
  }

  /** The loop of a live job takes an event whenever there is one, and a result whenever there is one. */
  lemma {:induction false} LoopMayGoOn(r: JobRun, n: nat, now: nat)
    requires IsRun(r) && n < |r.jobs| && !r.jobs[n].cancelled && r.jobs[n].loop != NotStarted
    ensures Enabled(r.jobs[n], Dispatch, now) <==> |r.jobs[n].events| > 0
    ensures Enabled(r.jobs[n], Rearm, now) <==> r.jobs[n].result.Some?
    ensures !Enabled(r.jobs[n], Shutdown, now) && !Enabled(r.jobs[n], ExitLoop, now)
  {
    LiveNotExited(r, n);
  }

  lemma {:induction false} HandOverAlone(j: Job, t: nat)
    requires TokenInv(j) && t < |j.tasks| && IsTokenTask(j.tasks[t])
    ensures j.result.None?
  {
    CountPositive(j.tasks, t, IsTokenTask);
  }

  // ── the lookup ────────────────────────────────────────────────────────

  /** The lookup's last word: it gave up after its budget, or said what it had to say. */
  predicate IsGivenUp(r: JobRun, i: nat, t: nat)
    requires i < |r.steps| && |r.clocks| == |r.jobs| == |r.steps| + 1
  {
    var j, s := r.jobs[i], r.steps[i];
    && s.Run? && s.task == t && s.move.Again? && t < |j.tasks| && j.tasks[t].pc.Calling?
    && IsPastBudget(j.tasks[t].pc.call, s.move.wait, r.clocks[i])
  }

  /** How a lookup ends. */
  ghost predicate IsLookedUp(r: JobRun, n: nat, t: nat)
    requires n <= |r.steps| && |r.clocks| == |r.jobs| == |r.steps| + 1
  {
    || (exists i :: 0 <= i < n && IsGivenUp(r, i, t))
    || (exists i :: 0 <= i < n && IsPut(r, i, t, ParticipantLookupSuccessful) && !r.jobs[i].sanity)
    || (exists i :: 0 <= i < n && IsPut(r, i, t, SfuParticipantGone))
  }

  lemma {:induction false} LookupStep(j: Job, s: Step, now: nat, t: nat)
    requires Enabled(j, s, now) && TasksFit(j, now) && t < |j.tasks| && j.tasks[t].kind == Lookup
    requires t < |Next(j, s, now).tasks| && Next(j, s, now).tasks[t].pc == Finished
    requires j.tasks[t].pc != Finished && !j.cancelled && j.loop != Exited
    ensures s.Run? && s.task == t
    ensures || (s.move.Again? && j.tasks[t].pc.Calling? && IsPastBudget(j.tasks[t].pc.call, s.move.wait, now))
            || (s.move == Put && Next(j, s, now).events == j.events + [SfuParticipantGone])
            || (s.move == Put && Next(j, s, now).events == j.events + [ParticipantLookupSuccessful] && !j.sanity)
  {
    TaskStep(j, s, now, t);
    assert TaskFits(j, j.tasks[t], now);
    if j.tasks[t].pc.Calling? { CallAnswered(j, t, s.move, now); }
  }

  /**
   * A lookup of a live job ends only when its budget is spent; or with telling that
   * the participant was found, if the later checks are disabled; or with telling that
   * the participant has gone.
   */
  lemma {:induction false} LookupEndsSo(r: JobRun, n: nat, t: nat)
    requires IsRun(r) && n < |r.jobs| && t < |r.jobs[n].tasks| && r.jobs[n].tasks[t].kind == Lookup
    requires r.jobs[n].tasks[t].pc == Finished && !r.jobs[n].cancelled
    ensures IsLookedUp(r, n, t)
    decreases n
  {
    StartsWithoutTasks(r);
    var m := n - 1;
    UncancelledBefore(r, m, n);
    if t < |r.jobs[m].tasks| {
      KindStays(r, m, n, t);
      if r.jobs[m].tasks[t].pc == Finished {
        LookupEndsSo(r, m, t);
      } else {
        LookupEndsAt(r, m, t);
      }
    } else {
      SpawnIsNew(r, m, t);
    }
  }

  lemma {:induction false} LookupEndsAt(r: JobRun, m: nat, t: nat)
    requires IsRun(r) && m < |r.steps| && t < |r.jobs[m].tasks| && r.jobs[m].tasks[t].kind == Lookup
    requires t < |r.jobs[m + 1].tasks| && r.jobs[m + 1].tasks[t].pc == Finished
    requires r.jobs[m].tasks[t].pc != Finished && !r.jobs[m].cancelled
    ensures IsLookedUp(r, m + 1, t)
  {
    RunInv(r, m);
    LiveNotExited(r, m);
    StepOfJobRun(r, m);
    LookupStep(r.jobs[m], r.steps[m], r.clocks[m], t);
    assert || IsGivenUp(r, m, t) || IsPut(r, m, t, SfuParticipantGone)
           || (IsPut(r, m, t, ParticipantLookupSuccessful) && !r.jobs[m].sanity);
  }

  lemma {:induction false} SanityStep(j: Job, s: Step, now: nat, t: nat)
    requires Enabled(j, s, now) && t < |j.tasks|
    requires t < |Next(j, s, now).tasks| && Next(j, s, now).tasks[t].pc.Sanity? && !j.tasks[t].pc.Sanity?
    ensures j.sanity && s == Run(t, Put)
  {
    TaskStep(j, s, now, t);
  }

  lemma {:induction false} SanityIsConstant(j: Job, s: Step, now: nat)
    requires Enabled(j, s, now)
    ensures Next(j, s, now).sanity == j.sanity
  {
    if s == Dispatch { DispatchSameFrame(j, now); }
  }

  /** The later checks are made only if they are enabled. */
  lemma {:induction false} ChecksOnlyIfEnabled(r: JobRun, n: nat, t: nat)
    requires IsRun(r) && n < |r.jobs| && t < |r.jobs[n].tasks| && r.jobs[n].tasks[t].pc.Sanity?
    ensures r.jobs[n].sanity
    decreases n
  {
    StartsWithoutTasks(r);
    var m := n - 1;
    StepOfJobRun(r, m);
    SanityIsConstant(r.jobs[m], r.steps[m], r.clocks[m]);
    if t >= |r.jobs[m].tasks| {
      SpawnIsNew(r, m, t);
    } else if r.jobs[m].tasks[t].pc.Sanity? {
      ChecksOnlyIfEnabled(r, m, t);
    } else {
      SanityStep(r.jobs[m], r.steps[m], r.clocks[m], t);
    }
  }
}
