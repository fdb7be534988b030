/** What holds over whole runs of one job, whatever its environment does. */
module JobProperties {
  import opened Support
  import opened Fsm
  import opened JobModel
  import opened JobInvariant

  // ── longer runs ───────────────────────────────────────────────────────

  lemma {:induction false} Longer(r: JobRun, s: Step, k: Job, later: nat) returns (q: JobRun)
    requires IsRun(r)
    requires var n := |r.steps|; Enabled(r.jobs[n], s, r.clocks[n]) && k == Next(r.jobs[n], s, r.clocks[n])
    requires r.clocks[|r.steps|] <= later
    ensures IsRun(q) && q == Trace(r.jobs + [k], r.clocks + [later], r.steps + [s])
  {
    q := Trace(r.jobs + [k], r.clocks + [later], r.steps + [s]);
    assert q.jobs[0] == r.jobs[0];
    forall i | 0 <= i < |q.steps| ensures IsJobStepAt(q, i) {
      if i < |r.steps| {
        assert IsJobStepAt(r, i);
        assert q.jobs[i] == r.jobs[i] && q.jobs[i + 1] == r.jobs[i + 1] && q.steps[i] == r.steps[i];
        assert q.clocks[i] == r.clocks[i] && q.clocks[i + 1] == r.clocks[i + 1];
      }
    }
  }

  lemma {:induction false} Later(r: JobRun, later: nat) returns (q: JobRun)
    requires IsRun(r) && r.clocks[|r.steps|] <= later
    ensures IsRun(q) && q == r.(clocks := r.clocks[|r.steps| := later])
  {
    var n := |r.steps|;
    q := r.(clocks := r.clocks[n := later]);
    forall i | 0 <= i < n ensures IsJobStepAt(q, i) { assert IsJobStepAt(r, i); }
  }

  // ── the restart token ─────────────────────────────────────────────────

  /** At most one restart token ever exists, and exactly one while Connected and not cancelled. */
  lemma {:induction false} TokenConservation(r: JobRun, i: nat)
    requires IsRun(r) && i < |r.jobs|
    ensures Tokens(r.jobs[i]) <= 1
    ensures r.jobs[i].state == Connected && !r.jobs[i].cancelled ==> Tokens(r.jobs[i]) == 1
    ensures r.jobs[i].state == WaitingForInitialConnect ==> Tokens(r.jobs[i]) == 0
  {
    RunInv(r, i);
  }

  /** A restart that has a deadline to hand over always finds the result slot empty. */
  lemma {:induction false} HandOverNeverBlocks(r: JobRun, i: nat, t: nat)
    requires IsRun(r) && i < |r.jobs| && t < |r.jobs[i].tasks|
    requires r.jobs[i].tasks[t].pc.HandOver?
    ensures r.jobs[i].result.None?
    ensures Enabled(r.jobs[i], Run(t, Put), r.clocks[i])
  {
    RunInv(r, i);
    var j := r.jobs[i];
    assert TaskFits(j, j.tasks[t], r.clocks[i]);
    if j.result.Some? { ResultIsOnlyToken(j); }
  }

  /** When a result re-arms the timer, the timer it replaces has already delivered its event. */
  lemma {:induction false} RearmKillsNoTimer(r: JobRun, i: nat)
    requires IsRun(r) && i < |r.steps| && r.steps[i] == Rearm && r.jobs[i].restart.Some?
    ensures r.jobs[i].restart.value < |r.jobs[i].tasks|
    ensures r.jobs[i].tasks[r.jobs[i].restart.value] == Task(ResetTimer, Finished)
    ensures StopTimer(r.jobs[i].tasks, r.jobs[i].restart) == r.jobs[i].tasks
  {
    RunInv(r, i);
    var j := r.jobs[i];
    StepOfJobRun(r, i);
    ResultIsOnlyToken(j);
    assert !IsTokenTask(j.tasks[j.restart.value]);
  }

  // ── the shape of a run ────────────────────────────────────────────────

  /** Dispatching keeps the history or extends it by the state it enters; the deadline never recedes. */
  lemma {:induction false} DispatchHistory(j: Job, now: nat)
    requires DeadlineInv(j, now) && Climbs(j.entered, j.state)
    requires Enabled(j, Dispatch, now)
    ensures var k := Next(j, Dispatch, now);
            || (k.entered == j.entered && k.state == j.state && k.deadline == j.deadline)
            || (k.entered == j.entered + [k.state] && Rank(k.state) > Rank(j.state)
                && (j.deadline.Some? ==> k.deadline == j.deadline))
  {
    DispatchIs(j, now);
    if Transition(j.state, j.events[0]).Some? && !IsInternal(j.state, j.events[0]) {
      TransitionHistory(j, Transition(j.state, j.events[0]).value, now);
    }
  }

  lemma {:induction false} TransitionHistory(j: Job, next: State, now: nat)
    requires |j.events| > 0 && DeadlineInv(j, now) && Climbs(j.entered, j.state)
    requires Transition(j.state, j.events[0]) == Some(next)
    ensures var c := Crossing(Popped(j), next, now);
            var k := if next == Connected then StartRestart(c, now) else EntryAction(c, now);
            && k.entered == j.entered + [next] && k.state == next && Rank(next) > Rank(j.state)
            && (j.deadline.Some? ==> k.deadline == j.deadline)
  {
    TransitionClimbs(j.state, j.events[0]);
    assert Connected in j.entered ==> next != Connected by { ShapeGrows(j, j.events[0], next); }
    CrossingHistory(Popped(j), next, now);
    if next != Connected { EntryFrame(Crossing(Popped(j), next, now), now); }
  }

  lemma {:induction false} CrossingHistory(j: Job, next: State, now: nat)
    ensures var c := Crossing(j, next, now);
            && c.entered == j.entered + [next] && c.state == next
            && c.deadline == if next == Connected then Some(now + j.timeout) else j.deadline
  {
  }

  /** Dispatching while Connected leaves it, only shortens the queue, or starts a restart. */
  lemma {:induction false} ConnectedDispatch(j: Job, now: nat)
    requires Enabled(j, Dispatch, now) && j.state == Connected
    ensures var k := Next(j, Dispatch, now);
            || k.state != Connected
            || (k == Popped(j) && !IsTokenSignal(j.events[0]))
            || (k == StartRestart(Popped(j), now) && j.events[0] == DelayedEventReset)
  {
    DispatchIs(j, now);
    if Transition(j.state, j.events[0]).Some? {
      var next := Transition(j.state, j.events[0]).value;
      assert next != Connected;
      CrossingHistory(Popped(j), next, now);
      EntryFrame(Crossing(Popped(j), next, now), now);
    }
  }

  /** One step keeps the history or extends it by the state it enters. */
  lemma {:induction false} StepHistory(j: Job, s: Step, now: nat)
    requires Inv(j, now) && Enabled(j, s, now)
    ensures var k := Next(j, s, now);
            || (k.entered == j.entered && k.state == j.state)
            || (k.entered == j.entered + [k.state] && Rank(k.state) > Rank(j.state))
  {
    if s == Dispatch { DispatchHistory(j, now); } else { OnlyDispatchMoves(j, s, now); }
  }

  lemma {:induction false} OnlyDispatchMoves(j: Job, s: Step, now: nat)
    requires Enabled(j, s, now) && s != Dispatch
    ensures Next(j, s, now).entered == j.entered && Next(j, s, now).state == j.state
  {
  }

  lemma {:induction false} HistoryAt(r: JobRun, i: nat)
    requires IsRun(r) && i < |r.steps|
    ensures r.jobs[i].entered <= r.jobs[i + 1].entered
  {
    RunInv(r, i);
    StepOfJobRun(r, i);
    StepHistory(r.jobs[i], r.steps[i], r.clocks[i]);
  }

  /** Along a run the history of entered states only grows. */
  lemma {:induction false} HistoryGrows(r: JobRun, i: nat, k: nat)
    requires IsRun(r) && i <= k < |r.jobs|
    ensures r.jobs[i].entered <= r.jobs[k].entered
  {
    if i < k {
      HistoryGrows(r, i, k - 1);
      HistoryAt(r, k - 1);
    }
  }

  /** No state is entered twice, so a state that was left is never seen again. */
  lemma {:induction false} StateNeverRevisited(r: JobRun, i: nat, k: nat, l: nat)
    requires IsRun(r) && i <= k <= l < |r.jobs|
    requires r.jobs[k].state != r.jobs[i].state
    ensures r.jobs[l].state != r.jobs[i].state
  {
    HistoryGrows(r, i, k);
    HistoryGrows(r, k, l);
    RunClimbs(r, i);
    RunClimbs(r, k);
    RunClimbs(r, l);
    ClimbsOn(r.jobs[i], r.jobs[k], r.jobs[l]);
  }

  lemma {:induction false} RunClimbs(r: JobRun, i: nat)
    requires IsRun(r) && i < |r.jobs|
    ensures Climbs(r.jobs[i].entered, r.jobs[i].state)
  {
    RunInv(r, i);
  }

  lemma {:induction false} ClimbsOn(i: Job, k: Job, l: Job)
    requires Climbs(i.entered, i.state) && Climbs(k.entered, k.state) && Climbs(l.entered, l.state)
    requires i.entered <= k.entered <= l.entered && k.state != i.state
    ensures l.state != i.state
  {
    var a, b, c := |i.entered| - 1, |k.entered| - 1, |l.entered| - 1;
    assert l.entered[a] == i.state && l.entered[b] == k.state;
    assert a < b <= c;
  }

  /** Replaced is absorbing, and a run that sees Disconnected never sees Aborted (in either order). */
  lemma {:induction false} TerminalStates(r: JobRun, i: nat, k: nat)
    requires IsRun(r) && i <= k < |r.jobs|
    ensures r.jobs[i].state == Replaced ==> r.jobs[k].state == Replaced
    ensures r.jobs[i].state == Disconnected ==> r.jobs[k].state != Aborted
    ensures r.jobs[i].state == Aborted ==> r.jobs[k].state != Disconnected
  {
    HistoryGrows(r, i, k);
    RunClimbs(r, i);
    RunClimbs(r, k);
    TerminalsStay(r.jobs[i], r.jobs[k]);
  }

  lemma {:induction false} TerminalsStay(i: Job, k: Job)
    requires Climbs(i.entered, i.state) && Climbs(k.entered, k.state) && i.entered <= k.entered
    ensures k.state == i.state || Rank(i.state) < Rank(k.state)
  {
    var a, c := |i.entered| - 1, |k.entered| - 1;
    assert k.entered[a] == i.state && k.entered[c] == k.state;
  }

  predicate IsSend(t: Task) { t.kind == SendAction }

  /**
   * Over any run at most one send is ever started, at most one done notification
   * is sent, and once it is sent no send attempt is left to make.
   */
  lemma {:induction false} SendsOnceNotifiesOnce(r: JobRun, i: nat)
    requires IsRun(r) && i < |r.jobs|
    ensures Count(r.jobs[i].tasks, IsSend) <= 1
    ensures Count(r.jobs[i].tasks, IsSend) == 1 ==> Disconnected in r.jobs[i].entered
    ensures r.jobs[i].doneSent <= 1
    ensures r.jobs[i].doneSent == 1 ==>
              forall t :: 0 <= t < |r.jobs[i].tasks| && IsNotifier(r.jobs[i].tasks[t]) ==>
                r.jobs[i].tasks[t].pc == Finished
  {
    RunInv(r, i);
    var j := r.jobs[i];
    CountMonotone(j.tasks, IsSend, IsNotifier);
    if Count(j.tasks, IsSend) == 1 {
      var t := CountWitness(j.tasks, IsSend);
      assert j.tasks[t].kind == SendAction;
    }
    DoneMeansFinished(j);
  }

  /** A job that has notified the handler has no live notifier, hence no running send. */
  lemma {:induction false} DoneMeansFinished(j: Job)
    requires NotifierInv(j)
    ensures j.doneSent <= 1
    ensures j.doneSent == 1 ==>
              forall t :: 0 <= t < |j.tasks| && IsNotifier(j.tasks[t]) ==> j.tasks[t].pc == Finished
  {
    if j.doneSent == 1 {
      forall t | 0 <= t < |j.tasks| && IsNotifier(j.tasks[t]) ensures j.tasks[t].pc == Finished {
        if j.tasks[t].pc != Finished { CountPositive(j.tasks, t, IsLiveNotifier); }
      }
    }
  }

  lemma {:induction false} TerminalsExclude(entered: seq<State>, current: State)
    requires Climbs(entered, current)
    ensures !(Disconnected in entered && Aborted in entered)
  {
    forall a, d | 0 <= a < |entered| && 0 <= d < |entered|
      ensures !(entered[a] == Aborted && entered[d] == Disconnected)
    {
      if a < d { assert Rank(entered[a]) < Rank(entered[d]); }
      if d < a { assert Rank(entered[d]) < Rank(entered[a]); }
    }
  }

  /** A job that entered Disconnected has started its send, and it is the only notifier there is. */
  lemma {:induction false} DisconnectedMeansSendStarted(r: JobRun, i: nat) returns (t: nat)
    requires IsRun(r) && i < |r.jobs| && Disconnected in r.jobs[i].entered
    ensures t < |r.jobs[i].tasks| && r.jobs[i].tasks[t].kind == SendAction
    ensures forall u :: 0 <= u < |r.jobs[i].tasks| && IsNotifier(r.jobs[i].tasks[u]) ==> u == t
  {
    RunInv(r, i);
    var j := r.jobs[i];
    TerminalsExclude(j.entered, j.state);
    t := CountWitness(j.tasks, IsNotifier);
    forall u | 0 <= u < |j.tasks| && IsNotifier(j.tasks[u]) ensures u == t {
      if u < t { CountTwo(j.tasks, u, t, IsNotifier); }
      if t < u { CountTwo(j.tasks, t, u, IsNotifier); }
    }
  }

  /** A step leaves a task alone, moves it, or stops its sleep; its kind never changes. */
  predicate Follows(j: Job, s: Step, t: nat, u: Task)
    requires t < |j.tasks|
  {
    u.kind == j.tasks[t].kind && (u == j.tasks[t] || (s.Run? && s.task == t) || (j.tasks[t].pc.Sleep? && u.pc.Sleep?))
  }

  /** What a step does to each task; a new send starts at its URL lookup. */
  lemma {:induction false} TaskStep(j: Job, s: Step, now: nat, t: nat)
    requires Enabled(j, s, now) && t < |Next(j, s, now).tasks|
    ensures |j.tasks| <= |Next(j, s, now).tasks|
    ensures var u := Next(j, s, now).tasks[t];
            && (t < |j.tasks| ==> Follows(j, s, t, u))
            && (t >= |j.tasks| && IsSend(u) ==> u.pc.Calling? && u.pc.call.Resolve?)
  {
    if s == Dispatch { DispatchTasks(j, now, t); }
  }

  lemma {:induction false} DispatchTasks(j: Job, now: nat, t: nat)
    requires Enabled(j, Dispatch, now) && t < |Next(j, Dispatch, now).tasks|
    ensures |j.tasks| <= |Next(j, Dispatch, now).tasks|
    ensures var u := Next(j, Dispatch, now).tasks[t];
            && (t < |j.tasks| ==> Follows(j, Dispatch, t, u))
            && (t >= |j.tasks| && IsSend(u) ==> u.pc.Calling? && u.pc.call.Resolve?)
  {
    var c := DispatchVia(j, now, t);
    assert AddsResolving(c.tasks, Next(j, Dispatch, now).tasks);
  }

  /** Dispatching first may stop a timer, and then spawns at most one task. */
  lemma {:induction false} DispatchVia(j: Job, now: nat, t: nat) returns (c: Job)
    requires Enabled(j, Dispatch, now)
    ensures |c.tasks| == |j.tasks| && (t < |j.tasks| ==> Follows(j, Dispatch, t, c.tasks[t]))
    ensures AddsResolving(c.tasks, Next(j, Dispatch, now).tasks)
  {
    DispatchIs(j, now);
    c := Popped(j);
    var next := Transition(j.state, j.events[0]);
    if !IsInternal(j.state, j.events[0]) && next.Some? {
      c := Crossing(Popped(j), next.value, now);
      CrossingLength(Popped(j), next.value, now);
      if t < |j.tasks| { CrossingStops(Popped(j), next.value, now, t); }
    }
    EntryAdds(c, now);
  }

  /** At most one task is new, and a new send starts at its URL lookup. */
  predicate AddsResolving(a: seq<Task>, b: seq<Task>) {
    || b == a
    || (|b| == |a| + 1 && b[..|a|] == a
        && (IsSend(b[|a|]) ==> b[|a|].pc.Calling? && b[|a|].pc.call.Resolve?))
  }

  lemma {:induction false} EntryAdds(c: Job, now: nat)
    ensures AddsResolving(c.tasks, StartRestart(c, now).tasks)
    ensures c.state != Connected ==> AddsResolving(c.tasks, EntryAction(c, now).tasks)
  {
  }

  lemma {:induction false} CrossingLength(j: Job, next: State, now: nat)
    ensures |Crossing(j, next, now).tasks| == |j.tasks| && Crossing(j, next, now).state == next
  {
  }

  /** Leaving a state only stops sleeping timers. */
  lemma {:induction false} CrossingStops(j: Job, next: State, now: nat, t: nat)
    requires t < |j.tasks|
    ensures var k := Crossing(j, next, now);
            && |k.tasks| == |j.tasks| && k.tasks[t].kind == j.tasks[t].kind
            && (k.tasks[t] == j.tasks[t] || (j.tasks[t].pc.Sleep? && k.tasks[t].pc.Sleep?))
  {
  }

  /** The send is still looking for the URL, or about to make its first attempt. */
  predicate IsUntried(t: Task) {
    t.pc.Calling? && (t.pc.call.Resolve? || t.pc.call.Check?)
  }

  /** Up to moment `n` the send has started an attempt, or found no URL to send to. */
  predicate WasTried(r: JobRun, n: nat, t: nat)
    requires n <= |r.steps|
  {
    exists i :: 0 <= i < n && (r.steps[i] == Run(t, Start) || r.steps[i] == Run(t, Unresolved))
  }

  /**
   * No leave is given up without a try: a send that is past its URL lookup and its
   * first check has started an attempt or found no URL, unless the job was
   * cancelled first. In particular this holds when it notifies the handler.
   */
  lemma {:induction false} LeaveIsTried(r: JobRun, n: nat, t: nat)
    requires IsRun(r) && n < |r.jobs| && t < |r.jobs[n].tasks| && IsSend(r.jobs[n].tasks[t])
    ensures IsUntried(r.jobs[n].tasks[t]) || WasTried(r, n, t) || r.jobs[n].cancelled
    decreases n
  {
    if n > 0 {
      var j, s, now := r.jobs[n - 1], r.steps[n - 1], r.clocks[n - 1];
      StepOfJobRun(r, n - 1);
      TaskStep(j, s, now, t);
      if t < |j.tasks| {
        RunInv(r, n - 1);
        assert TaskFits(j, j.tasks[t], now);
        LeaveIsTried(r, n - 1, t);
        TriedStays(r, n - 1, t);
        if j.cancelled { CancelStays(j, s, now); }
        if s.Run? && s.task == t { assert r.steps[n - 1] == Run(t, s.move); }
      }
    }
  }

  /** The task is waiting until `until`, that time has come, or the task has finished calling. */
  predicate Awaits(t: Task, until: nat, now: nat) {
    t.pc.Calling? ==> now >= until || (t.pc.call.Backoff? && t.pc.call.until == until)
  }

  lemma {:induction false} AwaitsStep(j: Job, s: Step, now: nat, later: nat, t: nat, until: nat)
    requires Enabled(j, s, now) && now <= later && t < |j.tasks| && !j.tasks[t].pc.Sleep?
    requires Awaits(j.tasks[t], until, now)
    ensures t < |Next(j, s, now).tasks| && !Next(j, s, now).tasks[t].pc.Sleep?
    ensures Awaits(Next(j, s, now).tasks[t], until, later)
  {
    TaskCount(j, s, now);
    TaskStep(j, s, now, t);
    if s.Run? && s.task == t { MoveAwaits(j, j.tasks[t], s.move, now, until); }
  }

  lemma {:induction false} TaskCount(j: Job, s: Step, now: nat)
    requires Enabled(j, s, now)
    ensures |j.tasks| <= |Next(j, s, now).tasks|
  {
    if s == Dispatch {
      var c := DispatchVia(j, now, 0);
    } else {
      OtherCount(j, s, now);
    }
  }

  lemma {:induction false} OtherCount(j: Job, s: Step, now: nat)
    requires Enabled(j, s, now) && s != Dispatch
    ensures |j.tasks| <= |Next(j, s, now).tasks|
  {
  }

  /** A task keeps its place and its kind. */
  lemma {:induction false} KindStays(q: JobRun, k: nat, l: nat, t: nat)
    requires IsRun(q) && k <= l < |q.jobs| && t < |q.jobs[k].tasks|
    ensures t < |q.jobs[l].tasks| && q.jobs[l].tasks[t].kind == q.jobs[k].tasks[t].kind
    decreases l
  {
    if k < l {
      KindStays(q, k, l - 1, t);
      StepOfJobRun(q, l - 1);
      TaskCount(q.jobs[l - 1], q.steps[l - 1], q.clocks[l - 1]);
      TaskStep(q.jobs[l - 1], q.steps[l - 1], q.clocks[l - 1], t);
    }
  }

  lemma {:induction false} MoveAwaits(j: Job, t: Task, m: Move, now: nat, until: nat)
    requires MoveEnabled(j, t, m, now) && Awaits(t, until, now) && !t.pc.Sleep?
    ensures !MovePc(j, t, m, now).Sleep? && Awaits(t.(pc := MovePc(j, t, m, now)), until, now)
  {
  }

  /**
   * A wait is waited out: after a failed attempt, the same call starts no other
   * attempt before the wait the schedule or the server asked for has passed.
   */
  lemma {:induction false} WaitsAreWaited(r: JobRun, i: nat, t: nat, wait: nat, k: nat)
    requires IsRun(r) && i < k < |r.jobs| && r.steps[i] == Run(t, Again(wait))
    requires t < |r.jobs[i].tasks| && r.jobs[i].tasks[t].pc.Calling?
    ensures t < |r.jobs[k].tasks| && !r.jobs[k].tasks[t].pc.Sleep?
    ensures Awaits(r.jobs[k].tasks[t], r.clocks[i] + wait, r.clocks[k])
    ensures k < |r.steps| && r.steps[k] == Run(t, Start) ==> r.clocks[k] >= r.clocks[i] + wait
    decreases k
  {
    var j, s, now := r.jobs[k - 1], r.steps[k - 1], r.clocks[k - 1];
    StepOfJobRun(r, k - 1);
    if i < k - 1 {
      WaitsAreWaited(r, i, t, wait, k - 1);
      AwaitsStep(j, s, now, r.clocks[k], t, r.clocks[i] + wait);
    } else {
      AgainAwaits(j, t, wait, now);
    }
    if k < |r.steps| { StepOfJobRun(r, k); }
  }

  lemma {:induction false} AgainAwaits(j: Job, t: nat, wait: nat, now: nat)
    requires Enabled(j, Run(t, Again(wait)), now) && t < |j.tasks| && j.tasks[t].pc.Calling?
    ensures var u := Next(j, Run(t, Again(wait)), now).tasks[t];
            !u.pc.Sleep? && Awaits(u, now + wait, now)
  {
  }

  lemma {:induction false} TriedStays(r: JobRun, n: nat, t: nat)
    requires n < |r.steps|
    ensures WasTried(r, n, t) ==> WasTried(r, n + 1, t)
    ensures r.steps[n] == Run(t, Start) || r.steps[n] == Run(t, Unresolved) ==> WasTried(r, n + 1, t)
  {
  }

  lemma {:induction false} CancelStays(j: Job, s: Step, now: nat)
    requires Enabled(j, s, now) && j.cancelled
    ensures Next(j, s, now).cancelled
  {
    if s == Dispatch { DispatchSameFrame(j, now); }
  }

  // ── timers ────────────────────────────────────────────────────────────

  /** While the loop runs, the waiting slot is filled exactly while waiting, the restart slot only while Connected. */
  lemma {:induction false} TimerOwnership(r: JobRun, i: nat)
    requires IsRun(r) && i < |r.jobs|
    ensures r.jobs[i].waiting.Some? <==> r.jobs[i].loop == Running && r.jobs[i].state == WaitingForInitialConnect
    ensures r.jobs[i].restart.Some? ==> r.jobs[i].loop == Running && r.jobs[i].state == Connected
    ensures forall t :: 0 <= t < |r.jobs[i].tasks| && IsRunningTimer(r.jobs[i].tasks[t]) ==>
              r.jobs[i].waiting == Some(t) || r.jobs[i].restart == Some(t)
  {
    RunInv(r, i);
  }

  /** A timer's event that arrives after its state was left is swallowed: only the queue gets shorter. */
  lemma {:induction false} LateTimerIsHarmless(j: Job, now: nat)
    requires Enabled(j, Dispatch, now)
    requires || (j.events[0] == WaitingStateTimedOut && j.state != WaitingForInitialConnect)
             || (j.events[0] == DelayedEventReset && j.state != Connected)
    ensures Next(j, Dispatch, now) == j.(events := j.events[1..])
  {
  }

  /** The event of the timer that runs in a state, for the two states that have one. */
  predicate IsTimerEventOf(state: State, e: Signal) {
    (state == WaitingForInitialConnect && e == WaitingStateTimedOut) || (state == Connected && e == DelayedEventReset)
  }

  /** A timer may be stopped too late, but after its state was left its event is dropped, for the rest of the run. */
  lemma {:induction false} LeftTimersAreHarmless(r: JobRun, i: nat, k: nat, l: nat)
    requires IsRun(r) && i <= k <= l < |r.steps| && r.jobs[k].state != r.jobs[i].state
    requires r.steps[l] == Dispatch && |r.jobs[l].events| > 0 && IsTimerEventOf(r.jobs[i].state, r.jobs[l].events[0])
    ensures r.jobs[l + 1] == r.jobs[l].(events := r.jobs[l].events[1..])
  {
    StateNeverRevisited(r, i, k, l);
    StepOfJobRun(r, l);
    LateTimerIsHarmless(r.jobs[l], r.clocks[l]);
  }

  // ── deadlines and budgets ─────────────────────────────────────────────

  lemma {:induction false} StepDeadline(j: Job, s: Step, now: nat)
    requires Inv(j, now) && Enabled(j, s, now)
    ensures var k := Next(j, s, now);
            j.deadline.Some? ==> k.deadline.Some? && j.deadline.value <= k.deadline.value
  {
    if s == Dispatch {
      DispatchHistory(j, now);
    } else if s == Rearm {
      RearmDeadline(j, now);
    } else {
      OtherDeadline(j, s, now);
    }
  }

  lemma {:induction false} RearmDeadline(j: Job, now: nat)
    requires DeadlineInv(j, now) && j.result.Some? && j.deadline.Some?
    ensures var k := ApplyResult(j, now); k.deadline.Some? && j.deadline.value <= k.deadline.value
  {
  }

  lemma {:induction false} OtherDeadline(j: Job, s: Step, now: nat)
    requires Enabled(j, s, now) && s != Dispatch && s != Rearm
    ensures Next(j, s, now).deadline == j.deadline
  {
  }

  lemma {:induction false} DeadlineAt(r: JobRun, i: nat)
    requires IsRun(r) && i < |r.steps|
    ensures var d, e := r.jobs[i].deadline, r.jobs[i + 1].deadline; d.Some? ==> e.Some? && d.value <= e.value
  {
    RunInv(r, i);
    StepOfJobRun(r, i);
    StepDeadline(r.jobs[i], r.steps[i], r.clocks[i]);
  }

  /** The deadline is unset exactly until Connected is entered, and never moves backwards. */
  lemma {:induction false} DeadlineOnlyAdvances(r: JobRun, i: nat, k: nat)
    requires IsRun(r) && i <= k < |r.jobs|
    ensures r.jobs[i].deadline.Some? <==> Connected in r.jobs[i].entered
    ensures r.jobs[i].deadline.Some? ==>
              r.jobs[k].deadline.Some? && r.jobs[i].deadline.value <= r.jobs[k].deadline.value
  {
    RunInv(r, i);
    if i < k {
      DeadlineOnlyAdvances(r, i, k - 1);
      DeadlineAt(r, k - 1);
    }
  }

  /**
   * No call ever gets the budget zero, which would mean "retry forever". A send
   * gets between one second and one hour, and exactly one second when the job was
   * never Connected; a restart never gets more than the delay timeout. And no wait
   * before the next attempt ends later than the budget.
   */
  lemma {:induction false} BudgetRange(r: JobRun, i: nat, t: nat)
    requires IsRun(r) && i < |r.jobs| && t < |r.jobs[i].tasks|
    requires r.jobs[i].tasks[t].pc.Calling?
    ensures var task := r.jobs[i].tasks[t];
            var budget := task.pc.call.budget;
            && budget > 0
            && (task.kind == SendAction ==>
                  && SECOND <= budget <= HOUR
                  && (Connected !in r.jobs[i].entered ==> budget == SECOND))
            && (task.kind == Restart ==> budget <= r.jobs[i].timeout)
            && (task.kind == Lookup ==> budget <= HOUR && budget <= r.jobs[i].timeout)
            && (task.pc.call.Backoff? ==> task.pc.call.until <= task.pc.call.start + budget)
  {
    RunInv(r, i);
    assert TaskFits(r.jobs[i], r.jobs[i].tasks[t], r.clocks[i]);
  }

  // ── the participant lookup ────────────────────────────────────────────

  /** The lookup says nothing, Found, or Found and then Gone; and Gone is never dispatched while waiting. */
  lemma {:induction false} LookupOrder(r: JobRun, i: nat)
    requires IsRun(r) && i < |r.jobs|
    ensures LogFits(r.jobs[i].lookupLog)
    ensures i < |r.steps| && r.steps[i] == Dispatch ==>
              && |r.jobs[i].events| > 0
              && (r.jobs[i].events[0] == SfuParticipantGone ==> r.jobs[i].state != WaitingForInitialConnect)
  {
    RunInv(r, i);
    if i < |r.steps| && r.steps[i] == Dispatch {
      StepOfJobRun(r, i);
      var j := r.jobs[i];
      assert ParticipantLookupSuccessful !in j.events[..0];
    }
  }

  // ── cancellation and exit ─────────────────────────────────────────────

  /** No retry loop starts an attempt in a cancelled job, and none at all once the job's loop is done. */
  lemma {:induction false} CancelledStartsNothing(r: JobRun, i: nat)
    requires IsRun(r) && i < |r.steps| && StartsAttempt(r.jobs[i], r.steps[i])
    ensures !r.jobs[i].cancelled && r.jobs[i].loop == Running
  {
    RunInv(r, i);
    StepOfJobRun(r, i);
  }

  /** Once the loop has set its done flag, every task but the timer sleeps has ended. */
  lemma {:induction false} LoopDoneMeansNoBackground(r: JobRun, i: nat, t: nat)
    requires IsRun(r) && i < |r.jobs| && r.jobs[i].loop == Exited && t < |r.jobs[i].tasks|
    ensures IsTracked(r.jobs[i].tasks[t]) ==> r.jobs[i].tasks[t].pc == Finished
  {
    RunInv(r, i);
    ExitedHasNoBackground(r.jobs[i], t);
  }

  lemma {:induction false} DrainingStep(j: Job, s: Step, now: nat)
    requires Enabled(j, s, now) && (j.loop == Draining || j.loop == Exited)
    ensures var k := Next(j, s, now);
            && (k.loop == Draining || k.loop == Exited)
            && |k.tasks| == |j.tasks|
            && k.state == j.state && k.deadline == j.deadline
  {
  }

  lemma {:induction false} DrainingAt(r: JobRun, i: nat)
    requires IsRun(r) && i < |r.steps| && (r.jobs[i].loop == Draining || r.jobs[i].loop == Exited)
    ensures var j, k := r.jobs[i], r.jobs[i + 1];
            && (k.loop == Draining || k.loop == Exited)
            && |k.tasks| == |j.tasks| && k.state == j.state && k.deadline == j.deadline
  {
    StepOfJobRun(r, i);
    DrainingStep(r.jobs[i], r.steps[i], r.clocks[i]);
  }

  /**
   * Once the loop has taken its cancellation branch it decides nothing more: no
   * task is ever spawned again, so the wait group it waits on only empties, and
   * state and deadline are final.
   */
  lemma {:induction false} DrainingSpawnsNothing(r: JobRun, i: nat, k: nat)
    requires IsRun(r) && i <= k < |r.jobs|
    requires r.jobs[i].loop == Draining || r.jobs[i].loop == Exited
    ensures r.jobs[k].loop == Draining || r.jobs[k].loop == Exited
    ensures |r.jobs[k].tasks| == |r.jobs[i].tasks|
    ensures r.jobs[k].state == r.jobs[i].state && r.jobs[k].deadline == r.jobs[i].deadline
    decreases k
  {
    if i < k {
      DrainingSpawnsNothing(r, i, k - 1);
      DrainingAt(r, k - 1);
    }
  }
}
