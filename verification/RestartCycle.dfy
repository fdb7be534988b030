/**
 * The restart cycle makes progress: the token's holder is always able to go on, and
 * a rank counts down the steps to the next restart attempt.
 */
module RestartCycle {
  import opened Support
  import opened Fsm
  import opened JobModel
  import opened JobInvariant
  import opened JobProperties

  // ── the rank ──────────────────────────────────────────────────────────

  /** The first element that satisfies `p`, or the length if there is none. */
  function First<T>(s: seq<T>, p: T -> bool): (i: nat)
    ensures i <= |s| && forall k :: 0 <= k < i ==> !p(s[k])
    ensures i < |s| ==> p(s[i])
  {
    if |s| == 0 || p(s[0]) then 0 else 1 + First(s[1..], p)
  }

  lemma {:induction false} FirstIs<T>(s: seq<T>, p: T -> bool, i: nat)
    requires i <= |s| && (forall k :: 0 <= k < i ==> !p(s[k])) && (i < |s| ==> p(s[i]))
    ensures First(s, p) == i
  {
  }

  /** The reset in the queue has the whole way to a restart before it; a report that ends the cycle only its place. */
  function QueuedRank(e: Signal, place: nat): nat {
    if e == DelayedEventReset then 24 + place else 1 + place
  }

  function TaskRank(t: Task, queued: nat): nat {
    match t.pc
    case Emit(e) => if e == DelayedEventReset then 34 + queued else 11 + queued
    case Sleep(_, _) => 45
    case HandOver(_) => 47
    case Report(_, _) => 48
    case Calling(Check(_, _)) => 22
    case Calling(Attempt(_, _)) => 49
    case Calling(_) => 23
    case _ => 0
  }

  /** Where the token is: in the result slot, in the queue, or with a task. */
  function CycleRank(j: Job): nat {
    var place, holder := First(j.events, IsTokenSignal), First(j.tasks, IsTokenTask);
    if j.result.Some? then 46
    else if place < |j.events| then QueuedRank(j.events[place], place)
    else if holder < |j.tasks| then TaskRank(j.tasks[holder], |j.events|)
    else 0
  }

  /** The step is that of the token's holder, or of the loop if the holder waits for the loop. */
  predicate IsHoldersStep(j: Job, s: Step) {
    var holder := First(j.tasks, IsTokenTask);
    if j.result.Some? then s == Rearm
    else if First(j.events, IsTokenSignal) < |j.events| then s == Dispatch
    else
      && holder < |j.tasks|
      && if j.tasks[holder].pc.Emit? && |j.events| == EVENT_CAPACITY then s == Dispatch else s.Run? && s.task == holder
  }

  /** The step starts the next attempt, ends the cycle, or brings the attempt nearer. */
  predicate Advances(j: Job, s: Step, now: nat)
    requires Enabled(j, s, now)
  {
    var k := Next(j, s, now);
    StartsAttempt(j, s) || k.state != Connected || CycleRank(k) < CycleRank(j)
  }

  // ── the token in the result slot ──────────────────────────────────────

  lemma {:induction false} ResultAdvances(j: Job, now: nat)
    requires TokenInv(j) && j.state == Connected && j.loop == Running && j.result.Some?
    ensures Advances(j, Rearm, now)
  {
    var k, n := Next(j, Rearm, now), |j.tasks|;
    ResultIsOnlyToken(j);
    StopTimerTasks(j.tasks, j.restart);
    NoneQueued(j.events);
    FirstIs(k.events, IsTokenSignal, |k.events|);
    forall i | 0 <= i < n ensures !IsTokenTask(k.tasks[i]) { assert !IsTokenTask(j.tasks[i]); }
    FirstIs(k.tasks, IsTokenTask, n);
  }

  lemma {:induction false} NoneQueued(events: seq<Signal>)
    requires Count(events, IsTokenSignal) == 0
    ensures forall i :: 0 <= i < |events| ==> !IsTokenSignal(events[i])
  {
    forall i | 0 <= i < |events| ensures !IsTokenSignal(events[i]) {
      if IsTokenSignal(events[i]) { CountPositive(events, i, IsTokenSignal); }
    }
  }

  // ── the token in the queue ────────────────────────────────────────────

  /** With the token in the queue no task holds it. */
  lemma {:induction false} QueuedIsOnlyToken(j: Job, place: nat)
    requires TokenInv(j) && place < |j.events| && IsTokenSignal(j.events[place])
    ensures j.result.None? && forall i :: 0 <= i < |j.tasks| ==> !IsTokenTask(j.tasks[i])
    ensures forall i :: 0 <= i < |j.events| && i != place ==> !IsTokenSignal(j.events[i])
  {
    CountPositive(j.events, place, IsTokenSignal);
    forall i | 0 <= i < |j.tasks| ensures !IsTokenTask(j.tasks[i]) {
      if IsTokenTask(j.tasks[i]) { CountPositive(j.tasks, i, IsTokenTask); }
    }
    forall i | 0 <= i < |j.events| && i != place ensures !IsTokenSignal(j.events[i]) {
      if IsTokenSignal(j.events[i]) {
        CountTwo(j.events, if i < place then i else place, if i < place then place else i, IsTokenSignal);
      }
    }
  }

  /** Dispatching anything but a token signal leaves Connected or only shortens the queue. */
  lemma {:induction false} DispatchOther(j: Job, now: nat)
    requires Enabled(j, Dispatch, now) && j.state == Connected && !IsTokenSignal(j.events[0])
    ensures var k := Next(j, Dispatch, now); k.state != Connected || k == Popped(j)
  {
    ConnectedDispatch(j, now);
  }

  lemma {:induction false} QueueMovesUp(j: Job, now: nat, place: nat)
    requires TokenInv(j) && Enabled(j, Dispatch, now) && j.state == Connected
    requires 0 < place < |j.events| && IsTokenSignal(j.events[place])
    ensures Advances(j, Dispatch, now)
  {
    QueuedIsOnlyToken(j, place);
    DispatchOther(j, now);
    FirstIs(j.events, IsTokenSignal, place);
    if Next(j, Dispatch, now).state == Connected {
      FirstIs(j.events[1..], IsTokenSignal, place - 1);
    }
  }

  lemma {:induction false} ResetRestarts(j: Job, now: nat)
    requires TokenInv(j) && Enabled(j, Dispatch, now) && j.state == Connected && |j.events| <= EVENT_CAPACITY
    requires j.events[0] == DelayedEventReset
    ensures Advances(j, Dispatch, now)
  {
    var k, n := Next(j, Dispatch, now), |j.tasks|;
    QueuedIsOnlyToken(j, 0);
    assert k == StartRestart(Popped(j), now) by { DispatchIs(j, now); }
    FirstIs(j.events, IsTokenSignal, 0);
    assert k.events == j.events[1..] && k.tasks == j.tasks + [Task(Restart, RestartPc(j.deadline, now))];
    FirstIs(k.events, IsTokenSignal, |k.events|);
    FirstIs(k.tasks, IsTokenTask, n);
    NewRestartRank(j.deadline, now, |k.events|);
  }

  lemma {:induction false} NewRestartRank(deadline: Option<nat>, now: nat, queued: nat)
    requires queued < EVENT_CAPACITY
    ensures TaskRank(Task(Restart, RestartPc(deadline, now)), queued) < QueuedRank(DelayedEventReset, 0)
  {
  }

  lemma {:induction false} HeadAdvances(j: Job, now: nat)
    requires TokenInv(j) && Enabled(j, Dispatch, now) && j.state == Connected && |j.events| <= EVENT_CAPACITY
    requires IsTokenSignal(j.events[0])
    ensures Advances(j, Dispatch, now)
  {
    if j.events[0] == DelayedEventReset {
      ResetRestarts(j, now);
    } else {
      DispatchIs(j, now);
      LeavesFor(Popped(j), Aborted, now);
    }
  }

  // ── the token with a task ─────────────────────────────────────────────

  /** Task `t` holds the only token. */
  lemma {:induction false} HeldIsOnlyToken(j: Job, t: nat)
    requires TokenInv(j) && t < |j.tasks| && IsTokenTask(j.tasks[t])
    ensures j.result.None? && First(j.events, IsTokenSignal) == |j.events| && First(j.tasks, IsTokenTask) == t
    ensures forall i :: 0 <= i < |j.tasks| && i != t ==> !IsTokenTask(j.tasks[i])
    ensures forall i :: 0 <= i < |j.events| ==> !IsTokenSignal(j.events[i])
  {
    CountPositive(j.tasks, t, IsTokenTask);
    NoneQueued(j.events);
    forall i | 0 <= i < |j.tasks| && i != t ensures !IsTokenTask(j.tasks[i]) {
      if IsTokenTask(j.tasks[i]) { CountTwo(j.tasks, if i < t then i else t, if i < t then t else i, IsTokenTask); }
    }
    FirstIs(j.events, IsTokenSignal, |j.events|);
    FirstIs(j.tasks, IsTokenTask, t);
  }

  lemma {:induction false} FullQueueAdvances(j: Job, now: nat, t: nat)
    requires TokenInv(j) && Enabled(j, Dispatch, now) && j.state == Connected
    requires t < |j.tasks| && IsTokenTask(j.tasks[t]) && j.tasks[t].pc.Emit?
    ensures Advances(j, Dispatch, now)
  {
    HeldIsOnlyToken(j, t);
    DispatchOther(j, now);
    if Next(j, Dispatch, now).state == Connected {
      FirstIs(j.events[1..], IsTokenSignal, |j.events| - 1);
    }
  }

  /** The move with which a holder goes on. */
  function NextMove(pc: Pc): Move {
    match pc
    case Sleep(_, _) => Fire
    case Calling(Resolve(_)) => Resolved
    case Calling(Check(_, _)) => Start
    case Calling(Attempt(_, _)) => Succeed
    case Calling(Backoff(_, _, _)) => Wake
    case _ => Put
  }

  /** When it can. */
  function NextTime(pc: Pc, now: nat): nat {
    match pc
    case Sleep(fireAt, _) => Max(now, fireAt)
    case Calling(Backoff(_, _, until)) => Max(now, until)
    case _ => now
  }

  lemma {:induction false} HolderCanMove(j: Job, now: nat, t: nat)
    requires TasksFit(j, now) && TokenInv(j) && t < |j.tasks| && IsTokenTask(j.tasks[t])
    requires !j.cancelled && (j.tasks[t].pc.Emit? ==> |j.events| < EVENT_CAPACITY)
    ensures Enabled(j, Run(t, NextMove(j.tasks[t].pc)), NextTime(j.tasks[t].pc, now))
  {
    HeldIsOnlyToken(j, t);
    assert TaskFits(j, j.tasks[t], now);
  }

  /** The holder puts its signal into the queue. */
  lemma {:induction false} EmitAdvances(j: Job, now: nat, t: nat, at: nat)
    requires TasksFit(j, now) && TokenInv(j) && t < |j.tasks| && IsTokenTask(j.tasks[t])
    requires j.tasks[t].pc.Emit? && j.loop != Exited && Enabled(j, Run(t, Put), at)
    ensures Advances(j, Run(t, Put), at)
  {
    var k, e := Next(j, Run(t, Put), at), j.tasks[t].pc.signal;
    HeldIsOnlyToken(j, t);
    assert TaskFits(j, j.tasks[t], now);
    assert k.events == j.events + [e];
    FirstIs(k.events, IsTokenSignal, |j.events|);
  }

  /** Where the holder's own move leads to, other than into the queue. */
  lemma {:induction false} MoveRank(j: Job, t: Task, m: Move, now: nat, at: nat)
    requires TaskFits(j, t, now) && IsTokenTask(t) && !t.pc.Emit? && |j.events| <= EVENT_CAPACITY
    requires MoveEnabled(j, t, m, at) && !j.cancelled && !IsKilledTimer(t)
    ensures var u := t.(pc := MovePc(j, t, m, at));
            || (t.pc.HandOver? && m == Put && u.pc == Finished)
            || (t.pc.Calling? && m == Start)
            || (IsTokenTask(u) && TaskRank(u, |j.events|) < TaskRank(t, |j.events|))
  {
  }

  /** The holder moves by itself. */
  lemma {:induction false} OwnMoveAdvances(j: Job, now: nat, t: nat, m: Move, at: nat)
    requires TasksFit(j, now) && TokenInv(j) && t < |j.tasks| && IsTokenTask(j.tasks[t])
    requires !j.tasks[t].pc.Emit? && j.loop != Exited && Enabled(j, Run(t, m), at)
    requires j.state == Connected && !j.cancelled
    ensures Advances(j, Run(t, m), at)
  {
    var k := Next(j, Run(t, m), at);
    HeldIsOnlyToken(j, t);
    assert TaskFits(j, j.tasks[t], now);
    MoveRank(j, j.tasks[t], m, now, at);
    if k.result.None? && IsTokenTask(k.tasks[t]) {
      assert k.events == j.events;
      FirstIs(k.tasks, IsTokenTask, t);
    }
  }

  // ── the theorem ───────────────────────────────────────────────────────

  /** Whoever holds the token has a step, now or once a sleep has run out, and it brings the next attempt nearer. */
  lemma {:induction false} HolderAdvances(j: Job, now: nat) returns (s: Step, at: nat)
    requires Inv(j, now) && j.state == Connected && !j.cancelled
    ensures at >= now && Enabled(j, s, at) && IsHoldersStep(j, s) && Advances(j, s, at)
  {
    assert j.loop == Running;
    at := now;
    var place, t := First(j.events, IsTokenSignal), First(j.tasks, IsTokenTask);
    if j.result.Some? {
      s := Rearm;
      ResultAdvances(j, now);
    } else if place < |j.events| {
      s := Dispatch;
      if place == 0 { HeadAdvances(j, now); } else { QueueMovesUp(j, now, place); }
    } else {
      HolderExists(j);
      if j.tasks[t].pc.Emit? && |j.events| == EVENT_CAPACITY {
        s := Dispatch;
        FullQueueAdvances(j, now, t);
      } else {
        s, at := TaskAdvances(j, now, t);
      }
    }
  }

  lemma {:induction false} TaskAdvances(j: Job, now: nat, t: nat) returns (s: Step, at: nat)
    requires TasksFit(j, now) && TokenInv(j) && t < |j.tasks| && IsTokenTask(j.tasks[t])
    requires !j.cancelled && j.state == Connected && j.loop == Running
    requires j.tasks[t].pc.Emit? ==> |j.events| < EVENT_CAPACITY
    ensures at >= now && Enabled(j, s, at) && s.Run? && s.task == t && Advances(j, s, at)
  {
    var m := NextMove(j.tasks[t].pc);
    s, at := Run(t, m), NextTime(j.tasks[t].pc, now);
    HolderCanMove(j, now, t);
    if j.tasks[t].pc.Emit? { EmitAdvances(j, now, t, at); } else { OwnMoveAdvances(j, now, t, m, at); }
  }

  /** A token that is neither in the slot nor in the queue is with a task. */
  lemma {:induction false} HolderExists(j: Job)
    requires Tokens(j) == 1 && j.result.None? && First(j.events, IsTokenSignal) == |j.events|
    ensures First(j.tasks, IsTokenTask) < |j.tasks|
  {
    forall e | e in j.events ensures !IsTokenSignal(e) {
      var i :| 0 <= i < |j.events| && j.events[i] == e;
    }
    CountNone(j.events, IsTokenSignal);
    var t := CountWitness(j.tasks, IsTokenTask);
  }

  /**
   * The cycle never stalls: in every reachable state in which the job is Connected
   * and not cancelled, the token's holder itself can go on, now or as soon as its
   * sleep has run out; only with the token in the queue, or its holder blocked on a
   * full queue, is it the loop that goes on. Each such step starts the next attempt,
   * leaves Connected, or lowers a rank below fifty.
   */
  lemma {:induction false} CycleNeverStalls(r: JobRun, i: nat) returns (s: Step, at: nat)
    requires IsRun(r) && i < |r.jobs|
    requires r.jobs[i].state == Connected && !r.jobs[i].cancelled
    ensures at >= r.clocks[i] && Enabled(r.jobs[i], s, at) && IsHoldersStep(r.jobs[i], s)
    ensures Advances(r.jobs[i], s, at) && CycleRank(r.jobs[i]) < 50
  {
    RunInv(r, i);
    s, at := HolderAdvances(r.jobs[i], r.clocks[i]);
    RankBound(r.jobs[i], r.clocks[i]);
  }

  lemma {:induction false} RankBound(j: Job, now: nat)
    requires TasksFit(j, now)
    ensures CycleRank(j) < 50
  {
  }

  // ── along a run ───────────────────────────────────────────────────────

  /** Not only the step above: each step that is the holder's brings the next attempt nearer. */
  lemma {:induction false} HoldersStepAdvances(j: Job, s: Step, now: nat)
    requires Inv(j, now) && j.state == Connected && !j.cancelled && Enabled(j, s, now) && IsHoldersStep(j, s)
    ensures Advances(j, s, now)
  {
    assert j.loop == Running;
    var place, t := First(j.events, IsTokenSignal), First(j.tasks, IsTokenTask);
    if j.result.Some? {
      ResultAdvances(j, now);
    } else if place == 0 && |j.events| > 0 {
      HeadAdvances(j, now);
    } else if place < |j.events| {
      QueueMovesUp(j, now, place);
    } else if s == Dispatch {
      FullQueueAdvances(j, now, t);
    } else if j.tasks[t].pc.Emit? {
      EmitAdvances(j, now, t, now);
    } else {
      OwnMoveAdvances(j, now, t, s.move, now);
    }
  }

  /** How many events the step puts into the queue. */
  function Queues(j: Job, k: Job): nat {
    if |k.events| > |j.events| then 1 else 0
  }

  /** The token is where it was, and the queue before it too. */
  predicate SameToken(j: Job, k: Job) {
    if j.result.Some? then k.result.Some?
    else
      && k.result.None?
      && var place, holder := First(j.events, IsTokenSignal), First(j.tasks, IsTokenTask);
         if place < |j.events|
         then First(k.events, IsTokenSignal) == place < |k.events| && k.events[place] == j.events[place]
         else
           && First(k.events, IsTokenSignal) == |k.events| <= |j.events| + Queues(j, k)
           && holder < |j.tasks| && First(k.tasks, IsTokenTask) == holder < |k.tasks|
           && k.tasks[holder] == j.tasks[holder]
  }

  lemma {:induction false} SameTokenRank(j: Job, k: Job)
    requires SameToken(j, k)
    ensures CycleRank(k) <= CycleRank(j) + Queues(j, k)
  {
  }

  /** Another step leaves the task that holds the token alone. */
  lemma {:induction false} HeldStays(j: Job, s: Step, now: nat)
    requires Inv(j, now) && j.state == Connected && !j.cancelled && Enabled(j, s, now) && !IsHoldersStep(j, s)
    requires j.result.None? && First(j.events, IsTokenSignal) == |j.events|
    requires var k := Next(j, s, now); Inv(k, now) && k.state == Connected && !k.cancelled
    ensures SameToken(j, Next(j, s, now))
  {
    HolderExists(j);
    var t, k := First(j.tasks, IsTokenTask), Next(j, s, now);
    HeldIsOnlyToken(j, t);
    match s
    case Dispatch => DispatchOther(j, now);
    case Deliver(_) =>
    case Run(u, m) => assert u != t;
    assert t < |k.tasks| && k.tasks[t] == j.tasks[t];
    HeldIsOnlyToken(k, t);
  }

  /** With the token queued, the other steps leave the queue before it alone. */
  lemma {:induction false} QueuedStays(j: Job, s: Step, now: nat)
    requires Inv(j, now) && j.state == Connected && !j.cancelled && Enabled(j, s, now) && !IsHoldersStep(j, s)
    requires j.result.None? && First(j.events, IsTokenSignal) < |j.events|
    requires var k := Next(j, s, now); k.state == Connected && !k.cancelled
    ensures SameToken(j, Next(j, s, now))
  {
    var place, k := First(j.events, IsTokenSignal), Next(j, s, now);
    QueuedIsOnlyToken(j, place);
    if s.Run? { assert TaskFits(j, j.tasks[s.task], now); }
    assert j.events <= k.events;
    FirstIs(k.events, IsTokenSignal, place);
  }

  lemma {:induction false} ResultStays(j: Job, s: Step, now: nat)
    requires Enabled(j, s, now) && j.result.Some? && s != Rearm && Inv(j, now) && j.state == Connected && !j.cancelled
    ensures Next(j, s, now).result.Some?
  {
    if s == Dispatch { DispatchSameFrame(j, now); }
  }

  /** The steps of others leave the token where it is. */
  lemma {:induction false} OthersKeepRank(j: Job, s: Step, now: nat)
    requires Inv(j, now) && j.state == Connected && !j.cancelled && Enabled(j, s, now) && !IsHoldersStep(j, s)
    requires var k := Next(j, s, now); k.state == Connected && !k.cancelled
    ensures CycleRank(Next(j, s, now)) <= CycleRank(j) + Queues(j, Next(j, s, now))
  {
    NextKeeps(j, s, now);
    if j.result.Some? {
      ResultStays(j, s, now);
    } else if First(j.events, IsTokenSignal) < |j.events| {
      QueuedStays(j, s, now);
    } else {
      HeldStays(j, s, now);
    }
    SameTokenRank(j, Next(j, s, now));
  }

  /** How many of the steps from moment `i` to moment `n` are the holder's. */
  function HoldersSteps(r: JobRun, i: nat, n: nat): nat
    requires i <= n <= |r.steps| < |r.jobs|
    decreases n
  {
    if n == i then 0
    else HoldersSteps(r, i, n - 1) + if IsHoldersStep(r.jobs[n - 1], r.steps[n - 1]) then 1 else 0
  }

  /** How many events others put into the queue between them. */
  function OthersEvents(r: JobRun, i: nat, n: nat): nat
    requires i <= n <= |r.steps| < |r.jobs|
    decreases n
  {
    if n == i then 0
    else OthersEvents(r, i, n - 1)
         + if IsHoldersStep(r.jobs[n - 1], r.steps[n - 1]) then 0 else Queues(r.jobs[n - 1], r.jobs[n])
  }

  /** The job is Connected and not cancelled all along, and no step of the holder starts an attempt. */
  predicate IsPause(r: JobRun, i: nat, n: nat)
    requires i <= n <= |r.steps| < |r.jobs|
  {
    && (forall m :: i <= m <= n ==> r.jobs[m].state == Connected && !r.jobs[m].cancelled)
    && (forall m :: i <= m < n && IsHoldersStep(r.jobs[m], r.steps[m]) ==> !StartsAttempt(r.jobs[m], r.steps[m]))
  }

  lemma {:induction false} PauseGoesOn(r: JobRun, i: nat, n: nat)
    requires IsRun(r) && i <= n <= |r.steps| && IsPause(r, i, n)
    ensures HoldersSteps(r, i, n) + CycleRank(r.jobs[n]) <= CycleRank(r.jobs[i]) + OthersEvents(r, i, n)
    decreases n
  {
    if i < n {
      PauseGoesOn(r, i, n - 1);
      RunInv(r, n - 1);
      StepOfJobRun(r, n - 1);
      PauseStep(r.jobs[n - 1], r.steps[n - 1], r.clocks[n - 1], r.jobs[n]);
    }
  }

  lemma {:induction false} PauseStep(j: Job, s: Step, now: nat, k: Job)
    requires Inv(j, now) && j.state == Connected && !j.cancelled && Enabled(j, s, now) && k == Next(j, s, now)
    requires k.state == Connected && !k.cancelled && (IsHoldersStep(j, s) ==> !StartsAttempt(j, s))
    ensures IsHoldersStep(j, s) ==> CycleRank(k) < CycleRank(j)
    ensures !IsHoldersStep(j, s) ==> CycleRank(k) <= CycleRank(j) + Queues(j, k)
  {
    if IsHoldersStep(j, s) { HoldersStepAdvances(j, s, now); } else { OthersKeepRank(j, s, now); }
  }

  /**
   * No pause lasts: along any stretch of a run in which the job stays Connected and
   * the cycle starts no attempt, its token's holder takes fewer than fifty steps
   * more than others put events into the queue.
   */
  lemma {:induction false} PausesEnd(r: JobRun, i: nat, n: nat)
    requires IsRun(r) && i <= n <= |r.steps| && IsPause(r, i, n)
    ensures HoldersSteps(r, i, n) < 50 + OthersEvents(r, i, n)
  {
    PauseGoesOn(r, i, n);
    RunInv(r, i);
    RankBound(r.jobs[i], r.clocks[i]);
  }
}
