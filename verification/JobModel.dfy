/**
 * One delayed-event job: the loop that owns the FSM, and the tasks it spawns.
 *
 * The state is a value; `Next` says what each atomic step makes of it. A step is
 * a branch of the loop's select, one await-free stretch of a spawned task, or an
 * act of the handler (deliver a signal, cancel, replace). Several steps may be
 * enabled at once and any of them may be taken: the select is unbiased. Times are
 * nanoseconds on one clock, passed in as `now`.
 */
module JobModel {
  import opened Support
  import opened Fsm

  const EVENT_CAPACITY: nat := 10
  const SECOND: nat := 1_000_000_000
  const HOUR: nat := 3600 * SECOND

  /** Where a task stands inside URL resolution and the retry loop. */
  datatype Call =
    | Resolve(budget: nat)
    | Check(budget: nat, start: nat)
    | Attempt(budget: nat, start: nat)
    | Backoff(budget: nat, start: nat, until: nat)

  datatype Pc =
    | Sleep(fireAt: nat, stopped: bool)
    | Emit(signal: Signal)
    | Calling(call: Call)
    | Sanity
    | Report(restartedAt: nat, deadline: nat)
    | HandOver(deadline: nat)
    | Notify
    | Finished

  datatype Kind = WaitingTimer | ResetTimer | Lookup | Restart | SendAction | AbortNotice

  /** A spawned task. Tasks are never removed: a finished one keeps its index and kind. */
  datatype Task = Task(kind: Kind, pc: Pc)

  datatype LoopPc = NotStarted | Running | Draining | Exited

  datatype Job = Job(
    timeout: nat,               // the delay timeout
    sanity: bool,               // whether phase 2 of the lookup is enabled
    state: State,
    deadline: Option<nat>,
    waiting: Option<nat>,       // timer slots: indices into tasks
    restart: Option<nat>,
    tasks: seq<Task>,
    events: seq<Signal>,        // the event channel, oldest first
    result: Option<nat>,        // the one-slot restart-result channel
    cancelled: bool,
    loop: LoopPc,
    replaced: bool,             // whether the handler replaced this job
    entered: seq<State>,        // history: states entered, oldest first
    lookupLog: seq<Signal>,     // history: what the lookup task has emitted
    doneSent: nat               // history: done notifications sent to the handler
  )

  function NewJob(timeout: nat, sanity: bool): Job {
    Job(timeout, sanity, WaitingForInitialConnect, None, None, None, [], [], None,
        false, NotStarted, false, [WaitingForInitialConnect], [], 0)
  }

  function Min(a: nat, b: nat): nat { if a <= b then a else b }

  function Max(a: nat, b: nat): nat { if a >= b then a else b }

  function Since(now: nat, start: nat): nat { if now >= start then now - start else 0 }

  /** 80 % of the delay timeout, rounded down to a whole nanosecond. */
  function RestartDelay(timeout: nat): nat { timeout * 8 / 10 }

  /** Time left until the deadline; an unset deadline counts as expired. */
  function Remaining(deadline: Option<nat>, now: nat): nat {
    match deadline
    case None => 0
    case Some(d) => Since(d, now)
  }

  function SendBudget(deadline: Option<nat>, now: nat): nat {
    Min(Max(Remaining(deadline, now), SECOND), HOUR)
  }

  // ── the loop ──────────────────────────────────────────────────────────

  function Spawn(j: Job, kind: Kind, pc: Pc): Job {
    j.(tasks := j.tasks + [Task(kind, pc)])
  }

  /** start_participant_lookup, then the part of run_loop before its first select. */
  function Launch(j: Job, now: nat): Job {
    var bound := Min(HOUR, j.timeout);
    var looking := Spawn(j, Lookup, Calling(Check(bound, now)));
    Spawn(looking, WaitingTimer, Sleep(now + bound, false))
      .(waiting := Some(|looking.tasks|), loop := Running)
  }

  /** Cancels the token of the timer in `slot`; a timer past its sleep no longer looks at it. */
  function StopTimer(tasks: seq<Task>, slot: Option<nat>): seq<Task> {
    match slot
    case None => tasks
    case Some(i) =>
      if i < |tasks| && tasks[i].pc.Sleep?
      then tasks[i := tasks[i].(pc := tasks[i].pc.(stopped := true))]
      else tasks
  }

  /** A restart with the time that is left, or the report that there is none. */
  function RestartPc(deadline: Option<nat>, now: nat): Pc {
    var remaining := Remaining(deadline, now);
    if remaining == 0 then Emit(DelayedEventTimedOut) else Calling(Resolve(remaining))
  }

  function StartRestart(j: Job, now: nat): Job {
    Spawn(j, Restart, RestartPc(j.deadline, now))
  }

  function ExitAction(j: Job, left: State): Job {
    match left
    case WaitingForInitialConnect =>
      j.(tasks := StopTimer(j.tasks, j.waiting), waiting := None)
    case Connected =>
      j.(tasks := StopTimer(j.tasks, j.restart), restart := None)
    case _ => j
  }

  function EntryAction(j: Job, now: nat): Job {
    match j.state
    case Connected => StartRestart(j.(deadline := Some(now + j.timeout)), now)
    case Disconnected => Spawn(j, SendAction, Calling(Resolve(SendBudget(j.deadline, now))))
    case Aborted => Spawn(j, AbortNotice, Notify)
    case _ => j
  }

  function HandleEvent(j: Job, e: Signal, now: nat): Job {
    if IsInternal(j.state, e) then StartRestart(j, now)
    else
      match Transition(j.state, e)
      case None => j
      case Some(next) =>
        EntryAction(ExitAction(j.(state := next, entered := j.entered + [next]), j.state), now)
  }

  /** The restart-result branch: extend the deadline and re-arm, but only while Connected. */
  function ApplyResult(j: Job, now: nat): Job
    requires j.result.Some?
  {
    var taken := j.(result := None);
    if j.state != Connected then taken
    else
      var stopped := StopTimer(j.tasks, j.restart);
      taken.(deadline := j.result, restart := Some(|stopped|),
             tasks := stopped + [Task(ResetTimer, Sleep(now + RestartDelay(j.timeout), false))])
  }

  function StopAll(j: Job): Job {
    j.(tasks := StopTimer(StopTimer(j.tasks, j.waiting), j.restart), waiting := None, restart := None)
  }

  /** The tasks the job's wait group counts: all but the timer sleeps. */
  predicate IsTracked(t: Task) {
    t.kind != WaitingTimer && t.kind != ResetTimer
  }

  predicate IsBackground(t: Task) {
    IsTracked(t) && t.pc != Finished
  }

  // ── the spawned tasks ─────────────────────────────────────────────────

  datatype Move =
    | Drop                      // take the cancellation branch
    | Fire                      // the sleep elapsed
    | Put                       // the channel accepted the message
    | Resolved | Unresolved     // the URL lookup returned
    | Start                     // not cancelled: begin an attempt
    | Succeed                   // the attempt returned Ok
    | Gone                      // permanent error: 404 or 409 on a restart
    | Again(wait: nat)          // retryable error with the wait the schedule or the server gave
    | Wake                      // the backoff sleep elapsed
    | Absent                    // phase 2: the SFU confirmed the participant is gone

  /** Whether the event channel takes one more message (or is closed and swallows it). */
  predicate HasRoom(j: Job) {
    |j.events| < EVENT_CAPACITY || j.loop == Exited
  }

  predicate MoveEnabled(j: Job, t: Task, m: Move, now: nat) {
    match t.pc
    case Sleep(fireAt, stopped) =>
      (m == Drop && (stopped || j.cancelled)) || (m == Fire && now >= fireAt)
    case Emit(_) => (m == Drop && j.cancelled) || (m == Put && HasRoom(j))
    case Calling(c) => (
      match c
      case Resolve(_) => m == Resolved || m == Unresolved
      case Check(_, _) => if j.cancelled then m == Drop else m == Start
      case Attempt(_, _) =>
        || m == Succeed || m.Again?
        || (m == Gone && t.kind == Restart)
        || (m == Drop && j.cancelled && t.kind == Lookup)
      case Backoff(_, _, until) => (m == Drop && j.cancelled) || (m == Wake && now >= until))
    case Sanity => (m == Drop && j.cancelled) || m == Absent
    case Report(_, _) => (m == Drop && j.cancelled) || m == Put
    case HandOver(_) =>
      (m == Drop && j.cancelled) || (m == Put && (j.result.None? || j.loop == Exited))
    case Notify => (m == Drop && j.cancelled) || m == Put
    case Finished => false
  }

  datatype Verdict = Success | NotFound | GaveUp | Cancelled | NoUrl

  /** What a task does once its URL lookup failed or its retry loop returned. */
  function AfterCall(j: Job, kind: Kind, v: Verdict, now: nat): Pc {
    match kind
    case Lookup => if v == Success then Emit(ParticipantLookupSuccessful) else Finished
    case SendAction => Notify
    case Restart => (
      match v
      case Success => Report(now, now + j.timeout)
      case NotFound => Emit(DelayedEventNotFound)
      case GaveUp => Emit(DelayedEventTimedOut)
      case Cancelled => Finished
      case NoUrl => Emit(CsApiUrlNotFound))
    case _ => Finished
  }

  /** The retry loop's budget check after a retryable failure. */
  function AfterFailure(j: Job, kind: Kind, budget: nat, start: nat, wait: nat, now: nat): Pc {
    if budget > 0 && Since(now, start) + wait > budget then AfterCall(j, kind, GaveUp, now)
    else Calling(Backoff(budget, start, now + wait))
  }

  function CallMove(j: Job, kind: Kind, c: Call, m: Move, now: nat): Pc {
    match c
    case Resolve(budget) =>
      if m == Resolved then Calling(Check(budget, now)) else AfterCall(j, kind, NoUrl, now)
    case Check(budget, start) =>
      if m == Start then Calling(Attempt(budget, start)) else AfterCall(j, kind, Cancelled, now)
    case Attempt(budget, start) => (
      match m
      case Succeed => AfterCall(j, kind, Success, now)
      case Gone => AfterCall(j, kind, NotFound, now)
      case Again(wait) => AfterFailure(j, kind, budget, start, wait, now)
      case _ => AfterCall(j, kind, Cancelled, now))
    case Backoff(budget, start, _) =>
      if m == Wake then Calling(Check(budget, start)) else AfterCall(j, kind, Cancelled, now)
  }

  /** Where the task goes. */
  function MovePc(j: Job, t: Task, m: Move, now: nat): Pc {
    match t.pc
    case Sleep(_, _) =>
      if m == Fire
      then Emit(if t.kind == WaitingTimer then WaitingStateTimedOut else DelayedEventReset)
      else Finished
    case Emit(e) =>
      if m == Put && t.kind == Lookup && e == ParticipantLookupSuccessful && j.sanity then Sanity
      else Finished
    case Calling(c) => CallMove(j, t.kind, c, m, now)
    case Sanity => if m == Absent then Emit(SfuParticipantGone) else Finished
    case Report(_, d) => if m == Put then HandOver(d) else Finished
    case HandOver(_) => Finished
    case Notify => Finished
    case Finished => Finished
  }

  /** What the move does to the rest of the job. */
  function MoveEffect(j: Job, t: Task, m: Move): Job {
    if m != Put then j
    else
      match t.pc
      case Emit(e) =>
        j.(events := if j.loop == Exited then j.events else j.events + [e],
           lookupLog := if t.kind == Lookup then j.lookupLog + [e] else j.lookupLog)
      case HandOver(d) => if j.loop == Exited then j else j.(result := Some(d))
      case Notify => j.(doneSent := j.doneSent + 1)
      case _ => j
  }

  function RunTask(j: Job, i: nat, m: Move, now: nat): Job
    requires i < |j.tasks|
  {
    var t := j.tasks[i];
    MoveEffect(j, t, m).(tasks := j.tasks[i := t.(pc := MovePc(j, t, m, now))])
  }

  // ── steps ─────────────────────────────────────────────────────────────

  datatype Step =
    | Begin                     // handler: start the lookup and the loop
    | Deliver(signal: Signal)   // handler: forward an SFU webhook signal
    | Cancel                    // handler: stop, or shutdown of the whole service
    | Replace                   // handler: try_send(JobReplaced), then stop
    | Dispatch                  // loop: event branch
    | Rearm                     // loop: restart-result branch
    | Shutdown                  // loop: cancellation branch, up to the wait group
    | ExitLoop                  // loop: its wait for the background tasks has returned
    | Run(task: nat, move: Move)

  predicate Enabled(j: Job, s: Step, now: nat) {
    match s
    case Begin => j.loop == NotStarted
    case Deliver(e) => IsWebhookSignal(e) && |j.events| < EVENT_CAPACITY && j.loop != Exited
    case Cancel => true
    case Replace => true
    case Dispatch => j.loop == Running && |j.events| > 0
    case Rearm => j.loop == Running && j.result.Some?
    case Shutdown => j.loop == Running && j.cancelled
    case ExitLoop => j.loop == Draining && Count(j.tasks, IsBackground) == 0  // derived in JobJoin
    case Run(i, m) => i < |j.tasks| && MoveEnabled(j, j.tasks[i], m, now)
  }

  function Next(j: Job, s: Step, now: nat): Job
    requires Enabled(j, s, now)
  {
    match s
    case Begin => Launch(j, now)
    case Deliver(e) => j.(events := j.events + [e])
    case Cancel => MarkCancelled(j)
    case Replace => MarkReplaced(j)
    case Dispatch => HandleEvent(j.(events := j.events[1..]), j.events[0], now)
    case Rearm => ApplyResult(j, now)
    case Shutdown => StopAll(j).(loop := Draining)
    case ExitLoop => j.(loop := Exited)
    case Run(i, m) => RunTask(j, i, m, now)
  }

  function MarkCancelled(j: Job): Job {
    j.(cancelled := true)
  }

  /** try_send(JobReplaced), which a full queue drops, and then the cancellation. */
  function MarkReplaced(j: Job): Job {
    j.(events := if |j.events| < EVENT_CAPACITY && j.loop != Exited then j.events + [JobReplaced] else j.events,
       cancelled := true, replaced := true)
  }

  /** Whether the step starts an attempt of a retry loop: a lookup, a restart or a send. */
  predicate StartsAttempt(j: Job, s: Step) {
    s.Run? && s.move == Start && s.task < |j.tasks| && j.tasks[s.task].pc.Calling?
  }

  // ── runs ──────────────────────────────────────────────────────────────

  /** A run of one job in an arbitrary environment: states, clock readings, steps. */
  datatype JobRun = Trace(jobs: seq<Job>, clocks: seq<nat>, steps: seq<Step>)

  /**
   * Each step happens at the clock reading of its source state; the clock then
   * advances by any amount.
   */
  ghost predicate IsRun(r: JobRun) {
    && |r.jobs| == |r.clocks| == |r.steps| + 1
    && (exists t, sanity :: t > 0 && r.jobs[0] == NewJob(t, sanity))
    && (forall i :: 0 <= i < |r.steps| ==> IsJobStepAt(r, i))
  }

  predicate IsJobStepAt(r: JobRun, i: nat)
    requires |r.jobs| == |r.clocks| == |r.steps| + 1 && i < |r.steps|
  {
    && Enabled(r.jobs[i], r.steps[i], r.clocks[i])
    && r.jobs[i + 1] == Next(r.jobs[i], r.steps[i], r.clocks[i])
    && r.clocks[i] <= r.clocks[i + 1]
  }

  /** One step of a run. */
  lemma {:induction false} StepOfJobRun(r: JobRun, i: nat)
    requires IsRun(r) && i < |r.steps|
    ensures Enabled(r.jobs[i], r.steps[i], r.clocks[i])
    ensures r.jobs[i + 1] == Next(r.jobs[i], r.steps[i], r.clocks[i]) && r.clocks[i] <= r.clocks[i + 1]
  {
    assert IsJobStepAt(r, i);
  }
}
