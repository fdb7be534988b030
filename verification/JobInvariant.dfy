/** What every step of a job keeps. */
module JobInvariant {
  import opened Support
  import opened Fsm
  import opened JobModel

  // ── the invariant, part by part ───────────────────────────────────────

  /** A task that carries the restart token: an armed or firing reset timer, or a live restart. */
  predicate IsTokenTask(t: Task) {
    (t.kind == ResetTimer || t.kind == Restart) && t.pc != Finished
  }

  /** A queued signal that carries it: the next reset, or the report that the cycle ended. */
  predicate IsTokenSignal(e: Signal) {
    e == DelayedEventReset || e == DelayedEventTimedOut || e == DelayedEventNotFound || e == CsApiUrlNotFound
  }

  function Tokens(j: Job): nat {
    Count(j.tasks, IsTokenTask) + Count(j.events, IsTokenSignal) + if j.result.Some? then 1 else 0
  }

  predicate IsNotifier(t: Task) { t.kind == SendAction || t.kind == AbortNotice }

  predicate IsLiveNotifier(t: Task) { IsNotifier(t) && t.pc != Finished }

  predicate IsLookup(t: Task) { t.kind == Lookup }

  predicate CallFits(c: Call, least: nat, most: nat, now: nat) {
    && least <= c.budget <= most
    && (!c.Resolve? ==> c.start <= now)
    && (c.Backoff? ==> c.until <= c.start + c.budget)
  }

  /** Each kind of task visits only its own program points, with a budget in its range. */
  predicate TaskFits(j: Job, t: Task, now: nat) {
    match t.kind
    case WaitingTimer => (
      match t.pc
      case Sleep(_, _) => true
      case Emit(e) => e == WaitingStateTimedOut
      case Finished => true
      case _ => false)
    case ResetTimer => (
      match t.pc
      case Sleep(_, _) => true
      case Emit(e) => e == DelayedEventReset
      case Finished => true
      case _ => false)
    case Lookup => (
      match t.pc
      case Calling(c) => !c.Resolve? && CallFits(c, 1, Min(HOUR, j.timeout), now)
      case Emit(e) => e == ParticipantLookupSuccessful || e == SfuParticipantGone
      case Sanity => true
      case Finished => true
      case _ => false)
    case Restart => Connected in j.entered && (
      match t.pc
      case Calling(c) => CallFits(c, 1, j.timeout, now)
      case Emit(e) => e == DelayedEventTimedOut || e == DelayedEventNotFound || e == CsApiUrlNotFound
      case Report(_, _) => true
      case HandOver(_) => true
      case Finished => true
      case _ => false)
    case SendAction => (
      match t.pc
      case Calling(c) => CallFits(c, SECOND, if Connected in j.entered then HOUR else SECOND, now)
      case Notify => true
      case Finished => true
      case _ => false)
    case AbortNotice => t.pc.Notify? || t.pc.Finished?
  }

  predicate TasksFit(j: Job, now: nat) {
    && j.timeout > 0
    && |j.events| <= EVENT_CAPACITY
    && forall i :: 0 <= i < |j.tasks| ==> TaskFits(j, j.tasks[i], now)
  }

  /** A reset timer whose token was cancelled before it fired. */
  predicate IsKilledTimer(t: Task) {
    t.kind == ResetTimer && t.pc.Sleep? && t.pc.stopped
  }

  predicate TokenInv(j: Job) {
    && Tokens(j) <= 1
    && (j.state == WaitingForInitialConnect ==> Tokens(j) == 0)
    && (j.state == Connected && !j.cancelled ==>
          && Tokens(j) == 1
          && forall i :: 0 <= i < |j.tasks| ==> !IsKilledTimer(j.tasks[i]))
  }

  /** The waiting slot is filled exactly while waiting, the restart slot only while Connected. */
  predicate SlotInv(j: Job) {
    && (j.loop == Running ==> (j.waiting.Some? <==> j.state == WaitingForInitialConnect))
    && (j.waiting.Some? ==> j.waiting.value < |j.tasks| && j.tasks[j.waiting.value].kind == WaitingTimer)
    && (j.restart.Some? ==>
          && j.state == Connected
          && j.restart.value < |j.tasks| && j.tasks[j.restart.value].kind == ResetTimer)
    && (j.loop != Running ==> j.waiting.None? && j.restart.None?)
  }

  predicate IsRunningTimer(t: Task) { t.pc.Sleep? && !t.pc.stopped }

  /** A sleeping timer whose token is still good is the one in its state's slot. */
  predicate TimerInv(j: Job) {
    forall i :: 0 <= i < |j.tasks| && IsRunningTimer(j.tasks[i]) ==>
      j.waiting == Some(i) || j.restart == Some(i)
  }

  /** The deadline a finished restart carries towards the loop. */
  function InFlight(t: Task): Option<nat> {
    match t.pc
    case Report(_, d) => if t.kind == Restart then Some(d) else None
    case HandOver(d) => if t.kind == Restart then Some(d) else None
    case _ => None
  }

  predicate DeadlineFits(j: Job, d: nat, now: nat) {
    && d <= now + j.timeout
    && j.deadline.Some?
    && (j.state == Connected ==> j.deadline.value <= d)
  }

  predicate DeadlineInv(j: Job, now: nat) {
    && (j.deadline.Some? <==> Connected in j.entered)
    && (j.deadline.Some? ==> j.deadline.value <= now + j.timeout)
    && (forall i :: 0 <= i < |j.tasks| && InFlight(j.tasks[i]).Some? ==>
          DeadlineFits(j, InFlight(j.tasks[i]).value, now))
    && (j.result.Some? ==> DeadlineFits(j, j.result.value, now))
  }

  /** The states entered so far, ending in the current one, climb in rank. */
  predicate Climbs(entered: seq<State>, current: State) {
    && |entered| > 0
    && entered[0] == WaitingForInitialConnect
    && entered[|entered| - 1] == current
    && (forall a, b :: 0 <= a < b < |entered| ==> Rank(entered[a]) < Rank(entered[b]))
  }

  predicate NotifierInv(j: Job) {
    && Count(j.tasks, IsNotifier) == (if Disconnected in j.entered || Aborted in j.entered then 1 else 0)
    && j.doneSent + Count(j.tasks, IsLiveNotifier) <= Count(j.tasks, IsNotifier)
    && (forall i :: 0 <= i < |j.tasks| ==>
          && (j.tasks[i].kind == SendAction ==> Disconnected in j.entered)
          && (j.tasks[i].kind == AbortNotice ==> Aborted in j.entered))
  }

  /** The lookup's success has been dispatched, or is queued and will be. */
  predicate FoundSeen(j: Job) {
    j.state != WaitingForInitialConnect || ParticipantLookupSuccessful in j.events
  }

  predicate LookupFits(j: Job, t: Task) {
    t.kind == Lookup ==>
      match t.pc
      case Calling(_) => j.lookupLog == []
      case Emit(e) =>
        if e == ParticipantLookupSuccessful then j.lookupLog == []
        else j.lookupLog == [ParticipantLookupSuccessful] && FoundSeen(j)
      case Sanity => j.lookupLog == [ParticipantLookupSuccessful] && FoundSeen(j)
      case _ => true
  }

  /** What the lookup has said is nothing, Found, or Found and then Gone. */
  predicate LogFits(log: seq<Signal>) {
    || log == []
    || log == [ParticipantLookupSuccessful]
    || log == [ParticipantLookupSuccessful, SfuParticipantGone]
  }

  predicate LookupInv(j: Job) {
    && Count(j.tasks, IsLookup) <= 1
    && LogFits(j.lookupLog)
    && (forall i :: 0 <= i < |j.tasks| ==> LookupFits(j, j.tasks[i]))
    && GoneFollowsFound(j)
  }

  /** While waiting, a queued SfuParticipantGone has the success it follows still ahead of it. */
  predicate GoneFollowsFound(j: Job) {
    j.state == WaitingForInitialConnect ==>
      forall b :: 0 <= b < |j.events| && j.events[b] == SfuParticipantGone ==>
        ParticipantLookupSuccessful in j.events[..b]
  }

  predicate LoopInv(j: Job) {
    && (j.loop == NotStarted ==>
          j.tasks == [] && j.state == WaitingForInitialConnect && j.lookupLog == [])
    && (j.loop == Draining || j.loop == Exited ==> j.cancelled)
    && (j.loop == Exited ==> Count(j.tasks, IsBackground) == 0)
    && (j.replaced ==> j.cancelled)
    && (j.state == Replaced || JobReplaced in j.events ==> j.replaced)
  }

  /** The parts that look at tasks one by one. */
  predicate CoreInv(j: Job, now: nat) {
    && TasksFit(j, now)
    && SlotInv(j)
    && DeadlineInv(j, now)
    && Climbs(j.entered, j.state)
    && LookupInv(j)
    && LoopInv(j)
  }

  predicate Inv(j: Job, now: nat) {
    CoreInv(j, now) && TokenInv(j) && NotifierInv(j) && TimerInv(j)
  }

  // ── timers ────────────────────────────────────────────────────────────

  /** The same tasks, except that sleepers may have been told to stop. */
  predicate OnlyStopped(was: seq<Task>, tasks: seq<Task>) {
    && |tasks| == |was|
    && forall i :: 0 <= i < |was| ==>
         && tasks[i].kind == was[i].kind
         && (tasks[i] == was[i] || (was[i].pc.Sleep? && tasks[i].pc.Sleep?))
  }

  lemma {:induction false} StopTimerTasks(tasks: seq<Task>, slot: Option<nat>)
    ensures OnlyStopped(tasks, StopTimer(tasks, slot))
    ensures Count(StopTimer(tasks, slot), IsTokenTask) == Count(tasks, IsTokenTask)
    ensures Count(StopTimer(tasks, slot), IsNotifier) == Count(tasks, IsNotifier)
    ensures Count(StopTimer(tasks, slot), IsLiveNotifier) == Count(tasks, IsLiveNotifier)
    ensures Count(StopTimer(tasks, slot), IsLookup) == Count(tasks, IsLookup)
    ensures Count(StopTimer(tasks, slot), IsBackground) == Count(tasks, IsBackground)
  {
    if slot.Some? && slot.value < |tasks| && tasks[slot.value].pc.Sleep? {
      var i := slot.value;
      var t := tasks[i].(pc := tasks[i].pc.(stopped := true));
      CountUpdate(tasks, i, t, IsTokenTask);
      CountUpdate(tasks, i, t, IsNotifier);
      CountUpdate(tasks, i, t, IsLiveNotifier);
      CountUpdate(tasks, i, t, IsLookup);
      CountUpdate(tasks, i, t, IsBackground);
    }
  }

  /** A stopped slot holds no running timer; the other timers are as they were. */
  lemma {:induction false} StopTimerStops(tasks: seq<Task>, slot: Option<nat>)
    ensures forall i :: 0 <= i < |tasks| && IsRunningTimer(StopTimer(tasks, slot)[i]) ==>
              IsRunningTimer(tasks[i]) && slot != Some(i)
  {
  }

  lemma {:induction false} SpawnCounts(tasks: seq<Task>, t: Task)
    ensures Count(tasks + [t], IsTokenTask) == Count(tasks, IsTokenTask) + if IsTokenTask(t) then 1 else 0
    ensures Count(tasks + [t], IsNotifier) == Count(tasks, IsNotifier) + if IsNotifier(t) then 1 else 0
    ensures Count(tasks + [t], IsLiveNotifier) == Count(tasks, IsLiveNotifier) + if IsLiveNotifier(t) then 1 else 0
    ensures Count(tasks + [t], IsLookup) == Count(tasks, IsLookup) + if IsLookup(t) then 1 else 0
  {
    CountAppend(tasks, t, IsTokenTask);
    CountAppend(tasks, t, IsNotifier);
    CountAppend(tasks, t, IsLiveNotifier);
    CountAppend(tasks, t, IsLookup);
  }

  // ── preservation: Begin ───────────────────────────────────────────────

  lemma {:induction false} InitEstablishes(timeout: nat, sanity: bool, now: nat)
    requires timeout > 0
    ensures Inv(NewJob(timeout, sanity), now)
  {
  }

  /** Time passing keeps the invariant. */
  lemma {:induction false} InvLater(j: Job, now: nat, later: nat)
    requires Inv(j, now) && now <= later
    ensures Inv(j, later)
  {
    forall i | 0 <= i < |j.tasks| ensures TaskFits(j, j.tasks[i], later) {
      assert TaskFits(j, j.tasks[i], now);
    }
  }

  lemma {:induction false} LaunchCounts(tasks: seq<Task>, l: Task, w: Task)
    requires l.kind == Lookup && w.kind == WaitingTimer
    ensures Count(tasks + [l] + [w], IsTokenTask) == Count(tasks, IsTokenTask)
    ensures Count(tasks + [l] + [w], IsNotifier) == Count(tasks, IsNotifier)
    ensures Count(tasks + [l] + [w], IsLiveNotifier) == Count(tasks, IsLiveNotifier)
    ensures Count(tasks + [l] + [w], IsLookup) == Count(tasks, IsLookup) + 1
  {
    SpawnCounts(tasks, l);
    SpawnCounts(tasks + [l], w);
  }

  lemma {:induction false} BeginCore(j: Job, l: Task, w: Task, k: Job, now: nat)
    requires CoreInv(j, now) && j.loop == NotStarted && Count(j.tasks, IsLookup) == 0
    requires l.kind == Lookup && l.pc.Calling? && TaskFits(j, l, now)
    requires w.kind == WaitingTimer && w.pc.Sleep?
    requires k == j.(tasks := j.tasks + [l] + [w], waiting := Some(|j.tasks| + 1), loop := Running)
    ensures CoreInv(k, now)
  {
    LaunchCounts(j.tasks, l, w);
    forall i | 0 <= i < |k.tasks|
      ensures TaskFits(k, k.tasks[i], now) && LookupFits(k, k.tasks[i]) && InFlight(k.tasks[i]).None?
    {
    }
  }

  /** The lookup and the waiting timer that Launch spawns. */
  lemma {:induction false} LaunchIs(j: Job, now: nat) returns (l: Task, w: Task)
    ensures l.kind == Lookup && l.pc.Calling?
    ensures j.timeout > 0 ==> TaskFits(j, l, now)
    ensures w.kind == WaitingTimer && w.pc.Sleep?
    ensures Launch(j, now) == j.(tasks := j.tasks + [l] + [w], waiting := Some(|j.tasks| + 1), loop := Running)
  {
    l := Task(Lookup, Calling(Check(Min(HOUR, j.timeout), now)));
    w := Task(WaitingTimer, Sleep(now + Min(HOUR, j.timeout), false));
  }

  lemma {:induction false} BeginKeeps(j: Job, now: nat)
    requires Inv(j, now) && j.loop == NotStarted
    ensures Inv(Launch(j, now), now)
  {
    var l, w := LaunchIs(j, now);
    var k := Launch(j, now);
    assert CoreInv(k, now) by {
      assert Count(j.tasks, IsLookup) == 0;
      BeginCore(j, l, w, k, now);
    }
    assert TokenInv(k) && NotifierInv(k) by { BeginCounts(j, l, w, k); }
    assert TimerInv(k) by { BeginTimers(j, l, w, k); }
  }

  lemma {:induction false} BeginTimers(j: Job, l: Task, w: Task, k: Job)
    requires LoopInv(j) && j.loop == NotStarted && l.pc.Calling?
    requires k == j.(tasks := j.tasks + [l] + [w], waiting := Some(|j.tasks| + 1), loop := Running)
    ensures TimerInv(k)
  {
  }

  lemma {:induction false} BeginCounts(j: Job, l: Task, w: Task, k: Job)
    requires TokenInv(j) && NotifierInv(j) && j.state == WaitingForInitialConnect
    requires l.kind == Lookup && w.kind == WaitingTimer
    requires k == j.(tasks := j.tasks + [l] + [w], waiting := Some(|j.tasks| + 1), loop := Running)
    ensures TokenInv(k) && NotifierInv(k)
  {
    LaunchCounts(j.tasks, l, w);
  }

  // ── preservation: the loop ────────────────────────────────────────────

  /** The job after the loop took the oldest event off the channel. */
  function Popped(j: Job): Job
    requires |j.events| > 0
  {
    j.(events := j.events[1..])
  }

  /** If the event leaves the state alone (or the state is past waiting), the lookup order survives the pop. */
  lemma {:induction false} PoppedLookup(j: Job, now: nat)
    requires CoreInv(j, now) && |j.events| > 0
    requires j.state == WaitingForInitialConnect ==> j.events[0] != ParticipantLookupSuccessful
    ensures FoundSeen(j) ==> FoundSeen(Popped(j))
    ensures GoneFollowsFound(Popped(j))
    ensures LookupInv(Popped(j))
  {
    var k := Popped(j);
    assert j.events == [j.events[0]] + k.events;
    if j.state == WaitingForInitialConnect {
      forall b | 0 <= b < |k.events| && k.events[b] == SfuParticipantGone
        ensures ParticipantLookupSuccessful in k.events[..b]
      {
        assert j.events[b + 1] == SfuParticipantGone;
        assert j.events[..b + 1] == [j.events[0]] + k.events[..b];
      }
    }
    forall i | 0 <= i < |k.tasks| ensures LookupFits(k, k.tasks[i]) {
      assert LookupFits(j, j.tasks[i]);
    }
  }

  lemma {:induction false} PoppedCore(j: Job, now: nat)
    requires CoreInv(j, now) && |j.events| > 0
    requires j.state == WaitingForInitialConnect ==> j.events[0] != ParticipantLookupSuccessful
    ensures CoreInv(Popped(j), now)
  {
    PoppedLookup(j, now);
    assert j.events == [j.events[0]] + Popped(j).events;
    forall i | 0 <= i < |j.tasks| ensures TaskFits(Popped(j), j.tasks[i], now) {
      assert TaskFits(j, j.tasks[i], now);
    }
  }

  lemma {:induction false} PoppedKeeps(j: Job, now: nat)
    requires Inv(j, now) && |j.events| > 0
    requires !IsTokenSignal(j.events[0]) || j.state != Connected
    requires j.state == WaitingForInitialConnect ==> j.events[0] != ParticipantLookupSuccessful
    ensures Inv(Popped(j), now)
  {
    CountTail(j.events, IsTokenSignal);
    PoppedCore(j, now);
  }

  /** Spawning a well-placed task, other than a lookup, keeps the per-task parts. */
  lemma {:induction false} SpawnCore(j: Job, kind: Kind, pc: Pc, now: nat)
    requires CoreInv(j, now) && j.loop == Running
    requires kind != Lookup && TaskFits(j, Task(kind, pc), now) && InFlight(Task(kind, pc)).None?
    ensures CoreInv(Spawn(j, kind, pc), now)
  {
    var k := Spawn(j, kind, pc);
    SpawnCounts(j.tasks, Task(kind, pc));
    forall i | 0 <= i < |k.tasks| ensures TaskFits(k, k.tasks[i], now) && LookupFits(k, k.tasks[i]) {
      if i < |j.tasks| { assert TaskFits(j, j.tasks[i], now) && LookupFits(j, j.tasks[i]); }
    }
  }

  /** A restart started with the deadline known is well placed. */
  lemma {:induction false} StartRestartCore(j: Job, now: nat)
    requires CoreInv(j, now) && j.loop == Running && j.state == Connected
    ensures CoreInv(StartRestart(j, now), now)
  {
    var remaining := Remaining(j.deadline, now);
    var pc := if remaining == 0 then Emit(DelayedEventTimedOut) else Calling(Resolve(remaining));
    SpawnCore(j, Restart, pc, now);
  }

  /** A restart started while Connected mints exactly one token. */
  lemma {:induction false} StartRestartTokens(j: Job, now: nat)
    requires j.state == Connected && Tokens(j) == 0
    ensures TokenInv(StartRestart(j, now))
  {
    NoTokens(j);
    SpawnToken(j, Task(Restart, RestartPc(j.deadline, now)));
  }

  /** Where there was no token, a new token task is the one. */
  lemma {:induction false} SpawnToken(j: Job, t: Task)
    requires j.state == Connected && Tokens(j) == 0 && IsTokenTask(t) && !IsKilledTimer(t)
    requires forall i :: 0 <= i < |j.tasks| ==> !IsTokenTask(j.tasks[i])
    ensures TokenInv(j.(tasks := j.tasks + [t]))
  {
    var k := j.(tasks := j.tasks + [t]);
    CountAppend(j.tasks, t, IsTokenTask);
    assert Tokens(k) == 1;
    forall i | 0 <= i < |k.tasks| ensures !IsKilledTimer(k.tasks[i]) {
      if i < |j.tasks| { assert k.tasks[i] == j.tasks[i] && !IsTokenTask(j.tasks[i]); }
    }
  }

  lemma {:induction false} StartRestartTimers(j: Job, now: nat)
    requires TimerInv(j)
    ensures TimerInv(StartRestart(j, now))
  {
  }

  lemma {:induction false} StartRestartNotifies(j: Job, now: nat)
    requires NotifierInv(j)
    ensures NotifierInv(StartRestart(j, now))
  {
    SpawnNotifies(j, Task(Restart, RestartPc(j.deadline, now)));
  }

  /** A new task that notifies nobody changes nothing about the notifiers. */
  lemma {:induction false} SpawnNotifies(j: Job, t: Task)
    requires NotifierInv(j) && !IsNotifier(t)
    ensures NotifierInv(j.(tasks := j.tasks + [t]))
  {
    var tasks := j.tasks + [t];
    CountAppend(j.tasks, t, IsNotifier);
    CountAppend(j.tasks, t, IsLiveNotifier);
    assert Count(tasks, IsNotifier) == Count(j.tasks, IsNotifier);
    assert Count(tasks, IsLiveNotifier) == Count(j.tasks, IsLiveNotifier);
    assert forall i :: 0 <= i < |j.tasks| ==> tasks[i] == j.tasks[i];
  }

  /** Handling a queued reset moves the token from the queue to a new restart task. */
  lemma {:induction false} ResetKeeps(j: Job, now: nat)
    requires Inv(j, now) && j.loop == Running && |j.events| > 0
    requires IsInternal(j.state, j.events[0])
    ensures Inv(StartRestart(Popped(j), now), now)
  {
    var p := Popped(j);
    assert Tokens(p) == 0 by { CountTail(j.events, IsTokenSignal); }
    assert CoreInv(p, now) by { PoppedCore(j, now); }
    assert NotifierInv(p);
    StartRestartCore(p, now);
    StartRestartTokens(p, now);
    StartRestartNotifies(p, now);
    assert TimerInv(p);
    StartRestartTimers(p, now);
  }

  /**
   * The job between the exit and the entry action of a transition to `next`,
   * with the deadline that entering Connected sets.
   */
  function Crossing(j: Job, next: State, now: nat): Job {
    ExitAction(j.(state := next, entered := j.entered + [next]), j.state)
      .(deadline := if next == Connected then Some(now + j.timeout) else j.deadline)
  }

  /** What the exit action does, whatever is entered. */
  lemma {:induction false} CrossingFacts(j: Job, next: State, now: nat)
    requires SlotInv(j) && j.loop == Running
    ensures var k := Crossing(j, next, now);
            && k == j.(tasks := k.tasks, state := next, entered := j.entered + [next],
                       waiting := None, restart := None, deadline := k.deadline)
            && OnlyStopped(j.tasks, k.tasks)
            && Count(k.tasks, IsTokenTask) == Count(j.tasks, IsTokenTask)
            && Count(k.tasks, IsNotifier) == Count(j.tasks, IsNotifier)
            && Count(k.tasks, IsLiveNotifier) == Count(j.tasks, IsLiveNotifier)
            && Count(k.tasks, IsLookup) == Count(j.tasks, IsLookup)
  {
    CrossingFrame(j, next, now);
    var slot := SlotLeft(j);
    StopTimerTasks(j.tasks, slot);
  }

  /** The slot of the state that is left. */
  function SlotLeft(j: Job): Option<nat> {
    match j.state
    case WaitingForInitialConnect => j.waiting
    case Connected => j.restart
    case _ => None
  }

  lemma {:induction false} CrossingFrame(j: Job, next: State, now: nat)
    requires SlotInv(j) && j.loop == Running
    ensures var k := Crossing(j, next, now);
            && k.tasks == StopTimer(j.tasks, SlotLeft(j))
            && k == j.(tasks := k.tasks, state := next, entered := j.entered + [next],
                       waiting := None, restart := None, deadline := k.deadline)
  {
  }

  lemma {:induction false} ShapeGrows(j: Job, e: Signal, next: State)
    requires Climbs(j.entered, j.state) && Transition(j.state, e) == Some(next)
    ensures Climbs(j.entered + [next], next)
    ensures next !in j.entered
    ensures next == Disconnected ==> Aborted !in j.entered
    ensures next == Aborted ==> Disconnected !in j.entered
    ensures next == Connected ==> Disconnected !in j.entered && Aborted !in j.entered
    ensures forall s :: s in j.entered + [next] <==> s in j.entered || s == next
  {
    TransitionClimbs(j.state, e);
  }

  /** The per-task parts once the event is popped and the exit action has run. */
  lemma {:induction false} CrossingCore(j: Job, next: State, now: nat)
    requires CoreInv(j, now) && j.loop == Running && |j.events| > 0
    requires Transition(j.state, j.events[0]) == Some(next)
    requires next == Connected ==> Tokens(j) == 0
    ensures CoreInv(Crossing(Popped(j), next, now), now)
  {
    CrossingFacts(Popped(j), next, now);
    if next == Connected { NoTokens(j); }
    CoreAcross(j, Crossing(Popped(j), next, now), next, now);
  }

  lemma {:induction false} CoreAcross(j: Job, k: Job, next: State, now: nat)
    requires CoreInv(j, now) && j.loop == Running && |j.events| > 0
    requires Transition(j.state, j.events[0]) == Some(next)
    requires k == j.(events := j.events[1..], tasks := k.tasks, state := next, entered := j.entered + [next],
                     waiting := None, restart := None, deadline := k.deadline)
    requires k.deadline == if next == Connected then Some(now + j.timeout) else j.deadline
    requires OnlyStopped(j.tasks, k.tasks)
    requires Count(k.tasks, IsLookup) == Count(j.tasks, IsLookup)
    requires next == Connected ==>
               j.result.None? && forall i :: 0 <= i < |j.tasks| ==> !IsTokenTask(j.tasks[i])
    ensures CoreInv(k, now)
  {
    assert Climbs(k.entered, k.state) && next !in j.entered by { ShapeGrows(j, j.events[0], next); }
    assert TasksFit(k, now) && LookupInv(k) by {
      TransitionClimbs(j.state, j.events[0]);
      CrossingTasks(j, k, next, now);
    }
    assert DeadlineInv(k, now) by { CrossingDeadline(j, k, next, now); }
    assert LoopInv(k) by { CrossingLoop(j, k, next); }
  }

  lemma {:induction false} CrossingLoop(j: Job, k: Job, next: State)
    requires LoopInv(j) && |j.events| > 0 && Transition(j.state, j.events[0]) == Some(next)
    requires k.events == j.events[1..] && k.state == next
    requires k.loop == j.loop == Running && k.replaced == j.replaced && k.cancelled == j.cancelled
    ensures LoopInv(k)
  {
    assert j.events == [j.events[0]] + k.events;
  }

  lemma {:induction false} CrossingTasks(j: Job, k: Job, next: State, now: nat)
    requires TasksFit(j, now) && LookupInv(j) && |j.events| > 0
    requires OnlyStopped(j.tasks, k.tasks) && k.timeout == j.timeout && |k.events| < |j.events|
    requires k.entered == j.entered + [next] && k.lookupLog == j.lookupLog
    requires Count(k.tasks, IsLookup) == Count(j.tasks, IsLookup)
    requires k.state != WaitingForInitialConnect
    ensures TasksFit(k, now) && LookupInv(k)
  {
    forall i | 0 <= i < |k.tasks| ensures TaskFits(k, k.tasks[i], now) && LookupFits(k, k.tasks[i]) {
      assert TaskFits(j, j.tasks[i], now) && LookupFits(j, j.tasks[i]);
    }
  }

  lemma {:induction false} CrossingDeadline(j: Job, k: Job, next: State, now: nat)
    requires DeadlineInv(j, now) && k.timeout == j.timeout
    requires k.entered == j.entered + [next] && next !in j.entered && k.state == next
    requires k.deadline == if next == Connected then Some(now + j.timeout) else j.deadline
    requires OnlyStopped(j.tasks, k.tasks) && k.result == j.result
    requires next == Connected ==>
               j.result.None? && forall i :: 0 <= i < |j.tasks| ==> !IsTokenTask(j.tasks[i])
    ensures DeadlineInv(k, now)
  {
    forall i | 0 <= i < |k.tasks| && InFlight(k.tasks[i]).Some?
      ensures DeadlineFits(k, InFlight(k.tasks[i]).value, now)
    {
      assert k.tasks[i] == j.tasks[i];
      assert DeadlineFits(j, InFlight(j.tasks[i]).value, now);
    }
  }

  /** With no token about, no task carries one and no deadline is in flight. */
  lemma {:induction false} NoTokens(j: Job)
    requires Tokens(j) == 0
    ensures forall i :: 0 <= i < |j.tasks| ==> !IsTokenTask(j.tasks[i])
    ensures j.result.None?
  {
    forall i | 0 <= i < |j.tasks| ensures !IsTokenTask(j.tasks[i]) {
      if IsTokenTask(j.tasks[i]) { CountPositive(j.tasks, i, IsTokenTask); }
    }
  }

  /** Entering Connected spends no old token and mints the first one. */
  lemma {:induction false} ConnectKeeps(j: Job, now: nat)
    requires Inv(j, now) && j.loop == Running && |j.events| > 0
    requires Transition(j.state, j.events[0]) == Some(Connected)
    ensures Inv(StartRestart(Crossing(Popped(j), Connected, now), now), now)
  {
    var c := Crossing(Popped(j), Connected, now);
    assert CoreInv(c, now) by { CrossingCore(j, Connected, now); }
    ConnectCounts(j, now);
    StartRestartCore(c, now);
    StartRestartTokens(c, now);
    StartRestartNotifies(c, now);
    CrossingTimers(j, Connected, now);
    StartRestartTimers(c, now);
  }

  /** The exit action leaves no timer of the state it leaves running. */
  lemma {:induction false} CrossingTimers(j: Job, next: State, now: nat)
    requires TimerInv(j) && SlotInv(j) && |j.events| > 0 && j.loop == Running
    requires Transition(j.state, j.events[0]) == Some(next)
    ensures TimerInv(Crossing(Popped(j), next, now))
    ensures next != Connected ==> TimerInv(EntryAction(Crossing(Popped(j), next, now), now))
  {
    StopTimerStops(j.tasks, j.waiting);
    StopTimerStops(j.tasks, j.restart);
  }

  lemma {:induction false} ConnectCounts(j: Job, now: nat)
    requires SlotInv(j) && TokenInv(j) && NotifierInv(j) && Climbs(j.entered, j.state)
    requires j.loop == Running && |j.events| > 0
    requires Transition(j.state, j.events[0]) == Some(Connected)
    ensures var c := Crossing(Popped(j), Connected, now);
            Tokens(c) == 0 && NotifierInv(c) && c.state == Connected && c.deadline.Some?
            && c.loop == Running
  {
    var c := Crossing(Popped(j), Connected, now);
    CrossingFacts(Popped(j), Connected, now);
    CountTail(j.events, IsTokenSignal);
    ShapeGrows(j, j.events[0], Connected);
    assert Count(c.tasks, IsNotifier) == 0;
    assert forall i :: 0 <= i < |c.tasks| ==> c.tasks[i].kind == j.tasks[i].kind;
  }

  /** Entering a terminal state leaves at most the token there was, and starts at most one notifier. */
  lemma {:induction false} TerminateKeeps(j: Job, next: State, now: nat)
    requires Inv(j, now) && j.loop == Running && |j.events| > 0
    requires Transition(j.state, j.events[0]) == Some(next) && next != Connected
    ensures Inv(EntryAction(Crossing(Popped(j), next, now), now), now)
  {
    var c := Crossing(Popped(j), next, now);
    assert CoreInv(c, now) by { CrossingCore(j, next, now); }
    TerminateCounts(j, next, now);
    CrossingTimers(j, next, now);
    assert c.state == next && c.loop == Running by { CrossingFacts(Popped(j), next, now); }
    TerminateCore(c, now);
  }

  lemma {:induction false} TerminateCore(c: Job, now: nat)
    requires CoreInv(c, now) && c.loop == Running && c.state != Connected
    ensures CoreInv(EntryAction(c, now), now)
  {
    match c.state
    case Disconnected => SpawnCore(c, SendAction, Calling(Resolve(SendBudget(c.deadline, now))), now);
    case Aborted => SpawnCore(c, AbortNotice, Notify, now);
    case _ =>
  }

  lemma {:induction false} TerminateCounts(j: Job, next: State, now: nat)
    requires SlotInv(j) && TokenInv(j) && NotifierInv(j) && Climbs(j.entered, j.state)
    requires j.loop == Running && |j.events| > 0
    requires Transition(j.state, j.events[0]) == Some(next) && next != Connected
    ensures var k := EntryAction(Crossing(Popped(j), next, now), now);
            TokenInv(k) && NotifierInv(k)
  {
    var c := Crossing(Popped(j), next, now);
    CrossingFacts(Popped(j), next, now);
    assert NotifierInv(EntryAction(c, now))
           && Count(EntryAction(c, now).tasks, IsTokenTask) == Count(c.tasks, IsTokenTask) by {
      ShapeGrows(j, j.events[0], next);
      TerminateNotifies(j, c, next, now);
    }
    TransitionClimbs(j.state, j.events[0]);
    EntryFrame(c, now);
    TerminateTokens(j, EntryAction(c, now));
  }

  /** Entry actions other than Connected's only spawn. */
  lemma {:induction false} EntryFrame(c: Job, now: nat)
    requires c.state != Connected
    ensures EntryAction(c, now) == c.(tasks := EntryAction(c, now).tasks)
  {
  }

  lemma {:induction false} LeavesFor(j: Job, next: State, now: nat)
    requires next != Connected
    ensures EntryAction(Crossing(j, next, now), now).state == next
  {
    var c := Crossing(j, next, now);
    assert c.state == next;
    EntryFrame(c, now);
  }

  /** Popping an event and leaving Connected for good brings no token. */
  lemma {:induction false} TerminateTokens(j: Job, k: Job)
    requires Tokens(j) <= 1 && |j.events| > 0 && k.events == j.events[1..] && k.result == j.result
    requires Count(k.tasks, IsTokenTask) == Count(j.tasks, IsTokenTask)
    requires k.state != Connected && k.state != WaitingForInitialConnect
    ensures TokenInv(k)
  {
    CountTail(j.events, IsTokenSignal);
  }

  lemma {:induction false} TerminateNotifies(j: Job, c: Job, next: State, now: nat)
    requires NotifierInv(j) && c.doneSent == j.doneSent && c.state == next
    requires next == Disconnected || next == Aborted || next == Replaced
    requires c.entered == j.entered + [next] && next !in j.entered
    requires next == Disconnected ==> Aborted !in j.entered
    requires next == Aborted ==> Disconnected !in j.entered
    requires |c.tasks| == |j.tasks|
    requires forall i :: 0 <= i < |j.tasks| ==> c.tasks[i].kind == j.tasks[i].kind
    requires Count(c.tasks, IsNotifier) == Count(j.tasks, IsNotifier)
    requires Count(c.tasks, IsLiveNotifier) == Count(j.tasks, IsLiveNotifier)
    ensures NotifierInv(EntryAction(c, now))
    ensures Count(EntryAction(c, now).tasks, IsTokenTask) == Count(c.tasks, IsTokenTask)
  {
    var k := EntryAction(c, now);
    if |k.tasks| > |c.tasks| { SpawnCounts(c.tasks, k.tasks[|c.tasks|]); }
  }

  /** Dispatching in terms of the pieces above. */
  lemma {:induction false} DispatchIs(j: Job, now: nat)
    requires Enabled(j, Dispatch, now)
    ensures Next(j, Dispatch, now) ==
            if IsInternal(j.state, j.events[0]) then StartRestart(Popped(j), now)
            else match Transition(j.state, j.events[0])
                 case None => Popped(j)
                 case Some(next) =>
                   if next == Connected then StartRestart(Crossing(Popped(j), next, now), now)
                   else EntryAction(Crossing(Popped(j), next, now), now)
  {
    var p, e := Popped(j), j.events[0];
    assert Next(j, Dispatch, now) == HandleEvent(p, e, now);
    if !IsInternal(p.state, e) && Transition(p.state, e).Some? {
      ExitIsCrossing(p, Transition(p.state, e).value, now);
    }
  }

  lemma {:induction false} ExitIsCrossing(p: Job, next: State, now: nat)
    ensures var left := ExitAction(p.(state := next, entered := p.entered + [next]), p.state);
            EntryAction(left, now) ==
            if next == Connected then StartRestart(Crossing(p, next, now), now)
            else EntryAction(Crossing(p, next, now), now)
  {
    var left := ExitAction(p.(state := next, entered := p.entered + [next]), p.state);
    assert left.state == next && left.deadline == p.deadline && left.timeout == p.timeout;
    if next != Connected { assert left == Crossing(p, next, now); }
  }

  /** What handling an event never touches. */
  predicate SameFrame(j: Job, k: Job) {
    && k.timeout == j.timeout && k.sanity == j.sanity && k.events == j.events && k.result == j.result
    && k.cancelled == j.cancelled && k.loop == j.loop && k.replaced == j.replaced
    && k.lookupLog == j.lookupLog && k.doneSent == j.doneSent
  }

  lemma {:induction false} ExitSameFrame(j: Job, left: State)
    ensures SameFrame(j, ExitAction(j, left))
  {
  }

  lemma {:induction false} EntrySameFrame(j: Job, now: nat)
    ensures SameFrame(j, EntryAction(j, now))
  {
  }

  lemma {:induction false} DispatchSameFrame(j: Job, now: nat)
    requires Enabled(j, Dispatch, now)
    ensures SameFrame(Popped(j), Next(j, Dispatch, now))
  {
    var p, e := Popped(j), j.events[0];
    assert Next(j, Dispatch, now) == HandleEvent(p, e, now);
    if !IsInternal(p.state, e) && Transition(p.state, e).Some? {
      var next := Transition(p.state, e).value;
      var entered := p.(state := next, entered := p.entered + [next]);
      ExitSameFrame(entered, p.state);
      EntrySameFrame(ExitAction(entered, p.state), now);
    }
  }

  lemma {:induction false} DispatchKeeps(j: Job, now: nat)
    requires Inv(j, now) && Enabled(j, Dispatch, now)
    ensures Inv(Next(j, Dispatch, now), now)
  {
    DispatchIs(j, now);
    if IsInternal(j.state, j.events[0]) {
      ResetKeeps(j, now);
    } else if Transition(j.state, j.events[0]).None? {
      PoppedKeeps(j, now);
    } else if Transition(j.state, j.events[0]) == Some(Connected) {
      ConnectKeeps(j, now);
    } else {
      TerminateKeeps(j, Transition(j.state, j.events[0]).value, now);
    }
  }

  /** Taking the result while Connected moves the token from the slot to a fresh timer. */
  lemma {:induction false} RearmKeeps(j: Job, now: nat)
    requires Inv(j, now) && Enabled(j, Rearm, now)
    ensures Inv(Next(j, Rearm, now), now)
  {
    if j.state == Connected {
      RearmTokens(j, now);
      RearmCore(j, now);
      RearmTimers(j, now);
    } else {
      DiscardKeeps(j, now);
    }
  }

  lemma {:induction false} RearmTimers(j: Job, now: nat)
    requires TimerInv(j) && SlotInv(j) && j.state == Connected && j.loop == Running && j.result.Some?
    ensures TimerInv(ApplyResult(j, now))
  {
    StopTimerStops(j.tasks, j.restart);
  }

  /** A result that arrives after Connected was left is discarded. */
  lemma {:induction false} DiscardKeeps(j: Job, now: nat)
    requires Inv(j, now) && j.result.Some? && j.state != Connected
    ensures Inv(j.(result := None), now)
  {
    var k := j.(result := None);
    forall i | 0 <= i < |k.tasks| ensures TaskFits(k, k.tasks[i], now) && LookupFits(k, k.tasks[i]) {
      assert TaskFits(j, j.tasks[i], now) && LookupFits(j, j.tasks[i]);
    }
  }

  /** While a result is in the slot nothing else carries the token, so re-arming finds no timer to kill. */
  lemma {:induction false} ResultIsOnlyToken(j: Job)
    requires TokenInv(j) && j.result.Some?
    ensures forall i :: 0 <= i < |j.tasks| ==> !IsTokenTask(j.tasks[i])
    ensures Count(j.tasks, IsTokenTask) == 0 && Count(j.events, IsTokenSignal) == 0
  {
    NoTokens(j.(result := None));
  }

  lemma {:induction false} RearmTokens(j: Job, now: nat)
    requires TokenInv(j) && NotifierInv(j) && j.state == Connected && j.result.Some?
    ensures TokenInv(ApplyResult(j, now)) && NotifierInv(ApplyResult(j, now))
  {
    var k := ApplyResult(j, now);
    ResultIsOnlyToken(j);
    StopTimerTasks(j.tasks, j.restart);
    SpawnCounts(StopTimer(j.tasks, j.restart), k.tasks[|j.tasks|]);
    forall i | 0 <= i < |j.tasks| ensures !IsKilledTimer(k.tasks[i]) {
      assert !IsTokenTask(j.tasks[i]);
    }
  }

  lemma {:induction false} RearmCore(j: Job, now: nat)
    requires CoreInv(j, now) && TokenInv(j) && j.state == Connected && j.loop == Running && j.result.Some?
    ensures CoreInv(ApplyResult(j, now), now)
  {
    var k := ApplyResult(j, now);
    ResultIsOnlyToken(j);
    StopTimerTasks(j.tasks, j.restart);
    SpawnCounts(StopTimer(j.tasks, j.restart), k.tasks[|j.tasks|]);
    forall i | 0 <= i < |k.tasks|
      ensures TaskFits(k, k.tasks[i], now) && LookupFits(k, k.tasks[i]) && InFlight(k.tasks[i]).None?
    {
      if i < |j.tasks| {
        assert TaskFits(j, j.tasks[i], now) && LookupFits(j, j.tasks[i]);
        assert !IsTokenTask(j.tasks[i]);
      }
    }
  }

  lemma {:induction false} ShutdownCore(j: Job, now: nat)
    requires CoreInv(j, now) && j.loop == Running && j.cancelled
    ensures CoreInv(StopAll(j).(loop := Draining), now)
  {
    var k := StopAll(j).(loop := Draining);
    StopTimerTasks(j.tasks, j.waiting);
    StopTimerTasks(StopTimer(j.tasks, j.waiting), j.restart);
    forall i | 0 <= i < |k.tasks| ensures TaskFits(k, k.tasks[i], now) && LookupFits(k, k.tasks[i]) {
      assert TaskFits(j, j.tasks[i], now) && LookupFits(j, j.tasks[i]);
    }
  }

  lemma {:induction false} ShutdownCounts(j: Job, now: nat)
    requires TokenInv(j) && NotifierInv(j) && TimerInv(j) && j.cancelled
    ensures var k := StopAll(j).(loop := Draining);
            TokenInv(k) && NotifierInv(k) && TimerInv(k)
  {
    var once := StopTimer(j.tasks, j.waiting);
    StopTimerTasks(j.tasks, j.waiting);
    StopTimerTasks(once, j.restart);
    StopTimerStops(j.tasks, j.waiting);
    StopTimerStops(once, j.restart);
  }

  lemma {:induction false} ShutdownKeeps(j: Job, now: nat)
    requires Inv(j, now) && Enabled(j, Shutdown, now)
    ensures Inv(Next(j, Shutdown, now), now)
  {
    ShutdownCore(j, now);
    ShutdownCounts(j, now);
  }

  // ── preservation: the handler's acts ──────────────────────────────────

  lemma {:induction false} MarkCore(j: Job, replaced: bool, now: nat)
    requires CoreInv(j, now)
    ensures CoreInv(j.(cancelled := true, replaced := j.replaced || replaced), now)
  {
    var k := j.(cancelled := true, replaced := j.replaced || replaced);
    forall i | 0 <= i < |k.tasks| ensures TaskFits(k, k.tasks[i], now) && LookupFits(k, k.tasks[i]) {
      assert TaskFits(j, j.tasks[i], now) && LookupFits(j, j.tasks[i]);
    }
  }

  /** Appending a signal that is neither a token nor the lookup's absence report. */
  lemma {:induction false} AppendCore(j: Job, e: Signal, now: nat)
    requires CoreInv(j, now) && |j.events| < EVENT_CAPACITY
    requires e != SfuParticipantGone && (e == JobReplaced ==> j.replaced)
    ensures CoreInv(j.(events := j.events + [e]), now)
  {
    var k := j.(events := j.events + [e]);
    AppendLookup(j, e);
    forall i | 0 <= i < |k.tasks| ensures TaskFits(k, k.tasks[i], now) {
      assert TaskFits(j, j.tasks[i], now);
    }
  }

  lemma {:induction false} AppendLookup(j: Job, e: Signal)
    requires LookupInv(j) && e != SfuParticipantGone
    ensures LookupInv(j.(events := j.events + [e]))
  {
    var k := j.(events := j.events + [e]);
    forall b | 0 <= b < |k.events| && k.events[b] == SfuParticipantGone && j.state == WaitingForInitialConnect
      ensures ParticipantLookupSuccessful in k.events[..b]
    {
      assert k.events[..b] == j.events[..b];
    }
    forall i | 0 <= i < |k.tasks| ensures LookupFits(k, k.tasks[i]) {
      assert LookupFits(j, j.tasks[i]);
    }
  }

  lemma {:induction false} DeliverKeeps(j: Job, e: Signal, now: nat)
    requires Inv(j, now) && |j.events| < EVENT_CAPACITY && IsWebhookSignal(e)
    ensures Inv(j.(events := j.events + [e]), now)
  {
    AppendCore(j, e, now);
    CountAppend(j.events, e, IsTokenSignal);
  }

  lemma {:induction false} ReplaceKeeps(j: Job, now: nat)
    requires Inv(j, now)
    ensures Inv(Next(j, Replace, now), now)
  {
    var c := j.(cancelled := true, replaced := true);
    MarkCore(j, true, now);
    CountAppend(j.events, JobReplaced, IsTokenSignal);
    if |j.events| < EVENT_CAPACITY && j.loop != Exited {
      AppendCore(c, JobReplaced, now);
      assert Next(j, Replace, now) == c.(events := c.events + [JobReplaced]);
    }
  }

  // ── preservation: the spawned tasks ───────────────────────────────────

  lemma {:induction false} UpdateCounts(tasks: seq<Task>, i: nat, t: Task)
    requires i < |tasks| && t.kind == tasks[i].kind
    ensures Count(tasks[i := t], IsTokenTask) + (if IsTokenTask(tasks[i]) then 1 else 0)
            == Count(tasks, IsTokenTask) + if IsTokenTask(t) then 1 else 0
    ensures Count(tasks[i := t], IsNotifier) == Count(tasks, IsNotifier)
    ensures Count(tasks[i := t], IsLookup) == Count(tasks, IsLookup)
    ensures Count(tasks[i := t], IsLiveNotifier) + (if IsLiveNotifier(tasks[i]) then 1 else 0)
            == Count(tasks, IsLiveNotifier) + if IsLiveNotifier(t) then 1 else 0
    ensures Count(tasks[i := t], IsBackground) + (if IsBackground(tasks[i]) then 1 else 0)
            == Count(tasks, IsBackground) + if IsBackground(t) then 1 else 0
  {
    CountUpdate(tasks, i, t, IsTokenTask);
    CountUpdate(tasks, i, t, IsNotifier);
    CountUpdate(tasks, i, t, IsLookup);
    CountUpdate(tasks, i, t, IsLiveNotifier);
    CountUpdate(tasks, i, t, IsBackground);
  }

  /** A task's move takes it to one of its own program points. */
  lemma {:induction false} MoveFits(j: Job, t: Task, m: Move, now: nat)
    requires TaskFits(j, t, now) && MoveEnabled(j, t, m, now) && j.timeout > 0
    ensures TaskFits(j, t.(pc := MovePc(j, t, m, now)), now)
  {
  }

  lemma {:induction false} RunTasksFit(j: Job, i: nat, m: Move, now: nat)
    requires TasksFit(j, now) && i < |j.tasks| && MoveEnabled(j, j.tasks[i], m, now)
    ensures TasksFit(RunTask(j, i, m, now), now)
  {
    var k := RunTask(j, i, m, now);
    MoveFits(j, j.tasks[i], m, now);
    EffectFrame(j, j.tasks[i], m);
    assert |k.events| <= EVENT_CAPACITY;
    forall a | 0 <= a < |k.tasks| ensures TaskFits(k, k.tasks[a], now) {
      assert TaskFits(j, k.tasks[a], now) by { assert TaskFits(j, j.tasks[a], now); }
      FitsSame(j, k, k.tasks[a], now);
    }
  }

  lemma {:induction false} FitsSame(j: Job, k: Job, t: Task, now: nat)
    requires k.timeout == j.timeout && k.entered == j.entered && TaskFits(j, t, now)
    ensures TaskFits(k, t, now)
  {
  }

  function Bit(b: bool): nat { if b then 1 else 0 }

  /** A move hands the task's own token on; only cancellation, or a timer's token, makes it drop it. */
  lemma {:induction false} MoveBalance(j: Job, t: Task, m: Move, now: nat)
    requires TaskFits(j, t, now) && MoveEnabled(j, t, m, now)
    ensures var k, u := MoveEffect(j, t, m), t.(pc := MovePc(j, t, m, now));
            && (k.events == j.events || (|k.events| == |j.events| + 1 && k.events[..|j.events|] == j.events))
            && var after := Bit(IsTokenTask(u)) + Bit(k.result.Some?)
                            + Bit(|k.events| > |j.events| && IsTokenSignal(k.events[|j.events|]));
               var before := Bit(IsTokenTask(t)) + Bit(j.result.Some?);
               && after <= before
               && (j.loop != Exited && !j.cancelled && !IsKilledTimer(t) ==> after == before)
  {
  }

  /** A move never adds a token to the job, and drops one only as MoveBalance says. */
  lemma {:induction false} MoveTokens(j: Job, i: nat, m: Move, now: nat)
    requires i < |j.tasks| && TaskFits(j, j.tasks[i], now) && MoveEnabled(j, j.tasks[i], m, now)
    ensures Tokens(RunTask(j, i, m, now)) <= Tokens(j)
    ensures j.loop != Exited && !j.cancelled && !IsKilledTimer(j.tasks[i]) ==>
              Tokens(RunTask(j, i, m, now)) == Tokens(j)
  {
    var t := j.tasks[i];
    var k, u := MoveEffect(j, t, m), t.(pc := MovePc(j, t, m, now));
    MoveBalance(j, t, m, now);
    UpdateCounts(j.tasks, i, u);
    if k.events != j.events {
      assert k.events == j.events + [k.events[|j.events|]];
      CountAppend(j.events, k.events[|j.events|], IsTokenSignal);
    }
    TokensAfter(j, i, u, k);
  }

  lemma {:induction false} TokensAfter(j: Job, i: nat, u: Task, k: Job)
    requires i < |j.tasks|
    ensures Tokens(k.(tasks := j.tasks[i := u]))
            == Count(j.tasks[i := u], IsTokenTask) + Count(k.events, IsTokenSignal) + Bit(k.result.Some?)
  {
  }

  lemma {:induction false} RunTokenInv(j: Job, i: nat, m: Move, now: nat)
    requires TokenInv(j) && LoopInv(j)
    requires i < |j.tasks| && TaskFits(j, j.tasks[i], now) && MoveEnabled(j, j.tasks[i], m, now)
    ensures TokenInv(RunTask(j, i, m, now))
  {
    var k := RunTask(j, i, m, now);
    MoveTokens(j, i, m, now);
    assert k.state == j.state && k.cancelled == j.cancelled;
    assert IsKilledTimer(k.tasks[i]) ==> IsKilledTimer(j.tasks[i]);
  }

  lemma {:induction false} RunSlots(j: Job, i: nat, m: Move, now: nat)
    requires SlotInv(j) && i < |j.tasks|
    ensures SlotInv(RunTask(j, i, m, now))
  {
    EffectFrame(j, j.tasks[i], m);
  }

  lemma {:induction false} EffectFrame(j: Job, t: Task, m: Move)
    ensures MoveEffect(j, t, m) == j.(events := MoveEffect(j, t, m).events, lookupLog := MoveEffect(j, t, m).lookupLog,
                                     result := MoveEffect(j, t, m).result, doneSent := MoveEffect(j, t, m).doneSent)
  {
  }

  lemma {:induction false} RunDeadline(j: Job, i: nat, m: Move, now: nat)
    requires DeadlineInv(j, now)
    requires i < |j.tasks| && TaskFits(j, j.tasks[i], now) && MoveEnabled(j, j.tasks[i], m, now)
    ensures DeadlineInv(RunTask(j, i, m, now), now)
  {
    var k, t := RunTask(j, i, m, now), j.tasks[i];
    EffectFrame(j, t, m);
    MoveInFlight(j, t, m, now);
    forall a | 0 <= a < |k.tasks| && InFlight(k.tasks[a]).Some?
      ensures DeadlineFits(k, InFlight(k.tasks[a]).value, now)
    {
      if InFlight(j.tasks[a]).Some? { assert DeadlineFits(j, InFlight(j.tasks[a]).value, now); }
    }
  }

  /** A deadline in flight is new, from now, or moves on; and the result slot is filled with one that was in flight. */
  lemma {:induction false} MoveInFlight(j: Job, t: Task, m: Move, now: nat)
    requires TaskFits(j, t, now) && MoveEnabled(j, t, m, now)
    ensures var u := t.(pc := MovePc(j, t, m, now));
            && (InFlight(u).Some? ==>
                  InFlight(t) == InFlight(u) || (t.kind == Restart && InFlight(u) == Some(now + j.timeout)))
            && (MoveEffect(j, t, m).result.Some? ==>
                  MoveEffect(j, t, m).result == j.result || MoveEffect(j, t, m).result == InFlight(t))
  {
  }

  lemma {:induction false} RunNotifies(j: Job, i: nat, m: Move, now: nat)
    requires NotifierInv(j)
    requires i < |j.tasks| && TaskFits(j, j.tasks[i], now) && MoveEnabled(j, j.tasks[i], m, now)
    ensures NotifierInv(RunTask(j, i, m, now))
  {
    var k := RunTask(j, i, m, now);
    UpdateCounts(j.tasks, i, k.tasks[i]);
  }

  /** Only the job's own background tasks are missing once the loop has exited. */
  lemma {:induction false} ExitedHasNoBackground(j: Job, i: nat)
    requires LoopInv(j) && j.loop == Exited && i < |j.tasks|
    ensures !IsBackground(j.tasks[i])
  {
    if IsBackground(j.tasks[i]) { CountPositive(j.tasks, i, IsBackground); }
  }

  lemma {:induction false} RunLoopInv(j: Job, i: nat, m: Move, now: nat)
    requires LoopInv(j)
    requires i < |j.tasks| && TaskFits(j, j.tasks[i], now) && MoveEnabled(j, j.tasks[i], m, now)
    ensures LoopInv(RunTask(j, i, m, now))
  {
    var k := RunTask(j, i, m, now);
    UpdateCounts(j.tasks, i, k.tasks[i]);
    if j.loop == Exited { ExitedHasNoBackground(j, i); }
  }

  /** A move of any task but the lookup leaves the lookup's story as it was. */
  lemma {:induction false} RunOther(j: Job, i: nat, m: Move, now: nat)
    requires LookupInv(j)
    requires i < |j.tasks| && TaskFits(j, j.tasks[i], now) && MoveEnabled(j, j.tasks[i], m, now)
    requires j.tasks[i].kind != Lookup
    ensures LookupInv(RunTask(j, i, m, now))
  {
    var k := RunTask(j, i, m, now);
    EffectFrame(j, j.tasks[i], m);
    assert Count(k.tasks, IsLookup) == Count(j.tasks, IsLookup) by { UpdateCounts(j.tasks, i, k.tasks[i]); }
    if k.events != j.events { AppendLookup(j, j.tasks[i].pc.signal); }
    forall a | 0 <= a < |k.tasks| ensures LookupFits(k, k.tasks[a]) {
      assert LookupFits(j, j.tasks[a]);
    }
  }

  lemma {:induction false} RunLookup(j: Job, i: nat, m: Move, now: nat)
    requires LookupInv(j) && LoopInv(j)
    requires i < |j.tasks| && TaskFits(j, j.tasks[i], now) && MoveEnabled(j, j.tasks[i], m, now)
    requires j.tasks[i].kind == Lookup
    ensures LookupInv(RunTask(j, i, m, now))
  {
    var k := RunTask(j, i, m, now);
    var t := j.tasks[i];
    UpdateCounts(j.tasks, i, k.tasks[i]);
    assert LookupFits(j, t);
    assert j.loop != Exited by {
      if j.loop == Exited { ExitedHasNoBackground(j, i); }
    }
    LookupMoves(j, i, m, now);
    forall a | 0 <= a < |k.tasks| ensures LookupFits(k, k.tasks[a]) {
      if a != i && j.tasks[a].kind == Lookup {
        CountTwo(j.tasks, if a < i then a else i, if a < i then i else a, IsLookup);
      }
    }
  }

  /** The lookup's own move: what it says, and when. */
  lemma {:induction false} LookupMoves(j: Job, i: nat, m: Move, now: nat)
    requires LookupInv(j) && j.loop != Exited
    requires i < |j.tasks| && TaskFits(j, j.tasks[i], now) && MoveEnabled(j, j.tasks[i], m, now)
    requires j.tasks[i].kind == Lookup && LookupFits(j, j.tasks[i])
    ensures var k := RunTask(j, i, m, now);
            LookupFits(k, k.tasks[i]) && LogFits(k.lookupLog) && GoneFollowsFound(k)
  {
    var k := RunTask(j, i, m, now);
    var t := j.tasks[i];
    if t.pc.Emit? && m == Put {
      var e := t.pc.signal;
      assert k.events == j.events + [e];
      assert k.events[|j.events|] == e;
      forall b | 0 <= b < |k.events| && k.events[b] == SfuParticipantGone && k.state == WaitingForInitialConnect
        ensures ParticipantLookupSuccessful in k.events[..b]
      {
        assert k.events[..b] == j.events[..b];
        if b == |j.events| { assert j.events[..b] == j.events; }
      }
    }
  }

  lemma {:induction false} RunTimers(j: Job, i: nat, m: Move, now: nat)
    requires TimerInv(j) && i < |j.tasks|
    ensures TimerInv(RunTask(j, i, m, now))
  {
  }

  lemma {:induction false} RunKeeps(j: Job, i: nat, m: Move, now: nat)
    requires Inv(j, now) && i < |j.tasks| && MoveEnabled(j, j.tasks[i], m, now)
    ensures Inv(RunTask(j, i, m, now), now)
  {
    var k := RunTask(j, i, m, now);
    assert TaskFits(j, j.tasks[i], now);
    assert TasksFit(k, now) by { RunTasksFit(j, i, m, now); }
    assert TokenInv(k) by { RunTokenInv(j, i, m, now); }
    assert SlotInv(k) by { RunSlots(j, i, m, now); }
    assert DeadlineInv(k, now) by { RunDeadline(j, i, m, now); }
    assert NotifierInv(k) by { RunNotifies(j, i, m, now); }
    assert LoopInv(k) by { RunLoopInv(j, i, m, now); }
    assert LookupInv(k) by {
      if j.tasks[i].kind == Lookup { RunLookup(j, i, m, now); } else { RunOther(j, i, m, now); }
    }
    assert Climbs(k.entered, k.state);
    assert TimerInv(k) by { RunTimers(j, i, m, now); }
  }

  // ── every step ────────────────────────────────────────────────────────

  /** Every step of the loop, of a task or of the handler keeps the whole invariant. */
  lemma {:induction false} NextKeeps(j: Job, s: Step, now: nat)
    requires Inv(j, now) && Enabled(j, s, now)
    ensures Inv(Next(j, s, now), now)
  {
    match s
    case Begin => BeginKeeps(j, now);
    case Deliver(e) => DeliverKeeps(j, e, now);
    case Cancel => CancelKeeps(j, now);
    case Replace => ReplaceKeeps(j, now);
    case Dispatch => DispatchKeeps(j, now);
    case Rearm => RearmKeeps(j, now);
    case Shutdown => ShutdownKeeps(j, now);
    case ExitLoop => ExitLoopKeeps(j, now);
    case Run(i, m) => RunKeeps(j, i, m, now);
  }

  lemma {:induction false} CancelKeeps(j: Job, now: nat)
    requires Inv(j, now)
    ensures Inv(j.(cancelled := true), now)
  {
    MarkCore(j, false, now);
    assert j.(cancelled := true) == j.(cancelled := true, replaced := j.replaced || false);
  }

  lemma {:induction false} ExitLoopKeeps(j: Job, now: nat)
    requires Inv(j, now) && Enabled(j, ExitLoop, now)
    ensures Inv(Next(j, ExitLoop, now), now)
  {
    var k := Next(j, ExitLoop, now);
    forall i | 0 <= i < |k.tasks| ensures TaskFits(k, k.tasks[i], now) && LookupFits(k, k.tasks[i]) {
      assert TaskFits(j, j.tasks[i], now) && LookupFits(j, j.tasks[i]);
    }
  }

  lemma {:induction false} StepInv(j: Job, s: Step, now: nat, k: Job, later: nat)
    requires Inv(j, now) && Enabled(j, s, now) && k == Next(j, s, now) && now <= later
    ensures Inv(k, later)
  {
    NextKeeps(j, s, now);
    InvLater(k, now, later);
  }

  lemma {:induction false} InvAt(r: JobRun, i: nat)
    requires IsRun(r) && 0 < i < |r.jobs| && Inv(r.jobs[i - 1], r.clocks[i - 1])
    ensures Inv(r.jobs[i], r.clocks[i])
  {
    StepOfJobRun(r, i - 1);
    StepInv(r.jobs[i - 1], r.steps[i - 1], r.clocks[i - 1], r.jobs[i], r.clocks[i]);
  }

  /** The invariant holds in every state of every run. */
  lemma {:induction false} RunInv(r: JobRun, i: nat)
    requires IsRun(r) && i < |r.jobs|
    ensures Inv(r.jobs[i], r.clocks[i])
    decreases i
  {
    if i == 0 {
      InitInv(r);
    } else {
      RunInv(r, i - 1);
      InvAt(r, i);
    }
  }

  lemma {:induction false} InitInv(r: JobRun)
    requires IsRun(r)
    ensures Inv(r.jobs[0], r.clocks[0])
  {
    var t, sanity :| t > 0 && r.jobs[0] == NewJob(t, sanity);
    InitEstablishes(t, sanity, r.clocks[0]);
  }
}
