/**
 * The job's actor loop as it updates its own fields, proved to take exactly the
 * loop steps of JobModel and to keep its invariant.
 * Spawned tasks run between calls; they are steps of the model and not part of
 * this class.
 */
module JobActor {
  import opened Support
  import opened Fsm
  import opened JobModel
  import opened JobInvariant

  /** Which ready branch the loop's select picked. */
  datatype Branch = CancelBranch | EventBranch | ResultBranch

  function StepOf(branch: Branch): Step {
    match branch
    case CancelBranch => Shutdown
    case EventBranch => Dispatch
    case ResultBranch => Rearm
  }

  class DelayedEventJob {
    const timeout: nat
    const sanity: bool
    var state: State
    var restartDeadline: Option<nat>
    var waitingTimer: Option<nat>
    var restartTimer: Option<nat>
    var tasks: seq<Task>
    var eventQueue: seq<Signal>
    var restartResult: Option<nat>
    var cancelled: bool
    var loop: LoopPc
    var replaced: bool
    ghost var entered: seq<State>
    ghost var lookupLog: seq<Signal>
    ghost var doneSent: nat

    ghost function Abs(): Job
      reads this
    {
      Job(timeout, sanity, state, restartDeadline, waitingTimer, restartTimer, tasks, eventQueue,
          restartResult, cancelled, loop, replaced, entered, lookupLog, doneSent)
    }

    ghost predicate Valid(now: nat)
      reads this
    {
      Inv(Abs(), now)
    }

    constructor (timeout: nat, sanity: bool)
      ensures Abs() == NewJob(timeout, sanity)
      ensures timeout > 0 ==> Valid(0)
    {
      this.timeout, this.sanity := timeout, sanity;
      state, restartDeadline, waitingTimer, restartTimer := WaitingForInitialConnect, None, None, None;
      tasks, eventQueue, restartResult := [], [], None;
      cancelled, loop, replaced := false, NotStarted, false;
      entered, lookupLog, doneSent := [WaitingForInitialConnect], [], 0;
    }

    /** A job with a zero delay timeout is refused. */
    static method Create(timeout: nat, sanity: bool) returns (job: DelayedEventJob?)
      ensures job == null <==> timeout == 0
      ensures job != null ==> fresh(job) && job.Abs() == NewJob(timeout, sanity) && job.Valid(0)
    {
      if timeout == 0 {
        return null;
      }
      job := new DelayedEventJob(timeout, sanity);
    }

    method SpawnTask(kind: Kind, pc: Pc) returns (id: nat)
      modifies this`tasks
      ensures Abs() == Spawn(old(Abs()), kind, pc) && id == |old(tasks)|
    {
      id := |tasks|;
      tasks := tasks + [Task(kind, pc)];
    }

    /** Cancels a timer's token if its sleep has not yet run out. */
    method CancelTimer(slot: Option<nat>)
      modifies this`tasks
      ensures Abs() == old(Abs()).(tasks := StopTimer(old(tasks), slot))
    {
      if slot.Some? && slot.value < |tasks| && tasks[slot.value].pc.Sleep? {
        var t := tasks[slot.value];
        tasks := tasks[slot.value := t.(pc := t.pc.(stopped := true))];
      }
    }

    /** Starts the lookup and the loop; must be called once. */
    method SpawnLoop(now: nat)
      requires Valid(now) && loop == NotStarted
      modifies this
      ensures Valid(now) && Abs() == Next(old(Abs()), Begin, now)
    {
      NextKeeps(Abs(), Begin, now);
      StartLookupAndTimer(now);
    }

    /** Starts the participant lookup and arms the waiting timer. */
    method StartLookupAndTimer(now: nat)
      requires loop == NotStarted
      modifies this
      ensures Abs() == Launch(old(Abs()), now)
    {
      var bound := Min(HOUR, timeout);
      var lookup := SpawnTask(Lookup, Calling(Check(bound, now)));
      var timer := SpawnTask(WaitingTimer, Sleep(now + bound, false));
      waitingTimer := Some(timer);
      loop := Running;
    }

    /** One iteration of the loop's select; `open` tells whether the loop goes on. */
    method Iterate(branch: Branch, now: nat) returns (open: bool)
      requires Valid(now) && loop == Running && Enabled(Abs(), StepOf(branch), now)
      modifies this
      ensures Valid(now) && Abs() == Next(old(Abs()), StepOf(branch), now)
      ensures open <==> branch != CancelBranch
    {
      NextKeeps(Abs(), StepOf(branch), now);
      open := branch != CancelBranch;
      match branch
      case CancelBranch => TakeCancel(now);
      case EventBranch => TakeEvent(now);
      case ResultBranch => TakeResult(now);
    }

    /** Stops both timers and goes on to wait for the background tasks. */
    method TakeCancel(now: nat)
      requires loop == Running && cancelled
      modifies this
      ensures Abs() == Next(old(Abs()), Shutdown, now)
    {
      CancelTimer(waitingTimer);
      waitingTimer := None;
      CancelTimer(restartTimer);
      restartTimer := None;
      loop := Draining;
    }

    method TakeEvent(now: nat)
      requires loop == Running && |eventQueue| > 0
      modifies this
      ensures Abs() == Next(old(Abs()), Dispatch, now)
    {
      var event := eventQueue[0];
      eventQueue := eventQueue[1..];
      HandleEvent(event, now);
    }

    /** Extends the deadline and re-arms the restart timer, unless Connected was left meanwhile. */
    method TakeResult(now: nat)
      requires loop == Running && restartResult.Some?
      modifies this
      ensures Abs() == Next(old(Abs()), Rearm, now)
    {
      var newDeadline := restartResult;
      restartResult := None;
      if state != Connected {
        return;
      }
      restartDeadline := newDeadline;
      CancelTimer(restartTimer);
      var timer := SpawnTask(ResetTimer, Sleep(now + RestartDelay(timeout), false));
      restartTimer := Some(timer);
    }

    /** Internal actions first; otherwise transition, exit action, entry action. */
    method HandleEvent(event: Signal, now: nat)
      modifies this
      ensures Abs() == JobModel.HandleEvent(old(Abs()), event, now)
    {
      var consumed := HandleInternalAction(event, now);
      if consumed {
        return;
      }
      var left := state;
      var next := HandleTransition(event);
      if next.None? {
        return;
      }
      HandleExitAction(left);
      HandleEntryAction(now);
    }

    method HandleInternalAction(event: Signal, now: nat) returns (consumed: bool)
      modifies this`tasks
      ensures consumed <==> IsInternal(old(state), event)
      ensures Abs() == if consumed then JobModel.StartRestart(old(Abs()), now) else old(Abs())
    {
      consumed := IsInternal(state, event);
      if consumed {
        StartRestart(now);
      }
    }

    method HandleTransition(event: Signal) returns (next: Option<State>)
      modifies this
      ensures next == Transition(old(state), event)
      ensures Abs() == if next.None? then old(Abs())
                       else old(Abs()).(state := next.value, entered := old(entered) + [next.value])
    {
      next := Transition(state, event);
      if next.Some? {
        state := next.value;
        entered := entered + [next.value];
      }
    }

    method HandleExitAction(left: State)
      modifies this
      ensures Abs() == ExitAction(old(Abs()), left)
    {
      match left
      case WaitingForInitialConnect => {
        CancelTimer(waitingTimer);
        waitingTimer := None;
      }
      case Connected => {
        CancelTimer(restartTimer);
        restartTimer := None;
      }
      case _ => {}
    }

    method HandleEntryAction(now: nat)
      modifies this
      ensures Abs() == EntryAction(old(Abs()), now)
    {
      match state
      case Connected => {
        restartDeadline := Some(now + timeout);
        StartRestart(now);
      }
      case Disconnected => {
        var untilDeadline := Remaining(restartDeadline, now);
        var remaining := Min(Max(untilDeadline, SECOND), HOUR);
        var task := SpawnTask(SendAction, Calling(Resolve(remaining)));
      }
      case Aborted => {
        var task := SpawnTask(AbortNotice, Notify);
      }
      case _ => {}
    }

    /** Spawns the restart, or the report that the deadline is already spent. */
    method StartRestart(now: nat)
      modifies this`tasks
      ensures Abs() == JobModel.StartRestart(old(Abs()), now)
    {
      var remaining := Remaining(restartDeadline, now);
      var pc := if remaining == 0 then Emit(DelayedEventTimedOut) else Calling(Resolve(remaining));
      var task := SpawnTask(Restart, pc);
    }

    /** Idempotent; the loop notices on its own. */
    method Stop(now: nat)
      requires Valid(now)
      modifies this`cancelled
      ensures Valid(now) && Abs() == Next(old(Abs()), Cancel, now)
    {
      NextKeeps(Abs(), Cancel, now);
      cancelled := true;
    }
  }
}
