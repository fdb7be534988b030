/**
 * The handler loop, its store writer and all the jobs it ever created.
 *
 * A job is known by its index into `cells`; two handles denote the same object
 * exactly when their indices are equal. As in JobModel, any enabled step may be
 * taken next.
 */
module HandlerModel {
  import opened Support
  import opened Fsm
  import opened JobModel

  const ADD_CAPACITY: nat := 1
  const SFU_CAPACITY: nat := 200
  const DONE_CAPACITY: nat := 10
  const RESTARTED_CAPACITY: nat := 10
  const STORE_CAPACITY: nat := 256

  datatype JobKey = JobKey(room: string, identity: string)

  /** `rest` stands for the delay id, the server name and the owner. */
  datatype Params = Params(room: string, identity: string, timeout: nat, rest: string)

  function KeyOf(p: Params): JobKey { JobKey(p.room, p.identity) }

  datatype StoredJob = StoredJob(params: Params, restartedAt: nat)

  type Contents = map<JobKey, StoredJob>

  type JobId = nat

  /** A store operation; `ticket` names the reply that waits for the write, if any. */
  datatype StoreOp =
    | Save(key: JobKey, job: StoredJob, ticket: Option<nat>)
    | Delete(key: JobKey)

  function ApplyOp(c: Contents, op: StoreOp): Contents {
    match op
    case Save(key, job, _) => c[key := job]
    case Delete(key) => c - {key}
  }

  function ApplyOps(c: Contents, ops: seq<StoreOp>): Contents {
    if |ops| == 0 then c
    else ApplyOp(ApplyOps(c, ops[..|ops| - 1]), ops[|ops| - 1])
  }

  datatype Cell = Cell(params: Params, job: Job, restartedAt: nat)

  /** What the handler does once a store operation is queued. */
  datatype Then = StartJob(id: JobId) | StopJob(id: JobId) | Continue

  datatype HandlerPc =
    | Recovering(rest: seq<StoredJob>)     // going through the jobs found in the store
    | Idle
    | Enqueuing(op: StoreOp, next: Then)  // waiting for room in the store queue
    | Routing(id: JobId, signal: Signal)   // waiting for room in a job's event queue
    | Closing
    | AwaitingWriter
    | Stopped

  datatype WriterPc = Resting | Writing(op: StoreOp)

  /** The answer to an accepted add request; `index` is its Save's place among all decided operations. */
  datatype Reply = Reply(index: nat, done: bool, sent: bool)

  datatype SfuEvent = SfuEvent(key: JobKey, signal: Signal)

  datatype Restarted = Restarted(id: JobId, at: nat)

  datatype Sys = Sys(
    now: nat,
    hasStore: bool,
    sanity: bool,
    cancelled: bool,
    pc: HandlerPc,
    jobs: map<JobKey, JobId>,
    cells: seq<Cell>,
    addQueue: seq<Params>,
    sfuQueue: seq<SfuEvent>,
    doneQueue: seq<JobId>,
    restartedQueue: seq<Restarted>,
    storeQueue: seq<StoreOp>,
    writer: WriterPc,
    store: Contents,
    replies: seq<Reply>,
    initial: Contents,          // history: the jobs map that recovery built
    decided: seq<StoreOp>,      // history: every operation the loop decided on
    written: seq<StoreOp>,      // history: every operation the writer attempted
    dirty: set<JobKey>          // history: keys not yet recovered, or whose last attempted write failed
  )

  /** The map the handler would want to find in the store: current jobs with their last restart. */
  function View(s: Sys): Contents
    requires forall k :: k in s.jobs ==> s.jobs[k] < |s.cells|
  {
    map k | k in s.jobs :: StoredJob(s.cells[s.jobs[k]].params, s.cells[s.jobs[k]].restartedAt)
  }

  /** Whether the handle is the one the map holds under the job's own key. */
  predicate IsCurrent(s: Sys, id: JobId) {
    && id < |s.cells|
    && KeyOf(s.cells[id].params) in s.jobs
    && s.jobs[KeyOf(s.cells[id].params)] == id
  }

  // ── recovery ──────────────────────────────────────────────────────────

  /** The delay as a chrono duration: out of its range (i64 milliseconds) it becomes zero. */
  function ChronoDelay(timeout: nat): nat {
    if timeout <= 0x7FFF_FFFF_FFFF_FFFF * 1_000_000 then timeout else 0
  }

  predicate IsExpired(e: StoredJob, now: nat) {
    e.restartedAt + ChronoDelay(e.params.timeout) <= now
  }

  /** Whether recovery makes a job of the entry, or deletes it. */
  predicate Survives(e: StoredJob, now: nat) {
    !IsExpired(e, now) && e.params.timeout > 0
  }

  /** The job of a surviving entry goes straight into the map and starts. */
  function Revive(s: Sys, e: StoredJob, rest: seq<StoredJob>): Sys {
    var key := KeyOf(e.params);
    var job := NewJob(e.params.timeout, s.sanity).(cancelled := s.cancelled);
    s.(pc := Recovering(rest),
       cells := s.cells + [Cell(e.params, Launch(job, s.now), e.restartedAt)],
       jobs := s.jobs[key := |s.cells|],
       initial := s.initial[key := e],
       dirty := s.dirty - {key})
  }

  /** The entry of a job that has expired, or cannot be created, is deleted right away. */
  function Discard(s: Sys, e: StoredJob, rest: seq<StoredJob>, ok: bool, applied: bool): Sys {
    var key := KeyOf(e.params);
    s.(pc := Recovering(rest),
       store := if applied then s.store - {key} else s.store,
       dirty := if ok then s.dirty - {key} else s.dirty)
  }

  function RecoverEntry(s: Sys, e: StoredJob, rest: seq<StoredJob>, ok: bool, applied: bool): Sys {
    if Survives(e, s.now) then Revive(s, e, rest) else Discard(s, e, rest, ok, applied)
  }

  // ── the loop's arms ───────────────────────────────────────────────────

  function SetJob(s: Sys, id: JobId, j: Job): Sys
    requires id < |s.cells|
  {
    s.(cells := s.cells[id := s.cells[id].(job := j)])
  }

  /** The jobs once a store operation is queued, or skipped. */
  function Followed(cells: seq<Cell>, t: Then, now: nat): seq<Cell> {
    match t
    case StartJob(id) =>
      if id < |cells| && cells[id].job.loop == NotStarted
      then cells[id := cells[id].(job := Launch(cells[id].job, now))] else cells
    case StopJob(id) =>
      if id < |cells| then cells[id := cells[id].(job := MarkCancelled(cells[id].job))] else cells
    case Continue => cells
  }

  function AfterEnqueue(s: Sys, t: Then): Sys {
    s.(cells := Followed(s.cells, t, s.now))
  }

  /** Decides on an operation: with a store it has to be queued first, without one it is skipped. */
  function Decide(s: Sys, op: StoreOp, t: Then): Sys {
    if s.hasStore then s.(pc := Enqueuing(op, t), decided := s.decided + [op])
    else AfterEnqueue(s, t)
  }

  /** The add arm's first half: the job the map holds under this key, if any, is replaced. */
  function Displaced(s: Sys, key: JobKey): Sys {
    if key in s.jobs && s.jobs[key] < |s.cells|
    then SetJob(s, s.jobs[key], MarkReplaced(s.cells[s.jobs[key]].job)) else s
  }

  /** The state the add arm reaches before it decides on the store operation. */
  function Added(s: Sys, p: Params): Sys {
    var d := Displaced(s, KeyOf(p));
    d.(cells := d.cells + [Cell(p, NewJob(p.timeout, s.sanity).(cancelled := s.cancelled), s.now)],
       jobs := s.jobs[KeyOf(p) := |s.cells|],
       replies := s.replies + [Reply(|s.decided|, !s.hasStore, false)])
  }

  /** The add arm once the request is off the queue and its delay timeout is known not to be zero. */
  function AddJob(s: Sys, p: Params): Sys {
    Decide(Added(s, p), Save(KeyOf(p), StoredJob(p, s.now), Some(|s.replies|)), StartJob(|s.cells|))
  }

  function RemoveJob(s: Sys, id: JobId): Sys
    requires id < |s.cells|
  {
    var key := KeyOf(s.cells[id].params);
    if IsCurrent(s, id) then Decide(s.(jobs := s.jobs - {key}), Delete(key), StopJob(id))
    else s
  }

  function NoteRestart(s: Sys, id: JobId, at: nat): Sys
    requires id < |s.cells|
  {
    var key := KeyOf(s.cells[id].params);
    if IsCurrent(s, id) then
      Decide(s.(cells := s.cells[id := s.cells[id].(restartedAt := at)]),
             Save(key, StoredJob(s.cells[id].params, at), None), Continue)
    else s
  }

  function Route(s: Sys, e: SfuEvent): Sys {
    if e.key in s.jobs && IsRoutable(e.signal) then s.(pc := Routing(s.jobs[e.key], e.signal)) else s
  }

  // ── steps ─────────────────────────────────────────────────────────────

  datatype SysStep =
    | Tick(d: nat)
    | Submit(params: Params)              // a client hands over a delayed event
    | Hook(key: JobKey, hook: Webhook)    // the SFU calls the webhook
    | Work(id: JobId, step: Step)         // a job's loop or one of its tasks
    | RecoverNext(ok: bool, applied: bool)  // the outcome of the deletion, if there is one
    | FinishRecovery
    | TakeAdd
    | TakeSfu
    | TakeDone
    | TakeRestarted
    | Enqueue                             // the store queue had room
    | Forward                             // the job's event queue had room
    | GiveUpRouting                       // the job was cancelled meanwhile
    | WriterTake
    | WriterAttempt(ok: bool, applied: bool)
    | SendReply(r: nat)
    | CancelAll
    | StartClosing
    | FinishClosing(timedOut: bool)       // the current jobs' loops are done, or a wait timed out
    | FinishWriting                       // the writer drained its queue

  /** The steps of a job that are not acts of the handler. */
  predicate IsOwnStep(st: Step) {
    st.Dispatch? || st.Rearm? || st.Shutdown? || st.ExitLoop? || st.Run?
  }

  /** The step sends the done notification. */
  predicate SendsDone(j: Job, st: Step) {
    st.Run? && st.move == Put && st.task < |j.tasks| && j.tasks[st.task].pc.Notify?
  }

  /** The step reports a restart. */
  predicate SendsRestarted(j: Job, st: Step) {
    st.Run? && st.move == Put && st.task < |j.tasks| && j.tasks[st.task].pc.Report?
  }

  /** Every job in the map has flagged that its loop is done. */
  predicate AllJoined(s: Sys) {
    forall k :: k in s.jobs ==> s.jobs[k] < |s.cells| && s.cells[s.jobs[k]].job.loop == Exited
  }

  predicate CanStep(s: Sys, st: SysStep) {
    match st
    case Tick(_) => true
    case Submit(_) => |s.addQueue| < ADD_CAPACITY && s.pc != Stopped
    case Hook(_, h) => FromWebhook(h).Some? && |s.sfuQueue| < SFU_CAPACITY && s.pc != Stopped
    case Work(id, step) =>
      && id < |s.cells| && IsOwnStep(step) && Enabled(s.cells[id].job, step, s.now)
      && (SendsDone(s.cells[id].job, step) ==> |s.doneQueue| < DONE_CAPACITY || s.pc == Stopped)
      && (SendsRestarted(s.cells[id].job, step) ==> |s.restartedQueue| < RESTARTED_CAPACITY || s.pc == Stopped)
    case RecoverNext(ok, applied) => s.pc.Recovering? && |s.pc.rest| > 0 && (ok ==> applied)
    case FinishRecovery => s.pc.Recovering? && |s.pc.rest| == 0
    case TakeAdd => s.pc == Idle && |s.addQueue| > 0
    case TakeSfu => s.pc == Idle && |s.sfuQueue| > 0
    case TakeDone => s.pc == Idle && |s.doneQueue| > 0 && s.doneQueue[0] < |s.cells|
    case TakeRestarted => s.pc == Idle && |s.restartedQueue| > 0 && s.restartedQueue[0].id < |s.cells|
    case Enqueue => s.pc.Enqueuing? && |s.storeQueue| < STORE_CAPACITY
    case Forward =>
      && s.pc.Routing? && s.pc.id < |s.cells|
      && Enabled(s.cells[s.pc.id].job, Deliver(s.pc.signal), s.now)
    case GiveUpRouting => s.pc.Routing? && s.pc.id < |s.cells| && s.cells[s.pc.id].job.cancelled
    case WriterTake => s.writer == Resting && |s.storeQueue| > 0
    case WriterAttempt(ok, applied) => s.writer.Writing? && (ok ==> applied)
    case SendReply(r) => r < |s.replies| && s.replies[r].done && !s.replies[r].sent
    case CancelAll => true
    case StartClosing => s.pc == Idle && s.cancelled
    case FinishClosing(timedOut) => s.pc == Closing && (timedOut || AllJoined(s))
    case FinishWriting => s.pc == AwaitingWriter && |s.storeQueue| == 0 && s.writer == Resting
  }

  function SendEffect(s: Sys, id: JobId, step: Step): Sys
    requires id < |s.cells|
  {
    var j := s.cells[id].job;
    var open := s.pc != Stopped;
    s.(doneQueue := if open && SendsDone(j, step) then s.doneQueue + [id] else s.doneQueue,
       restartedQueue := if open && SendsRestarted(j, step)
                         then s.restartedQueue + [Restarted(id, j.tasks[step.task].pc.restartedAt)]
                         else s.restartedQueue)
  }

  function DoWork(s: Sys, id: JobId, step: Step): Sys
    requires CanStep(s, Work(id, step))
  {
    SetJob(SendEffect(s, id, step), id, Next(s.cells[id].job, step, s.now))
  }

  /** Whoever waits for this operation is told that it has been attempted. */
  function Released(replies: seq<Reply>, op: StoreOp): seq<Reply> {
    if op.Save? && op.ticket.Some? && op.ticket.value < |replies|
    then replies[op.ticket.value := replies[op.ticket.value].(done := true)]
    else replies
  }

  function Attempted(s: Sys, ok: bool, applied: bool): Sys
    requires s.writer.Writing?
  {
    var op := s.writer.op;
    s.(writer := Resting,
       store := if applied then ApplyOp(s.store, op) else s.store,
       written := s.written + [op],
       dirty := if ok then s.dirty - {op.key} else s.dirty + {op.key},
       replies := Released(s.replies, op))
  }

  function CancelCells(cells: seq<Cell>): seq<Cell> {
    seq(|cells|, i requires 0 <= i < |cells| => cells[i].(job := MarkCancelled(cells[i].job)))
  }

  function Advance(s: Sys, st: SysStep): Sys
    requires CanStep(s, st)
  {
    match st
    case Tick(d) => s.(now := s.now + d)
    case Submit(p) => s.(addQueue := s.addQueue + [p])
    case Hook(key, h) => s.(sfuQueue := s.sfuQueue + [SfuEvent(key, FromWebhook(h).value)])
    case Work(id, step) => DoWork(s, id, step)
    case RecoverNext(ok, applied) => RecoverEntry(s, s.pc.rest[0], s.pc.rest[1..], ok, applied)
    case FinishRecovery => s.(pc := Idle)
    case TakeAdd =>
      var rest := s.(addQueue := s.addQueue[1..]);
      if s.addQueue[0].timeout == 0 then rest else AddJob(rest, s.addQueue[0])
    case TakeSfu => Route(s.(sfuQueue := s.sfuQueue[1..]), s.sfuQueue[0])
    case TakeDone => RemoveJob(s.(doneQueue := s.doneQueue[1..]), s.doneQueue[0])
    case TakeRestarted =>
      NoteRestart(s.(restartedQueue := s.restartedQueue[1..]), s.restartedQueue[0].id, s.restartedQueue[0].at)
    case Enqueue =>
      AfterEnqueue(s.(storeQueue := s.storeQueue + [s.pc.op], pc := Idle), s.pc.next)
    case Forward =>
      SetJob(s.(pc := Idle), s.pc.id, Next(s.cells[s.pc.id].job, Deliver(s.pc.signal), s.now))
    case GiveUpRouting => s.(pc := Idle)
    case WriterTake => s.(writer := Writing(s.storeQueue[0]), storeQueue := s.storeQueue[1..])
    case WriterAttempt(ok, applied) => Attempted(s, ok, applied)
    case SendReply(r) => s.(replies := s.replies[r := s.replies[r].(sent := true)])
    case CancelAll => s.(cancelled := true, cells := CancelCells(s.cells))
    case StartClosing => s.(pc := Closing, doneQueue := [])
    case FinishClosing(_) => s.(pc := AwaitingWriter)
    case FinishWriting => s.(pc := Stopped)
  }

  // ── runs ──────────────────────────────────────────────────────────────

  predicate Agree(a: Contents, b: Contents, k: JobKey) {
    (k in a <==> k in b) && (k in a ==> a[k] == b[k])
  }

  /** The entries are those of the store, each once, in any order. */
  predicate Lists(entries: seq<StoredJob>, store: Contents) {
    && (forall i :: 0 <= i < |entries| ==>
          var key := KeyOf(entries[i].params);
          key in store && store[key] == entries[i])
    && (forall i, k :: 0 <= i < k < |entries| ==> KeyOf(entries[i].params) != KeyOf(entries[k].params))
  }

  /** A store whose fields are the keys of the jobs they hold. */
  predicate WellKeyed(store: Contents) {
    forall k :: k in store ==> KeyOf(store[k].params) == k
  }

  /**
   * The state when the loop starts: no job yet, and what the store held has been
   * loaded, or, when loading failed or there is no store, nothing was.
   */
  ghost predicate IsBoot(s: Sys) {
    && !s.cancelled && s.writer == Resting && s.cells == [] && s.jobs == map[]
    && s.addQueue == [] && s.sfuQueue == [] && s.doneQueue == [] && s.restartedQueue == [] && s.storeQueue == []
    && s.replies == [] && s.initial == map[] && s.decided == [] && s.written == []
    && s.dirty == s.store.Keys
    && s.pc.Recovering? && Lists(s.pc.rest, s.store)
    && (s.pc.rest == [] || (s.hasStore && |s.pc.rest| == |s.store|))
  }

  datatype SysRun = SysTrace(states: seq<Sys>, steps: seq<SysStep>)

  ghost predicate IsSysRun(r: SysRun) {
    && |r.states| == |r.steps| + 1
    && IsBoot(r.states[0])
    && forall i :: 0 <= i < |r.steps| ==> IsStepAt(r, i)
  }

  predicate IsStepAt(r: SysRun, i: nat)
    requires i < |r.steps| < |r.states|
  {
    CanStep(r.states[i], r.steps[i]) && r.states[i + 1] == Advance(r.states[i], r.steps[i])
  }

  /** One step of a run. */
  lemma {:induction false} StepOfRun(r: SysRun, i: nat)
    requires IsSysRun(r) && i < |r.steps|
    ensures CanStep(r.states[i], r.steps[i]) && r.states[i + 1] == Advance(r.states[i], r.steps[i])
  {
    assert IsStepAt(r, i);
  }
}
