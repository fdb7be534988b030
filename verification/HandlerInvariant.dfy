/** What every step of the handler, the writer and the jobs together keeps. */
module HandlerInvariant {
  import opened Support
  import opened Fsm
  import opened JobModel
  import opened JobInvariant
  import opened HandlerModel

  // ── the invariant, part by part ───────────────────────────────────────

  predicate CellFits(c: Cell, now: nat) {
    Inv(c.job, now) && c.job.timeout == c.params.timeout
  }

  /** Every job, current or not, keeps its own invariant. */
  predicate CellsFit(s: Sys) {
    forall id :: 0 <= id < |s.cells| ==> CellFits(s.cells[id], s.now)
  }

  /** The handler has taken the job out of the map and is about to stop it. */
  predicate Retiring(s: Sys, id: JobId) {
    s.pc.Enqueuing? && s.pc.next == StopJob(id)
  }

  /** The handler has put the job into the map and is about to start it. */
  predicate Starting(s: Sys, id: JobId) {
    s.pc.Enqueuing? && s.pc.next == StartJob(id)
  }

  predicate MapFits(s: Sys) {
    forall k :: k in s.jobs ==> s.jobs[k] < |s.cells| && KeyOf(s.cells[s.jobs[k]].params) == k
  }

  /** How a job's fate and its place in the map hang together. */
  predicate OwnerFits(s: Sys, id: JobId)
    requires id < |s.cells|
  {
    var j := s.cells[id].job;
    && (!j.cancelled ==> IsCurrent(s, id) || Retiring(s, id))
    && (IsCurrent(s, id) && !s.cancelled ==> !j.cancelled)
    && (s.cancelled ==> j.cancelled)
    && (!IsCurrent(s, id) && !j.replaced ==> j.doneSent >= 1)
    && (j.loop == NotStarted <==> Starting(s, id))
    && (j.replaced ==> j.cancelled)
    && (j.loop == NotStarted ==> j.tasks == [])
  }

  predicate PcFits(s: Sys) {
    match s.pc
    case Enqueuing(_, next) => (
      match next
      case StartJob(id) => IsCurrent(s, id)
      case StopJob(id) =>
        id < |s.cells| && KeyOf(s.cells[id].params) !in s.jobs && s.cells[id].job.doneSent >= 1
      case Continue => true)
    case Routing(id, e) => IsCurrent(s, id) && IsWebhookSignal(e)
    case Idle => true
    case Recovering(_) => true
    case _ => s.cancelled
  }

  predicate QueuesFit(s: Sys) {
    && |s.addQueue| <= ADD_CAPACITY && |s.sfuQueue| <= SFU_CAPACITY
    && |s.doneQueue| <= DONE_CAPACITY && |s.restartedQueue| <= RESTARTED_CAPACITY
    && |s.storeQueue| <= STORE_CAPACITY
    && (forall i :: 0 <= i < |s.doneQueue| ==>
          s.doneQueue[i] < |s.cells| && s.cells[s.doneQueue[i]].job.doneSent >= 1)
    && (forall i :: 0 <= i < |s.restartedQueue| ==> s.restartedQueue[i].id < |s.cells|)
    && (forall i :: 0 <= i < |s.sfuQueue| ==> IsWebhookSignal(s.sfuQueue[i].signal))
  }

  predicate Ownership(s: Sys) {
    && MapFits(s)
    && (forall id :: 0 <= id < |s.cells| ==> OwnerFits(s, id))
    && PcFits(s)
    && QueuesFit(s)
  }

  /** The operations decided on that the writer has not finished: in its hand, queued, or in the loop's. */
  function Outstanding(s: Sys): seq<StoreOp> {
    (if s.writer.Writing? then [s.writer.op] else [])
    + s.storeQueue
    + (if s.pc.Enqueuing? then [s.pc.op] else [])
  }

  /** Nothing decided is lost, repeated or reordered, and the map is what the decisions say. */
  ghost predicate WriteBehind(s: Sys)
    requires MapFits(s)
  {
    && (s.pc.Enqueuing? ==> s.hasStore)
    && (s.pc == Stopped ==> s.storeQueue == [] && s.writer == Resting)
    && s.written + Outstanding(s) == s.decided
    && (s.hasStore ==> View(s) == ApplyOps(s.initial, s.decided))
    && (forall k :: k !in s.dirty ==> Agree(s.store, ApplyOps(s.initial, s.written), k))
  }

  predicate ReplyFits(s: Sys, r: nat)
    requires r < |s.replies|
  {
    var reply := s.replies[r];
    && (reply.sent ==> reply.done)
    && (s.hasStore ==>
          && reply.index < |s.decided|
          && s.decided[reply.index].Save? && s.decided[reply.index].ticket == Some(r)
          && (reply.done <==> reply.index < |s.written|))
  }

  /** Each reply waits for the one operation that carries its ticket. */
  predicate RepliesFit(s: Sys) {
    && (forall r :: 0 <= r < |s.replies| ==> ReplyFits(s, r))
    && (forall n :: 0 <= n < |s.decided| && s.decided[n].Save? && s.decided[n].ticket.Some? ==>
          s.decided[n].ticket.value < |s.replies| && s.replies[s.decided[n].ticket.value].index == n)
  }

  /** During recovery nothing has been decided, and what is left to go through is still in the store only. */
  predicate RecoveryFits(s: Sys) {
    s.pc.Recovering? ==>
      && s.decided == [] && s.written == [] && s.storeQueue == [] && s.writer == Resting
      && Lists(s.pc.rest, s.store)
      && (s.pc.rest == [] || s.hasStore)
      && forall i :: 0 <= i < |s.pc.rest| ==>
           KeyOf(s.pc.rest[i].params) in s.dirty && KeyOf(s.pc.rest[i].params) !in s.jobs
  }

  ghost predicate SysInv(s: Sys) {
    && CellsFit(s) && Ownership(s) && WriteBehind(s) && RepliesFit(s) && NoStoreNoOps(s) && RecoveryFits(s)
  }

  // ── what a job's own step does to its fate ────────────────────────────

  lemma {:induction false} OwnStepFacts(j: Job, st: Step, now: nat)
    requires Enabled(j, st, now) && IsOwnStep(st)
    requires j.loop == NotStarted ==> j.tasks == []
    ensures var k := Next(j, st, now);
            && k.cancelled == j.cancelled && k.replaced == j.replaced && k.timeout == j.timeout
            && k.doneSent == j.doneSent + (if SendsDone(j, st) then 1 else 0)
            && k.loop != NotStarted && j.loop != NotStarted
  {
    if st == Dispatch { DispatchFacts(j, now); }
  }

  lemma {:induction false} DispatchFacts(j: Job, now: nat)
    requires Enabled(j, Dispatch, now)
    ensures var k := Next(j, Dispatch, now);
            && k.cancelled == j.cancelled && k.replaced == j.replaced && k.timeout == j.timeout
            && k.doneSent == j.doneSent && k.loop == j.loop
  {
    DispatchSameFrame(j, now);
  }

  // ── cells ─────────────────────────────────────────────────────────────

  lemma {:induction false} SetJobCells(s: Sys, id: JobId, j: Job)
    requires CellsFit(s) && id < |s.cells|
    requires Inv(j, s.now) && j.timeout == s.cells[id].params.timeout
    ensures CellsFit(SetJob(s, id, j))
  {
    var t := SetJob(s, id, j);
    forall i | 0 <= i < |t.cells| ensures CellFits(t.cells[i], t.now) {
      assert CellFits(s.cells[i], s.now);
    }
  }

  /** Any enabled step of one job keeps all the jobs in order. */
  lemma {:induction false} JobStepCells(s: Sys, id: JobId, st: Step)
    requires CellsFit(s) && id < |s.cells| && Enabled(s.cells[id].job, st, s.now)
    ensures CellsFit(SetJob(s, id, Next(s.cells[id].job, st, s.now)))
  {
    var j := s.cells[id].job;
    assert CellFits(s.cells[id], s.now);
    NextKeeps(j, st, s.now);
    TimeoutIsConstant(j, st, s.now);
    SetJobCells(s, id, Next(j, st, s.now));
  }

  lemma {:induction false} TimeoutIsConstant(j: Job, st: Step, now: nat)
    requires Enabled(j, st, now)
    ensures Next(j, st, now).timeout == j.timeout
  {
    if st == Dispatch { DispatchFacts(j, now); }
  }

  lemma {:induction false} AfterEnqueueCells(s: Sys, t: Then)
    requires CellsFit(s)
    ensures CellsFit(AfterEnqueue(s, t))
  {
    match t
    case StartJob(id) => if id < |s.cells| && s.cells[id].job.loop == NotStarted { JobStepCells(s, id, Begin); }
    case StopJob(id) => if id < |s.cells| { JobStepCells(s, id, Cancel); }
    case Continue =>
  }

  lemma {:induction false} DecideCells(s: Sys, op: StoreOp, t: Then)
    requires CellsFit(s)
    ensures CellsFit(Decide(s, op, t))
  {
    if !s.hasStore { AfterEnqueueCells(s, t); }
  }

  lemma {:induction false} AddedCells(s: Sys, p: Params)
    requires CellsFit(s) && p.timeout > 0
    ensures CellsFit(Added(s, p))
  {
    var d := Displaced(s, KeyOf(p));
    assert CellsFit(d) by { DisplacedCells(s, KeyOf(p)); }
    NewCell(s, p);
    var t := Added(s, p);
    forall i | 0 <= i < |t.cells| ensures CellFits(t.cells[i], t.now) {
      if i < |d.cells| { assert t.cells[i] == d.cells[i]; }
    }
  }

  lemma {:induction false} DisplacedCells(s: Sys, key: JobKey)
    requires CellsFit(s)
    ensures CellsFit(Displaced(s, key)) && |Displaced(s, key).cells| == |s.cells|
  {
    if key in s.jobs && s.jobs[key] < |s.cells| { JobStepCells(s, s.jobs[key], Replace); }
  }

  lemma {:induction false} NewCell(s: Sys, p: Params)
    requires p.timeout > 0
    ensures CellFits(Cell(p, NewJob(p.timeout, s.sanity).(cancelled := s.cancelled), s.now), s.now)
  {
    var fresh' := NewJob(p.timeout, s.sanity);
    InitEstablishes(p.timeout, s.sanity, s.now);
    NextKeeps(fresh', Cancel, s.now);
  }

  lemma {:induction false} CancelAllCells(s: Sys)
    requires CellsFit(s)
    ensures CellsFit(Advance(s, CancelAll))
  {
    var t := Advance(s, CancelAll);
    forall i | 0 <= i < |t.cells| ensures CellFits(t.cells[i], t.now) {
      assert CellFits(s.cells[i], s.now);
      NextKeeps(s.cells[i].job, Cancel, s.now);
    }
  }

  lemma {:induction false} TickCells(s: Sys, d: nat)
    requires CellsFit(s)
    ensures CellsFit(Advance(s, Tick(d)))
  {
    var t := Advance(s, Tick(d));
    assert t == s.(now := s.now + d);
    forall i | 0 <= i < |t.cells| ensures CellFits(t.cells[i], t.now) {
      assert CellFits(s.cells[i], s.now);
      TickCell(s.cells[i], s.now, t.now);
    }
  }

  lemma {:induction false} TickCell(c: Cell, now: nat, later: nat)
    requires CellFits(c, now) && now <= later
    ensures CellFits(c, later)
  {
    InvLater(c.job, now, later);
  }

  lemma {:induction false} NoteRestartCells(s: Sys, id: JobId, at: nat)
    requires CellsFit(s) && id < |s.cells|
    ensures CellsFit(NoteRestart(s, id, at))
  {
    if IsCurrent(s, id) {
      var t := s.(cells := s.cells[id := s.cells[id].(restartedAt := at)]);
      forall i | 0 <= i < |t.cells| ensures CellFits(t.cells[i], t.now) {
        assert CellFits(s.cells[i], s.now);
      }
      DecideCells(t, Save(KeyOf(s.cells[id].params), StoredJob(s.cells[id].params, at), None), Continue);
    }
  }

  lemma {:induction false} ReviveCells(s: Sys, e: StoredJob, rest: seq<StoredJob>)
    requires CellsFit(s) && e.params.timeout > 0
    ensures CellsFit(Revive(s, e, rest))
  {
    var t := Revive(s, e, rest);
    var fresh' := NewJob(e.params.timeout, s.sanity);
    InitEstablishes(e.params.timeout, s.sanity, s.now);
    NextKeeps(fresh', Cancel, s.now);
    BeginKeeps(fresh'.(cancelled := s.cancelled), s.now);
    assert CellFits(t.cells[|s.cells|], s.now);
    forall i | 0 <= i < |s.cells| ensures CellFits(t.cells[i], t.now) { assert CellFits(s.cells[i], s.now); }
  }

  /** Every step keeps every job's own invariant. */
  lemma {:induction false} StepCells(s: Sys, st: SysStep)
    requires CellsFit(s) && CanStep(s, st)
    ensures CellsFit(Advance(s, st))
  {
    match st
    case Tick(d) => TickCells(s, d);
    case Work(id, step) => WorkCells(s, id, step);
    case RecoverNext(ok, applied) => RecoverCells(s, ok, applied);
    case TakeAdd => TakeAddCells(s);
    case TakeDone => TakeDoneCells(s);
    case TakeRestarted =>
      NoteRestartCells(s.(restartedQueue := s.restartedQueue[1..]), s.restartedQueue[0].id, s.restartedQueue[0].at);
    case Enqueue => AfterEnqueueCells(s.(storeQueue := s.storeQueue + [s.pc.op], pc := Idle), s.pc.next);
    case Forward => JobStepCells(s.(pc := Idle), s.pc.id, Deliver(s.pc.signal));
    case CancelAll => CancelAllCells(s);
    case _ => CellsUntouched(s, st);
  }

  lemma {:induction false} WorkCells(s: Sys, id: JobId, step: Step)
    requires CellsFit(s) && CanStep(s, Work(id, step))
    ensures CellsFit(Advance(s, Work(id, step)))
  {
    var t := SendEffect(s, id, step);
    assert t.cells == s.cells && t.now == s.now;
    JobStepCells(t, id, step);
  }

  lemma {:induction false} RecoverCells(s: Sys, ok: bool, applied: bool)
    requires CellsFit(s) && CanStep(s, RecoverNext(ok, applied))
    ensures CellsFit(Advance(s, RecoverNext(ok, applied)))
  {
    if Survives(s.pc.rest[0], s.now) { ReviveCells(s, s.pc.rest[0], s.pc.rest[1..]); }
  }

  lemma {:induction false} TakeAddCells(s: Sys)
    requires CellsFit(s) && CanStep(s, TakeAdd)
    ensures CellsFit(Advance(s, TakeAdd))
  {
    var rest, p := s.(addQueue := s.addQueue[1..]), s.addQueue[0];
    if p.timeout > 0 {
      AddedCells(rest, p);
      DecideCells(Added(rest, p), Save(KeyOf(p), StoredJob(p, s.now), Some(|s.replies|)), StartJob(|s.cells|));
    }
  }

  lemma {:induction false} TakeDoneCells(s: Sys)
    requires CellsFit(s) && CanStep(s, TakeDone)
    ensures CellsFit(Advance(s, TakeDone))
  {
    var rest, id := s.(doneQueue := s.doneQueue[1..]), s.doneQueue[0];
    if IsCurrent(rest, id) {
      var key := KeyOf(s.cells[id].params);
      DecideCells(rest.(jobs := s.jobs - {key}), Delete(key), StopJob(id));
    }
  }

  /** The other steps change neither a job nor the clock. */
  lemma {:induction false} CellsUntouched(s: Sys, st: SysStep)
    requires CanStep(s, st) && !st.Tick? && !st.Work? && !st.RecoverNext? && !st.TakeAdd? && !st.TakeDone?
    requires !st.TakeRestarted? && !st.Enqueue? && !st.Forward? && !st.CancelAll?
    ensures Advance(s, st).cells == s.cells && Advance(s, st).now == s.now
  {
    if st.TakeSfu? {
      assert Advance(s, st) == Route(s.(sfuQueue := s.sfuQueue[1..]), s.sfuQueue[0]);
    } else if st.WriterAttempt? {
      assert Advance(s, st) == Attempted(s, st.ok, st.applied);
    }
  }

  // ── ownership ─────────────────────────────────────────────────────────

  /** The job's fate is unchanged but for more done notifications. */
  predicate SameFate(j: Job, k: Job) {
    && k.cancelled == j.cancelled && k.replaced == j.replaced && k.doneSent >= j.doneSent
    && (k.loop == NotStarted <==> j.loop == NotStarted)
    && (k.loop == NotStarted ==> k.tasks == [])
  }

  lemma {:induction false} SetJobOwner(s: Sys, id: JobId, k: Job)
    requires Ownership(s) && id < |s.cells| && SameFate(s.cells[id].job, k)
    ensures Ownership(SetJob(s, id, k))
  {
    var t := SetJob(s, id, k);
    forall i | 0 <= i < |t.cells| ensures OwnerFits(t, i) {
      assert OwnerFits(s, i);
    }
  }

  lemma {:induction false} WorkOwner(s: Sys, id: JobId, step: Step)
    requires Ownership(s) && CanStep(s, Work(id, step))
    ensures Ownership(Advance(s, Work(id, step)))
  {
    var j := s.cells[id].job;
    assert OwnerFits(s, id);
    OwnStepFacts(j, step, s.now);
    var u := SetJob(s, id, Next(j, step, s.now));
    SetJobOwner(s, id, Next(j, step, s.now));
    var t := Advance(s, Work(id, step));
    assert t == u.(doneQueue := t.doneQueue, restartedQueue := t.restartedQueue);
    WorkQueues(s, id, step, u, t);
    QuietOwner(u, t);
  }

  lemma {:induction false} WorkQueues(s: Sys, id: JobId, step: Step, u: Sys, t: Sys)
    requires CanStep(s, Work(id, step)) && QueuesFit(s) && QueuesFit(u)
    requires u == SetJob(s, id, Next(s.cells[id].job, step, s.now)) && t == Advance(s, Work(id, step))
    requires SendsDone(s.cells[id].job, step) ==> u.cells[id].job.doneSent >= 1
    ensures QueuesFit(t)
  {
    assert t.cells == u.cells;
  }

  /** The state in which the handler waits to queue `op`. */
  function Holding(s: Sys, op: StoreOp, next: Then): Sys {
    s.(pc := Enqueuing(op, next))
  }

  lemma {:induction false} StartOwner(h: Sys, id: JobId)
    requires Ownership(h) && Starting(h, id)
    ensures h.cells[id].job.loop == NotStarted
    ensures Ownership(SetJob(h.(pc := Idle), id, Launch(h.cells[id].job, h.now)))
  {
    assert OwnerFits(h, id);
    var t := SetJob(h.(pc := Idle), id, Launch(h.cells[id].job, h.now));
    forall i | 0 <= i < |t.cells| ensures OwnerFits(t, i) {
      assert OwnerFits(h, i);
      assert IsCurrent(t, i) <==> IsCurrent(h, i);
    }
  }

  lemma {:induction false} StopOwner(h: Sys, id: JobId)
    requires Ownership(h) && Retiring(h, id)
    ensures Ownership(SetJob(h.(pc := Idle), id, MarkCancelled(h.cells[id].job)))
  {
    assert OwnerFits(h, id);
    var t := SetJob(h.(pc := Idle), id, MarkCancelled(h.cells[id].job));
    forall i | 0 <= i < |t.cells| ensures OwnerFits(t, i) {
      assert OwnerFits(h, i);
      assert IsCurrent(t, i) <==> IsCurrent(h, i);
    }
  }

  /** Once the operation is queued (or skipped), what was to come next is done. */
  lemma {:induction false} AfterEnqueueOwner(s: Sys, op: StoreOp, next: Then)
    requires Ownership(Holding(s, op, next))
    ensures Ownership(AfterEnqueue(s.(pc := Idle), next))
  {
    var h := Holding(s, op, next);
    assert s.(pc := Idle) == h.(pc := Idle);
    match next
    case StartJob(id) => StartOwner(h, id);
    case StopJob(id) => StopOwner(h, id);
    case Continue => ContinueOwner(h);
  }

  lemma {:induction false} ContinueOwner(h: Sys)
    requires Ownership(h) && h.pc.Enqueuing? && h.pc.next == Continue
    ensures Ownership(h.(pc := Idle))
  {
    forall i | 0 <= i < |h.cells| ensures OwnerFits(h.(pc := Idle), i) { assert OwnerFits(h, i); }
  }

  lemma {:induction false} DecideOwner(s: Sys, op: StoreOp, next: Then)
    requires s.pc == Idle && Ownership(Holding(s, op, next))
    ensures Ownership(Decide(s, op, next))
  {
    if s.hasStore {
      var h := Holding(s, op, next);
      var t := Decide(s, op, next);
      forall i | 0 <= i < |t.cells| ensures OwnerFits(t, i) { assert OwnerFits(h, i); }
    } else {
      AfterEnqueueOwner(s, op, next);
      assert s.(pc := Idle) == s;
    }
  }

  lemma {:induction false} DisplacedIs(s: Sys, key: JobKey, i: JobId)
    requires MapFits(s) && i < |s.cells|
    ensures |Displaced(s, key).cells| == |s.cells|
    ensures Displaced(s, key).cells[i] ==
            if IsCurrent(s, i) && KeyOf(s.cells[i].params) == key
            then s.cells[i].(job := MarkReplaced(s.cells[i].job)) else s.cells[i]
  {
    if key in s.jobs {
      var id := s.jobs[key];
      assert KeyOf(s.cells[id].params) == key;
      assert IsCurrent(s, i) && KeyOf(s.cells[i].params) == key <==> i == id;
      var j := MarkReplaced(s.cells[id].job);
      assert Displaced(s, key).cells == s.cells[id := s.cells[id].(job := j)];
    } else {
      assert Displaced(s, key) == s;
    }
  }

  /** What adding a job does to the others: only the one it replaces is marked. */
  lemma {:induction false} AddedIs(s: Sys, p: Params, i: JobId)
    requires MapFits(s) && i < |s.cells|
    ensures var t := Added(s, p);
            && |t.cells| == |s.cells| + 1
            && t.cells[i] == Displaced(s, KeyOf(p)).cells[i]
            && t.cells[i].params == s.cells[i].params
            && (IsCurrent(t, i) <==> IsCurrent(s, i) && KeyOf(s.cells[i].params) != KeyOf(p))
  {
    DisplacedIs(s, KeyOf(p), i);
  }

  lemma {:induction false} AddedMap(s: Sys, p: Params)
    requires MapFits(s)
    ensures MapFits(Added(s, p)) && IsCurrent(Added(s, p), |s.cells|)
  {
    var t := Added(s, p);
    forall k | k in t.jobs ensures t.jobs[k] < |t.cells| && KeyOf(t.cells[t.jobs[k]].params) == k {
      if k != KeyOf(p) { AddedIs(s, p, s.jobs[k]); }
    }
  }

  lemma {:induction false} AddedOwner(s: Sys, p: Params, op: StoreOp)
    requires Ownership(s) && s.pc == Idle
    ensures Ownership(Holding(Added(s, p), op, StartJob(|s.cells|)))
  {
    var t := Holding(Added(s, p), op, StartJob(|s.cells|));
    AddedMap(s, p);
    forall i | 0 <= i < |t.cells| ensures OwnerFits(t, i) {
      assert IsCurrent(t, i) <==> IsCurrent(Added(s, p), i);
      if i < |s.cells| {
        assert OwnerFits(s, i);
        AddedIs(s, p, i);
        DisplacedIs(s, KeyOf(p), i);
      }
    }
    AddedQueues(s, p, t);
  }

  lemma {:induction false} AddedQueues(s: Sys, p: Params, t: Sys)
    requires MapFits(s) && QueuesFit(s)
    requires t == Added(s, p).(pc := t.pc)
    ensures QueuesFit(t)
  {
    AddedQueuesSame(s, p);
    forall i | 0 <= i < |s.doneQueue|
      ensures t.doneQueue[i] < |t.cells| && t.cells[t.doneQueue[i]].job.doneSent >= 1
    {
      AddedKeepsDone(s, p, s.doneQueue[i]);
    }
  }

  lemma {:induction false} AddedQueuesSame(s: Sys, p: Params)
    ensures var d, t := Displaced(s, KeyOf(p)), Added(s, p);
            && t == d.(cells := t.cells, jobs := t.jobs, replies := t.replies) && d == s.(cells := d.cells)
            && |t.cells| == |s.cells| + 1 && t.cells[|s.cells|].job.doneSent == 0
  {
    var d := Displaced(s, KeyOf(p));
    assert d == s.(cells := d.cells) && |d.cells| == |s.cells|;
  }

  lemma {:induction false} AddedKeepsDone(s: Sys, p: Params, id: JobId)
    requires MapFits(s) && id < |s.cells|
    ensures id < |Added(s, p).cells| && Added(s, p).cells[id].job.doneSent == s.cells[id].job.doneSent
  {
    AddedIs(s, p, id);
    DisplacedIs(s, KeyOf(p), id);
  }

  lemma {:induction false} TakeAddOwner(s: Sys)
    requires Ownership(s) && CanStep(s, TakeAdd)
    ensures Ownership(Advance(s, TakeAdd))
  {
    var rest := s.(addQueue := s.addQueue[1..]);
    var p := s.addQueue[0];
    assert Ownership(rest) by {
      forall i | 0 <= i < |s.cells| ensures OwnerFits(rest, i) { assert OwnerFits(s, i); }
    }
    if p.timeout > 0 {
      var op := Save(KeyOf(p), StoredJob(p, s.now), Some(|s.replies|));
      AddedOwner(rest, p, op);
      DecideOwner(Added(rest, p), op, StartJob(|s.cells|));
    }
  }

  lemma {:induction false} TakeDoneOwner(s: Sys)
    requires Ownership(s) && CanStep(s, TakeDone)
    ensures Ownership(Advance(s, TakeDone))
  {
    var rest := s.(doneQueue := s.doneQueue[1..]);
    assert s.cells[s.doneQueue[0]].job.doneSent >= 1;
    assert Ownership(rest) by { QuietOwner(s, rest); }
    RemoveOwner(rest, s.doneQueue[0]);
  }

  lemma {:induction false} RemoveOwner(s: Sys, id: JobId)
    requires Ownership(s) && s.pc == Idle && id < |s.cells| && s.cells[id].job.doneSent >= 1
    ensures Ownership(RemoveJob(s, id))
  {
    if IsCurrent(s, id) {
      var key := KeyOf(s.cells[id].params);
      var u := s.(jobs := s.jobs - {key});
      RemovedOwner(s, id, Holding(u, Delete(key), StopJob(id)));
      DecideOwner(u, Delete(key), StopJob(id));
    }
  }

  /** Out of the map, the job is retiring. */
  lemma {:induction false} RemovedOwner(s: Sys, id: JobId, h: Sys)
    requires Ownership(s) && s.pc == Idle && id < |s.cells| && s.cells[id].job.doneSent >= 1 && IsCurrent(s, id)
    requires h == s.(jobs := s.jobs - {KeyOf(s.cells[id].params)}, pc := h.pc)
    requires h.pc.Enqueuing? && h.pc.next == StopJob(id)
    ensures Ownership(h)
  {
    forall i | 0 <= i < |h.cells| ensures OwnerFits(h, i) {
      assert OwnerFits(s, i);
      assert IsCurrent(h, i) <==> IsCurrent(s, i) && i != id;
    }
  }

  lemma {:induction false} TakeRestartedOwner(s: Sys)
    requires Ownership(s) && CanStep(s, TakeRestarted)
    ensures Ownership(Advance(s, TakeRestarted))
  {
    var rest := s.(restartedQueue := s.restartedQueue[1..]);
    assert Ownership(rest) by { QuietOwner(s, rest); }
    NoteRestartOwner(rest, s.restartedQueue[0].id, s.restartedQueue[0].at);
  }

  /** Noting the time of a restart in a cell changes nothing about ownership. */
  lemma {:induction false} StampedOwner(s: Sys, id: JobId, at: nat, h: Sys)
    requires Ownership(s) && id < |s.cells| && s.pc == Idle
    requires h == s.(cells := s.cells[id := s.cells[id].(restartedAt := at)], pc := h.pc)
    requires h.pc.Enqueuing? && h.pc.next == Continue
    ensures Ownership(h)
  {
    forall i | 0 <= i < |h.cells| ensures OwnerFits(h, i) {
      assert OwnerFits(s, i);
      assert IsCurrent(h, i) <==> IsCurrent(s, i);
    }
  }

  lemma {:induction false} NoteRestartOwner(s: Sys, id: JobId, at: nat)
    requires Ownership(s) && id < |s.cells| && s.pc == Idle
    ensures Ownership(NoteRestart(s, id, at))
  {
    if IsCurrent(s, id) {
      var u := s.(cells := s.cells[id := s.cells[id].(restartedAt := at)]);
      var op := Save(KeyOf(s.cells[id].params), StoredJob(s.cells[id].params, at), None);
      StampedOwner(s, id, at, Holding(u, op, Continue));
      DecideOwner(u, op, Continue);
    }
  }

  lemma {:induction false} CancelAllOwner(s: Sys)
    requires Ownership(s)
    ensures Ownership(Advance(s, CancelAll))
  {
    var t := Advance(s, CancelAll);
    forall i | 0 <= i < |t.cells| ensures OwnerFits(t, i) {
      assert OwnerFits(s, i);
      assert t.cells[i].params == s.cells[i].params;
    }
  }

  lemma {:induction false} EnqueueOwner(s: Sys)
    requires Ownership(s) && CanStep(s, Enqueue)
    ensures Ownership(Advance(s, Enqueue))
  {
    var u := s.(storeQueue := s.storeQueue + [s.pc.op]);
    forall i | 0 <= i < |u.cells| ensures OwnerFits(u, i) { assert OwnerFits(s, i); }
    assert u == Holding(u, s.pc.op, s.pc.next);
    AfterEnqueueOwner(u, s.pc.op, s.pc.next);
  }

  lemma {:induction false} ForwardOwner(s: Sys)
    requires Ownership(s) && CanStep(s, Forward)
    ensures Ownership(Advance(s, Forward))
  {
    var u := s.(pc := Idle);
    forall i | 0 <= i < |u.cells| ensures OwnerFits(u, i) { assert OwnerFits(s, i); }
    assert OwnerFits(s, s.pc.id);
    SetJobOwner(u, s.pc.id, Next(s.cells[s.pc.id].job, Deliver(s.pc.signal), s.now));
  }

  lemma {:induction false} HookOwner(s: Sys, key: JobKey, h: Webhook)
    requires Ownership(s) && CanStep(s, Hook(key, h))
    ensures Ownership(Advance(s, Hook(key, h)))
  {
    var t := Advance(s, Hook(key, h));
    forall i | 0 <= i < |t.cells| ensures OwnerFits(t, i) { assert OwnerFits(s, i); }
  }

  lemma {:induction false} ReviveOwner(s: Sys, e: StoredJob, rest: seq<StoredJob>)
    requires Ownership(s) && s.pc.Recovering? && KeyOf(e.params) !in s.jobs
    ensures Ownership(Revive(s, e, rest))
  {
    var t := Revive(s, e, rest);
    forall i | 0 <= i < |t.cells| ensures OwnerFits(t, i) {
      if i < |s.cells| {
        assert OwnerFits(s, i);
        assert IsCurrent(t, i) <==> IsCurrent(s, i);
      }
    }
    forall k | k in t.jobs ensures t.jobs[k] < |t.cells| && KeyOf(t.cells[t.jobs[k]].params) == k {
      if k != KeyOf(e.params) { assert k in s.jobs; }
    }
  }

  lemma {:induction false} RecoverOwner(s: Sys, ok: bool, applied: bool)
    requires Ownership(s) && RecoveryFits(s) && CanStep(s, RecoverNext(ok, applied))
    ensures Ownership(Advance(s, RecoverNext(ok, applied)))
  {
    var e, rest := s.pc.rest[0], s.pc.rest[1..];
    if Survives(e, s.now) {
      ReviveOwner(s, e, rest);
    } else {
      QuietOwner(s, Discard(s, e, rest, ok, applied));
    }
  }

  /** A step that touches neither map nor jobs, and leaves the loop neither starting nor retiring a job. */
  lemma {:induction false} QuietOwner(s: Sys, t: Sys)
    requires Ownership(s) && t.cells == s.cells && t.jobs == s.jobs && t.cancelled == s.cancelled
    requires t.pc == s.pc || (!s.pc.Enqueuing? && !t.pc.Enqueuing? && PcFits(t))
    requires QueuesFit(t)
    ensures Ownership(t)
  {
    forall i | 0 <= i < |t.cells| ensures OwnerFits(t, i) { assert OwnerFits(s, i); }
  }

  /** Every step keeps jobs, map and queues in step with each other. */
  lemma {:induction false} StepOwner(s: Sys, st: SysStep)
    requires Ownership(s) && RecoveryFits(s) && CanStep(s, st)
    ensures Ownership(Advance(s, st))
  {
    match st
    case Hook(key, h) => HookOwner(s, key, h);
    case Work(id, step) => WorkOwner(s, id, step);
    case RecoverNext(ok, applied) => RecoverOwner(s, ok, applied);
    case TakeAdd => TakeAddOwner(s);
    case TakeDone => TakeDoneOwner(s);
    case TakeRestarted => TakeRestartedOwner(s);
    case Enqueue => EnqueueOwner(s);
    case Forward => ForwardOwner(s);
    case CancelAll => CancelAllOwner(s);
    case _ => QuietStepOwner(s, st);
  }

  lemma {:induction false} QuietStepOwner(s: Sys, st: SysStep)
    requires Ownership(s) && CanStep(s, st)
    requires !st.Hook? && !st.Work? && !st.TakeAdd? && !st.TakeDone? && !st.TakeRestarted? && !st.Enqueue?
    requires !st.Forward? && !st.CancelAll? && !st.RecoverNext?
    ensures Ownership(Advance(s, st))
  {
    var t := Advance(s, st);
    QuietStepFrame(s, st);
    QuietOwner(s, t);
  }

  lemma {:induction false} QuietStepFrame(s: Sys, st: SysStep)
    requires MapFits(s) && QueuesFit(s) && PcFits(s) && CanStep(s, st)
    requires !st.Hook? && !st.Work? && !st.TakeAdd? && !st.TakeDone? && !st.TakeRestarted? && !st.Enqueue?
    requires !st.Forward? && !st.CancelAll? && !st.RecoverNext?
    ensures IsQuiet(s, Advance(s, st))
  {
    if st == TakeSfu {
      TakeSfuFrame(s);
    } else if st.StartClosing? || st.FinishClosing? || st.FinishWriting? || st.FinishRecovery? || st.GiveUpRouting? {
      QuietPcFrame(s, st);
    } else {
      QuietSideFrame(s, st);
    }
  }

  /** Map and jobs are the same, and the loop neither was nor is about to touch them. */
  predicate IsQuiet(s: Sys, t: Sys) {
    && t.cells == s.cells && t.jobs == s.jobs && t.cancelled == s.cancelled
    && (t.pc == s.pc || (!s.pc.Enqueuing? && !t.pc.Enqueuing? && PcFits(t)))
    && QueuesFit(t)
  }

  lemma {:induction false} QuietPcFrame(s: Sys, st: SysStep)
    requires QueuesFit(s) && PcFits(s) && CanStep(s, st)
    requires st.StartClosing? || st.FinishClosing? || st.FinishWriting? || st.FinishRecovery? || st.GiveUpRouting?
    ensures IsQuiet(s, Advance(s, st))
  {
    var t := Advance(s, st);
    assert t == s.(pc := t.pc, doneQueue := if st.StartClosing? then [] else s.doneQueue);
  }

  lemma {:induction false} QuietSideFrame(s: Sys, st: SysStep)
    requires QueuesFit(s) && CanStep(s, st)
    requires st.Tick? || st.Submit? || st.SendReply? || st.WriterTake? || st.WriterAttempt?
    ensures IsQuiet(s, Advance(s, st))
  {
  }

  lemma {:induction false} TakeSfuFrame(s: Sys)
    requires MapFits(s) && QueuesFit(s) && CanStep(s, TakeSfu)
    ensures IsQuiet(s, Advance(s, TakeSfu))
  {
    var rest, e := s.(sfuQueue := s.sfuQueue[1..]), s.sfuQueue[0];
    assert IsWebhookSignal(e.signal);
    assert QueuesFit(rest);
    RouteFrame(rest, e);
  }

  lemma {:induction false} RouteFrame(s: Sys, e: SfuEvent)
    requires MapFits(s) && QueuesFit(s) && s.pc == Idle && IsWebhookSignal(e.signal)
    ensures IsQuiet(s, Route(s, e))
  {
    if e.key in s.jobs { assert IsCurrent(s, s.jobs[e.key]); }
  }

  // ── the write-behind store ────────────────────────────────────────────

  lemma {:induction false} ApplyOpsAppend(c: Contents, ops: seq<StoreOp>, op: StoreOp)
    ensures ApplyOps(c, ops + [op]) == ApplyOp(ApplyOps(c, ops), op)
  {
    assert (ops + [op])[..|ops|] == ops;
  }

  /** The view only depends on the map and on what the current jobs' cells record. */
  lemma {:induction false} SameView(s: Sys, t: Sys)
    requires MapFits(s) && t.jobs == s.jobs && |t.cells| >= |s.cells|
    requires forall i :: 0 <= i < |s.cells| ==>
               t.cells[i].params == s.cells[i].params && t.cells[i].restartedAt == s.cells[i].restartedAt
    ensures MapFits(t) && View(t) == View(s)
  {
  }

  lemma {:induction false} AfterEnqueueView(s: Sys, next: Then)
    requires MapFits(s)
    ensures var t := AfterEnqueue(s, next);
            && MapFits(t) && View(t) == View(s)
            && t == s.(cells := t.cells)
  {
    SameView(s, AfterEnqueue(s, next));
  }

  /** A step that leaves map, view and operations alone. */
  lemma {:induction false} QuietWrites(s: Sys, t: Sys)
    requires MapFits(s) && WriteBehind(s)
    requires MapFits(t) && View(t) == View(s)
    requires Outstanding(t) == Outstanding(s) && (t.pc.Enqueuing? ==> s.pc.Enqueuing?)
    requires t.pc == Stopped ==> t.storeQueue == [] && t.writer == Resting
    requires t.hasStore == s.hasStore && t.written == s.written && t.decided == s.decided
    requires t.initial == s.initial && t.store == s.store && t.dirty == s.dirty
    ensures WriteBehind(t)
  {
  }

  /** Deciding on the operation that turns the old view into the new one. */
  lemma {:induction false} DecideWrites(s: Sys, u: Sys, op: StoreOp, next: Then)
    requires MapFits(s) && WriteBehind(s) && s.pc == Idle && u.pc == Idle
    requires MapFits(u) && View(u) == ApplyOp(View(s), op)
    requires u.storeQueue == s.storeQueue && u.writer == s.writer
    requires u.hasStore == s.hasStore && u.written == s.written && u.decided == s.decided
    requires u.initial == s.initial && u.store == s.store && u.dirty == s.dirty
    ensures MapFits(Decide(u, op, next)) && WriteBehind(Decide(u, op, next))
  {
    var t := Decide(u, op, next);
    if u.hasStore {
      ApplyOpsAppend(s.initial, s.decided, op);
      assert Outstanding(t) == Outstanding(s) + [op];
      assert s.written + (Outstanding(s) + [op]) == s.written + Outstanding(s) + [op];
      assert View(t) == View(u);
    } else {
      AfterEnqueueView(u, next);
      assert Outstanding(t) == Outstanding(s);
    }
  }

  lemma {:induction false} AddWrites(s: Sys, p: Params)
    requires MapFits(s) && WriteBehind(s) && s.pc == Idle
    ensures MapFits(AddJob(s, p)) && WriteBehind(AddJob(s, p))
  {
    var u := Added(s, p);
    var op := Save(KeyOf(p), StoredJob(p, s.now), Some(|s.replies|));
    AddedMap(s, p);
    AddedView(s, p);
    DecideWrites(s, u, op, StartJob(|s.cells|));
  }

  lemma {:induction false} AddedView(s: Sys, p: Params)
    requires MapFits(s) && MapFits(Added(s, p))
    ensures View(Added(s, p)) == View(s)[KeyOf(p) := StoredJob(p, s.now)]
  {
    var v, w := View(Added(s, p)), View(s)[KeyOf(p) := StoredJob(p, s.now)];
    assert v.Keys == w.Keys;
    forall k | k in s.jobs && k != KeyOf(p) ensures v[k] == w[k] { AddedViewAt(s, p, k); }
  }

  lemma {:induction false} AddedViewAt(s: Sys, p: Params, k: JobKey)
    requires MapFits(s) && MapFits(Added(s, p)) && k in s.jobs && k != KeyOf(p)
    ensures k in View(Added(s, p)) && View(Added(s, p))[k] == View(s)[k]
  {
    DisplacedIs(s, KeyOf(p), s.jobs[k]);
  }

  lemma {:induction false} RemoveWrites(s: Sys, id: JobId)
    requires MapFits(s) && WriteBehind(s) && s.pc == Idle && id < |s.cells|
    ensures MapFits(RemoveJob(s, id)) && WriteBehind(RemoveJob(s, id))
  {
    if IsCurrent(s, id) {
      var key := KeyOf(s.cells[id].params);
      var u := s.(jobs := s.jobs - {key});
      assert View(u) == View(s) - {key};
      DecideWrites(s, u, Delete(key), StopJob(id));
    }
  }

  lemma {:induction false} NoteRestartWrites(s: Sys, id: JobId, at: nat)
    requires MapFits(s) && WriteBehind(s) && s.pc == Idle && id < |s.cells|
    ensures MapFits(NoteRestart(s, id, at)) && WriteBehind(NoteRestart(s, id, at))
  {
    if IsCurrent(s, id) {
      var key := KeyOf(s.cells[id].params);
      var u := s.(cells := s.cells[id := s.cells[id].(restartedAt := at)]);
      forall k | k in s.jobs && k != key ensures u.cells[u.jobs[k]] == s.cells[s.jobs[k]] {
        assert s.jobs[k] != id;
      }
      assert View(u) == View(s)[key := StoredJob(s.cells[id].params, at)];
      DecideWrites(s, u, Save(key, StoredJob(s.cells[id].params, at), None), Continue);
    }
  }

  /** Writing an operation brings the store one operation further, except on keys it failed for. */
  lemma {:induction false} AttemptWrites(s: Sys, ok: bool, applied: bool)
    requires MapFits(s) && WriteBehind(s) && CanStep(s, WriterAttempt(ok, applied))
    ensures WriteBehind(Attempted(s, ok, applied))
  {
    var op := s.writer.op;
    var t := Attempted(s, ok, applied);
    ApplyOpsAppend(s.initial, s.written, op);
    assert Outstanding(s) == [op] + Outstanding(t);
    assert s.written + ([op] + Outstanding(t)) == (s.written + [op]) + Outstanding(t);
    forall k | k !in t.dirty ensures Agree(t.store, ApplyOps(s.initial, t.written), k) {
      if k != op.key { assert Agree(s.store, ApplyOps(s.initial, s.written), k); }
    }
  }

  lemma {:induction false} EnqueueWrites(s: Sys)
    requires MapFits(s) && WriteBehind(s) && CanStep(s, Enqueue)
    ensures MapFits(Advance(s, Enqueue)) && WriteBehind(Advance(s, Enqueue))
  {
    var u := s.(storeQueue := s.storeQueue + [s.pc.op], pc := Idle);
    AfterEnqueueView(u, s.pc.next);
    assert Outstanding(u) == Outstanding(s);
    QuietWrites(s, u);
    QuietWrites(u, Advance(s, Enqueue));
  }

  lemma {:induction false} WriterTakeWrites(s: Sys)
    requires MapFits(s) && WriteBehind(s) && CanStep(s, WriterTake)
    ensures WriteBehind(Advance(s, WriterTake))
  {
    assert s.storeQueue == [s.storeQueue[0]] + s.storeQueue[1..];
    assert Outstanding(Advance(s, WriterTake)) == Outstanding(s);
  }

  /** A revived entry is in the map now as it is in the store. */
  lemma {:induction false} ReviveWrites(s: Sys, e: StoredJob, rest: seq<StoredJob>)
    requires MapFits(s) && WriteBehind(s) && RecoveryFits(s) && s.pc.Recovering?
    requires KeyOf(e.params) in s.store && s.store[KeyOf(e.params)] == e
    ensures MapFits(Revive(s, e, rest)) && WriteBehind(Revive(s, e, rest))
  {
    var t := Revive(s, e, rest);
    ReviveView(s, e, rest);
    assert Outstanding(t) == [] && s.written == [];
    forall k | k !in t.dirty ensures Agree(t.store, t.initial, k) {
      if k != KeyOf(e.params) { assert Agree(s.store, ApplyOps(s.initial, s.written), k); }
    }
  }

  /** A discarded entry was never in the map, and is gone from the store if its deletion succeeded. */
  lemma {:induction false} DiscardWrites(s: Sys, e: StoredJob, rest: seq<StoredJob>, ok: bool, applied: bool)
    requires MapFits(s) && WriteBehind(s) && RecoveryFits(s) && s.pc.Recovering? && s.hasStore
    requires KeyOf(e.params) !in s.jobs && KeyOf(e.params) in s.dirty && (ok ==> applied)
    ensures MapFits(Discard(s, e, rest, ok, applied)) && WriteBehind(Discard(s, e, rest, ok, applied))
  {
    var t := Discard(s, e, rest, ok, applied);
    assert Outstanding(t) == [] && s.written == [];
    assert View(t) == View(s) == s.initial;
    assert KeyOf(e.params) !in View(s);
    forall k | k !in t.dirty ensures Agree(t.store, t.initial, k) {
      if k != KeyOf(e.params) { assert Agree(s.store, ApplyOps(s.initial, s.written), k); }
    }
  }

  lemma {:induction false} RecoverWrites(s: Sys, ok: bool, applied: bool)
    requires MapFits(s) && WriteBehind(s) && RecoveryFits(s) && CanStep(s, RecoverNext(ok, applied))
    ensures MapFits(Advance(s, RecoverNext(ok, applied)))
    ensures WriteBehind(Advance(s, RecoverNext(ok, applied)))
  {
    var e, rest := s.pc.rest[0], s.pc.rest[1..];
    if Survives(e, s.now) { ReviveWrites(s, e, rest); } else { DiscardWrites(s, e, rest, ok, applied); }
  }

  lemma {:induction false} ReviveView(s: Sys, e: StoredJob, rest: seq<StoredJob>)
    requires MapFits(s)
    ensures MapFits(Revive(s, e, rest)) && View(Revive(s, e, rest)) == View(s)[KeyOf(e.params) := e]
  {
    var t := Revive(s, e, rest);
    forall k | k in s.jobs && k != KeyOf(e.params) ensures t.cells[t.jobs[k]] == s.cells[s.jobs[k]] {
      assert t.jobs[k] == s.jobs[k];
    }
  }

  /** Whether the step can decide on, queue or write a store operation. */
  predicate IsWriteStep(st: SysStep) {
    || st.RecoverNext? || st.TakeAdd? || st.TakeDone? || st.TakeRestarted?
    || st.Enqueue? || st.WriterTake? || st.WriterAttempt?
  }

  /** Only jobs' inner states, other queues, replies or the clock differ. */
  predicate SameWrites(s: Sys, t: Sys) {
    && t.hasStore == s.hasStore && t.jobs == s.jobs
    && t.storeQueue == s.storeQueue && t.writer == s.writer && t.store == s.store
    && t.initial == s.initial && t.decided == s.decided && t.written == s.written && t.dirty == s.dirty
    && (t.pc == s.pc || (!t.pc.Enqueuing? && !s.pc.Enqueuing?))
    && |t.cells| == |s.cells|
    && forall i :: 0 <= i < |s.cells| ==>
         t.cells[i].params == s.cells[i].params && t.cells[i].restartedAt == s.cells[i].restartedAt
  }

  lemma {:induction false} SetJobFrame(s: Sys, u: Sys, id: JobId, j: Job)
    requires SameWrites(s, u) && id < |u.cells|
    ensures SameWrites(s, SetJob(u, id, j)) && SetJob(u, id, j).replies == u.replies
  {
  }

  lemma {:induction false} SendEffectFrame(s: Sys, id: JobId, step: Step)
    requires id < |s.cells|
    ensures SameWrites(s, SendEffect(s, id, step)) && SendEffect(s, id, step).replies == s.replies
  {
  }

  lemma {:induction false} WorkFrame(s: Sys, id: JobId, step: Step)
    requires CanStep(s, Work(id, step))
    ensures SameWrites(s, DoWork(s, id, step)) && DoWork(s, id, step).replies == s.replies
  {
    SendEffectFrame(s, id, step);
    SetJobFrame(s, SendEffect(s, id, step), id, Next(s.cells[id].job, step, s.now));
  }

  lemma {:induction false} JobTouchFrame(s: Sys, st: SysStep)
    requires CanStep(s, st) && (st.Forward? || st.CancelAll?)
    ensures SameWrites(s, Advance(s, st)) && Advance(s, st).replies == s.replies
  {
  }

  lemma {:induction false} OtherStepFrame(s: Sys, st: SysStep)
    requires CanStep(s, st) && !IsWriteStep(st)
    ensures SameWrites(s, Advance(s, st))
    ensures !st.SendReply? ==> Advance(s, st).replies == s.replies
  {
    match st
    case Work(id, step) => WorkFrame(s, id, step);
    case Forward => JobTouchFrame(s, st);
    case CancelAll => JobTouchFrame(s, st);
    case _ => NoJobFrame(s, st);
  }

  lemma {:induction false} NoJobFrame(s: Sys, st: SysStep)
    requires CanStep(s, st) && !IsWriteStep(st) && !st.Work? && !st.Forward? && !st.CancelAll?
    ensures SameWrites(s, Advance(s, st))
    ensures !st.SendReply? ==> Advance(s, st).replies == s.replies
  {
    if st.Tick? || st.Submit? || st.Hook? || st.SendReply? {
      OutsideFrame(s, st);
    } else if st.StartClosing? || st.FinishClosing? || st.FinishWriting? {
      ClosingFrame(s, st);
    } else {
      LoopFrame(s, st);
    }
  }

  lemma {:induction false} OutsideFrame(s: Sys, st: SysStep)
    requires CanStep(s, st) && (st.Tick? || st.Submit? || st.Hook? || st.SendReply?)
    ensures SameWrites(s, Advance(s, st))
    ensures !st.SendReply? ==> Advance(s, st).replies == s.replies
  {
  }

  lemma {:induction false} ClosingFrame(s: Sys, st: SysStep)
    requires CanStep(s, st) && (st.StartClosing? || st.FinishClosing? || st.FinishWriting?)
    ensures SameWrites(s, Advance(s, st)) && Advance(s, st).replies == s.replies
  {
  }

  lemma {:induction false} LoopFrame(s: Sys, st: SysStep)
    requires CanStep(s, st) && (st.FinishRecovery? || st.TakeSfu? || st.GiveUpRouting?)
    ensures SameWrites(s, Advance(s, st)) && Advance(s, st).replies == s.replies
  {
    if st.TakeSfu? {
      RouteWrites(s.(sfuQueue := s.sfuQueue[1..]), s.sfuQueue[0]);
    } else {
      assert Advance(s, st) == s.(pc := Idle);
    }
  }

  lemma {:induction false} RouteWrites(s: Sys, e: SfuEvent)
    requires s.pc == Idle
    ensures SameWrites(s, Route(s, e)) && Route(s, e).replies == s.replies
  {
  }

  lemma {:induction false} OtherWrites(s: Sys, st: SysStep)
    requires MapFits(s) && WriteBehind(s) && CanStep(s, st) && !IsWriteStep(st)
    ensures MapFits(Advance(s, st)) && WriteBehind(Advance(s, st))
  {
    var t := Advance(s, st);
    OtherStepFrame(s, st);
    SameView(s, t);
    QuietWrites(s, t);
  }

  /** Every step keeps the store behind the map by exactly the outstanding operations. */
  lemma {:induction false} StepWrites(s: Sys, st: SysStep)
    requires MapFits(s) && WriteBehind(s) && RecoveryFits(s) && CanStep(s, st)
    ensures MapFits(Advance(s, st)) && WriteBehind(Advance(s, st))
  {
    match st
    case RecoverNext(ok, applied) => RecoverWrites(s, ok, applied);
    case TakeAdd => TakeAddWrites(s);
    case TakeDone => TakeDoneWrites(s);
    case TakeRestarted => TakeRestartedWrites(s);
    case Enqueue => EnqueueWrites(s);
    case WriterTake => WriterTakeWrites(s);
    case WriterAttempt(ok, applied) => AttemptWrites(s, ok, applied);
    case _ => OtherWrites(s, st);
  }

  lemma {:induction false} TakeAddWrites(s: Sys)
    requires MapFits(s) && WriteBehind(s) && CanStep(s, TakeAdd)
    ensures MapFits(Advance(s, TakeAdd)) && WriteBehind(Advance(s, TakeAdd))
  {
    var rest := s.(addQueue := s.addQueue[1..]);
    QuietWrites(s, rest);
    if s.addQueue[0].timeout > 0 { AddWrites(rest, s.addQueue[0]); }
  }

  lemma {:induction false} TakeDoneWrites(s: Sys)
    requires MapFits(s) && WriteBehind(s) && CanStep(s, TakeDone)
    ensures MapFits(Advance(s, TakeDone)) && WriteBehind(Advance(s, TakeDone))
  {
    var rest := s.(doneQueue := s.doneQueue[1..]);
    QuietWrites(s, rest);
    RemoveWrites(rest, s.doneQueue[0]);
  }

  lemma {:induction false} TakeRestartedWrites(s: Sys)
    requires MapFits(s) && WriteBehind(s) && CanStep(s, TakeRestarted)
    ensures MapFits(Advance(s, TakeRestarted)) && WriteBehind(Advance(s, TakeRestarted))
  {
    var rest := s.(restartedQueue := s.restartedQueue[1..]);
    QuietWrites(s, rest);
    NoteRestartWrites(rest, s.restartedQueue[0].id, s.restartedQueue[0].at);
  }

  // ── replies ───────────────────────────────────────────────────────────

  /** A new operation, with the ticket of a new reply or with none. */
  lemma {:induction false} DecideReplies(s: Sys, u: Sys, op: StoreOp, next: Then)
    requires RepliesFit(s) && u.pc == Idle
    requires u.hasStore == s.hasStore && u.written == s.written && u.decided == s.decided
    requires |s.written| <= |s.decided|
    requires if op.Save? && op.ticket.Some?
             then op.ticket.value == |s.replies|
                  && u.replies == s.replies + [Reply(|s.decided|, !s.hasStore, false)]
             else u.replies == s.replies
    requires !s.hasStore ==> s.decided == []
    ensures RepliesFit(Decide(u, op, next))
  {
    var t := Decide(u, op, next);
    assert t.replies == u.replies && t.written == s.written && t.hasStore == s.hasStore;
    assert t.decided == if s.hasStore then s.decided + [op] else s.decided;
    forall r | 0 <= r < |t.replies| ensures ReplyFits(t, r) {
      if r < |s.replies| { assert ReplyFits(s, r); }
    }
    forall n | 0 <= n < |t.decided| && t.decided[n].Save? && t.decided[n].ticket.Some?
      ensures t.decided[n].ticket.value < |t.replies| && t.replies[t.decided[n].ticket.value].index == n
    {
      if n < |s.decided| { assert s.decided[n] == t.decided[n]; }
    }
  }

  lemma {:induction false} AttemptReplies(s: Sys, ok: bool, applied: bool)
    requires RepliesFit(s) && CanStep(s, WriterAttempt(ok, applied))
    requires s.written + Outstanding(s) == s.decided
    requires !s.hasStore ==> s.decided == []
    ensures RepliesFit(Attempted(s, ok, applied))
  {
    var op := s.writer.op;
    var t := Attempted(s, ok, applied);
    assert s.decided[|s.written|] == op;
    forall r | 0 <= r < |t.replies| ensures ReplyFits(t, r) {
      assert ReplyFits(s, r);
    }
  }

  lemma {:induction false} SameReplies(s: Sys, t: Sys)
    requires RepliesFit(s) && t.replies == s.replies && t.hasStore == s.hasStore
    requires t.decided == s.decided && t.written == s.written
    ensures RepliesFit(t)
  {
    forall r | 0 <= r < |t.replies| ensures ReplyFits(t, r) { assert ReplyFits(s, r); }
  }

  lemma {:induction false} SendReplies(s: Sys, r: nat)
    requires RepliesFit(s) && CanStep(s, SendReply(r))
    ensures RepliesFit(Advance(s, SendReply(r)))
  {
    var t := Advance(s, SendReply(r));
    forall i | 0 <= i < |t.replies| ensures ReplyFits(t, i) { assert ReplyFits(s, i); }
  }

  /** Without a store nothing is ever decided. */
  predicate NoStoreNoOps(s: Sys) {
    !s.hasStore ==> s.decided == []
  }

  lemma {:induction false} EnqueueReplies(s: Sys)
    requires RepliesFit(s) && CanStep(s, Enqueue)
    ensures RepliesFit(Advance(s, Enqueue))
  {
    SameReplies(s, Advance(s, Enqueue));
  }

  lemma {:induction false} DecisionReplies(s: Sys, st: SysStep)
    requires RepliesFit(s) && NoStoreNoOps(s) && MapFits(s) && WriteBehind(s) && CanStep(s, st)
    requires st.TakeAdd? || st.TakeDone? || st.TakeRestarted?
    ensures RepliesFit(Advance(s, st))
  {
    match st
    case TakeAdd =>
      var rest := s.(addQueue := s.addQueue[1..]);
      var p := s.addQueue[0];
      SameReplies(s, rest);
      if p.timeout > 0 {
        DecideReplies(rest, Added(rest, p),
          Save(KeyOf(p), StoredJob(p, s.now), Some(|s.replies|)), StartJob(|s.cells|));
      }
    case TakeDone =>
      var rest := s.(doneQueue := s.doneQueue[1..]);
      var id := s.doneQueue[0];
      var key := KeyOf(s.cells[id].params);
      SameReplies(s, rest);
      if IsCurrent(rest, id) {
        DecideReplies(rest, rest.(jobs := s.jobs - {key}), Delete(key), StopJob(id));
      }
    case TakeRestarted =>
      var rest := s.(restartedQueue := s.restartedQueue[1..]);
      var Restarted(id, at) := s.restartedQueue[0];
      SameReplies(s, rest);
      if IsCurrent(rest, id) {
        DecideReplies(rest, rest.(cells := s.cells[id := s.cells[id].(restartedAt := at)]),
          Save(KeyOf(s.cells[id].params), StoredJob(s.cells[id].params, at), None), Continue);
      }
  }

  lemma {:induction false} UnrelatedReplies(s: Sys, st: SysStep)
    requires RepliesFit(s) && CanStep(s, st)
    requires st.RecoverNext? || st.WriterTake? || (!IsWriteStep(st) && !st.SendReply?)
    ensures RepliesFit(Advance(s, st))
  {
    if st.RecoverNext? {
      RecoverFrame(s, st.ok, st.applied);
    } else if st.WriterTake? {
      WriterTakeFrame(s);
    } else {
      OtherStepFrame(s, st);
    }
    SameReplies(s, Advance(s, st));
  }

  lemma {:induction false} RecoverFrame(s: Sys, ok: bool, applied: bool)
    requires CanStep(s, RecoverNext(ok, applied))
    ensures var t := Advance(s, RecoverNext(ok, applied));
            t.replies == s.replies && t.hasStore == s.hasStore && t.decided == s.decided && t.written == s.written
  {
    var e, rest := s.pc.rest[0], s.pc.rest[1..];
    assert Advance(s, RecoverNext(ok, applied)) == RecoverEntry(s, e, rest, ok, applied);
    EntryRecordFrame(s, e, rest, ok, applied);
  }

  lemma {:induction false} EntryRecordFrame(s: Sys, e: StoredJob, rest: seq<StoredJob>, ok: bool, applied: bool)
    ensures var t := RecoverEntry(s, e, rest, ok, applied);
            t.replies == s.replies && t.hasStore == s.hasStore && t.decided == s.decided && t.written == s.written
  {
  }

  lemma {:induction false} WriterTakeFrame(s: Sys)
    requires CanStep(s, WriterTake)
    ensures var t := Advance(s, WriterTake);
            t.replies == s.replies && t.hasStore == s.hasStore && t.decided == s.decided && t.written == s.written
  {
  }

  /** Every step keeps each reply tied to its own operation. */
  lemma {:induction false} StepReplies(s: Sys, st: SysStep)
    requires RepliesFit(s) && NoStoreNoOps(s) && MapFits(s) && WriteBehind(s) && CanStep(s, st)
    ensures RepliesFit(Advance(s, st))
  {
    match st
    case RecoverNext(_, _) => UnrelatedReplies(s, st);
    case TakeAdd => DecisionReplies(s, st);
    case TakeDone => DecisionReplies(s, st);
    case TakeRestarted => DecisionReplies(s, st);
    case Enqueue => EnqueueReplies(s);
    case WriterAttempt(ok, applied) => AttemptReplies(s, ok, applied);
    case SendReply(r) => SendReplies(s, r);
    case _ => UnrelatedReplies(s, st);
  }

  /** The history of the second state continues that of the first. */
  predicate Continues(s: Sys, t: Sys) {
    && t.hasStore == s.hasStore
    && (NoStoreNoOps(s) ==> NoStoreNoOps(t))
    && s.decided <= t.decided && |t.decided| <= |s.decided| + 1
    && (t.decided == s.decided || s.pc == Idle)
    && s.written <= t.written
  }

  /** Decisions and writes only accumulate, and without a store there are none. */
  lemma {:induction false} StepHistoryGrows(s: Sys, st: SysStep)
    requires CanStep(s, st)
    ensures Continues(s, Advance(s, st))
    ensures !st.RecoverNext? ==> Advance(s, st).initial == s.initial
    ensures Advance(s, st).dirty <= s.dirty || ((st.WriterAttempt? || st.RecoverNext?) && !st.ok)
  {
    if st.TakeAdd? || st.TakeDone? || st.TakeRestarted? {
      DecisionHistory(s, st);
    } else if st.Enqueue? {
    } else if !IsWriteStep(st) {
      OtherStepFrame(s, st);
    } else {
      RecoverOrWriteHistory(s, st);
    }
  }

  lemma {:induction false} RecoverOrWriteHistory(s: Sys, st: SysStep)
    requires CanStep(s, st) && (st.RecoverNext? || st.WriterTake? || st.WriterAttempt?)
    ensures Continues(s, Advance(s, st))
    ensures !st.RecoverNext? ==> Advance(s, st).initial == s.initial
    ensures Advance(s, st).dirty <= s.dirty || ((st.WriterAttempt? || st.RecoverNext?) && !st.ok)
  {
  }

  lemma {:induction false} DecisionHistory(s: Sys, st: SysStep)
    requires CanStep(s, st) && (st.TakeAdd? || st.TakeDone? || st.TakeRestarted?)
    ensures Continues(s, Advance(s, st))
    ensures Advance(s, st).initial == s.initial && Advance(s, st).dirty == s.dirty
  {
    match st
    case TakeAdd => TakeAddHistory(s);
    case TakeDone =>
      var rest := s.(doneQueue := s.doneQueue[1..]);
      var key := KeyOf(s.cells[s.doneQueue[0]].params);
      DecideHistory(rest.(jobs := s.jobs - {key}), Delete(key), StopJob(s.doneQueue[0]));
    case TakeRestarted => TakeRestartedHistory(s);
  }

  lemma {:induction false} TakeAddHistory(s: Sys)
    requires CanStep(s, TakeAdd)
    ensures Continues(s, Advance(s, TakeAdd))
    ensures Advance(s, TakeAdd).initial == s.initial && Advance(s, TakeAdd).dirty == s.dirty
  {
    var rest := s.(addQueue := s.addQueue[1..]);
    var p := s.addQueue[0];
    AddedHistory(rest, p);
    DecideHistory(Added(rest, p), Save(KeyOf(p), StoredJob(p, s.now), Some(|s.replies|)), StartJob(|s.cells|));
  }

  lemma {:induction false} AddedHistory(s: Sys, p: Params)
    ensures var t := Added(s, p);
            && t.hasStore == s.hasStore && t.initial == s.initial && t.written == s.written && t.dirty == s.dirty
            && t.decided == s.decided
  {
  }

  lemma {:induction false} TakeRestartedHistory(s: Sys)
    requires CanStep(s, TakeRestarted)
    ensures Continues(s, Advance(s, TakeRestarted))
    ensures Advance(s, TakeRestarted).initial == s.initial && Advance(s, TakeRestarted).dirty == s.dirty
  {
    var rest := s.(restartedQueue := s.restartedQueue[1..]);
    var Restarted(id, at) := s.restartedQueue[0];
    DecideHistory(rest.(cells := s.cells[id := s.cells[id].(restartedAt := at)]),
      Save(KeyOf(s.cells[id].params), StoredJob(s.cells[id].params, at), None), Continue);
  }

  lemma {:induction false} DecideHistory(u: Sys, op: StoreOp, next: Then)
    ensures var t := Decide(u, op, next);
            && t.hasStore == u.hasStore && t.initial == u.initial && t.written == u.written && t.dirty == u.dirty
            && t.decided == if u.hasStore then u.decided + [op] else u.decided
  {
  }

  // ── every step ────────────────────────────────────────────────────────

  /** Recovery goes through the entries one by one; nothing else touches what is left of them. */
  lemma {:induction false} StepRecovery(s: Sys, st: SysStep)
    requires RecoveryFits(s) && CanStep(s, st) && s.pc.Recovering?
    ensures RecoveryFits(Advance(s, st))
  {
    if st.RecoverNext? {
      RecoverNextFits(s, st.ok, st.applied);
    } else if st != FinishRecovery {
      OtherStepFrame(s, st);
    }
  }

  lemma {:induction false} RecoverNextFits(s: Sys, ok: bool, applied: bool)
    requires RecoveryFits(s) && CanStep(s, RecoverNext(ok, applied))
    ensures RecoveryFits(RecoverEntry(s, s.pc.rest[0], s.pc.rest[1..], ok, applied))
  {
    var e, rest := s.pc.rest[0], s.pc.rest[1..];
    forall i | 0 <= i < |rest|
      ensures KeyOf(rest[i].params) in s.store && s.store[KeyOf(rest[i].params)] == rest[i]
      ensures KeyOf(rest[i].params) in s.dirty && KeyOf(rest[i].params) !in s.jobs
      ensures KeyOf(rest[i].params) != KeyOf(e.params)
    {
      assert rest[i] == s.pc.rest[i + 1];
    }
    DistinctRest(s.pc.rest, s.store);
    if Survives(e, s.now) { ReviveFits(s, e, rest); } else { DiscardFits(s, e, rest, ok, applied); }
  }

  lemma {:induction false} DistinctRest(entries: seq<StoredJob>, store: Contents)
    requires |entries| > 0 && Lists(entries, store)
    ensures Lists(entries[1..], store)
  {
  }

  /** The remaining entries are untouched by the first one. */
  predicate Apart(s: Sys, e: StoredJob, rest: seq<StoredJob>) {
    forall i :: 0 <= i < |rest| ==>
      && KeyOf(rest[i].params) in s.dirty && KeyOf(rest[i].params) !in s.jobs
      && KeyOf(rest[i].params) != KeyOf(e.params)
  }

  lemma {:induction false} ReviveFits(s: Sys, e: StoredJob, rest: seq<StoredJob>)
    requires RecoveryFits(s) && s.pc.Recovering? && s.hasStore && Lists(rest, s.store) && Apart(s, e, rest)
    ensures RecoveryFits(Revive(s, e, rest))
  {
  }

  lemma {:induction false} DiscardFits(s: Sys, e: StoredJob, rest: seq<StoredJob>, ok: bool, applied: bool)
    requires RecoveryFits(s) && s.pc.Recovering? && s.hasStore && Lists(rest, s.store) && Apart(s, e, rest)
    ensures RecoveryFits(Discard(s, e, rest, ok, applied))
  {
  }

  lemma {:induction false} StepNotRecovery(s: Sys, st: SysStep)
    requires CanStep(s, st) && !s.pc.Recovering?
    ensures !Advance(s, st).pc.Recovering?
  {
    if st.TakeAdd? {
      AddedKeepsPc(s.(addQueue := s.addQueue[1..]), s.addQueue[0]);
    } else if st.TakeDone? || st.TakeRestarted? {
      DecisionNotRecovery(s, st);
    }
  }

  lemma {:induction false} AddedKeepsPc(s: Sys, p: Params)
    ensures Added(s, p).pc == s.pc
  {
  }

  lemma {:induction false} DecisionNotRecovery(s: Sys, st: SysStep)
    requires CanStep(s, st) && (st.TakeDone? || st.TakeRestarted?)
    ensures !Advance(s, st).pc.Recovering?
  {
  }

  lemma {:induction false} StepKeeps(s: Sys, st: SysStep)
    requires SysInv(s) && CanStep(s, st)
    ensures SysInv(Advance(s, st))
  {
    StepCells(s, st);
    StepOwner(s, st);
    StepWrites(s, st);
    StepReplies(s, st);
    StepHistoryGrows(s, st);
    if s.pc.Recovering? { StepRecovery(s, st); } else { StepNotRecovery(s, st); }
  }

  lemma {:induction false} BootFits(s: Sys)
    requires IsBoot(s)
    ensures SysInv(s)
  {
    assert CellsFit(s) && Ownership(s);
    assert WriteBehind(s) by { BootWrites(s); }
    assert RepliesFit(s) && NoStoreNoOps(s);
    assert RecoveryFits(s);
  }

  lemma {:induction false} BootWrites(s: Sys)
    requires IsBoot(s)
    ensures WriteBehind(s)
  {
    assert Outstanding(s) == [];
    assert View(s) == map[];
  }

  lemma {:induction false} SysInvAt(r: SysRun, i: nat)
    requires IsSysRun(r) && 0 < i < |r.states| && SysInv(r.states[i - 1])
    ensures SysInv(r.states[i])
  {
    StepOfRun(r, i - 1);
    StepKeeps(r.states[i - 1], r.steps[i - 1]);
  }

  /** The invariant holds in every state of every run. */
  lemma {:induction false} SysRunInv(r: SysRun, i: nat)
    requires IsSysRun(r) && i < |r.states|
    ensures SysInv(r.states[i])
  {
    if i == 0 {
      BootFits(r.states[0]);
    } else {
      SysRunInv(r, i - 1);
      SysInvAt(r, i);
    }
  }

  /** The part of the invariant about the store, on its own. */
  lemma {:induction false} SysRunWrites(r: SysRun, i: nat)
    requires IsSysRun(r) && i < |r.states|
    ensures MapFits(r.states[i]) && WriteBehind(r.states[i])
  {
    SysRunInv(r, i);
  }
}
