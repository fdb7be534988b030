/**
 * The handler loop and its writer as they update their own fields, proved to take
 * exactly the steps of HandlerModel and to keep its invariant.
 */
module HandlerActor {
  import opened Support
  import opened Fsm
  import opened JobModel
  import opened HandlerModel
  import opened HandlerInvariant
  import opened HandlerProperties

  /** How a store operation ends: reported as a success or not, and actually applied or not. */
  datatype WriteOutcome = WriteOutcome(ok: bool, applied: bool)

  predicate AreOutcomes(outcomes: seq<WriteOutcome>) {
    forall i :: 0 <= i < |outcomes| ==> outcomes[i].ok ==> outcomes[i].applied
  }

  /** Recovery of all the entries that are left, one after the other. */
  function RecoverAll(s: Sys, outcomes: seq<WriteOutcome>): Sys
    requires s.pc.Recovering? && |s.pc.rest| == |outcomes| && AreOutcomes(outcomes)
    decreases |outcomes|
  {
    if |outcomes| == 0 then Advance(s, FinishRecovery)
    else RecoverAll(Advance(s, RecoverNext(outcomes[0].ok, outcomes[0].applied)), outcomes[1..])
  }

  lemma {:induction false} RecoverAllKeeps(s: Sys, outcomes: seq<WriteOutcome>)
    requires SysInv(s) && s.pc.Recovering? && |s.pc.rest| == |outcomes| && AreOutcomes(outcomes)
    ensures SysInv(RecoverAll(s, outcomes))
    decreases |outcomes|
  {
    if |outcomes| == 0 {
      StepKeeps(s, FinishRecovery);
    } else {
      RecoverOneKeeps(s, outcomes[0]);
      RecoverAllKeeps(Advance(s, RecoverNext(outcomes[0].ok, outcomes[0].applied)), outcomes[1..]);
    }
  }

  lemma {:induction false} RecoverOneKeeps(s: Sys, o: WriteOutcome)
    requires SysInv(s) && s.pc.Recovering? && |s.pc.rest| > 0 && (o.ok ==> o.applied)
    ensures var t := Advance(s, RecoverNext(o.ok, o.applied)); SysInv(t) && t.pc == Recovering(s.pc.rest[1..])
  {
    StepKeeps(s, RecoverNext(o.ok, o.applied));
  }

  /** What the loop does between two waits: take a message, or go on once there is room for one of its own. */
  predicate IsLoopStep(st: SysStep) {
    || st == TakeAdd || st == TakeSfu || st == TakeDone || st == TakeRestarted
    || st == Enqueue || st == Forward || st == GiveUpRouting || st == StartClosing
  }

  class Handler {
    const hasStore: bool
    const sanity: bool
    var now: nat
    var cancelled: bool
    var pc: HandlerPc
    var jobs: map<JobKey, JobId>
    var cells: seq<Cell>
    var addQueue: seq<Params>
    var sfuQueue: seq<SfuEvent>
    var doneQueue: seq<JobId>
    var restartedQueue: seq<Restarted>
    var storeQueue: seq<StoreOp>
    var writer: WriterPc
    var store: Contents
    var replies: seq<Reply>
    ghost var initial: Contents
    var decided: seq<StoreOp>  // history, also numbers the replies
    ghost var written: seq<StoreOp>
    ghost var dirty: set<JobKey>

    ghost function Abs(): Sys
      reads this
    {
      Sys(now, hasStore, sanity, cancelled, pc, jobs, cells, addQueue, sfuQueue, doneQueue, restartedQueue,
          storeQueue, writer, store, replies, initial, decided, written, dirty)
    }

    ghost predicate Valid()
      reads this
    {
      SysInv(Abs())
    }

    /** A service that has loaded these entries from its store and is about to go through them. */
    constructor (hasStore: bool, sanity: bool, now: nat, store: Contents, entries: seq<StoredJob>)
      requires Lists(entries, store) && (entries == [] || (hasStore && |entries| == |store|))
      ensures Valid() && IsBoot(Abs()) && pc == Recovering(entries) && this.store == store
      ensures this.hasStore == hasStore && this.sanity == sanity && this.now == now
    {
      this.hasStore, this.sanity, this.now, this.store := hasStore, sanity, now, store;
      cancelled, pc, jobs, cells := false, Recovering(entries), map[], [];
      addQueue, sfuQueue, doneQueue, restartedQueue, storeQueue := [], [], [], [], [];
      writer, replies := Resting, [];
      initial, decided, written, dirty := map[], [], [], store.Keys;
      new;
      BootFits(Abs());
    }

    // ── recovery ────────────────────────────────────────────────────────

    /** Recovery at start-up. */
    method Recover(outcomes: seq<WriteOutcome>)
      requires Valid() && pc.Recovering? && |pc.rest| == |outcomes| && AreOutcomes(outcomes)
      modifies this
      ensures Valid() && Abs() == RecoverAll(old(Abs()), outcomes)
    {
      RecoverAllKeeps(Abs(), outcomes);
      GoThrough(outcomes);
    }

    /** Goes through the loaded entries: revives the live ones, deletes the others. */
    method GoThrough(outcomes: seq<WriteOutcome>)
      requires pc.Recovering? && |pc.rest| == |outcomes| && AreOutcomes(outcomes)
      modifies this
      ensures Abs() == RecoverAll(old(Abs()), outcomes)
    {
      var i := 0;
      while i < |outcomes|
        invariant 0 <= i <= |outcomes|
        invariant pc.Recovering? && |pc.rest| == |outcomes| - i
        invariant RecoverAll(Abs(), outcomes[i..]) == RecoverAll(old(Abs()), outcomes)
      {
        var entry := pc.rest[0];
        pc := Recovering(pc.rest[1..]);
        if IsExpired(entry, now) || entry.params.timeout == 0 {
          DeleteExpired(entry, outcomes[i]);
        } else {
          ReviveJob(entry);
        }
        assert outcomes[i..][1..] == outcomes[i + 1..];
        i := i + 1;
      }
      pc := Idle;
    }

    method DeleteExpired(entry: StoredJob, outcome: WriteOutcome)
      requires pc.Recovering?
      modifies this
      ensures Abs() == Discard(old(Abs()), entry, old(pc.rest), outcome.ok, outcome.applied)
    {
      var key := KeyOf(entry.params);
      if outcome.applied {
        store := store - {key};
      }
      if outcome.ok {
        dirty := dirty - {key};
      }
    }

    method ReviveJob(entry: StoredJob)
      requires pc.Recovering?
      modifies this`jobs, this`cells, this`initial, this`dirty
      ensures Abs() == Revive(old(Abs()), entry, old(pc.rest))
    {
      var key := KeyOf(entry.params);
      var job := NewJob(entry.params.timeout, sanity).(cancelled := cancelled);
      jobs := jobs[key := |cells|];
      cells := cells + [Cell(entry.params, Launch(job, now), entry.restartedAt)];
      NoteRecovered(key, entry);
    }

    ghost method NoteRecovered(key: JobKey, entry: StoredJob)
      modifies this`initial, this`dirty
      ensures initial == old(initial)[key := entry] && dirty == old(dirty) - {key}
    {
      initial := initial[key := entry];
      dirty := dirty - {key};
    }

    // ── the loop ────────────────────────────────────────────────────────

    /** One turn of the loop, from one wait to the next. */
    method Turn(step: SysStep)
      requires Valid() && IsLoopStep(step) && CanStep(Abs(), step)
      modifies this
      ensures Valid() && Abs() == Advance(old(Abs()), step)
    {
      StepKeeps(Abs(), step);
      TakeTurn(step);
    }

    method TakeTurn(step: SysStep)
      requires IsLoopStep(step) && CanStep(Abs(), step)
      modifies this
      ensures Abs() == Advance(old(Abs()), step)
    {
      match step
      case TakeAdd => OnAddJob();
      case TakeSfu => OnSfuEvent();
      case TakeDone => var stale := OnJobDone();
      case TakeRestarted => var stale := OnJobRestarted();
      case Enqueue => OnRoomInStore();
      case Forward => OnRoomInJob();
      case GiveUpRouting => pc := Idle;
      case StartClosing => pc, doneQueue := Closing, [];
    }

    method SetCell(id: JobId, j: Job)
      requires id < |cells|
      modifies this`cells
      ensures Abs() == SetJob(old(Abs()), id, j)
    {
      cells := cells[id := cells[id].(job := j)];
    }

    /** Hands an operation to the writer if there is a store, and goes on with `next` otherwise. */
    method EnqueueStoreOp(op: StoreOp, next: Then)
      modifies this`pc, this`decided, this`cells
      ensures Abs() == Decide(old(Abs()), op, next)
    {
      if hasStore {
        pc := Enqueuing(op, next);
        decided := decided + [op];
      } else {
        Proceed(next);
      }
    }

    method Proceed(next: Then)
      modifies this`cells
      ensures Abs() == AfterEnqueue(old(Abs()), next)
    {
      match next
      case StartJob(id) => {
        if id < |cells| && cells[id].job.loop == NotStarted {
          SetCell(id, Launch(cells[id].job, now));
        }
      }
      case StopJob(id) => {
        if id < |cells| {
          SetCell(id, MarkCancelled(cells[id].job));
        }
      }
      case Continue => {}
    }

    /** Replaces the job the map holds under this key, if any. */
    method ReplaceExisting(key: JobKey)
      modifies this`cells
      ensures Abs() == Displaced(old(Abs()), key)
    {
      if key in jobs && jobs[key] < |cells| {
        SetCell(jobs[key], MarkReplaced(cells[jobs[key]].job));
      }
    }

    /** Creates the job and puts it into the map in place of the one under the same key. */
    method Insert(params: Params)
      modifies this
      ensures Abs() == Added(old(Abs()), params)
    {
      var job := NewJob(params.timeout, sanity).(cancelled := cancelled);
      ReplaceExisting(KeyOf(params));
      jobs := jobs[KeyOf(params) := |cells|];
      cells := cells + [Cell(params, job, now)];
      replies := replies + [Reply(|decided|, !hasStore, false)];
    }

    /** Adds the job, saves it and starts it; without a delay there is no job to add. */
    method OnAddJob()
      requires pc == Idle && |addQueue| > 0
      modifies this
      ensures Abs() == Advance(old(Abs()), TakeAdd)
    {
      var params := addQueue[0];
      addQueue := addQueue[1..];
      if params.timeout == 0 {
        return;
      }
      var ticket, id := |replies|, |cells|;
      Insert(params);
      EnqueueStoreOp(Save(KeyOf(params), StoredJob(params, now), Some(ticket)), StartJob(id));
    }

    /** Finds the job for a webhook signal and waits for room in its queue. */
    method OnSfuEvent()
      requires pc == Idle && |sfuQueue| > 0
      modifies this`sfuQueue, this`pc
      ensures Abs() == Advance(old(Abs()), TakeSfu)
    {
      var event := sfuQueue[0];
      sfuQueue := sfuQueue[1..];
      if event.key in jobs && IsRoutable(event.signal) {
        pc := Routing(jobs[event.key], event.signal);
      }
    }

    /** Retires the job, unless the signal is stale: then only the queue gets shorter. */
    method OnJobDone() returns (stale: bool)
      requires pc == Idle && |doneQueue| > 0 && doneQueue[0] < |cells|
      modifies this`doneQueue, this`jobs, this`pc, this`decided, this`cells
      ensures Abs() == Advance(old(Abs()), TakeDone)
      ensures stale <==> !IsCurrent(old(Abs()), old(doneQueue[0]))
      ensures stale ==> jobs == old(jobs) && cells == old(cells) && decided == old(decided)
    {
      var id := doneQueue[0];
      doneQueue := doneQueue[1..];
      var key := KeyOf(cells[id].params);
      stale := !(key in jobs && jobs[key] == id);
      if stale {
        return;
      }
      jobs := jobs - {key};
      EnqueueStoreOp(Delete(key), StopJob(id));
    }

    /** Saves the time of the restart, unless the signal is stale. */
    method OnJobRestarted() returns (stale: bool)
      requires pc == Idle && |restartedQueue| > 0 && restartedQueue[0].id < |cells|
      modifies this`restartedQueue, this`pc, this`decided, this`cells
      ensures Abs() == Advance(old(Abs()), TakeRestarted)
      ensures stale <==> !IsCurrent(old(Abs()), old(restartedQueue[0].id))
      ensures stale ==> jobs == old(jobs) && cells == old(cells) && decided == old(decided)
    {
      var req := restartedQueue[0];
      restartedQueue := restartedQueue[1..];
      var key := KeyOf(cells[req.id].params);
      stale := !(key in jobs && jobs[key] == req.id);
      if stale {
        return;
      }
      cells := cells[req.id := cells[req.id].(restartedAt := req.at)];
      EnqueueStoreOp(Save(key, StoredJob(cells[req.id].params, req.at), None), Continue);
    }

    /** The store queue has taken the operation: what was to come next is done. */
    method OnRoomInStore()
      requires pc.Enqueuing?
      modifies this
      ensures Abs() == AfterEnqueue(old(Abs()).(storeQueue := old(storeQueue) + [old(pc).op], pc := Idle), old(pc).next)
    {
      var next := pc.next;
      storeQueue := storeQueue + [pc.op];
      pc := Idle;
      Proceed(next);
    }

    /** The job's event queue has taken the signal. */
    method OnRoomInJob()
      requires CanStep(Abs(), Forward)
      modifies this
      ensures Abs() == Advance(old(Abs()), Forward)
    {
      var id, e := pc.id, pc.signal;
      pc := Idle;
      SetCell(id, cells[id].job.(events := cells[id].job.events + [e]));
    }

    // ── the writer ──────────────────────────────────────────────────────

    /** Attempts one operation; with or without success the waiting reply is released. */
    method AttemptWrite(outcome: WriteOutcome)
      requires writer.Writing?
      modifies this`writer, this`store, this`written, this`dirty, this`replies
      ensures Abs() == Attempted(old(Abs()), outcome.ok, outcome.applied)
    {
      var op := writer.op;
      if outcome.applied {
        Write(op);
      }
      NoteAttempt(op, outcome.ok);
      writer, replies := Resting, Released(replies, op);
    }

    ghost method NoteAttempt(op: StoreOp, ok: bool)
      modifies this`written, this`dirty
      ensures written == old(written) + [op]
      ensures dirty == if ok then old(dirty) - {op.key} else old(dirty) + {op.key}
    {
      written := written + [op];
      dirty := if ok then dirty - {op.key} else dirty + {op.key};
    }

    method Write(op: StoreOp)
      modifies this`store
      ensures store == ApplyOp(old(store), op)
    {
      match op
      case Save(key, job, _) => store := store[key := job];
      case Delete(key) => store := store - {key};
    }

    /** Takes the next operation off the queue. */
    method TakeOp()
      requires writer == Resting && |storeQueue| > 0
      modifies this`writer, this`storeQueue
      ensures Abs() == Advance(old(Abs()), WriterTake)
    {
      writer := Writing(storeQueue[0]);
      storeQueue := storeQueue[1..];
    }

    /** The writer's part of its loop, one await at a time, so that the handler's turns may come in between. */
    method WriterTurn(step: SysStep)
      requires Valid() && (step.WriterTake? || step.WriterAttempt?) && CanStep(Abs(), step)
      modifies this
      ensures Valid() && Abs() == Advance(old(Abs()), step)
    {
      StepKeeps(Abs(), step);
      match step
      case WriterTake => TakeOp();
      case WriterAttempt(ok, applied) => AttemptWrite(WriteOutcome(ok, applied));
    }

    /** The writer's loop, once nothing is added to its queue any more (see Drained). */
    method DrainWriter(outcomes: seq<WriteOutcome>)
      requires Valid() && writer == Resting && |outcomes| == |storeQueue| && AreOutcomes(outcomes)
      modifies this
      ensures Valid() && Abs() == DrainAll(old(Abs()), outcomes)
    {
      DrainAllKeeps(Abs(), outcomes);
      DrainQueue(outcomes);
    }

    method DrainQueue(outcomes: seq<WriteOutcome>)
      requires writer == Resting && |outcomes| == |storeQueue| && AreOutcomes(outcomes)
      modifies this
      ensures Abs() == DrainAll(old(Abs()), outcomes)
    {
      var i := 0;
      while |storeQueue| > 0
        invariant writer == Resting && i + |storeQueue| == |outcomes|
        invariant DrainAll(Abs(), outcomes[i..]) == DrainAll(old(Abs()), outcomes)
        decreases |storeQueue|
      {
        TakeOp();
        AttemptWrite(outcomes[i]);
        assert outcomes[i..][1..] == outcomes[i + 1..];
        i := i + 1;
      }
    }
  }

  /** Every queued operation attempted in turn. */
  function DrainAll(s: Sys, outcomes: seq<WriteOutcome>): Sys
    requires s.writer == Resting && |s.storeQueue| == |outcomes| && AreOutcomes(outcomes)
    decreases |outcomes|
  {
    if |outcomes| == 0 then s
    else DrainAll(Attempted(Advance(s, WriterTake), outcomes[0].ok, outcomes[0].applied), outcomes[1..])
  }

  lemma {:induction false} DrainOne(s: Sys, o: WriteOutcome)
    requires s.writer == Resting && |s.storeQueue| > 0 && (o.ok ==> o.applied)
    ensures var t := Attempted(Advance(s, WriterTake), o.ok, o.applied);
            && t.writer == Resting && t.storeQueue == s.storeQueue[1..] && t.written == s.written + [s.storeQueue[0]]
            && (o.ok ==> t.store == ApplyOp(s.store, s.storeQueue[0]))
            && t.jobs == s.jobs && t.cells == s.cells && t.decided == s.decided && t.pc == s.pc
            && (SysInv(s) ==> SysInv(t))
  {
    if SysInv(s) {
      StepKeeps(s, WriterTake);
      StepKeeps(Advance(s, WriterTake), WriterAttempt(o.ok, o.applied));
    }
  }

  lemma {:induction false} DrainAllKeeps(s: Sys, outcomes: seq<WriteOutcome>)
    requires SysInv(s) && s.writer == Resting && |s.storeQueue| == |outcomes| && AreOutcomes(outcomes)
    ensures SysInv(DrainAll(s, outcomes))
    decreases |outcomes|
  {
    if |outcomes| > 0 {
      DrainOne(s, outcomes[0]);
      DrainAllKeeps(Attempted(Advance(s, WriterTake), outcomes[0].ok, outcomes[0].applied), outcomes[1..]);
    }
  }

  lemma {:induction false} ApplyFirst(c: Contents, op: StoreOp, rest: seq<StoreOp>)
    ensures ApplyOps(c, [op] + rest) == ApplyOps(ApplyOp(c, op), rest)
  {
    ApplyOpsConcat(c, [op], rest);
    assert [op][..0] == [];
  }

  /**
   * What draining achieves: every operation is attempted once, in order; if each
   * attempt succeeds the store ends up as it would after applying them all; map,
   * jobs and decisions are untouched.
   */
  lemma {:induction false} Drained(s: Sys, outcomes: seq<WriteOutcome>)
    requires s.writer == Resting && |s.storeQueue| == |outcomes| && AreOutcomes(outcomes)
    ensures var t := DrainAll(s, outcomes);
            && t.storeQueue == [] && t.writer == Resting && t.written == s.written + s.storeQueue
            && ((forall o :: o in outcomes ==> o.ok) ==> t.store == ApplyOps(s.store, s.storeQueue))
            && t.jobs == s.jobs && t.cells == s.cells && t.decided == s.decided && t.pc == s.pc
    decreases |outcomes|
  {
    if |outcomes| > 0 {
      var u := Attempted(Advance(s, WriterTake), outcomes[0].ok, outcomes[0].applied);
      DrainOne(s, outcomes[0]);
      Drained(u, outcomes[1..]);
      DrainedOneMore(s, u, DrainAll(u, outcomes[1..]));
      if forall o :: o in outcomes ==> o.ok {
        assert outcomes[0] in outcomes && forall o :: o in outcomes[1..] ==> o in outcomes;
        ApplyFirst(s.store, s.storeQueue[0], u.storeQueue);
      }
    }
  }

  lemma {:induction false} DrainedOneMore(s: Sys, u: Sys, t: Sys)
    requires |s.storeQueue| > 0 && u.storeQueue == s.storeQueue[1..] && u.written == s.written + [s.storeQueue[0]]
    requires t.written == u.written + u.storeQueue
    ensures s.storeQueue == [s.storeQueue[0]] + u.storeQueue && t.written == s.written + s.storeQueue
  {
  }
}
