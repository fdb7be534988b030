/** What jobs and webhooks tell the handler arrives where it should, and nothing of it is lost. */
module HandlerDelivery {
  import opened Support
  import opened Fsm
  import opened JobModel
  import opened JobInvariant
  import opened HandlerModel
  import opened HandlerInvariant
  import opened HandlerProperties
  import opened JobsOfTheHandler

  // ── frames ────────────────────────────────────────────────────────────

  /** Map, parameters, done notifications and restart times are the same. */
  predicate SameRecords(s: Sys, t: Sys) {
    && t.jobs == s.jobs && |t.cells| == |s.cells|
    && forall id :: 0 <= id < |s.cells| ==>
         && t.cells[id].params == s.cells[id].params
         && t.cells[id].job.doneSent == s.cells[id].job.doneSent
         && t.cells[id].restartedAt == s.cells[id].restartedAt
  }

  lemma {:induction false} FollowedRecords(cells: seq<Cell>, next: Then, now: nat, id: JobId)
    requires id < |cells|
    ensures |Followed(cells, next, now)| == |cells|
    ensures var c := Followed(cells, next, now)[id];
            && c.params == cells[id].params && c.restartedAt == cells[id].restartedAt
            && c.job.doneSent == cells[id].job.doneSent
  {
  }

  /** Deciding on an operation, or queueing it, changes no record and neither queue of reports. */
  lemma {:induction false} AfterEnqueueRecords(s: Sys, next: Then)
    ensures SameRecords(s, AfterEnqueue(s, next))
  {
    forall id | 0 <= id < |s.cells| ensures
      var c := Followed(s.cells, next, s.now)[id];
      && c.params == s.cells[id].params && c.restartedAt == s.cells[id].restartedAt
      && c.job.doneSent == s.cells[id].job.doneSent
    {
      FollowedRecords(s.cells, next, s.now, id);
    }
    if |s.cells| > 0 { FollowedRecords(s.cells, next, s.now, 0); }
  }

  lemma {:induction false} DecideRecords(s: Sys, op: StoreOp, next: Then)
    ensures SameRecords(s, Decide(s, op, next))
    ensures Decide(s, op, next).doneQueue == s.doneQueue
    ensures Decide(s, op, next).restartedQueue == s.restartedQueue
    ensures Decide(s, op, next).cancelled == s.cancelled
  {
    AfterEnqueueRecords(s, next);
  }

  /** The steps that touch neither map nor records nor the two queues. */
  predicate IsAside(st: SysStep) {
    || st.Tick? || st.Submit? || st.Hook? || st.FinishRecovery? || st.TakeSfu? || st.GiveUpRouting?
    || st.WriterTake? || st.WriterAttempt? || st.SendReply? || st.FinishClosing? || st.FinishWriting?
  }

  lemma {:induction false} AsideRecords(s: Sys, st: SysStep, t: Sys)
    requires CanStep(s, st) && t == Advance(s, st) && IsAside(st)
    ensures SameRecords(s, t) && t.doneQueue == s.doneQueue && t.restartedQueue == s.restartedQueue
    ensures t.cancelled == s.cancelled
  {
    if st.TakeSfu? {
      assert t == Route(s.(sfuQueue := s.sfuQueue[1..]), s.sfuQueue[0]);
    } else if st.WriterTake? || st.WriterAttempt? || st.SendReply? {
      WriterRecords(s, st, t);
    }
  }

  lemma {:induction false} WriterRecords(s: Sys, st: SysStep, t: Sys)
    requires CanStep(s, st) && t == Advance(s, st) && (st.WriterTake? || st.WriterAttempt? || st.SendReply?)
    ensures t == s.(writer := t.writer, storeQueue := t.storeQueue, store := t.store, written := t.written,
                    dirty := t.dirty, replies := t.replies)
  {
  }

  lemma {:induction false} ForwardRecords(s: Sys, t: Sys)
    requires CanStep(s, Forward) && t == Advance(s, Forward)
    ensures SameRecords(s, t) && t.doneQueue == s.doneQueue && t.restartedQueue == s.restartedQueue
    ensures t.cancelled == s.cancelled
  {
  }

  lemma {:induction false} EnqueueRecords(s: Sys, t: Sys)
    requires CanStep(s, Enqueue) && t == Advance(s, Enqueue)
    ensures SameRecords(s, t) && t.doneQueue == s.doneQueue && t.restartedQueue == s.restartedQueue
    ensures t.cancelled == s.cancelled
  {
    AfterEnqueueRecords(s.(storeQueue := s.storeQueue + [s.pc.op], pc := Idle), s.pc.next);
  }

  lemma {:induction false} CancelRecords(s: Sys, t: Sys)
    requires t == Advance(s, CancelAll)
    ensures SameRecords(s, t) && t.restartedQueue == s.restartedQueue && t.cancelled
  {
  }

  /** An add request keeps the records of every job there was; the new one has reported nothing. */
  lemma {:induction false} AddRecords(s: Sys, p: Params, id: JobId)
    requires MapFits(s) && id < |s.cells|
    ensures var t := AddJob(s, p);
            && |t.cells| == |s.cells| + 1
            && t.cells[id].params == s.cells[id].params
            && t.cells[id].job.doneSent == s.cells[id].job.doneSent
            && t.cells[id].restartedAt == s.cells[id].restartedAt
            && (IsCurrent(t, id) ==> IsCurrent(s, id))
  {
    AddedIs(s, p, id);
    DisplacedIs(s, KeyOf(p), id);
    DecideRecords(Added(s, p), Save(KeyOf(p), StoredJob(p, s.now), Some(|s.replies|)), StartJob(|s.cells|));
  }

  lemma {:induction false} AddedReportsNothing(s: Sys, p: Params)
    ensures var t := AddJob(s, p);
            && t.doneQueue == s.doneQueue && t.restartedQueue == s.restartedQueue && t.cancelled == s.cancelled
            && |t.cells| == |s.cells| + 1 && t.cells[|s.cells|].job.doneSent == 0
  {
    AddedQueuesSame(s, p);
    DecideRecords(Added(s, p), Save(KeyOf(p), StoredJob(p, s.now), Some(|s.replies|)), StartJob(|s.cells|));
  }

  lemma {:induction false} ReviveRecords(s: Sys, e: StoredJob, rest: seq<StoredJob>, id: JobId)
    requires MapFits(s) && KeyOf(e.params) !in s.jobs && id < |s.cells|
    ensures var t := Revive(s, e, rest);
            && t.cells[id] == s.cells[id] && (IsCurrent(t, id) ==> IsCurrent(s, id))
  {
  }

  // ── done notifications ────────────────────────────────────────────────

  predicate DoneAwaited(s: Sys, id: JobId)
    requires id < |s.cells|
  {
    IsCurrent(s, id) && s.cells[id].job.doneSent >= 1 ==> id in s.doneQueue
  }

  /** A job in the map that has reported that it is done has its report in the queue. */
  predicate DoneQueued(s: Sys) {
    !s.cancelled ==> forall id :: 0 <= id < |s.cells| ==> DoneAwaited(s, id)
  }

  lemma {:induction false} SameDone(s: Sys, t: Sys)
    requires DoneQueued(s) && SameRecords(s, t) && t.doneQueue == s.doneQueue && t.cancelled == s.cancelled
    ensures DoneQueued(t)
  {
    forall id | 0 <= id < |t.cells| && !t.cancelled ensures DoneAwaited(t, id) { assert DoneAwaited(s, id); }
  }

  lemma {:induction false} WorkDone(s: Sys, id: JobId, step: Step, t: Sys)
    requires DoneQueued(s) && Ownership(s) && CanStep(s, Work(id, step)) && t == Advance(s, Work(id, step))
    ensures DoneQueued(t)
  {
    if !t.cancelled {
      assert OwnerFits(s, id);
      OwnStepFacts(s.cells[id].job, step, s.now);
      assert s.pc != Stopped;
      forall i | 0 <= i < |t.cells| ensures DoneAwaited(t, i) { assert DoneAwaited(s, i); }
    }
  }

  lemma {:induction false} TakeAddDone(s: Sys, t: Sys)
    requires DoneQueued(s) && MapFits(s) && CanStep(s, TakeAdd) && t == Advance(s, TakeAdd)
    ensures DoneQueued(t)
  {
    var rest, p := s.(addQueue := s.addQueue[1..]), s.addQueue[0];
    SameDone(s, rest);
    if p.timeout > 0 {
      AddedReportsNothing(rest, p);
      forall id | 0 <= id < |t.cells| && !t.cancelled ensures DoneAwaited(t, id) {
        if id < |s.cells| {
          AddRecords(rest, p, id);
          assert DoneAwaited(rest, id);
        }
      }
    }
  }

  lemma {:induction false} TakeDoneDone(s: Sys, t: Sys)
    requires DoneQueued(s) && MapFits(s) && CanStep(s, TakeDone) && t == Advance(s, TakeDone)
    ensures DoneQueued(t)
  {
    var rest, head := s.(doneQueue := s.doneQueue[1..]), s.doneQueue[0];
    var key := KeyOf(s.cells[head].params);
    var u := if IsCurrent(rest, head) then rest.(jobs := s.jobs - {key}) else rest;
    forall id | 0 <= id < |u.cells| && !u.cancelled ensures DoneAwaited(u, id) {
      assert DoneAwaited(s, id);
      assert s.doneQueue == [head] + u.doneQueue;
    }
    if IsCurrent(rest, head) {
      DecideRecords(u, Delete(key), StopJob(head));
      SameDone(u, t);
    }
  }

  lemma {:induction false} TakeRestartedDone(s: Sys, t: Sys)
    requires DoneQueued(s) && CanStep(s, TakeRestarted) && t == Advance(s, TakeRestarted)
    ensures DoneQueued(t)
  {
    var rest := s.(restartedQueue := s.restartedQueue[1..]);
    var Restarted(id, at) := s.restartedQueue[0];
    SameDone(s, rest);
    if IsCurrent(rest, id) {
      var u := rest.(cells := s.cells[id := s.cells[id].(restartedAt := at)]);
      forall i | 0 <= i < |u.cells| && !u.cancelled ensures DoneAwaited(u, i) { assert DoneAwaited(rest, i); }
      DecideRecords(u, Save(KeyOf(s.cells[id].params), StoredJob(s.cells[id].params, at), None), Continue);
      SameDone(u, t);
    }
  }

  lemma {:induction false} RecoverDone(s: Sys, ok: bool, applied: bool, t: Sys)
    requires DoneQueued(s) && MapFits(s) && RecoveryFits(s)
    requires CanStep(s, RecoverNext(ok, applied)) && t == Advance(s, RecoverNext(ok, applied))
    ensures DoneQueued(t)
  {
    var e, rest := s.pc.rest[0], s.pc.rest[1..];
    if Survives(e, s.now) {
      forall id | 0 <= id < |t.cells| && !t.cancelled ensures DoneAwaited(t, id) {
        if id < |s.cells| {
          ReviveRecords(s, e, rest, id);
          assert DoneAwaited(s, id);
        }
      }
    } else {
      SameDone(s, t);
    }
  }

  lemma {:induction false} StepDone(s: Sys, st: SysStep, t: Sys)
    requires DoneQueued(s) && SysInv(s) && CanStep(s, st) && t == Advance(s, st)
    ensures DoneQueued(t)
  {
    if IsAside(st) {
      AsideRecords(s, st, t);
      SameDone(s, t);
    } else {
      match st
      case Work(id, step) => WorkDone(s, id, step, t);
      case RecoverNext(ok, applied) => RecoverDone(s, ok, applied, t);
      case TakeAdd => TakeAddDone(s, t);
      case TakeDone => TakeDoneDone(s, t);
      case TakeRestarted => TakeRestartedDone(s, t);
      case Enqueue => EnqueueRecords(s, t); SameDone(s, t);
      case Forward => ForwardRecords(s, t); SameDone(s, t);
      case CancelAll => CancelRecords(s, t);
      case StartClosing =>
    }
  }

  /**
   * No done notification is lost: until the service shuts down, a job that has sent
   * one is out of the map or its notification is still in the queue.
   */
  lemma {:induction false} DoneIsNotLost(r: SysRun, i: nat)
    requires IsSysRun(r) && i < |r.states|
    ensures DoneQueued(r.states[i])
    decreases i
  {
    if i > 0 {
      DoneIsNotLost(r, i - 1);
      SysRunInv(r, i - 1);
      StepOfRun(r, i - 1);
      StepDone(r.states[i - 1], r.steps[i - 1], r.states[i]);
    }
  }

  // ── restart times ─────────────────────────────────────────────────────

  /** The last time reported for the job in the queue, or else this one. */
  function LastReported(queue: seq<Restarted>, id: JobId, known: nat): nat {
    if |queue| == 0 then known
    else LastReported(queue[1..], id, if queue[0].id == id then queue[0].at else known)
  }

  lemma {:induction false} LastReportedAppend(queue: seq<Restarted>, x: Restarted, id: JobId, known: nat)
    ensures LastReported(queue + [x], id, known) == if x.id == id then x.at else LastReported(queue, id, known)
  {
    if |queue| == 0 {
      assert (queue + [x])[1..] == [];
    } else {
      assert (queue + [x])[1..] == queue[1..] + [x];
      LastReportedAppend(queue[1..], x, id, if queue[0].id == id then queue[0].at else known);
    }
  }

  /** The restart time of the job once the handler has gone through its queue. */
  function Noted(s: Sys, id: JobId): nat
    requires id < |s.cells|
  {
    LastReported(s.restartedQueue, id, s.cells[id].restartedAt)
  }

  /** The restart time this step reports for the job, if it does. */
  function ReportOf(s: Sys, st: SysStep, id: JobId): Option<nat>
    requires CanStep(s, st)
  {
    if st.Work? && st.id == id && SendsRestarted(s.cells[id].job, st.step)
    then Some(s.cells[id].job.tasks[st.step.task].pc.restartedAt)
    else None
  }

  lemma {:induction false} WorkNoted(s: Sys, i: JobId, step: Step, t: Sys, id: JobId)
    requires CanStep(s, Work(i, step)) && t == Advance(s, Work(i, step)) && s.pc != Stopped && id < |s.cells|
    ensures Noted(t, id) == match ReportOf(s, Work(i, step), id) case Some(at) => at case None => Noted(s, id)
  {
    assert t.cells[id].restartedAt == s.cells[id].restartedAt;
    if SendsRestarted(s.cells[i].job, step) {
      var x := Restarted(i, s.cells[i].job.tasks[step.task].pc.restartedAt);
      assert t.restartedQueue == s.restartedQueue + [x];
      LastReportedAppend(s.restartedQueue, x, id, s.cells[id].restartedAt);
    }
  }

  lemma {:induction false} TakeRestartedNoted(s: Sys, t: Sys, id: JobId)
    requires CanStep(s, TakeRestarted) && t == Advance(s, TakeRestarted) && id < |s.cells| && IsCurrent(s, id)
    ensures id < |t.cells| && Noted(t, id) == Noted(s, id)
  {
    var rest := s.(restartedQueue := s.restartedQueue[1..]);
    var Restarted(i, at) := s.restartedQueue[0];
    if IsCurrent(rest, i) {
      var u := rest.(cells := s.cells[i := s.cells[i].(restartedAt := at)]);
      DecideRecords(u, Save(KeyOf(s.cells[i].params), StoredJob(s.cells[i].params, at), None), Continue);
    } else {
      StaleSignalsAreHarmless(s, TakeRestarted);
    }
  }

  lemma {:induction false} TakeDoneNoted(s: Sys, t: Sys, id: JobId)
    requires CanStep(s, TakeDone) && t == Advance(s, TakeDone) && id < |s.cells|
    ensures |t.cells| == |s.cells| && Noted(t, id) == Noted(s, id) && (IsCurrent(t, id) ==> IsCurrent(s, id))
  {
    var rest, head := s.(doneQueue := s.doneQueue[1..]), s.doneQueue[0];
    if IsCurrent(rest, head) {
      var u := rest.(jobs := s.jobs - {KeyOf(s.cells[head].params)});
      DecideRecords(u, Delete(KeyOf(s.cells[head].params)), StopJob(head));
    } else {
      StaleSignalsAreHarmless(s, TakeDone);
    }
  }

  lemma {:induction false} TakeAddNoted(s: Sys, t: Sys, id: JobId)
    requires MapFits(s) && CanStep(s, TakeAdd) && t == Advance(s, TakeAdd) && id < |s.cells|
    ensures id < |t.cells| && Noted(t, id) == Noted(s, id) && (IsCurrent(t, id) ==> IsCurrent(s, id))
  {
    var rest, p := s.(addQueue := s.addQueue[1..]), s.addQueue[0];
    if p.timeout > 0 {
      AddedReportsNothing(rest, p);
      AddRecords(rest, p, id);
    }
  }

  lemma {:induction false} RecoverNoted(s: Sys, ok: bool, applied: bool, t: Sys, id: JobId)
    requires MapFits(s) && RecoveryFits(s) && id < |s.cells|
    requires CanStep(s, RecoverNext(ok, applied)) && t == Advance(s, RecoverNext(ok, applied))
    ensures id < |t.cells| && Noted(t, id) == Noted(s, id) && (IsCurrent(t, id) ==> IsCurrent(s, id))
  {
    var e, rest := s.pc.rest[0], s.pc.rest[1..];
    if Survives(e, s.now) { ReviveRecords(s, e, rest, id); }
  }

  lemma {:induction false} OtherNoted(s: Sys, st: SysStep, t: Sys, id: JobId)
    requires CanStep(s, st) && t == Advance(s, st) && id < |s.cells|
    requires IsAside(st) || st.Enqueue? || st.Forward? || st.CancelAll? || st.StartClosing?
    ensures |t.cells| == |s.cells| && Noted(t, id) == Noted(s, id) && (IsCurrent(t, id) ==> IsCurrent(s, id))
  {
    if IsAside(st) {
      AsideRecords(s, st, t);
    } else if st.Enqueue? {
      EnqueueRecords(s, t);
    } else if st.Forward? {
      ForwardRecords(s, t);
    } else if st.CancelAll? {
      CancelRecords(s, t);
    }
  }

  /** A job that is in the map was in it before, if it existed. */
  lemma {:induction false} CurrentBefore(s: Sys, st: SysStep, t: Sys, id: JobId)
    requires MapFits(s) && RecoveryFits(s) && CanStep(s, st) && t == Advance(s, st)
    requires id < |s.cells| && IsCurrent(t, id)
    ensures IsCurrent(s, id)
  {
    if st.RecoverNext? {
      RecoverNoted(s, st.ok, st.applied, t, id);
    } else if st.TakeAdd? {
      TakeAddNoted(s, t, id);
    } else if st.TakeDone? {
      TakeDoneNoted(s, t, id);
    } else if st.TakeRestarted? {
      TakeRestartedSameMap(s, t, id);
    } else if IsWriteStep(st) {
      OtherNoted(s, st, t, id);
    } else {
      OtherStepFrame(s, st);
    }
  }

  lemma {:induction false} TakeRestartedSameMap(s: Sys, t: Sys, id: JobId)
    requires CanStep(s, TakeRestarted) && t == Advance(s, TakeRestarted) && id < |s.cells|
    ensures |t.cells| == |s.cells| && t.jobs == s.jobs && t.cells[id].params == s.cells[id].params
  {
  }

  /** The job exists since this moment. */
  ghost predicate IsBirth(r: SysRun, birth: nat, id: JobId) {
    && IsSysRun(r) && 0 < birth < |r.states|
    && |r.states[birth - 1].cells| <= id < |r.states[birth].cells|
  }

  /** The restart time known from its birth: the stored one of a recovered job, the present one of an added job. */
  function BirthTime(s: Sys): nat {
    if s.pc.Recovering? && |s.pc.rest| > 0 then s.pc.rest[0].restartedAt else s.now
  }

  lemma {:induction false} AddedIsNew(s: Sys, p: Params)
    requires MapFits(s) && QueuesFit(s)
    ensures var t := AddJob(s, p);
            && |t.cells| == |s.cells| + 1 && t.cells[|s.cells|].restartedAt == s.now
            && t.restartedQueue == s.restartedQueue
  {
    AddedQueuesSame(s, p);
    DecideRecords(Added(s, p), Save(KeyOf(p), StoredJob(p, s.now), Some(|s.replies|)), StartJob(|s.cells|));
    assert Added(s, p).cells[|s.cells|].restartedAt == s.now;
  }

  /** Only recovery and add requests make jobs, and nothing has been reported of a new one. */
  lemma {:induction false} BornUnreported(s: Sys, st: SysStep, t: Sys)
    requires MapFits(s) && QueuesFit(s) && RecoveryFits(s) && CanStep(s, st) && t == Advance(s, st)
    requires |t.cells| > |s.cells|
    ensures |t.cells| == |s.cells| + 1 && t.restartedQueue == s.restartedQueue
    ensures t.cells[|s.cells|].restartedAt == BirthTime(s)
  {
    SysStepCreates(s, st);
    if st.RecoverNext? {
      assert t == RecoverEntry(s, s.pc.rest[0], s.pc.rest[1..], st.ok, st.applied);
    } else if st.TakeAdd? {
      AddedIsNew(s.(addQueue := s.addQueue[1..]), s.addQueue[0]);
    } else if st.TakeDone? || st.TakeRestarted? || st.Enqueue? {
      TakeSize(s, st);
    } else if st.Work? || st.Forward? || st.CancelAll? || st.Tick? {
      TouchSize(s, st);
    } else {
      CellsUntouched(s, st);
    }
  }

  lemma {:induction false} NothingReported(queue: seq<Restarted>, id: JobId, known: nat)
    requires forall i :: 0 <= i < |queue| ==> queue[i].id != id
    ensures LastReported(queue, id, known) == known
  {
    if |queue| > 0 { NothingReported(queue[1..], id, known); }
  }

  /** The last restart time the job reported up to moment `n`, or the one known from its birth. */
  ghost function LastReport(r: SysRun, birth: nat, n: nat, id: JobId): nat
    requires IsBirth(r, birth, id) && birth <= n < |r.states|
    decreases n
  {
    if n == birth then BirthTime(r.states[birth - 1])
    else
      StepOfRun(r, n - 1);
      match ReportOf(r.states[n - 1], r.steps[n - 1], id)
      case Some(at) => at
      case None => LastReport(r, birth, n - 1, id)
  }

  lemma {:induction false} BornNoted(s: Sys, t: Sys, known: nat)
    requires QueuesFit(s) && |t.cells| == |s.cells| + 1 && t.restartedQueue == s.restartedQueue
    requires t.cells[|s.cells|].restartedAt == known
    ensures Noted(t, |s.cells|) == known
  {
    NothingReported(t.restartedQueue, |s.cells|, known);
  }

  lemma {:induction false} BornStep(s: Sys, st: SysStep, t: Sys)
    requires MapFits(s) && QueuesFit(s) && RecoveryFits(s) && CanStep(s, st) && t == Advance(s, st)
    requires |t.cells| > |s.cells|
    ensures |t.cells| == |s.cells| + 1 && Noted(t, |s.cells|) == BirthTime(s)
  {
    BornUnreported(s, st, t);
    BornNoted(s, t, BirthTime(s));
  }

  lemma {:induction false} NotedAtBirth(r: SysRun, birth: nat, id: JobId)
    requires IsBirth(r, birth, id)
    ensures Noted(r.states[birth], id) == BirthTime(r.states[birth - 1])
  {
    RunParts(r, birth - 1);
    StepOfRun(r, birth - 1);
    BornStep(r.states[birth - 1], r.steps[birth - 1], r.states[birth]);
  }

  lemma {:induction false} StoppedStays(s: Sys, st: SysStep)
    requires CanStep(s, st) && s.pc == Stopped
    ensures Advance(s, st).pc == Stopped
  {
    if st.Work? { assert Advance(s, st) == DoWork(s, st.id, st.step); }
  }

  /**
   * No restart time is lost, reordered or attributed to another job: as long as a
   * job stays in the map, the time the handler has noted for it, or will once it
   * has gone through its queue, is the last one the job ever reported, or the one it
   * was created with if it reported none.
   */
  lemma {:induction false} RestartTimesArrive(r: SysRun, birth: nat, n: nat, id: JobId)
    requires IsBirth(r, birth, id) && birth <= n < |r.states| && r.states[n].pc != Stopped
    requires IsCurrent(r.states[n], id)
    ensures Noted(r.states[n], id) == LastReport(r, birth, n, id)
    decreases n
  {
    if n == birth {
      NotedAtBirth(r, birth, id);
    } else {
      JobsStay(r, birth, n - 1);
      NotedOnce(r, n, id);
      RestartTimesArrive(r, birth, n - 1, id);
    }
  }

  /** One step of it: a report is the news, and without one the time stays. */
  lemma {:induction false} NotedOnce(r: SysRun, n: nat, id: JobId)
    requires IsSysRun(r) && 0 < n < |r.states| && r.states[n].pc != Stopped
    requires id < |r.states[n - 1].cells| && IsCurrent(r.states[n], id)
    ensures CanStep(r.states[n - 1], r.steps[n - 1]) && IsCurrent(r.states[n - 1], id) && r.states[n - 1].pc != Stopped
    ensures Noted(r.states[n], id)
            == match ReportOf(r.states[n - 1], r.steps[n - 1], id)
               case Some(at) => at
               case None => Noted(r.states[n - 1], id)
  {
    RunParts(r, n - 1);
    StepOfRun(r, n - 1);
    CurrentBefore(r.states[n - 1], r.steps[n - 1], r.states[n], id);
    if r.states[n - 1].pc == Stopped { StoppedStays(r.states[n - 1], r.steps[n - 1]); }
    NotedStep(r.states[n - 1], r.steps[n - 1], r.states[n], id);
  }

  /** Jobs are never forgotten. */
  lemma {:induction false} JobsStay(r: SysRun, i: nat, n: nat)
    requires IsSysRun(r) && i <= n < |r.states|
    ensures |r.states[i].cells| <= |r.states[n].cells|
  {
    if i < n {
      JobsStay(r, i, n - 1);
      JobsStayAt(r, n);
    }
  }

  lemma {:induction false} JobsStayAt(r: SysRun, n: nat)
    requires IsSysRun(r) && 0 < n < |r.states|
    ensures |r.states[n - 1].cells| <= |r.states[n].cells|
  {
    RunParts(r, n - 1);
    StepOfRun(r, n - 1);
    SysStepCreates(r.states[n - 1], r.steps[n - 1]);
  }

  lemma {:induction false} NotedStep(s: Sys, st: SysStep, t: Sys, id: JobId)
    requires MapFits(s) && RecoveryFits(s) && CanStep(s, st) && t == Advance(s, st) && s.pc != Stopped
    requires id < |s.cells| && IsCurrent(s, id)
    ensures id < |t.cells|
    ensures Noted(t, id) == match ReportOf(s, st, id) case Some(at) => at case None => Noted(s, id)
  {
    if st.Work? {
      WorkNoted(s, st.id, st.step, t, id);
    } else {
      SilentStep(s, st, t, id);
    }
  }

  /** A step that is no report leaves what is noted alone. */
  lemma {:induction false} SilentStep(s: Sys, st: SysStep, t: Sys, id: JobId)
    requires MapFits(s) && RecoveryFits(s) && CanStep(s, st) && t == Advance(s, st) && !st.Work?
    requires id < |s.cells| && IsCurrent(s, id)
    ensures id < |t.cells| && Noted(t, id) == Noted(s, id)
  {
    if st.RecoverNext? {
      RecoverNoted(s, st.ok, st.applied, t, id);
    } else if st.TakeAdd? || st.TakeDone? || st.TakeRestarted? {
      TakenNoted(s, st, t, id);
    } else {
      RestIsOther(st);
      OtherNoted(s, st, t, id);
    }
  }

  lemma {:induction false} TakenNoted(s: Sys, st: SysStep, t: Sys, id: JobId)
    requires MapFits(s) && CanStep(s, st) && t == Advance(s, st) && (st.TakeAdd? || st.TakeDone? || st.TakeRestarted?)
    requires id < |s.cells| && IsCurrent(s, id)
    ensures id < |t.cells| && Noted(t, id) == Noted(s, id)
  {
    match st
    case TakeAdd => TakeAddNoted(s, t, id);
    case TakeDone => TakeDoneNoted(s, t, id);
    case TakeRestarted => TakeRestartedNoted(s, t, id);
  }

  lemma {:induction false} RestIsOther(st: SysStep)
    requires !st.Work? && !st.RecoverNext? && !st.TakeAdd? && !st.TakeDone? && !st.TakeRestarted?
    ensures IsAside(st) || st.Enqueue? || st.Forward? || st.CancelAll? || st.StartClosing?
  {
  }

  // ── webhook signals ───────────────────────────────────────────────────

  /**
   * A webhook signal goes to the job in the map under its own room and identity,
   * unchanged, and is dropped if there is none; no job is touched meanwhile.
   */
  lemma {:induction false} SignalsReachTheirJob(r: SysRun, i: nat)
    requires IsSysRun(r) && i < |r.steps| && r.steps[i] == TakeSfu
    ensures |r.states[i].sfuQueue| > 0
    ensures var s, t, e := r.states[i], r.states[i + 1], r.states[i].sfuQueue[0];
            && t.cells == s.cells && t.jobs == s.jobs && t.sfuQueue == s.sfuQueue[1..]
            && (t.pc == Idle <==>
                  forall id :: 0 <= id < |s.cells| && IsCurrent(s, id) ==> KeyOf(s.cells[id].params) != e.key)
            && (t.pc != Idle ==>
                  t.pc.Routing? && t.pc.signal == e.signal && t.pc.id < |s.cells|
                  && IsCurrent(s, t.pc.id) && KeyOf(s.cells[t.pc.id].params) == e.key)
  {
    SysRunInv(r, i);
    StepOfRun(r, i);
    var s, e := r.states[i], r.states[i].sfuQueue[0];
    assert IsWebhookSignal(e.signal);
    if e.key in s.jobs { assert IsCurrent(s, s.jobs[e.key]); }
  }

  /**
   * And it is delivered: until the service shuts down, the job a signal is being
   * routed to stays in the map and uncancelled with its loop running, so routing is
   * never given up; the signal goes in as soon as there is room in the queue, and
   * it is appended to that job's queue and no other.
   */
  lemma {:induction false} RoutedSignalIsDelivered(r: SysRun, i: nat)
    requires IsSysRun(r) && i < |r.states| && r.states[i].pc.Routing? && !r.states[i].cancelled
    ensures var s, id, e := r.states[i], r.states[i].pc.id, r.states[i].pc.signal;
            && IsCurrent(s, id) && !s.cells[id].job.cancelled && s.cells[id].job.loop == Running
            && !CanStep(s, GiveUpRouting)
            && (CanStep(s, Forward) <==> |s.cells[id].job.events| < EVENT_CAPACITY)
            && (i < |r.steps| && r.steps[i] == Forward ==>
                  var t := r.states[i + 1];
                  && t.pc == Idle && |t.cells| == |s.cells|
                  && t.cells[id].job == s.cells[id].job.(events := s.cells[id].job.events + [e])
                  && forall k :: 0 <= k < |s.cells| && k != id ==> t.cells[k] == s.cells[k])
  {
    RunQueues(r, i);
    RunOwner(r, i, r.states[i].pc.id);
    RunJob(r, i, r.states[i].pc.id);
    RoutingTarget(r.states[i]);
    if i < |r.steps| && r.steps[i] == Forward {
      StepOfRun(r, i);
      ForwardAppends(r.states[i], r.states[i + 1]);
    }
  }

  lemma {:induction false} ForwardAppends(s: Sys, t: Sys)
    requires CanStep(s, Forward) && t == Advance(s, Forward)
    ensures t.pc == Idle && |t.cells| == |s.cells|
    ensures var j := s.cells[s.pc.id].job; t.cells[s.pc.id].job == j.(events := j.events + [s.pc.signal])
    ensures forall k :: 0 <= k < |s.cells| && k != s.pc.id ==> t.cells[k] == s.cells[k]
  {
  }
}
