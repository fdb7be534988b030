/** What each signal to the handler does to its jobs, its map and its decisions. */
module HandlerEffects {
  import opened Support
  import opened Fsm
  import opened JobModel
  import opened JobInvariant
  import opened HandlerModel
  import opened HandlerInvariant
  import opened HandlerProperties
  import opened JobsOfTheHandler
  import opened HandlerDelivery

  /** The other jobs are as they were. */
  predicate OthersSame(s: Sys, t: Sys, except: set<JobId>) {
    |s.cells| <= |t.cells| && forall id :: 0 <= id < |s.cells| && id !in except ==> t.cells[id] == s.cells[id]
  }

  /** The job under this key, if there is one. */
  function Holder(s: Sys, key: JobKey): set<JobId> {
    if key in s.jobs then {s.jobs[key]} else {}
  }

  lemma {:induction false} AddedOthers(s: Sys, p: Params)
    requires MapFits(s)
    ensures OthersSame(s, Added(s, p), Holder(s, KeyOf(p)))
    ensures KeyOf(p) in s.jobs ==>
              var old' := s.jobs[KeyOf(p)];
              && Added(s, p).cells[old'].params == s.cells[old'].params
              && Added(s, p).cells[old'].job == Next(s.cells[old'].job, Replace, s.now)
    ensures var c := Added(s, p).cells[|s.cells|];
            && c.params == p && c.restartedAt == s.now
            && c.job == NewJob(p.timeout, s.sanity).(cancelled := s.cancelled)
    ensures Added(s, p).jobs == s.jobs[KeyOf(p) := |s.cells|] && Added(s, p).hasStore == s.hasStore
    ensures Added(s, p).decided == s.decided && Added(s, p).now == s.now
    ensures Added(s, p).replies == s.replies + [Reply(|s.decided|, !s.hasStore, false)]
  {
    AddedSize(s, p);
    forall id | 0 <= id < |s.cells| && id !in Holder(s, KeyOf(p)) ensures Added(s, p).cells[id] == s.cells[id] {
      DisplacedIs(s, KeyOf(p), id);
    }
    if KeyOf(p) in s.jobs { DisplacedIs(s, KeyOf(p), s.jobs[KeyOf(p)]); }
    AddedHistory(s, p);
  }

  /** What an accepted request makes of the handler's state. */
  predicate IsAccepted(s: Sys, t: Sys, p: Params)
    requires MapFits(s)
  {
    var key, id := KeyOf(p), |s.cells|;
    && t.jobs == s.jobs[key := id] && |t.cells| == id + 1 && OthersSame(s, t, Holder(s, key))
    && t.cells[id].params == p && t.cells[id].restartedAt == s.now
    && t.cells[id].job.timeout == p.timeout && t.cells[id].job.sanity == s.sanity
    && t.cells[id].job.cancelled == s.cancelled && t.cells[id].job.state == WaitingForInitialConnect
    && (t.cells[id].job.loop == Running <==> !s.hasStore)
    && (key in s.jobs ==> t.cells[s.jobs[key]].job.replaced && t.cells[s.jobs[key]].job.cancelled)
    && |t.replies| == |s.replies| + 1 && t.replies[..|s.replies|] == s.replies
    && (t.replies[|s.replies|].done <==> !s.hasStore) && !t.replies[|s.replies|].sent
    && t.decided == s.decided + if s.hasStore then [Save(key, StoredJob(p, s.now), Some(|s.replies|))] else []
  }

  lemma {:induction false} AcceptedByAdd(s: Sys, p: Params)
    requires MapFits(s)
    ensures IsAccepted(s, AddJob(s, p), p)
  {
    AddedOthers(s, p);
    var u, id := Added(s, p), |s.cells|;
    var op := Save(KeyOf(p), StoredJob(p, s.now), Some(|s.replies|));
    DecideHistory(u, op, StartJob(id));
    assert AddJob(s, p) == Decide(u, op, StartJob(id));
    if s.hasStore {
      assert AddJob(s, p).cells == u.cells;
    } else {
      assert AddJob(s, p).cells == u.cells[id := u.cells[id].(job := Launch(u.cells[id].job, s.now))];
    }
  }

  /**
   * A request with a delay timeout gives its key a new job with just these parameters,
   * replaces the job that had the key, and owes the client an answer; with a store a
   * Save of just that is decided, and without one the job starts at once. A request
   * without a delay timeout changes nothing.
   */
  lemma {:induction false} RequestTakesEffect(r: SysRun, i: nat)
    requires IsSysRun(r) && i < |r.steps| && r.steps[i] == TakeAdd
    ensures MapFits(r.states[i]) && MapFits(r.states[i + 1]) && |r.states[i].addQueue| > 0
    ensures var s, t, p := r.states[i], r.states[i + 1], r.states[i].addQueue[0];
            && t.addQueue == s.addQueue[1..]
            && (p.timeout == 0 ==> t == s.(addQueue := t.addQueue))
            && (p.timeout > 0 ==> IsAccepted(s, t, p) && View(t) == View(s)[KeyOf(p) := StoredJob(p, s.now)])
  {
    StepOfRun(r, i);
    SysRunWrites(r, i);
    SysRunWrites(r, i + 1);
    RequestAccepted(r.states[i]);
  }

  lemma {:induction false} RequestAccepted(s: Sys)
    requires MapFits(s) && CanStep(s, TakeAdd)
    ensures var t, p := Advance(s, TakeAdd), s.addQueue[0];
            && t.addQueue == s.addQueue[1..]
            && (p.timeout == 0 ==> t == s.(addQueue := t.addQueue))
            && (p.timeout > 0 ==>
                  && IsAccepted(s, t, p) && MapFits(t) && View(t) == View(s)[KeyOf(p) := StoredJob(p, s.now)])
  {
    var rest, p := s.(addQueue := s.addQueue[1..]), s.addQueue[0];
    if p.timeout > 0 {
      AcceptedByAdd(rest, p);
      AcceptedKeepsQueue(rest, p);
      AcceptedView(rest, p);
    }
  }

  lemma {:induction false} AcceptedKeepsQueue(s: Sys, p: Params)
    ensures AddJob(s, p).addQueue == s.addQueue
  {
    var d := Displaced(s, KeyOf(p));
    assert d == s.(cells := d.cells);
    assert Added(s, p).addQueue == s.addQueue;
  }

  lemma {:induction false} AcceptedView(s: Sys, p: Params)
    requires MapFits(s)
    ensures MapFits(AddJob(s, p)) && View(AddJob(s, p)) == View(s)[KeyOf(p) := StoredJob(p, s.now)]
  {
    AddedMap(s, p);
    AddedView(s, p);
    var u := Added(s, p);
    if s.hasStore {
      SameView(u, AddJob(s, p));
    } else {
      AfterEnqueueView(u, StartJob(|s.cells|));
    }
  }

  /** A job that reports done is taken off the map and is to be stopped, unless it is not in the map. */
  lemma {:induction false} DoneTakesEffect(r: SysRun, i: nat)
    requires IsSysRun(r) && i < |r.steps| && r.steps[i] == TakeDone
    ensures MapFits(r.states[i]) && |r.states[i].doneQueue| > 0 && r.states[i].doneQueue[0] < |r.states[i].cells|
    ensures var s, t, id := r.states[i], r.states[i + 1], r.states[i].doneQueue[0];
            var key := KeyOf(s.cells[id].params);
            && OthersSame(s, t, {id}) && |t.cells| == |s.cells| && t.doneQueue == s.doneQueue[1..]
            && if !IsCurrent(s, id) then t.jobs == s.jobs && t.decided == s.decided && t.cells == s.cells
               else
                 && t.jobs == s.jobs - {key}
                 && t.decided == s.decided + (if s.hasStore then [Delete(key)] else [])
                 && (s.hasStore ==> t.pc == Enqueuing(Delete(key), StopJob(id)) && t.cells == s.cells)
                 && (!s.hasStore ==> t.pc == Idle && t.cells[id].job.cancelled)
  {
    StepOfRun(r, i);
    SysRunWrites(r, i);
    var s, id := r.states[i], r.states[i].doneQueue[0];
    var key, rest := KeyOf(s.cells[id].params), s.(doneQueue := s.doneQueue[1..]);
    if IsCurrent(s, id) { RemovedSo(rest, id); }
  }

  lemma {:induction false} RemovedSo(s: Sys, id: JobId)
    requires id < |s.cells| && IsCurrent(s, id) && s.pc == Idle
    ensures var t, key := RemoveJob(s, id), KeyOf(s.cells[id].params);
            && OthersSame(s, t, {id}) && |t.cells| == |s.cells| && t.doneQueue == s.doneQueue
            && t.jobs == s.jobs - {key}
            && t.decided == s.decided + (if s.hasStore then [Delete(key)] else [])
            && (s.hasStore ==> t.pc == Enqueuing(Delete(key), StopJob(id)) && t.cells == s.cells)
            && (!s.hasStore ==> t.pc == Idle && t.cells[id].job.cancelled)
  {
  }

  /** A restart time is noted, and saved with the job's parameters, unless the job is not in the map. */
  lemma {:induction false} RestartTakesEffect(r: SysRun, i: nat)
    requires IsSysRun(r) && i < |r.steps| && r.steps[i] == TakeRestarted
    ensures |r.states[i].restartedQueue| > 0 && r.states[i].restartedQueue[0].id < |r.states[i].cells|
    ensures var s, t, Restarted(id, at) := r.states[i], r.states[i + 1], r.states[i].restartedQueue[0];
            && t.jobs == s.jobs && OthersSame(s, t, {id}) && |t.cells| == |s.cells|
            && t.cells[id].job == s.cells[id].job && t.cells[id].params == s.cells[id].params
            && if !IsCurrent(s, id) then t.cells == s.cells && t.decided == s.decided
               else
                 && t.cells[id].restartedAt == at
                 && var p := s.cells[id].params;
                    t.decided == s.decided + if s.hasStore then [Save(KeyOf(p), StoredJob(p, at), None)] else []
  {
    StepOfRun(r, i);
    var s := r.states[i];
    var rest := s.(restartedQueue := s.restartedQueue[1..]);
    NotedSo(rest, s.restartedQueue[0].id, s.restartedQueue[0].at);
  }

  lemma {:induction false} NotedSo(s: Sys, id: JobId, at: nat)
    requires id < |s.cells|
    ensures var t := NoteRestart(s, id, at);
            && t.jobs == s.jobs && OthersSame(s, t, {id}) && |t.cells| == |s.cells|
            && t.cells[id].job == s.cells[id].job && t.cells[id].params == s.cells[id].params
            && if !IsCurrent(s, id) then t.cells == s.cells && t.decided == s.decided
               else
                 && t.cells[id].restartedAt == at
                 && var p := s.cells[id].params;
                    t.decided == s.decided + if s.hasStore then [Save(KeyOf(p), StoredJob(p, at), None)] else []
  {
  }

  /** When the loop waits for the next signal every job has been started, and every one not in the map stopped. */
  lemma {:induction false} IdleMeansSettled(r: SysRun, i: nat, id: JobId)
    requires IsSysRun(r) && i < |r.states| && r.states[i].pc == Idle && id < |r.states[i].cells|
    ensures r.states[i].cells[id].job.loop != NotStarted
    ensures !IsCurrent(r.states[i], id) ==> r.states[i].cells[id].job.cancelled
  {
    RunOwner(r, i, id);
  }

  /** Time passes, what comes in waits its turn at the end of its queue, and nothing else changes. */
  lemma {:induction false} InputsAreQueued(r: SysRun, i: nat)
    requires IsSysRun(r) && i < |r.steps|
    ensures r.steps[i].Tick? ==> r.states[i + 1] == r.states[i].(now := r.states[i].now + r.steps[i].d)
    ensures r.steps[i].Submit? ==>
              r.states[i + 1] == r.states[i].(addQueue := r.states[i].addQueue + [r.steps[i].params])
    ensures r.steps[i].Hook? ==>
              && r.steps[i].hook != Other
              && var signal := match r.steps[i].hook
                               case Joined => ParticipantConnected
                               case Left(true) => ParticipantDisconnectedIntentionally
                               case Aborting(true) => ParticipantDisconnectedIntentionally
                               case _ => ParticipantConnectionAborted;
                 r.states[i + 1] == r.states[i].(sfuQueue := r.states[i].sfuQueue + [SfuEvent(r.steps[i].key, signal)])
  {
    StepOfRun(r, i);
  }

  /**
   * An entry whose event is still ahead becomes a running job with just its parameters
   * and restart time; any other is deleted, and no job comes of it.
   */
  lemma {:induction false} EntryTakesEffect(r: SysRun, i: nat)
    requires IsSysRun(r) && i < |r.steps| && r.steps[i].RecoverNext?
    ensures r.states[i].pc.Recovering? && |r.states[i].pc.rest| > 0
    ensures var s, t, e := r.states[i], r.states[i + 1], r.states[i].pc.rest[0];
            var key, id := KeyOf(e.params), |s.cells|;
            && t.pc == Recovering(s.pc.rest[1..]) && OthersSame(s, t, {}) && t.decided == s.decided
            && if IsPending(e, s.now) then
                 && |t.cells| == id + 1 && t.jobs == s.jobs[key := id] && t.store == s.store
                 && t.cells[id].params == e.params && t.cells[id].restartedAt == e.restartedAt
                 && t.cells[id].job.timeout == e.params.timeout && t.cells[id].job.sanity == s.sanity
                 && t.cells[id].job.loop == Running && t.cells[id].job.cancelled == s.cancelled
               else
                 && t.cells == s.cells && t.jobs == s.jobs
                 && t.store == if r.steps[i].applied then s.store - {key} else s.store
  {
    StepOfRun(r, i);
    var s, e := r.states[i], r.states[i].pc.rest[0];
    SurvivesIfPending(e, s.now);
    assert r.states[i + 1] == RecoverEntry(s, e, s.pc.rest[1..], r.steps[i].ok, r.steps[i].applied);
  }

  /**
   * The loop waits for nothing but what it waits for: idle, it takes from any queue
   * that holds something; with an operation in hand, it goes on as soon as there is
   * room in the store queue, whoever else is doing what.
   */
  lemma {:induction false} LoopTakesWhatComes(r: SysRun, i: nat)
    requires IsSysRun(r) && i < |r.states|
    ensures var s := r.states[i];
            && (s.pc == Idle ==>
                  && (CanStep(s, TakeAdd) <==> |s.addQueue| > 0) && (CanStep(s, TakeSfu) <==> |s.sfuQueue| > 0)
                  && (CanStep(s, TakeDone) <==> |s.doneQueue| > 0)
                  && (CanStep(s, TakeRestarted) <==> |s.restartedQueue| > 0)
                  && (CanStep(s, StartClosing) <==> s.cancelled))
            && (s.pc.Enqueuing? ==> (CanStep(s, Enqueue) <==> |s.storeQueue| < 256))
            && (s.pc.Recovering? ==>
                  if s.pc.rest == [] then CanStep(s, FinishRecovery)
                  else forall ok, applied :: (ok ==> applied) ==> CanStep(s, RecoverNext(ok, applied)))
  {
    RunParts(r, i);
    if r.states[i].pc == Idle { IdleTakes(r.states[i]); }
    WaitingGoesOn(r.states[i]);
  }

  lemma {:induction false} IdleTakes(s: Sys)
    requires QueuesFit(s) && s.pc == Idle
    ensures (CanStep(s, TakeAdd) <==> |s.addQueue| > 0) && (CanStep(s, TakeSfu) <==> |s.sfuQueue| > 0)
    ensures (CanStep(s, TakeDone) <==> |s.doneQueue| > 0) && (CanStep(s, TakeRestarted) <==> |s.restartedQueue| > 0)
    ensures CanStep(s, StartClosing) <==> s.cancelled
  {
  }

  lemma {:induction false} WaitingGoesOn(s: Sys)
    ensures s.pc.Enqueuing? ==> (CanStep(s, Enqueue) <==> |s.storeQueue| < 256)
    ensures s.pc.Recovering? && s.pc.rest == [] ==> CanStep(s, FinishRecovery)
    ensures s.pc.Recovering? && s.pc.rest != [] ==>
              forall ok, applied :: (ok ==> applied) ==> CanStep(s, RecoverNext(ok, applied))
  {
  }

  /** So does the writer, whatever its operations come to. */
  lemma {:induction false} WriterTakesWhatComes(s: Sys)
    ensures s.writer == Resting ==> (CanStep(s, WriterTake) <==> |s.storeQueue| > 0)
    ensures s.writer.Writing? ==> forall ok, applied :: CanStep(s, WriterAttempt(ok, applied)) <==> (ok ==> applied)
  {
  }

  /**
   * When the loop begins to close every job is cancelled and the queue of done reports
   * is empty, so no task is blocked on it any more.
   */
  lemma {:induction false} ClosingBegins(r: SysRun, i: nat)
    requires IsSysRun(r) && i < |r.steps| && r.steps[i] == StartClosing
    ensures var t := r.states[i + 1];
            && t.pc == Closing && t.doneQueue == [] && t.jobs == r.states[i].jobs && t.cells == r.states[i].cells
            && forall id :: 0 <= id < |t.cells| ==> t.cells[id].job.cancelled
  {
    StepOfRun(r, i);
    forall id | 0 <= id < |r.states[i].cells| ensures r.states[i].cells[id].job.cancelled { RunOwner(r, i, id); }
  }

  // ── answers to clients ────────────────────────────────────────────────

  lemma {:induction false} AddReplies(s: Sys, p: Params)
    ensures AddJob(s, p).replies == s.replies + [Reply(|s.decided|, !s.hasStore, false)]
  {
    var d := Displaced(s, KeyOf(p));
    assert d == s.(cells := d.cells);
    assert AddJob(s, p).replies == Added(s, p).replies;
  }

  lemma {:induction false} TakeReplies(s: Sys, st: SysStep)
    requires CanStep(s, st) && (st.TakeDone? || st.TakeRestarted? || st.Enqueue?)
    ensures Advance(s, st).replies == s.replies
  {
  }

  lemma {:induction false} SentStays(s: Sys, st: SysStep, k: nat)
    requires CanStep(s, st) && k < |s.replies| && s.replies[k].sent
    ensures k < |Advance(s, st).replies| && Advance(s, st).replies[k].sent
  {
    if st.TakeAdd? {
      if s.addQueue[0].timeout > 0 { AddReplies(s.(addQueue := s.addQueue[1..]), s.addQueue[0]); }
    } else if st.TakeDone? || st.TakeRestarted? || st.Enqueue? {
      TakeReplies(s, st);
    } else if st.RecoverNext? {
      RecoverFrame(s, st.ok, st.applied);
    } else if st.WriterTake? {
      WriterTakeFrame(s);
    } else if st.WriterAttempt? {
      assert Advance(s, st).replies == Released(s.replies, s.writer.op);
    } else if !st.SendReply? {
      OtherStepFrame(s, st);
    }
  }

  /** A client gets its answer when it is sent, and never a second one. */
  lemma {:induction false} AnsweredOnce(r: SysRun, i: nat, n: nat, k: nat)
    requires IsSysRun(r) && i < n < |r.states| && r.steps[i] == SendReply(k)
    ensures k < |r.states[n].replies| && r.states[n].replies[k].sent
    ensures n < |r.steps| ==> r.steps[n] != SendReply(k)
    decreases n
  {
    StepOfRun(r, n - 1);
    if i < n - 1 {
      AnsweredOnce(r, i, n - 1, k);
      SentStays(r.states[n - 1], r.steps[n - 1], k);
    }
    if n < |r.steps| { StepOfRun(r, n); }
  }
}
