/** What holds over whole runs of the handler, the writer and all the jobs together. */
module HandlerProperties {
  import opened Support
  import opened Fsm
  import opened JobModel
  import opened JobInvariant
  import opened JobProperties
  import opened HandlerModel
  import opened HandlerInvariant

  // ── one live job per key ──────────────────────────────────────────────

  /**
   * Until the service shuts down, no two uncancelled jobs ever share a key; and
   * whenever the loop is about to select, the uncancelled jobs are exactly the
   * values of the map, each under its own key.
   */
  lemma {:induction false} OneLiveJobPerKey(r: SysRun, i: nat, a: JobId, b: JobId)
    requires IsSysRun(r) && i < |r.states| && !r.states[i].cancelled
    requires a < |r.states[i].cells| && b < |r.states[i].cells|
    ensures var s := r.states[i];
            && (!s.cells[a].job.cancelled && !s.cells[b].job.cancelled ==>
                  KeyOf(s.cells[a].params) == KeyOf(s.cells[b].params) ==> a == b)
            && (s.pc == Idle ==> (!s.cells[a].job.cancelled <==> IsCurrent(s, a)))
  {
    RunOwner(r, i, a);
    RunOwner(r, i, b);
    LiveOnes(r.states[i], a, b);
  }

  /** What the invariant says of the ownership of one job. */
  lemma {:induction false} RunOwner(r: SysRun, i: nat, id: JobId)
    requires IsSysRun(r) && i < |r.states| && id < |r.states[i].cells|
    ensures OwnerFits(r.states[i], id) && PcFits(r.states[i]) && QueuesFit(r.states[i]) && MapFits(r.states[i])
  {
    SysRunInv(r, i);
  }

  lemma {:induction false} RunParts(r: SysRun, i: nat)
    requires IsSysRun(r) && i < |r.states|
    ensures MapFits(r.states[i]) && QueuesFit(r.states[i]) && RecoveryFits(r.states[i])
  {
    SysRunInv(r, i);
  }

  /** And what it says of the job itself. */
  lemma {:induction false} RunJob(r: SysRun, i: nat, id: JobId)
    requires IsSysRun(r) && i < |r.states| && id < |r.states[i].cells|
    ensures Inv(r.states[i].cells[id].job, r.states[i].now)
  {
    SysRunInv(r, i);
    assert CellFits(r.states[i].cells[id], r.states[i].now);
  }

  lemma {:induction false} LiveOnes(s: Sys, a: JobId, b: JobId)
    requires !s.cancelled && a < |s.cells| && b < |s.cells| && OwnerFits(s, a) && OwnerFits(s, b) && PcFits(s)
    ensures !s.cells[a].job.cancelled && !s.cells[b].job.cancelled ==>
              KeyOf(s.cells[a].params) == KeyOf(s.cells[b].params) ==> a == b
    ensures s.pc == Idle ==> (!s.cells[a].job.cancelled <==> IsCurrent(s, a))
  {
  }

  /**
   * An attempt of a retry loop is started only by a job that was not replaced. That
   * job is the one in the map if and only if the handler is not between removing it
   * and stopping it (see RetiringWindow); and an attempt to send a leave always
   * comes from the map.
   */
  lemma {:induction false} AttemptsComeFromTheMap(r: SysRun, i: nat, id: JobId, step: Step)
    requires IsSysRun(r) && i < |r.states|
    requires CanStep(r.states[i], Work(id, step)) && StartsAttempt(r.states[i].cells[id].job, step)
    ensures var s := r.states[i];
            && !s.cells[id].job.replaced && !s.cancelled
            && (IsCurrent(s, id) <==> !Retiring(s, id))
            && (s.cells[id].job.tasks[step.task].kind == SendAction ==> IsCurrent(s, id))
  {
    SysRunInv(r, i);
    var s := r.states[i];
    assert CellFits(s.cells[id], s.now) && OwnerFits(s, id);
    StarterIsLive(s.cells[id].job, step, s.now);
    if s.cells[id].job.tasks[step.task].kind == SendAction { SendingMeansNotDone(s.cells[id].job, step.task); }
  }

  lemma {:induction false} StarterIsLive(j: Job, step: Step, now: nat)
    requires Enabled(j, step, now) && StartsAttempt(j, step)
    ensures !j.cancelled && step.task < |j.tasks| && j.tasks[step.task].pc != Finished
  {
  }

  /** A job whose send has not ended has not reported that it is done. */
  lemma {:induction false} SendingMeansNotDone(j: Job, t: nat)
    requires NotifierInv(j) && t < |j.tasks| && j.tasks[t].kind == SendAction && j.tasks[t].pc != Finished
    ensures j.doneSent == 0
  {
    CountPositive(j.tasks, t, IsLiveNotifier);
  }

  /** A signal from a job the map no longer holds changes nothing but the queue it came from. */
  lemma {:induction false} StaleSignalsAreHarmless(s: Sys, st: SysStep)
    requires CanStep(s, st)
    requires (st == TakeDone && !IsCurrent(s, s.doneQueue[0]))
             || (st == TakeRestarted && !IsCurrent(s, s.restartedQueue[0].id))
    ensures Advance(s, st) == s.(doneQueue := Advance(s, st).doneQueue, restartedQueue := Advance(s, st).restartedQueue)
  {
  }

  // ── a leave is never cut short ────────────────────────────────────────

  /**
   * A job that entered Disconnected, was not replaced and does not belong to a
   * service shutting down is neither cancelled nor taken out of the map while its
   * send is still resolving, trying or backing off.
   */
  lemma {:induction false} CleanupNeverCutsLeaveShort(r: SysRun, i: nat, id: JobId, t: nat)
    requires IsSysRun(r) && i < |r.states| && !r.states[i].cancelled
    requires id < |r.states[i].cells| && t < |r.states[i].cells[id].job.tasks|
    requires var j := r.states[i].cells[id].job;
             !j.replaced && j.tasks[t].kind == SendAction && j.tasks[t].pc != Finished
    ensures !r.states[i].cells[id].job.cancelled && IsCurrent(r.states[i], id)
    ensures Disconnected in r.states[i].cells[id].job.entered
  {
    SysRunInv(r, i);
    var s := r.states[i];
    var j := s.cells[id].job;
    assert CellFits(s.cells[id], s.now) && OwnerFits(s, id);
    SendingMeansNotDone(j, t);
    assert IsCurrent(s, id);
  }

  /** Conversely the map only lets go of a job that was replaced or has reported that its work is done. */
  lemma {:induction false} OnlyDoneJobsRetire(r: SysRun, i: nat, id: JobId)
    requires IsSysRun(r) && i < |r.states| && id < |r.states[i].cells|
    requires !IsCurrent(r.states[i], id) && !r.states[i].cells[id].job.replaced
    ensures var j := r.states[i].cells[id].job;
            && j.doneSent == 1
            && (Disconnected in j.entered || Aborted in j.entered)
            && (forall t :: 0 <= t < |j.tasks| && IsNotifier(j.tasks[t]) ==> j.tasks[t].pc == Finished)
  {
    SysRunInv(r, i);
    var s := r.states[i];
    assert CellFits(s.cells[id], s.now) && OwnerFits(s, id);
    DoneMeansFinished(s.cells[id].job);
  }

  // ── what recovery keeps ───────────────────────────────────────────────

  /** The longest delay that chrono can hold: 2^63 - 1 milliseconds. */
  const LONGEST_NS: nat := 9_223_372_036_854_775_807 * 1_000_000

  /**
   * The stored event is still pending: it is due one delay timeout after its last
   * restart. A timeout that chrono cannot hold counts as none at all.
   */
  predicate IsPending(e: StoredJob, now: nat) {
    0 < e.params.timeout && now < e.restartedAt + if e.params.timeout <= LONGEST_NS then e.params.timeout else 0
  }

  /** Recovery makes a job of exactly the entries whose event is pending. */
  lemma {:induction false} SurvivesIfPending(e: StoredJob, now: nat)
    ensures Survives(e, now) <==> IsPending(e, now)
  {
  }

  lemma {:induction false} PendingBefore(e: StoredJob, start: nat, now: nat)
    requires start <= now && IsPending(e, now)
    ensures IsPending(e, start)
  {
  }

  // ── the write-behind store ────────────────────────────────────────────

  lemma {:induction false} RunContinues(r: SysRun, i: nat)
    requires IsSysRun(r) && i < |r.steps|
    ensures Continues(r.states[i], r.states[i + 1])
  {
    StepOfRun(r, i);
    StepHistoryGrows(r.states[i], r.steps[i]);
  }

  lemma {:induction false} GrowsOn(s: Sys, t: Sys, u: Sys)
    requires s.decided <= t.decided && s.written <= t.written && Continues(t, u)
    ensures s.decided <= u.decided && s.written <= u.written
  {
  }

  ghost predicate EachContinues(states: seq<Sys>) {
    forall i :: 0 <= i < |states| - 1 ==> Continues(states[i], states[i + 1])
  }

  lemma {:induction false} GrowsAlong(states: seq<Sys>, i: nat, k: nat)
    requires EachContinues(states) && i <= k < |states|
    ensures states[i].decided <= states[k].decided && states[i].written <= states[k].written
    ensures states[i].hasStore == states[k].hasStore
    decreases k
  {
    if i < k {
      GrowsAlong(states, i, k - 1);
      assert Continues(states[k - 1], states[k - 1 + 1]);
      GrowsOn(states[i], states[k - 1], states[k]);
    }
  }

  lemma {:induction false} RunEachContinues(r: SysRun)
    requires IsSysRun(r)
    ensures EachContinues(r.states)
  {
    forall n | 0 <= n < |r.states| - 1 ensures Continues(r.states[n], r.states[n + 1]) { RunContinues(r, n); }
  }

  /** Decisions and writes only accumulate. */
  lemma {:induction false} HistoriesGrow(r: SysRun, i: nat, k: nat)
    requires IsSysRun(r) && i <= k < |r.states|
    ensures r.states[i].decided <= r.states[k].decided && r.states[i].written <= r.states[k].written
    ensures r.states[i].hasStore == r.states[k].hasStore
  {
    RunEachContinues(r);
    GrowsAlong(r.states, i, k);
  }

  /** Every number of decisions up to the present one was once the present one. */
  lemma {:induction false} MomentOf(states: seq<Sys>, n: nat, m: nat) returns (i: nat)
    requires EachContinues(states) && n < |states| && |states[0].decided| == 0
    requires m <= |states[n].decided|
    ensures i <= n && |states[i].decided| == m
    ensures i == n || states[i].pc == Idle
    decreases n
  {
    if |states[n].decided| == m { return n; }
    assert n > 0;
    assert Continues(states[n - 1], states[n - 1 + 1]);
    if |states[n - 1].decided| == m { return n - 1; }
    i := MomentOf(states, n - 1, m);
  }

  lemma {:induction false} RecoveredRunStep(r: SysRun, i: nat)
    requires IsSysRun(r) && i < |r.steps| && !r.states[i].pc.Recovering?
    ensures !r.states[i + 1].pc.Recovering? && r.states[i + 1].initial == r.states[i].initial
  {
    StepOfRun(r, i);
    StepNotRecovery(r.states[i], r.steps[i]);
    StepHistoryGrows(r.states[i], r.steps[i]);
  }

  /** Once recovery is over the map it built is history and stays as it is. */
  lemma {:induction false} RecoveredIsFinal(r: SysRun, i: nat, k: nat)
    requires IsSysRun(r) && i <= k < |r.states| && !r.states[i].pc.Recovering?
    ensures !r.states[k].pc.Recovering? && r.states[k].initial == r.states[i].initial
    decreases k
  {
    if i < k {
      RecoveredIsFinal(r, i, k - 1);
      RecoveredRunStep(r, k - 1);
    }
  }

  /**
   * Prefix consistency: at every moment there is an earlier moment of the run at
   * which the jobs map said, key by key, what the store says now, on every key
   * whose last attempted write succeeded.
   */
  lemma {:induction false} StoreIsAnEarlierMap(r: SysRun, n: nat) returns (i: nat)
    requires IsSysRun(r) && n < |r.states| && r.states[n].hasStore
    ensures i <= n && MapFits(r.states[i])
    ensures r.states[i].decided == r.states[n].written
    ensures forall k :: k !in r.states[n].dirty ==> Agree(r.states[n].store, View(r.states[i]), k)
    ensures r.states[n].dirty == {} ==> r.states[n].store == View(r.states[i])
  {
    SysRunWrites(r, n);
    RunEachContinues(r);
    i := MomentOf(r.states, n, |r.states[n].written|);
    SysRunWrites(r, i);
    HistoriesGrow(r, i, n);
    assert r.states[n].written <= r.states[n].decided;
    assert r.states[i].decided == r.states[n].written;
    if i < n { RecoveredIsFinal(r, i, n); }
    AgreeEverywhere(r.states[n].store, View(r.states[i]), r.states[n].dirty);
  }

  lemma {:induction false} AgreeEverywhere(a: Contents, b: Contents, except: set<JobKey>)
    requires forall k :: k !in except ==> Agree(a, b, k)
    ensures except == {} ==> a == b
  {
    if except == {} {
      forall k ensures Agree(a, b, k) {
      }
      assert a.Keys == b.Keys by {
        forall k ensures k in a <==> k in b { assert Agree(a, b, k); }
      }
      forall k | k in a ensures a[k] == b[k] { assert Agree(a, b, k); }
    }
  }

  lemma {:induction false} ApplyOpsConcat(c: Contents, a: seq<StoreOp>, b: seq<StoreOp>)
    ensures ApplyOps(c, a + b) == ApplyOps(ApplyOps(c, a), b)
  {
    if |b| == 0 {
      assert a + b == a;
    } else {
      var front := b[..|b| - 1];
      assert (a + b)[..|a + b| - 1] == a + front;
      ApplyOpsConcat(c, a, front);
    }
  }

  lemma {:induction false} ApplyOpsAgree(a: Contents, b: Contents, ops: seq<StoreOp>, k: JobKey)
    requires Agree(a, b, k)
    ensures Agree(ApplyOps(a, ops), ApplyOps(b, ops), k)
  {
    if |ops| > 0 {
      ApplyOpsAgree(a, b, ops[..|ops| - 1], k);
    }
  }

  /** Once what is outstanding has been written, the store says exactly what the jobs map says now. */
  lemma {:induction false} OutstandingClosesTheGap(r: SysRun, n: nat)
    requires IsSysRun(r) && n < |r.states| && r.states[n].hasStore
    ensures MapFits(r.states[n])
    ensures forall k :: k !in r.states[n].dirty ==>
              Agree(ApplyOps(r.states[n].store, Outstanding(r.states[n])), View(r.states[n]), k)
    ensures r.states[n].dirty == {} ==> ApplyOps(r.states[n].store, Outstanding(r.states[n])) == View(r.states[n])
  {
    SysRunInv(r, n);
    var s := r.states[n];
    ApplyOpsConcat(s.initial, s.written, Outstanding(s));
    forall k | k !in s.dirty ensures Agree(ApplyOps(s.store, Outstanding(s)), View(s), k) {
      ApplyOpsAgree(s.store, ApplyOps(s.initial, s.written), Outstanding(s), k);
    }
    AgreeEverywhere(ApplyOps(s.store, Outstanding(s)), View(s), s.dirty);
  }

  /** The step is a store operation that failed. */
  predicate IsFailure(st: SysStep) {
    (st.WriterAttempt? || st.RecoverNext?) && !st.ok
  }

  /** The keys recovery has yet to go through. */
  function Unrecovered(s: Sys): set<JobKey> {
    if s.pc.Recovering? then set i | 0 <= i < |s.pc.rest| :: KeyOf(s.pc.rest[i].params) else {}
  }

  lemma {:induction false} ListsAll(entries: seq<StoredJob>, store: Contents)
    requires Lists(entries, store) && |entries| == |store|
    ensures (set i | 0 <= i < |entries| :: KeyOf(entries[i].params)) == store.Keys
  {
    var keys := set i | 0 <= i < |entries| :: KeyOf(entries[i].params);
    DistinctKeys(entries);
    assert keys <= store.Keys && |keys| == |store.Keys|;
    EqualBySize(keys, store.Keys);
  }

  lemma {:induction false} EqualBySize<T>(a: set<T>, b: set<T>)
    requires a <= b && |a| == |b|
    ensures a == b
  {
    assert b == a + (b - a);
  }

  lemma {:induction false} DistinctKeys(entries: seq<StoredJob>)
    requires forall i, k :: 0 <= i < k < |entries| ==> KeyOf(entries[i].params) != KeyOf(entries[k].params)
    ensures |set i | 0 <= i < |entries| :: KeyOf(entries[i].params)| == |entries|
  {
    var keys := set i | 0 <= i < |entries| :: KeyOf(entries[i].params);
    if |entries| > 0 {
      var front := entries[..|entries| - 1];
      var last := KeyOf(entries[|entries| - 1].params);
      DistinctKeys(front);
      var before := set i | 0 <= i < |front| :: KeyOf(front[i].params);
      assert keys == before + {last} by {
        forall k | k in keys ensures k in before + {last} {
          var i :| 0 <= i < |entries| && KeyOf(entries[i].params) == k;
          if i < |front| { assert KeyOf(front[i].params) == k; }
        }
        forall k | k in before ensures k in keys {
          var i :| 0 <= i < |front| && KeyOf(front[i].params) == k;
          assert KeyOf(entries[i].params) == k;
        }
      }
      assert last !in before;
    }
  }

  /** One entry further, one key fewer is left to recover. */
  lemma {:induction false} UnrecoveredShrinks(s: Sys, t: Sys)
    requires s.pc.Recovering? && |s.pc.rest| > 0 && t.pc == Recovering(s.pc.rest[1..])
    ensures Unrecovered(s) == Unrecovered(t) + {KeyOf(s.pc.rest[0].params)}
  {
    forall k | k in Unrecovered(s) ensures k in Unrecovered(t) + {KeyOf(s.pc.rest[0].params)} {
      var i :| 0 <= i < |s.pc.rest| && KeyOf(s.pc.rest[i].params) == k;
      if i > 0 { assert t.pc.rest[i - 1] == s.pc.rest[i]; }
    }
    forall k | k in Unrecovered(t) ensures k in Unrecovered(s) {
      var i :| 0 <= i < |t.pc.rest| && KeyOf(t.pc.rest[i].params) == k;
      assert s.pc.rest[i + 1] == t.pc.rest[i];
    }
  }

  lemma {:induction false} CleanStep(s: Sys, st: SysStep, t: Sys)
    requires CanStep(s, st) && t == Advance(s, st) && !IsFailure(st)
    requires s.dirty <= Unrecovered(s)
    ensures t.dirty <= Unrecovered(t)
  {
    if st.RecoverNext? {
      CleanRecovery(s, st.ok, st.applied, t);
    } else {
      StepHistoryGrows(s, st);
      assert t.dirty <= s.dirty;
      if s.pc.Recovering? { RecoveringStays(s, st, t); }
    }
  }

  lemma {:induction false} CleanRecovery(s: Sys, ok: bool, applied: bool, t: Sys)
    requires CanStep(s, RecoverNext(ok, applied)) && t == Advance(s, RecoverNext(ok, applied)) && ok
    requires s.dirty <= Unrecovered(s)
    ensures t.dirty <= Unrecovered(t)
  {
    UnrecoveredShrinks(s, t);
  }

  /** During recovery the other steps leave what is still to recover alone, or there is nothing left. */
  lemma {:induction false} RecoveringStays(s: Sys, st: SysStep, t: Sys)
    requires CanStep(s, st) && t == Advance(s, st) && s.pc.Recovering? && !st.RecoverNext?
    ensures t.pc == s.pc || |s.pc.rest| == 0
  {
  }

  /**
   * As long as loading and every store operation succeeded, the only keys on which
   * store and map may differ are those recovery has not gone through yet.
   */
  lemma {:induction false} SuccessKeepsClean(r: SysRun, n: nat)
    requires IsSysRun(r) && n < |r.states|
    requires |r.states[0].pc.rest| == |r.states[0].store|
    requires forall i :: 0 <= i < n ==> !IsFailure(r.steps[i])
    ensures r.states[n].dirty <= Unrecovered(r.states[n])
    ensures !r.states[n].pc.Recovering? ==> r.states[n].dirty == {}
  {
    if n == 0 {
      ListsAll(r.states[0].pc.rest, r.states[0].store);
    } else {
      SuccessKeepsClean(r, n - 1);
      StepOfRun(r, n - 1);
      CleanStep(r.states[n - 1], r.steps[n - 1], r.states[n]);
    }
  }

  // ── ordered writes, durable replies, shutdown ─────────────────────────

  /**
   * Every decided operation is attempted exactly once and in the order of the
   * decisions: what was attempted is a prefix of what was decided, and each
   * attempt takes the next one.
   */
  lemma {:induction false} WritesOnceInOrder(r: SysRun, i: nat)
    requires IsSysRun(r) && i < |r.states|
    ensures r.states[i].written + Outstanding(r.states[i]) == r.states[i].decided
    ensures i < |r.steps| && r.steps[i].WriterAttempt? ==>
              && |r.states[i].written| < |r.states[i].decided|
              && r.states[i + 1].written == r.states[i].written + [r.states[i].decided[|r.states[i].written|]]
  {
    SysRunInv(r, i);
    if i < |r.steps| && r.steps[i].WriterAttempt? {
      var s := r.states[i];
      StepOfRun(r, i);
      assert s.decided[|s.written|] == s.writer.op;
    }
  }

  /** A client is told Ok only after its own Save, and every operation decided before it, has been attempted. */
  lemma {:induction false} RepliesAreDurable(r: SysRun, i: nat, reply: nat)
    requires IsSysRun(r) && i < |r.states| && reply < |r.states[i].replies|
    requires r.states[i].hasStore && r.states[i].replies[reply].sent
    ensures var s := r.states[i];
            var index := s.replies[reply].index;
            && index < |s.written| <= |s.decided|
            && s.written[index].Save? && s.written[index].ticket == Some(reply)
            && s.written[..index + 1] == s.decided[..index + 1]
  {
    SysRunInv(r, i);
    assert ReplyFits(r.states[i], reply);
  }

  /** And it is told so at the latest when it can be: once its Save was attempted the reply is ready. */
  lemma {:induction false} AttemptedMeansReady(r: SysRun, i: nat, reply: nat)
    requires IsSysRun(r) && i < |r.states| && reply < |r.states[i].replies| && r.states[i].hasStore
    requires r.states[i].replies[reply].index < |r.states[i].written| && !r.states[i].replies[reply].sent
    ensures CanStep(r.states[i], SendReply(reply))
  {
    SysRunInv(r, i);
    assert ReplyFits(r.states[i], reply);
  }

  /** From the moment the loop starts to close, the map it leaves behind no longer changes. */
  predicate IsClosing(pc: HandlerPc) {
    pc == Closing || pc == AwaitingWriter || pc == Stopped
  }

  lemma {:induction false} ClosingStep(s: Sys, st: SysStep, t: Sys)
    requires CanStep(s, st) && IsClosing(s.pc) && t == Advance(s, st)
    ensures IsClosing(t.pc) && t.jobs == s.jobs && t.decided == s.decided
  {
    if !st.WriterTake? && !st.WriterAttempt? {
      OtherStepFrame(s, st);
    }
  }

  lemma {:induction false} ClosingRunStep(r: SysRun, i: nat)
    requires IsSysRun(r) && i < |r.steps| && IsClosing(r.states[i].pc)
    ensures IsClosing(r.states[i + 1].pc)
    ensures r.states[i + 1].jobs == r.states[i].jobs && r.states[i + 1].decided == r.states[i].decided
  {
    StepOfRun(r, i);
    ClosingStep(r.states[i], r.steps[i], r.states[i + 1]);
  }

  lemma {:induction false} ClosingMapIsFinal(r: SysRun, i: nat, k: nat)
    requires IsSysRun(r) && i <= k < |r.states| && IsClosing(r.states[i].pc)
    ensures IsClosing(r.states[k].pc)
    ensures r.states[k].jobs == r.states[i].jobs && r.states[k].decided == r.states[i].decided
  {
    if i < k {
      ClosingMapIsFinal(r, i, k - 1);
      ClosingRunStep(r, k - 1);
    }
  }

  /** Equal decisions make equal maps. */
  lemma {:induction false} SameDecisionsSameView(r: SysRun, i: nat, k: nat)
    requires IsSysRun(r) && i <= k < |r.states| && r.states[i].hasStore && !r.states[i].pc.Recovering?
    requires r.states[i].decided == r.states[k].decided
    ensures MapFits(r.states[i]) && MapFits(r.states[k]) && View(r.states[i]) == View(r.states[k])
  {
    SysRunWrites(r, i);
    SysRunWrites(r, k);
    HistoriesGrow(r, i, k);
    RecoveredIsFinal(r, i, k);
  }

  /**
   * When the loop has flagged that it is done, every decision has been attempted;
   * and the store is, on every key whose last write succeeded, the jobs map as it
   * stood when the loop stopped serving.
   */
  lemma {:induction false} ShutdownDrains(r: SysRun, i: nat, k: nat)
    requires IsSysRun(r) && i <= k < |r.states|
    requires r.states[i].pc == Closing && r.states[k].pc == Stopped
    ensures r.states[k].written == r.states[k].decided == r.states[i].decided
    ensures MapFits(r.states[i])
    ensures r.states[k].hasStore ==>
              forall key :: key !in r.states[k].dirty ==> Agree(r.states[k].store, View(r.states[i]), key)
    ensures r.states[k].hasStore && r.states[k].dirty == {} ==> r.states[k].store == View(r.states[i])
  {
    SysRunWrites(r, k);
    SysRunWrites(r, i);
    ClosingMapIsFinal(r, i, k);
    var s := r.states[k];
    assert Outstanding(s) == [];
    assert s.written == s.decided;
    if s.hasStore {
      HistoriesGrow(r, i, k);
      SameDecisionsSameView(r, i, k);
      AgreeEverywhere(s.store, View(s), s.dirty);
    }
  }

  // ── deadlock freedom ──────────────────────────────────────────────────

  /** Who can wait for whom: clients and the SFU webhook, jobs' tasks, job loops, the handler loop, the writer. */
  datatype Agent = Client | SfuHook | TaskOf(id: JobId, task: nat) | LoopOf(id: JobId) | HandlerLoop | Writer

  /** The agent wants to send and the channel is full. */
  predicate Blocked(s: Sys, a: Agent) {
    match a
    case Client => |s.addQueue| == ADD_CAPACITY
    case SfuHook => |s.sfuQueue| == SFU_CAPACITY
    case TaskOf(id, t) =>
      && id < |s.cells| && t < |s.cells[id].job.tasks| && !s.cells[id].job.cancelled
      && (match s.cells[id].job.tasks[t].pc
          case Emit(_) => |s.cells[id].job.events| == EVENT_CAPACITY
          case Notify => |s.doneQueue| == DONE_CAPACITY
          case Report(_, _) => |s.restartedQueue| == RESTARTED_CAPACITY
          case HandOver(_) => s.cells[id].job.result.Some?
          case _ => false)
    case LoopOf(_) => false
    case HandlerLoop => (
      match s.pc
      case Enqueuing(_, _) => |s.storeQueue| == STORE_CAPACITY
      case Routing(id, _) =>
        id < |s.cells| && |s.cells[id].job.events| == EVENT_CAPACITY && !s.cells[id].job.cancelled
      case _ => false)
    case Writer => false
  }

  /** The receiver of the channel a blocked agent waits for. */
  function WaitsFor(s: Sys, a: Agent): Agent
    requires Blocked(s, a)
  {
    match a
    case Client => HandlerLoop
    case SfuHook => HandlerLoop
    case TaskOf(id, t) => (
      match s.cells[id].job.tasks[t].pc
      case Emit(_) => LoopOf(id)
      case HandOver(_) => LoopOf(id)
      case _ => HandlerLoop)
    case HandlerLoop => if s.pc.Enqueuing? then Writer else LoopOf(s.pc.id)
  }

  function Level(a: Agent): nat {
    match a
    case Client => 2
    case SfuHook => 2
    case TaskOf(_, _) => 2
    case HandlerLoop => 1
    case LoopOf(_) => 0
    case Writer => 0
  }

  /** Whose step it is. */
  predicate IsStepOf(st: SysStep, a: Agent) {
    match a
    case LoopOf(id) => st.Work? && st.id == id && (st.step == Dispatch || st.step == Rearm)
    case HandlerLoop =>
      || st.RecoverNext? || st == FinishRecovery
      || st == TakeAdd || st == TakeSfu || st == TakeDone || st == TakeRestarted
      || st == Enqueue || st == Forward || st == GiveUpRouting
    case Writer => st == WriterTake || st.WriterAttempt?
    case _ => false
  }

  /** A job loop with a full queue, in a job that is not cancelled, can dispatch. */
  lemma {:induction false} FullLoopRuns(s: Sys, id: JobId)
    requires id < |s.cells|
    requires var j := s.cells[id].job;
             LoopInv(j) && !j.cancelled && |j.events| == EVENT_CAPACITY && j.loop != NotStarted
    ensures CanStep(s, Work(id, Dispatch))
  {
  }

  /** A handler loop at rest can take what a blocked agent waits to hand over. */
  lemma {:induction false} IdleHandlerRuns(s: Sys, a: Agent) returns (st: SysStep)
    requires QueuesFit(s) && s.pc == Idle
    requires Blocked(s, a) && WaitsFor(s, a) == HandlerLoop
    ensures CanStep(s, st) && IsStepOf(st, HandlerLoop)
  {
    if a.Client? {
      st := TakeAdd;
    } else if a.SfuHook? {
      st := TakeSfu;
    } else if s.cells[a.id].job.tasks[a.task].pc.Notify? {
      st := TakeDone;
    } else {
      st := TakeRestarted;
      assert s.restartedQueue[0].id < |s.cells|;
    }
  }

  /** The handler loop, unless blocked itself, can do its next step. */
  lemma {:induction false} HandlerRuns(r: SysRun, i: nat, a: Agent) returns (st: SysStep)
    requires IsSysRun(r) && i < |r.states| && !r.states[i].cancelled
    requires Blocked(r.states[i], a) && WaitsFor(r.states[i], a) == HandlerLoop
    requires !Blocked(r.states[i], HandlerLoop)
    ensures CanStep(r.states[i], st) && IsStepOf(st, HandlerLoop)
  {
    RunQueues(r, i);
    var s := r.states[i];
    if s.pc.Routing? {
      RunOwner(r, i, s.pc.id);
      RunJob(r, i, s.pc.id);
      RoutingTarget(s);
      st := Forward;
    } else {
      st := BusyHandlerRuns(s, a);
    }
  }

  lemma {:induction false} RunQueues(r: SysRun, i: nat)
    requires IsSysRun(r) && i < |r.states|
    ensures QueuesFit(r.states[i]) && PcFits(r.states[i])
  {
    SysRunInv(r, i);
  }

  lemma {:induction false} BusyHandlerRuns(s: Sys, a: Agent) returns (st: SysStep)
    requires QueuesFit(s) && PcFits(s) && !s.cancelled && !s.pc.Routing?
    requires Blocked(s, a) && WaitsFor(s, a) == HandlerLoop && !Blocked(s, HandlerLoop)
    ensures CanStep(s, st) && IsStepOf(st, HandlerLoop)
  {
    match s.pc
    case Recovering(rest) => st := if |rest| > 0 then RecoverNext(true, true) else FinishRecovery;
    case Idle => st := IdleHandlerRuns(s, a);
    case _ => st := Enqueue;
  }

  /** Until shutdown the target of a signal is in the map and running. */
  lemma {:induction false} RoutingTarget(s: Sys)
    requires s.pc.Routing? && !s.cancelled && PcFits(s) && OwnerFits(s, s.pc.id) && LoopInv(s.cells[s.pc.id].job)
    ensures IsCurrent(s, s.pc.id) && !s.cells[s.pc.id].job.cancelled && s.cells[s.pc.id].job.loop == Running
    ensures !CanStep(s, GiveUpRouting)
    ensures CanStep(s, Forward) <==> |s.cells[s.pc.id].job.events| < EVENT_CAPACITY
  {
  }

  /**
   * Deadlock freedom: until the service shuts down, whoever is blocked on a full
   * channel waits for someone strictly lower, and following the waits at most
   * twice reaches an agent that is not blocked and has a step it can take now.
   */
  lemma {:induction false} SomeoneCanMove(r: SysRun, i: nat, a: Agent) returns (b: Agent, st: SysStep)
    requires IsSysRun(r) && i < |r.states| && !r.states[i].cancelled
    requires Blocked(r.states[i], a)
    ensures Level(WaitsFor(r.states[i], a)) < Level(a)
    ensures || b == WaitsFor(r.states[i], a)
            || (Blocked(r.states[i], WaitsFor(r.states[i], a))
                && b == WaitsFor(r.states[i], WaitsFor(r.states[i], a)))
    ensures !Blocked(r.states[i], b) && CanStep(r.states[i], st) && IsStepOf(st, b)
  {
    var s := r.states[i];
    b := WaitsFor(s, a);
    if Blocked(s, b) {
      b := WaitsFor(s, b);
      st := BaseRuns(r, i, HandlerLoop);
    } else if b == HandlerLoop {
      st := HandlerRuns(r, i, a);
    } else {
      st := BaseRuns(r, i, a);
    }
  }

  /** A job loop someone waits for can take the result, or dispatch from its full queue. */
  lemma {:induction false} LoopRuns(r: SysRun, i: nat, a: Agent, id: JobId) returns (st: SysStep)
    requires IsSysRun(r) && i < |r.states|
    requires Blocked(r.states[i], a) && WaitsFor(r.states[i], a) == LoopOf(id)
    ensures CanStep(r.states[i], st) && IsStepOf(st, LoopOf(id))
  {
    RunOwner(r, i, id);
    RunJob(r, i, id);
    st := BusyLoopRuns(r.states[i], a, id);
  }

  lemma {:induction false} BusyLoopRuns(s: Sys, a: Agent, id: JobId) returns (st: SysStep)
    requires id < |s.cells| && OwnerFits(s, id) && LoopInv(s.cells[id].job)
    requires Blocked(s, a) && WaitsFor(s, a) == LoopOf(id)
    ensures CanStep(s, st) && IsStepOf(st, LoopOf(id))
  {
    if a.TaskOf? && s.cells[id].job.tasks[a.task].pc.HandOver? {
      st := Work(id, Rearm);
    } else {
      FullLoopRuns(s, id);
      st := Work(id, Dispatch);
    }
  }

  /** The agents that never block can always move when someone waits for them. */
  lemma {:induction false} BaseRuns(r: SysRun, i: nat, a: Agent) returns (st: SysStep)
    requires IsSysRun(r) && i < |r.states|
    requires Blocked(r.states[i], a) && Level(WaitsFor(r.states[i], a)) == 0
    ensures CanStep(r.states[i], st) && IsStepOf(st, WaitsFor(r.states[i], a))
  {
    var s := r.states[i];
    match WaitsFor(s, a)
    case Writer => st := if s.writer == Resting then WriterTake else WriterAttempt(true, true);
    case LoopOf(id) => st := LoopRuns(r, i, a, id);
  }
}
