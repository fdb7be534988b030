/**
 * What the store holds about one key at any moment of a run, whatever failed and
 * whether or not a failed operation was applied all the same.
 */
module LastWord {
  import opened Support
  import opened JobModel
  import opened HandlerModel
  import opened HandlerInvariant
  import opened HandlerProperties

  /** The step is an attempt to write about the key, and was reported successful. */
  predicate IsSuccess(r: SysRun, i: nat, k: JobKey)
    requires i < |r.steps| < |r.states|
  {
    && r.steps[i].WriterAttempt? && r.steps[i].ok
    && r.states[i].writer.Writing? && r.states[i].writer.op.key == k
  }

  /** Of the writes about the key, none after the first `count` writes of the run was reported successful. */
  predicate NoneLater(r: SysRun, n: nat, k: JobKey, count: nat)
    requires n <= |r.steps| < |r.states|
  {
    forall i :: 0 <= i < n && IsSuccess(r, i, k) ==> |r.states[i].written| < count
  }

  /** The contents are as if the operation had been the last about its key. */
  predicate Obeys(c: Contents, op: StoreOp) {
    match op
    case Save(key, job, _) => key in c && c[key] == job
    case Delete(key) => key !in c
  }

  /** The entry was loaded, and was dropped because it had expired or can never be created. */
  predicate Lapsed(loaded: Contents, s: Sys, k: JobKey) {
    k in loaded && k !in s.store && !IsPending(loaded[k], s.now)
  }

  /** The store obeys the `count`-th write, which was about this key; with no such write it is as it was loaded. */
  predicate Stands(loaded: Contents, s: Sys, k: JobKey, count: nat) {
    && count <= |s.written|
    && if count == 0 then Agree(s.store, loaded, k) || Lapsed(loaded, s, k)
       else s.written[count - 1].key == k && Obeys(s.store, s.written[count - 1])
  }

  // ── each step ─────────────────────────────────────────────────────────

  /** Store and writes are the same, and the clock runs on. */
  predicate SameStore(s: Sys, t: Sys) {
    t.store == s.store && t.written == s.written && s.now <= t.now
  }

  lemma {:induction false} DecideSameStore(u: Sys, op: StoreOp, next: Then)
    ensures SameStore(u, Decide(u, op, next))
  {
  }

  lemma {:induction false} AddSameStore(s: Sys)
    requires CanStep(s, TakeAdd)
    ensures SameStore(s, Advance(s, TakeAdd))
  {
    var rest, p := s.(addQueue := s.addQueue[1..]), s.addQueue[0];
    var d := Displaced(rest, KeyOf(p));
    assert d == rest.(cells := d.cells);
    DecideSameStore(Added(rest, p), Save(KeyOf(p), StoredJob(p, s.now), Some(|s.replies|)), StartJob(|s.cells|));
  }

  lemma {:induction false} TakeSameStore(s: Sys, st: SysStep)
    requires CanStep(s, st) && (st.TakeDone? || st.TakeRestarted? || st.Enqueue? || st.WriterTake?)
    ensures SameStore(s, Advance(s, st))
  {
  }

  lemma {:induction false} ClockRuns(s: Sys, st: SysStep)
    requires CanStep(s, st) && !IsWriteStep(st)
    ensures s.now <= Advance(s, st).now
  {
    if st.Work? {
      assert Advance(s, st) == DoWork(s, st.id, st.step);
    } else if st.TakeSfu? {
      assert Advance(s, st) == Route(s.(sfuQueue := s.sfuQueue[1..]), s.sfuQueue[0]);
    }
  }

  /** Only the writer and recovery touch the store. */
  lemma {:induction false} StoreUntouched(s: Sys, st: SysStep)
    requires CanStep(s, st) && !st.WriterAttempt? && !st.RecoverNext?
    ensures SameStore(s, Advance(s, st))
  {
    if st.TakeAdd? {
      AddSameStore(s);
    } else if IsWriteStep(st) {
      TakeSameStore(s, st);
    } else {
      OtherStepFrame(s, st);
      ClockRuns(s, st);
    }
  }

  lemma {:induction false} StepClock(s: Sys, st: SysStep)
    requires CanStep(s, st)
    ensures s.now <= Advance(s, st).now
  {
    if !st.WriterAttempt? && !st.RecoverNext? { StoreUntouched(s, st); }
  }

  lemma {:induction false} ClockOfRun(r: SysRun, n: nat)
    requires IsSysRun(r) && n < |r.states|
    ensures r.states[0].now <= r.states[n].now
  {
    if n > 0 {
      ClockOfRun(r, n - 1);
      StepOfRun(r, n - 1);
      StepClock(r.states[n - 1], r.steps[n - 1]);
    }
  }

  lemma {:induction false} UntouchedStands(loaded: Contents, s: Sys, t: Sys, k: JobKey, count: nat)
    requires Stands(loaded, s, k, count) && SameStore(s, t)
    ensures Stands(loaded, t, k, count)
  {
    if Lapsed(loaded, s, k) && IsPending(loaded[k], t.now) { PendingBefore(loaded[k], s.now, t.now); }
  }

  lemma {:induction false} AttemptIs(s: Sys, ok: bool, applied: bool)
    requires CanStep(s, WriterAttempt(ok, applied))
    ensures var t := Attempted(s, ok, applied);
            && t.now == s.now && t.written == s.written + [s.writer.op]
            && t.store == if applied then ApplyOp(s.store, s.writer.op) else s.store
  {
  }

  lemma {:induction false} OtherKeyObeys(c: Contents, op: StoreOp, k: JobKey)
    requires op.key != k
    ensures Agree(ApplyOp(c, op), c, k)
  {
  }

  lemma {:induction false} ObeysAgrees(a: Contents, b: Contents, op: StoreOp)
    requires Agree(a, b, op.key) && Obeys(a, op)
    ensures Obeys(b, op)
  {
  }

  /** A write about another key, or one that was not applied, leaves the store's word on this key. */
  lemma {:induction false} MissStands(loaded: Contents, s: Sys, t: Sys, k: JobKey, count: nat)
    requires Stands(loaded, s, k, count) && t.now == s.now && s.written <= t.written && Agree(t.store, s.store, k)
    ensures Stands(loaded, t, k, count)
  {
    if count > 0 { ObeysAgrees(s.store, t.store, s.written[count - 1]); }
  }

  lemma {:induction false} AttemptStands(loaded: Contents, s: Sys, ok: bool, applied: bool, k: JobKey, count: nat)
      returns (next: nat)
    requires Stands(loaded, s, k, count) && CanStep(s, WriterAttempt(ok, applied))
    ensures Stands(loaded, Attempted(s, ok, applied), k, next) && count <= next
    ensures ok && s.writer.op.key == k ==> |s.written| < next
  {
    var op, t := s.writer.op, Attempted(s, ok, applied);
    AttemptIs(s, ok, applied);
    if applied && op.key == k {
      next := |s.written| + 1;
      assert Obeys(t.store, op) && t.written[|s.written|] == op;
    } else {
      next := count;
      if applied { OtherKeyObeys(s.store, op, k); }
      MissStands(loaded, s, t, k, count);
    }
  }

  /** An entry recovery goes through is kept, or dropped because it has expired. */
  lemma {:induction false} RecoverStands(loaded: Contents, s: Sys, ok: bool, applied: bool, k: JobKey)
    requires Stands(loaded, s, k, 0) && CanStep(s, RecoverNext(ok, applied)) && RecoveryFits(s)
    ensures Stands(loaded, RecoverEntry(s, s.pc.rest[0], s.pc.rest[1..], ok, applied), k, 0)
  {
    var e := s.pc.rest[0];
    SurvivesIfPending(e, s.now);
    var t := RecoverEntry(s, e, s.pc.rest[1..], ok, applied);
    assert t.now == s.now && t.store == if applied && !Survives(e, s.now) then s.store - {KeyOf(e.params)} else s.store;
    assert KeyOf(e.params) in s.store && s.store[KeyOf(e.params)] == e;
  }

  lemma {:induction false} StepStands(loaded: Contents, s: Sys, st: SysStep, k: JobKey, count: nat) returns (next: nat)
    requires Stands(loaded, s, k, count) && CanStep(s, st) && RecoveryFits(s)
    ensures Stands(loaded, Advance(s, st), k, next) && count <= next
    ensures st.WriterAttempt? && st.ok && s.writer.op.key == k ==> |s.written| < next
  {
    next := count;
    match st
    case WriterAttempt(ok, applied) => next := AttemptStands(loaded, s, ok, applied, k, count);
    case RecoverNext(ok, applied) => RecoverStands(loaded, s, ok, applied, k);
    case _ =>
      StoreUntouched(s, st);
      UntouchedStands(loaded, s, Advance(s, st), k, count);
  }

  // ── whole runs ────────────────────────────────────────────────────────

  lemma {:induction false} RunStands(r: SysRun, n: nat, k: JobKey) returns (count: nat)
    requires IsSysRun(r) && n < |r.states|
    ensures Stands(r.states[0].store, r.states[n], k, count) && NoneLater(r, n, k, count)
    decreases n
  {
    if n == 0 {
      count := 0;
    } else {
      var before := RunStands(r, n - 1, k);
      RunParts(r, n - 1);
      count := StandsAt(r, n, k, before);
    }
  }

  lemma {:induction false} StandsAt(r: SysRun, n: nat, k: JobKey, before: nat) returns (count: nat)
    requires IsSysRun(r) && 0 < n < |r.states| && RecoveryFits(r.states[n - 1])
    requires Stands(r.states[0].store, r.states[n - 1], k, before) && NoneLater(r, n - 1, k, before)
    ensures Stands(r.states[0].store, r.states[n], k, count) && NoneLater(r, n, k, count)
  {
    StepOfRun(r, n - 1);
    count := StepStands(r.states[0].store, r.states[n - 1], r.steps[n - 1], k, before);
  }

  /** The last decision was about this key, and the map is what the decisions say. */
  predicate IsWord(s: Sys, k: JobKey) {
    && MapFits(s) && !s.pc.Recovering?
    && |s.decided| > 0 && s.decided[|s.decided| - 1].key == k
  }

  lemma {:induction false} WordAgrees(c: Contents, s: Sys, k: JobKey)
    requires MapFits(s) && WriteBehind(s) && s.hasStore && |s.decided| > 0
    requires var op := s.decided[|s.decided| - 1]; op.key == k && Obeys(c, op)
    ensures Agree(c, View(s), k)
  {
  }

  /** The moment of the decision that the store obeys. */
  lemma {:induction false} MomentOfWord(r: SysRun, n: nat, k: JobKey, count: nat) returns (i: nat)
    requires IsSysRun(r) && n < |r.states| && r.states[n].hasStore
    requires count > 0 && Stands(r.states[0].store, r.states[n], k, count)
    ensures i <= n && |r.states[i].decided| == count && r.states[i].decided <= r.states[n].written
    ensures IsWord(r.states[i], k) && Agree(r.states[n].store, View(r.states[i]), k)
  {
    SysRunWrites(r, n);
    RunEachContinues(r);
    i := MomentOf(r.states, n, count);
    SysRunWrites(r, i);
    RunParts(r, i);
    HistoriesGrow(r, i, n);
    var s, op := r.states[n], r.states[n].written[count - 1];
    assert s.written <= s.decided;
    assert r.states[i].decided == s.written[..count];
    WordAgrees(s.store, r.states[i], k);
  }

  /**
   * At every moment of a run the store says about a key what the jobs map said just
   * after some decision about this key, and no later write about it succeeded. With
   * no such decision no write about it has succeeded at all, and the store holds
   * what was loaded, unless that was dropped because it had expired.
   */
  lemma {:induction false} StoreKeepsAWord(r: SysRun, n: nat, k: JobKey) returns (i: Option<nat>)
    requires IsSysRun(r) && n < |r.states| && r.states[n].hasStore
    ensures i.None? ==>
              && (Agree(r.states[n].store, r.states[0].store, k) || Lapsed(r.states[0].store, r.states[n], k))
              && NoneLater(r, n, k, 0)
    ensures i.Some? ==>
              && i.value <= n && IsWord(r.states[i.value], k)
              && Agree(r.states[n].store, View(r.states[i.value]), k)
              && NoneLater(r, n, k, |r.states[i.value].decided|)
              && r.states[i.value].decided <= r.states[n].written
  {
    var count := RunStands(r, n, k);
    i := None;
    if count > 0 {
      var moment := MomentOfWord(r, n, k, count);
      i := Some(moment);
    }
  }
}
