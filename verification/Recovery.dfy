/** Start-up recovery, and what a crash followed by a restart leaves of the jobs map. */
module Recovery {
  import opened Support
  import opened JobModel
  import opened HandlerModel
  import opened HandlerInvariant
  import opened HandlerProperties
  import opened LastWord

  /**
   * How far recovery has come since `start`: what it put into the map was stored
   * and had not expired then, and what it left out of the map is still to come or
   * has expired (or could never be created) by now.
   */
  predicate Rebuilt(s: Sys, loaded: Contents, start: nat) {
    && start <= s.now
    && (forall k :: k in s.initial ==> k in loaded && s.initial[k] == loaded[k] && IsPending(loaded[k], start))
    && (forall k :: k in loaded ==> k in s.initial || k in Unrecovered(s) || !IsPending(loaded[k], s.now))
  }

  lemma {:induction false} RebuildNext(s: Sys, loaded: Contents, start: nat, ok: bool, applied: bool)
    requires Rebuilt(s, loaded, start) && CanStep(s, RecoverNext(ok, applied))
    requires KeyOf(s.pc.rest[0].params) in loaded && loaded[KeyOf(s.pc.rest[0].params)] == s.pc.rest[0]
    ensures Rebuilt(RecoverEntry(s, s.pc.rest[0], s.pc.rest[1..], ok, applied), loaded, start)
  {
    var e, rest := s.pc.rest[0], s.pc.rest[1..];
    assert s.pc.rest == [e] + rest;
    SurvivesIfPending(e, s.now);
    if IsPending(e, s.now) {
      PendingBefore(e, start, s.now);
      RebuildRevived(s, loaded, start, e, rest);
    } else {
      RebuildDiscarded(s, loaded, start, e, rest, ok, applied);
    }
  }

  lemma {:induction false} RebuildRevived(s: Sys, loaded: Contents, start: nat, e: StoredJob, rest: seq<StoredJob>)
    requires Rebuilt(s, loaded, start) && s.pc == Recovering([e] + rest)
    requires KeyOf(e.params) in loaded && loaded[KeyOf(e.params)] == e && IsPending(e, start)
    ensures Rebuilt(Revive(s, e, rest), loaded, start)
  {
    UnrecoveredShrinks(s, Revive(s, e, rest));
  }

  lemma {:induction false} RebuildDiscarded(s: Sys, loaded: Contents, start: nat, e: StoredJob,
      rest: seq<StoredJob>, ok: bool, applied: bool)
    requires Rebuilt(s, loaded, start) && s.pc == Recovering([e] + rest) && !IsPending(e, s.now)
    requires KeyOf(e.params) in loaded && loaded[KeyOf(e.params)] == e
    ensures Rebuilt(Discard(s, e, rest, ok, applied), loaded, start)
  {
    UnrecoveredShrinks(s, Discard(s, e, rest, ok, applied));
  }

  lemma {:induction false} RebuildOther(s: Sys, st: SysStep, t: Sys, loaded: Contents, start: nat)
    requires Rebuilt(s, loaded, start) && CanStep(s, st) && t == Advance(s, st)
    requires s.pc.Recovering? && t.pc.Recovering? && !IsWriteStep(st)
    ensures Rebuilt(t, loaded, start) && t.pc == s.pc
  {
    OtherStepFrame(s, st);
    ClockRuns(s, st);
    forall k | k in loaded && IsPending(loaded[k], t.now) ensures IsPending(loaded[k], s.now) {
      PendingBefore(loaded[k], s.now, t.now);
    }
  }

  /** The entries still to go through are entries of what was loaded. */
  predicate RestLoaded(s: Sys, loaded: Contents)
    requires s.pc.Recovering?
  {
    forall i :: 0 <= i < |s.pc.rest| ==>
      KeyOf(s.pc.rest[i].params) in loaded && loaded[KeyOf(s.pc.rest[i].params)] == s.pc.rest[i]
  }

  lemma {:induction false} RestStays(s: Sys, t: Sys, loaded: Contents)
    requires s.pc.Recovering? && t.pc.Recovering? && RestLoaded(s, loaded)
    requires t.pc.rest == s.pc.rest || (|s.pc.rest| > 0 && t.pc.rest == s.pc.rest[1..])
    ensures RestLoaded(t, loaded)
  {
  }

  lemma {:induction false} RebuildStep(s: Sys, st: SysStep, t: Sys, loaded: Contents, start: nat)
    requires CanStep(s, st) && t == Advance(s, st)
    requires s.pc.Recovering? && t.pc.Recovering?
    requires Rebuilt(s, loaded, start) && RestLoaded(s, loaded) && RecoveryFits(s)
    ensures Rebuilt(t, loaded, start) && RestLoaded(t, loaded)
  {
    if st.RecoverNext? {
      assert t == RecoverEntry(s, s.pc.rest[0], s.pc.rest[1..], st.ok, st.applied);
      RebuildNext(s, loaded, start, st.ok, st.applied);
    } else {
      NothingWritten(s, st);
      RebuildOther(s, st, t, loaded, start);
    }
    RestStays(s, t, loaded);
  }

  /** Until recovery ends only recovery itself writes. */
  lemma {:induction false} NothingWritten(s: Sys, st: SysStep)
    requires CanStep(s, st) && s.pc.Recovering? && RecoveryFits(s) && !st.RecoverNext?
    ensures !IsWriteStep(st)
  {
  }

  lemma {:induction false} RecoveringThroughout(r: SysRun, i: nat, n: nat)
    requires IsSysRun(r) && i <= n < |r.states| && r.states[n].pc.Recovering?
    ensures r.states[i].pc.Recovering?
  {
    if !r.states[i].pc.Recovering? { RecoveredIsFinal(r, i, n); }
  }

  lemma {:induction false} RebuiltSoFar(r: SysRun, n: nat)
    requires IsSysRun(r) && n < |r.states| && r.states[n].pc.Recovering?
    requires |r.states[0].pc.rest| == |r.states[0].store|
    ensures Rebuilt(r.states[n], r.states[0].store, r.states[0].now)
    ensures RestLoaded(r.states[n], r.states[0].store)
  {
    if n == 0 {
      ListsAll(r.states[0].pc.rest, r.states[0].store);
    } else {
      RecoveringThroughout(r, n - 1, n);
      RebuiltSoFar(r, n - 1);
      SysRunInv(r, n - 1);
      StepOfRun(r, n - 1);
      RebuildStep(r.states[n - 1], r.steps[n - 1], r.states[n], r.states[0].store, r.states[0].now);
    }
  }

  /**
   * When recovery ends, with the store loaded, the jobs map holds what the store held
   * and nothing else: each entry whose event was still pending by then, and none
   * whose event was due by the start. And if the deletions succeeded, store and map
   * are equal again.
   */
  lemma {:induction false} RecoveryRebuildsMap(r: SysRun, n: nat)
    requires IsSysRun(r) && n < |r.steps| && r.steps[n] == FinishRecovery
    requires r.states[0].hasStore && |r.states[0].pc.rest| == |r.states[0].store|
    ensures var loaded, s := r.states[0].store, r.states[n + 1];
            && MapFits(s)
            && (forall k :: k in View(s) ==>
                  k in loaded && View(s)[k] == loaded[k] && IsPending(loaded[k], r.states[0].now))
            && (forall k :: k in loaded && IsPending(loaded[k], s.now) ==> k in View(s))
            && ((forall i :: 0 <= i < n ==> !IsFailure(r.steps[i])) ==> s.store == View(s))
  {
    StepOfRun(r, n);
    RebuiltSoFar(r, n);
    SysRunInv(r, n);
    HistoriesGrow(r, 0, n);
    var s, t := r.states[n], r.states[n + 1];
    assert t == s.(pc := Idle);
    assert View(t) == View(s) == ApplyOps(s.initial, s.decided) == s.initial;
    if forall i :: 0 <= i < n ==> !IsFailure(r.steps[i]) {
      SuccessKeepsClean(r, n + 1);
      SysRunWrites(r, n + 1);
      AgreeEverywhere(t.store, View(t), t.dirty);
    }
  }

  // ── crash and restart ─────────────────────────────────────────────────

  /** The run finds these contents in its store, loads them, and ends its recovery with step `n`. */
  ghost predicate RecoversFrom(next: SysRun, c: Contents, n: nat) {
    && IsSysRun(next) && next.states[0].hasStore && next.states[0].store == c
    && |next.states[0].pc.rest| == |c|
    && n < |next.steps| && next.steps[n] == FinishRecovery
  }

  /** Of this key the new jobs map holds what these contents hold, unless that expired before recovery came to it. */
  ghost predicate ComesBack(c: Contents, next: SysRun, n: nat, k: JobKey)
    requires n + 1 < |next.states| && MapFits(next.states[n + 1])
  {
    var after := View(next.states[n + 1]);
    && (k in after ==> k in c && after[k] == c[k] && IsPending(c[k], next.states[0].now))
    && (k in c && IsPending(c[k], next.states[n + 1].now) ==> k in after)
  }

  lemma {:induction false} AgreedComesBack(next: SysRun, c: Contents, n: nat, d: Contents, k: JobKey)
    requires RecoversFrom(next, c, n) && Agree(c, d, k)
    ensures MapFits(next.states[n + 1]) && ComesBack(d, next, n, k)
  {
    RecoveryRebuildsMap(next, n);
  }

  lemma {:induction false} LapsedComesBack(next: SysRun, n: nat, loaded: Contents, s: Sys, k: JobKey)
    requires RecoversFrom(next, s.store, n) && Lapsed(loaded, s, k) && s.now <= next.states[0].now
    ensures MapFits(next.states[n + 1]) && ComesBack(loaded, next, n, k)
  {
    RecoveryRebuildsMap(next, n);
    StepOfRun(next, n);
    RebuiltSoFar(next, n);
  }

  /**
   * A crash at any moment of a run, followed by a restart: one earlier moment serves
   * for all keys that have been recovered and whose last write did not fail. Of these
   * the new jobs map holds what the old one held at that moment, unless it expired.
   */
  lemma {:induction false} CrashAndRestart(r: SysRun, crash: nat, next: SysRun, n: nat) returns (i: nat)
    requires IsSysRun(r) && crash < |r.states| && r.states[crash].hasStore
    requires RecoversFrom(next, r.states[crash].store, n)
    ensures i <= crash && MapFits(r.states[i]) && MapFits(next.states[n + 1])
    ensures r.states[i].decided == r.states[crash].written
    ensures forall k :: k !in r.states[crash].dirty ==> ComesBack(View(r.states[i]), next, n, k)
  {
    i := StoreIsAnEarlierMap(r, crash);
    RecoveryRebuildsMap(next, n);
    forall k | k !in r.states[crash].dirty ensures ComesBack(View(r.states[i]), next, n, k) {
      AgreedComesBack(next, r.states[crash].store, n, View(r.states[i]), k);
    }
  }

  /**
   * After a crash before recovery was over, the restart recovers what the first
   * attempt set out from, whichever deletions failed: every entry that has not
   * expired by then, unchanged, and nothing else.
   */
  lemma {:induction false} CrashInRecovery(r: SysRun, crash: nat, next: SysRun, n: nat, k: JobKey)
    requires IsSysRun(r) && crash < |r.states| && r.states[crash].pc.Recovering?
    requires RecoversFrom(next, r.states[crash].store, n) && r.states[crash].now <= next.states[0].now
    ensures MapFits(next.states[n + 1]) && ComesBack(r.states[0].store, next, n, k)
  {
    var s, loaded := r.states[crash], r.states[0].store;
    SysRunInv(r, crash);
    var count := RunStands(r, crash, k);
    if Agree(s.store, loaded, k) {
      AgreedComesBack(next, s.store, n, loaded, k);
    } else {
      LapsedComesBack(next, n, loaded, s, k);
    }
  }

  /**
   * And for every key, even one whose writes failed: what comes back is what the map
   * held just after some decision about the key since which no write about it
   * succeeded, or what the old service had itself loaded if none ever did.
   */
  lemma {:induction false} EveryKeyComesBack(r: SysRun, crash: nat, next: SysRun, n: nat, k: JobKey)
      returns (i: Option<nat>)
    requires IsSysRun(r) && crash < |r.states| && r.states[crash].hasStore
    requires RecoversFrom(next, r.states[crash].store, n) && r.states[crash].now <= next.states[0].now
    ensures MapFits(next.states[n + 1])
    ensures i.None? ==> NoneLater(r, crash, k, 0) && ComesBack(r.states[0].store, next, n, k)
    ensures i.Some? ==>
              && i.value <= crash && IsWord(r.states[i.value], k) && NoneLater(r, crash, k, |r.states[i.value].decided|)
              && ComesBack(View(r.states[i.value]), next, n, k)
  {
    i := StoreKeepsAWord(r, crash, k);
    var s := r.states[crash];
    match i
    case Some(m) => AgreedComesBack(next, s.store, n, View(r.states[m]), k);
    case None =>
      if Agree(s.store, r.states[0].store, k) {
        AgreedComesBack(next, s.store, n, r.states[0].store, k);
      } else {
        LapsedComesBack(next, n, r.states[0].store, s, k);
      }
  }
}
