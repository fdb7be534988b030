/**
 * The Redis hash itself, through any number of lives of the service. Each life may
 * end in a crash at any moment, also while it recovers.
 */
module RedisRecovery {
  import opened Support
  import opened HandlerModel
  import opened HandlerInvariant
  import opened HandlerProperties
  import opened LastWord
  import opened Recovery
  import opened StoreEncoding

  /** What a step of the system does to the hash. */
  function HashStep(fields: map<string, Data>, s: Sys, st: SysStep): map<string, Data>
    requires CanStep(s, st)
  {
    match st
    case WriterAttempt(_, applied) => if applied then HashOp(fields, s.writer.op) else fields
    case RecoverNext(_, applied) =>
      if applied && !Survives(s.pc.rest[0], s.now) then fields - {KeyToString(KeyOf(s.pc.rest[0].params))} else fields
    case _ => fields
  }

  /** The hash after the first `n` steps of a run. */
  ghost function HashAt(fields: map<string, Data>, r: SysRun, n: nat): map<string, Data>
    requires IsSysRun(r) && n < |r.states|
  {
    if n == 0 then fields
    else
      StepOfRun(r, n - 1);
      HashStep(HashAt(fields, r, n - 1), r.states[n - 1], r.steps[n - 1])
  }

  lemma {:induction false} StepRepresents(fields: map<string, Data>, s: Sys, st: SysStep, t: Sys)
    requires CanStep(s, st) && t == Advance(s, st) && Represents(fields, s.store)
    ensures Represents(HashStep(fields, s, st), t.store)
  {
    if st.WriterAttempt? {
      AttemptRepresents(fields, s, st.ok, st.applied, t);
    } else if st.RecoverNext? {
      RecoverRepresents(fields, s, st.ok, st.applied, t);
    } else {
      StoreUntouched(s, st);
    }
  }

  lemma {:induction false} AttemptRepresents(fields: map<string, Data>, s: Sys, ok: bool, applied: bool, t: Sys)
    requires CanStep(s, WriterAttempt(ok, applied)) && t == Advance(s, WriterAttempt(ok, applied))
    requires Represents(fields, s.store)
    ensures Represents(if applied then HashOp(fields, s.writer.op) else fields, t.store)
  {
    assert t.store == if applied then ApplyOp(s.store, s.writer.op) else s.store;
    OpRepresents(fields, s.store, s.writer.op);
  }

  lemma {:induction false} RecoverRepresents(fields: map<string, Data>, s: Sys, ok: bool, applied: bool, t: Sys)
    requires CanStep(s, RecoverNext(ok, applied)) && t == Advance(s, RecoverNext(ok, applied))
    requires Represents(fields, s.store)
    ensures Represents(HashStep(fields, s, RecoverNext(ok, applied)), t.store)
  {
    var key := KeyOf(s.pc.rest[0].params);
    assert t.store == if applied && !Survives(s.pc.rest[0], s.now) then s.store - {key} else s.store;
    DeleteRepresents(fields, s.store, key);
  }

  /** The hash follows the store through every run. */
  lemma {:induction false} HashTracksStore(fields: map<string, Data>, r: SysRun, n: nat)
    requires IsSysRun(r) && n < |r.states| && Represents(fields, r.states[0].store)
    ensures Represents(HashAt(fields, r, n), r.states[n].store)
    decreases n
  {
    if n > 0 {
      HashTracksStore(fields, r, n - 1);
      StepOfRun(r, n - 1);
      StepRepresents(HashAt(fields, r, n - 1), r.states[n - 1], r.steps[n - 1], r.states[n]);
    }
  }

  // ── lives ─────────────────────────────────────────────────────────────

  /** One life of the service. */
  datatype Life = Life(
    fields: map<string, Data>,  // the hash it finds
    stored: Contents,           // what had been written into the hash
    jobs: seq<StoredJob>,       // what is read from it, field by field
    order: seq<string>,
    run: SysRun                 // and what happens then
  )

  /** The service has a store, and starts from what it reads there, or from nothing if loading fails. */
  ghost predicate IsLife(l: Life) {
    && IsSysRun(l.run) && IsReading(l.jobs, l.order, l.fields)
    && var s := l.run.states[0];
       && s.hasStore && s.store == Reloaded(l.stored)
       && (s.pc == Recovering(l.jobs) || s.pc == Recovering([]))
  }

  function End(l: Life): Sys
    requires |l.run.states| > 0
  {
    l.run.states[|l.run.states| - 1]
  }

  /** The first life ended where its run does, and the second one finds the hash as the first one left it. */
  ghost predicate IsNextLife(l: Life, m: Life)
    requires IsLife(l) && IsLife(m)
  {
    && m.fields == HashAt(l.fields, l.run, |l.run.steps|)
    && m.stored == End(l).store && End(l).now <= m.run.states[0].now
  }

  ghost predicate AreLives(lives: seq<Life>) {
    && |lives| > 0
    && (forall m :: 0 <= m < |lives| ==> IsLife(lives[m]))
    && (forall m :: 0 < m < |lives| ==> IsNextLife(lives[m - 1], lives[m]))
    && WellKeyed(lives[0].stored) && Represents(lives[0].fields, lives[0].stored)
  }

  lemma {:induction false} EarlierLives(lives: seq<Life>)
    requires AreLives(lives) && |lives| > 1
    ensures AreLives(lives[..|lives| - 1])
  {
    var front := lives[..|lives| - 1];
    forall m | 0 < m < |front| ensures IsNextLife(front[m - 1], front[m]) {
      assert IsNextLife(lives[m - 1], lives[m]);
    }
  }

  // ── each life's hash represents its store ─────────────────────────────

  lemma {:induction false} ReloadedWellKeyed(c: Contents)
    requires WellKeyed(c)
    ensures WellKeyed(Reloaded(c))
  {
    forall k | k in c ensures KeyOf(Reloaded(c)[k].params) == k { JobRoundTrip(c[k]); }
  }

  lemma {:induction false} StoreWellKeyed(r: SysRun, n: nat)
    requires IsSysRun(r) && n < |r.states| && r.states[n].hasStore && WellKeyed(r.states[0].store)
    ensures WellKeyed(r.states[n].store)
  {
    forall k | k in r.states[n].store ensures KeyOf(r.states[n].store[k].params) == k {
      var i := StoreKeepsAWord(r, n, k);
    }
  }

  lemma {:induction false} EndRepresents(l: Life)
    requires IsLife(l) && WellKeyed(l.stored) && Represents(l.fields, l.stored)
    ensures WellKeyed(End(l).store) && Represents(HashAt(l.fields, l.run, |l.run.steps|), End(l).store)
  {
    var n := |l.run.steps|;
    ReloadedWellKeyed(l.stored);
    ReloadedRepresents(l.fields, l.stored);
    HistoriesGrow(l.run, 0, n);
    StoreWellKeyed(l.run, n);
    HashTracksStore(l.fields, l.run, n);
  }

  /** In every life the hash represents what was stored, and what is read from it is all of that. */
  lemma {:induction false} EachLifeReads(lives: seq<Life>)
    requires AreLives(lives)
    ensures var l := lives[|lives| - 1];
            && WellKeyed(l.stored) && Represents(l.fields, l.stored)
            && Lists(l.jobs, Reloaded(l.stored)) && |l.jobs| == |Reloaded(l.stored)|
    decreases |lives|
  {
    var l := lives[|lives| - 1];
    if |lives| > 1 {
      EarlierLives(lives);
      EachLifeReads(lives[..|lives| - 1]);
      assert IsNextLife(lives[|lives| - 2], l);
      EndRepresents(lives[|lives| - 2]);
    }
    ReadingLists(l.jobs, l.order, l.fields, l.stored);
  }

  // ── where an entry comes from ─────────────────────────────────────────

  /** What the very first life found in the store, or what the map held at a moment of some life. */
  datatype Origin = Found | Moment(life: nat, at: nat)

  /** At such a moment the life had just decided about the key. */
  predicate IsOrigin(lives: seq<Life>, o: Origin, k: JobKey) {
    match o
    case Found => |lives| > 0
    case Moment(m, i) => m < |lives| && i < |lives[m].run.states| && IsWord(lives[m].run.states[i], k)
  }

  function Held(lives: seq<Life>, o: Origin, k: JobKey): Contents
    requires IsOrigin(lives, o, k)
  {
    match o
    case Found => lives[0].stored
    case Moment(m, i) => View(lives[m].run.states[i])
  }

  /** How many writes of life `m` are no later than the origin. */
  function WritesUpTo(lives: seq<Life>, o: Origin, k: JobKey, m: nat): nat
    requires IsOrigin(lives, o, k) && m < |lives|
  {
    match o
    case Found => 0
    case Moment(life, i) =>
      if life == m then |lives[m].run.states[i].decided| else 0
  }

  /** From the origin on, no write about the key was reported successful, in its own life or a later one. */
  ghost predicate IsLatest(lives: seq<Life>, o: Origin, k: JobKey)
    requires AreLives(lives) && IsOrigin(lives, o, k)
  {
    forall m :: (if o.Moment? then o.life else 0) <= m < |lives| ==>
      NoneLater(lives[m].run, |lives[m].run.steps|, k, WritesUpTo(lives, o, k, m))
  }

  /** The store still has the key's entry of these contents, as the hash reads it, or the entry has expired. */
  predicate HoldsOn(c: Contents, store: Contents, now: nat, k: JobKey) {
    && (k in store ==> k in c && ReloadedJob(store[k]) == ReloadedJob(c[k]))
    && (k in c && k !in store ==> !IsPending(ReloadedJob(c[k]), now))
  }

  /** Within one life that decided nothing about the key that took effect. */
  lemma {:induction false} LoadedHoldsOn(c: Contents, l: Life, k: JobKey)
    requires IsLife(l) && HoldsOn(c, l.stored, l.run.states[0].now, k)
    requires l.run.states[0].now <= End(l).now
    requires Agree(End(l).store, Reloaded(l.stored), k) || Lapsed(Reloaded(l.stored), End(l), k)
    ensures HoldsOn(c, End(l).store, End(l).now, k)
  {
    var s := End(l);
    if k in l.stored { JobRoundTrip(l.stored[k]); }
    if k in c && k !in l.stored && IsPending(ReloadedJob(c[k]), s.now) {
      PendingBefore(ReloadedJob(c[k]), l.run.states[0].now, s.now);
    }
  }

  lemma {:induction false} SameHolds(c: Contents, s: Sys, k: JobKey)
    requires Agree(s.store, c, k)
    ensures HoldsOn(c, s.store, s.now, k)
  {
  }

  /** An origin among the earlier lives is one among all, and still the latest if the last one wrote nothing of it. */
  lemma {:induction false} OriginStays(lives: seq<Life>, o: Origin, k: JobKey)
    requires AreLives(lives) && |lives| > 1
    requires var front := lives[..|lives| - 1]; AreLives(front) && IsOrigin(front, o, k) && IsLatest(front, o, k)
    requires var l := lives[|lives| - 1]; NoneLater(l.run, |l.run.steps|, k, 0)
    ensures IsOrigin(lives, o, k) && IsLatest(lives, o, k)
    ensures Held(lives, o, k) == Held(lives[..|lives| - 1], o, k)
  {
    var front := lives[..|lives| - 1];
    OriginAmongMore(front, lives, o, k);
    forall m | (if o.Moment? then o.life else 0) <= m < |lives|
      ensures NoneLater(lives[m].run, |lives[m].run.steps|, k, WritesUpTo(lives, o, k, m))
    {
      if m < |front| { LatestIn(front, o, k, m); }
    }
  }

  lemma {:induction false} LatestIn(lives: seq<Life>, o: Origin, k: JobKey, m: nat)
    requires AreLives(lives) && IsOrigin(lives, o, k) && IsLatest(lives, o, k)
    requires (if o.Moment? then o.life else 0) <= m < |lives|
    ensures NoneLater(lives[m].run, |lives[m].run.steps|, k, WritesUpTo(lives, o, k, m))
  {
  }

  lemma {:induction false} OriginAmongMore(front: seq<Life>, lives: seq<Life>, o: Origin, k: JobKey)
    requires front <= lives && IsOrigin(front, o, k)
    ensures IsOrigin(lives, o, k) && Held(lives, o, k) == Held(front, o, k)
    ensures forall m :: 0 <= m < |front| ==> WritesUpTo(lives, o, k, m) == WritesUpTo(front, o, k, m)
    ensures forall m :: |front| <= m < |lives| ==> WritesUpTo(lives, o, k, m) == 0
  {
    if o.Moment? { assert lives[o.life] == front[o.life]; }
    if o.Found? { assert lives[0] == front[0]; }
  }

  /** What the last life's store holds about a key when it ends. */
  lemma {:induction false} StoreHoldsOn(lives: seq<Life>, k: JobKey) returns (o: Origin)
    requires AreLives(lives)
    ensures IsOrigin(lives, o, k) && IsLatest(lives, o, k)
    ensures var s := End(lives[|lives| - 1]); HoldsOn(Held(lives, o, k), s.store, s.now, k)
    decreases |lives|
  {
    var last := |lives| - 1;
    var l := lives[last];
    var n := |l.run.steps|;
    HistoriesGrow(l.run, 0, n);
    ClockOfRun(l.run, n);
    var i := StoreKeepsAWord(l.run, n, k);
    if i.Some? {
      o := Moment(last, i.value);
      SameHolds(View(l.run.states[i.value]), End(l), k);
    } else if last == 0 {
      o := Found;
      LoadedHoldsOn(l.stored, l, k);
    } else {
      EarlierLives(lives);
      o := StoreHoldsOn(lives[..last], k);
      OriginStays(lives, o, k);
      assert IsNextLife(lives[last - 1], l);
      HoldsLater(Held(lives, o, k), End(lives[last - 1]), l.run.states[0].now, k);
      LoadedHoldsOn(Held(lives, o, k), l, k);
    }
  }

  lemma {:induction false} HoldsLater(c: Contents, s: Sys, later: nat, k: JobKey)
    requires HoldsOn(c, s.store, s.now, k) && s.now <= later
    ensures HoldsOn(c, s.store, later, k)
  {
    if k in c && IsPending(ReloadedJob(c[k]), later) { PendingBefore(ReloadedJob(c[k]), s.now, later); }
  }

  // ── crash and restart ─────────────────────────────────────────────────

  /** The last life loads what it finds, and ends its recovery with step `n`. */
  ghost predicate Recovers(lives: seq<Life>, n: nat)
    requires AreLives(lives)
  {
    var l := lives[|lives| - 1];
    && |lives| > 1 && l.run.states[0].pc == Recovering(l.jobs)
    && n < |l.run.steps| && l.run.steps[n] == FinishRecovery
  }

  /** Of this key the new map holds what these contents hold, as the hash reads it, unless that expired by then. */
  ghost predicate ComesBackReloaded(c: Contents, next: SysRun, n: nat, k: JobKey)
    requires n + 1 < |next.states| && MapFits(next.states[n + 1])
  {
    var after := View(next.states[n + 1]);
    && (k in after ==> k in c && after[k] == ReloadedJob(c[k]) && IsPending(after[k], next.states[0].now))
    && (k in c && IsPending(ReloadedJob(c[k]), next.states[n + 1].now) ==> k in after)
    && (k in c ==> (ReloadedJob(c[k]) == c[k] <==> c[k].params.timeout < I64))
  }

  lemma {:induction false} LastLifeRecovers(lives: seq<Life>, n: nat)
    requires AreLives(lives) && Recovers(lives, n)
    ensures var l := lives[|lives| - 1];
            RecoversFrom(l.run, Reloaded(End(lives[|lives| - 2]).store), n) && MapFits(l.run.states[n + 1])
  {
    var l := lives[|lives| - 1];
    EachLifeReads(lives);
    assert IsNextLife(lives[|lives| - 2], l);
    RecoveryRebuildsMap(l.run, n);
  }

  lemma {:induction false} HeldComesBack(c: Contents, s: Sys, next: SysRun, n: nat, k: JobKey)
    requires RecoversFrom(next, Reloaded(s.store), n) && s.now <= next.states[0].now
    requires HoldsOn(c, s.store, s.now, k)
    ensures MapFits(next.states[n + 1]) && ComesBackReloaded(c, next, n, k)
  {
    RecoveryRebuildsMap(next, n);
    ClockOfRun(next, n + 1);
    HoldsLater(c, s, next.states[n + 1].now, k);
    if k in c { JobRoundTrip(c[k]); }
  }

  /**
   * After the last crash, whenever it came: one earlier moment of the life it ended
   * serves for all keys that life had recovered and whose last write did not fail.
   */
  lemma {:induction false} CrashAndRestartOnRedis(lives: seq<Life>, n: nat) returns (i: nat)
    requires AreLives(lives) && Recovers(lives, n)
    ensures var before, next := lives[|lives| - 2].run, lives[|lives| - 1].run;
            && i < |before.states| && MapFits(before.states[i]) && MapFits(next.states[n + 1])
            && before.states[i].decided == End(lives[|lives| - 2]).written
            && forall k :: k !in End(lives[|lives| - 2]).dirty ==> ComesBackReloaded(View(before.states[i]), next, n, k)
  {
    var l, next := lives[|lives| - 2], lives[|lives| - 1].run;
    LastLifeRecovers(lives, n);
    assert IsNextLife(l, lives[|lives| - 1]);
    HistoriesGrow(l.run, 0, |l.run.steps|);
    i := StoreIsAnEarlierMap(l.run, |l.run.steps|);
    forall k | k !in End(l).dirty ensures ComesBackReloaded(View(l.run.states[i]), next, n, k) {
      SameHolds(View(l.run.states[i]), End(l), k);
      HeldComesBack(View(l.run.states[i]), End(l), next, n, k);
    }
  }

  /**
   * Through any number of lives, each ended by a crash at any moment, also within its
   * recovery, with loads, writes and deletions failing at will: of every key the
   * last life's map holds what the map held just after some decision about the key
   * since which no write about it was reported successful, in that life or a later
   * one, or what the very first life found if none ever was. It is missing only if
   * it was missing there, or has expired; and reading it back changes it exactly if
   * its delay is 2^63 ns or more.
   */
  lemma {:induction false} LivesKeepAWord(lives: seq<Life>, n: nat, k: JobKey) returns (o: Origin)
    requires AreLives(lives) && Recovers(lives, n)
    ensures var earlier, next := lives[..|lives| - 1], lives[|lives| - 1].run;
            && MapFits(next.states[n + 1])
            && AreLives(earlier) && IsOrigin(earlier, o, k) && IsLatest(earlier, o, k)
            && ComesBackReloaded(Held(earlier, o, k), next, n, k)
  {
    var earlier, next := lives[..|lives| - 1], lives[|lives| - 1].run;
    EarlierLives(lives);
    o := StoreHoldsOn(earlier, k);
    LastLifeRecovers(lives, n);
    assert IsNextLife(lives[|lives| - 2], lives[|lives| - 1]);
    HeldComesBack(Held(earlier, o, k), End(lives[|lives| - 2]), next, n, k);
  }
}
