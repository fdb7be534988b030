/**
 * The job and its wait group together. Spawning a tracked task adds a guard, the
 * task drops it after its last step, one atomic operation at a time, and the loop
 * exits when its own call of wait has returned. The guard of JobModel's ExitLoop,
 * that no tracked task is left, is derived here.
 */
module JobJoin {
  import opened Support
  import opened JobModel
  import opened JobInvariant
  import opened JobProperties
  import W = WaitGroup

  datatype Whole = Whole(job: Job, group: W.Group)

  /** The guard of a tracked task, by its place among the guards added so far. */
  function GuardOf(tasks: seq<Task>, t: nat): nat
    requires t <= |tasks|
  {
    Count(tasks[..t], IsTracked)
  }

  datatype Act =
    | JobStep(step: Step)   // any step of the job but leaving its loop
    | GroupOp(op: W.Op)     // an operation of a dropped guard, or of the waiting loop
    | Leave                 // wait has returned: the loop exits and flags that it is done

  /** Only a task that has finished drops its guard; adding and calling wait belong to steps of the job. */
  predicate IsOwnOp(j: Job, op: W.Op) {
    match op
    case Decrement(g) =>
      forall t :: 0 <= t < |j.tasks| && IsTracked(j.tasks[t]) && GuardOf(j.tasks, t) == g ==> j.tasks[t].pc == Finished
    case Add => false
    case Enter => false
    case _ => true
  }

  predicate CanAct(w: Whole, a: Act, now: nat) {
    match a
    case JobStep(s) => s != ExitLoop && Enabled(w.job, s, now)
    case GroupOp(op) => W.CanDo(w.group, op) && IsOwnOp(w.job, op)
    case Leave => w.job.loop == Draining && w.group.waiters == [W.Returned]
  }

  /** What a step from `j` to `k` does to the wait group. */
  function GroupAfter(g: W.Group, j: Job, s: Step, k: Job): W.Group {
    if s == Shutdown then W.Do(g, W.Enter)
    else if Count(k.tasks, IsTracked) > Count(j.tasks, IsTracked) then W.Do(g, W.Add)
    else g
  }

  function After(w: Whole, a: Act, now: nat): Whole
    requires CanAct(w, a, now)
  {
    match a
    case JobStep(s) => var k := Next(w.job, s, now); Whole(k, GroupAfter(w.group, w.job, s, k))
    case GroupOp(op) => w.(group := W.Do(w.group, op))
    case Leave => w.(job := w.job.(loop := Exited))
  }

  datatype WholeRun = WholeTrace(wholes: seq<Whole>, clocks: seq<nat>, acts: seq<Act>)

  ghost predicate IsWholeRun(r: WholeRun) {
    && |r.wholes| == |r.clocks| == |r.acts| + 1
    && (exists t, sanity :: t > 0 && r.wholes[0] == Whole(NewJob(t, sanity), W.Group(0, [], [])))
    && (forall i :: 0 <= i < |r.acts| ==> IsActAt(r, i))
  }

  predicate IsActAt(r: WholeRun, i: nat)
    requires |r.wholes| == |r.clocks| == |r.acts| + 1 && i < |r.acts|
  {
    && CanAct(r.wholes[i], r.acts[i], r.clocks[i])
    && r.wholes[i + 1] == After(r.wholes[i], r.acts[i], r.clocks[i])
    && r.clocks[i] <= r.clocks[i + 1]
  }

  /** One act of a run. */
  lemma {:induction false} ActOfRun(w: WholeRun, i: nat)
    requires IsWholeRun(w) && i < |w.acts|
    ensures CanAct(w.wholes[i], w.acts[i], w.clocks[i])
    ensures w.wholes[i + 1] == After(w.wholes[i], w.acts[i], w.clocks[i]) && w.clocks[i] <= w.clocks[i + 1]
  {
    assert IsActAt(w, i);
  }

  // ── the invariant ─────────────────────────────────────────────────────

  predicate IsLeaving(j: Job) { j.loop == Draining || j.loop == Exited }

  /** An unfinished tracked task still holds its guard. */
  predicate Guarded(tasks: seq<Task>, guards: seq<W.Guard>, t: nat)
    requires t < |tasks|
  {
    IsTracked(tasks[t]) && tasks[t].pc != Finished ==>
      GuardOf(tasks, t) < |guards| && guards[GuardOf(tasks, t)] == W.Live
  }

  predicate AllGuarded(tasks: seq<Task>, guards: seq<W.Guard>) {
    forall t :: 0 <= t < |tasks| ==> Guarded(tasks, guards, t)
  }

  /** One guard was added per tracked task; once wait has returned the count is and stays zero. */
  predicate JoinInv(w: Whole) {
    && W.Inv(w.group)
    && |w.group.guards| == Count(w.job.tasks, IsTracked)
    && AllGuarded(w.job.tasks, w.group.guards)
    && |w.group.waiters| == (if IsLeaving(w.job) then 1 else 0)
    && (W.Returned in w.group.waiters ==> w.group.count == 0)
  }

  // ── counting guards ───────────────────────────────────────────────────

  lemma {:induction false} SameKinds(a: seq<Task>, b: seq<Task>)
    requires |a| == |b| && forall t :: 0 <= t < |a| ==> a[t].kind == b[t].kind
    ensures Count(a, IsTracked) == Count(b, IsTracked)
  {
    if |a| > 0 { SameKinds(a[..|a| - 1], b[..|b| - 1]); }
  }

  /** `b` continues `a`: the old tasks keep their kinds, and at most one of the new ones is tracked. */
  predicate Extends(a: seq<Task>, b: seq<Task>) {
    && |a| <= |b|
    && (forall t :: 0 <= t < |a| ==> b[t].kind == a[t].kind && (b[t].pc != Finished ==> a[t].pc != Finished))
    && Count(b[|a|..], IsTracked) <= 1
  }

  lemma {:induction false} OldGuards(a: seq<Task>, b: seq<Task>, t: nat)
    requires Extends(a, b) && t <= |a|
    ensures GuardOf(b, t) == GuardOf(a, t)
  {
    SameKinds(a[..t], b[..t]);
  }

  /** The only new tracked task gets the next guard. */
  lemma {:induction false} NewGuard(a: seq<Task>, b: seq<Task>, t: nat)
    requires Extends(a, b) && |a| <= t < |b| && IsTracked(b[t])
    ensures GuardOf(b, t) == Count(a, IsTracked) && Count(b, IsTracked) == Count(a, IsTracked) + 1
  {
    var n, tail := |a|, b[|a|..];
    OldGuards(a, b, n);
    assert a[..n] == a && b == b[..n] + tail;
    CountConcat(b[..n], tail, IsTracked);
    var k := t - n;
    assert tail == tail[..k] + tail[k..];
    CountConcat(tail[..k], tail[k..], IsTracked);
    CountPositive(tail[k..], 0, IsTracked);
    assert b[..t] == b[..n] + tail[..k];
    CountConcat(b[..n], tail[..k], IsTracked);
  }

  lemma {:induction false} TotalGuards(a: seq<Task>, b: seq<Task>)
    requires Extends(a, b)
    ensures Count(a, IsTracked) <= Count(b, IsTracked) <= Count(a, IsTracked) + 1
  {
    OldGuards(a, b, |a|);
    assert a[..|a|] == a && b == b[..|a|] + b[|a|..];
    CountConcat(b[..|a|], b[|a|..], IsTracked);
  }

  /** A new guard, if there is a new tracked task, keeps everything guarded. */
  lemma {:induction false} ExtendsKeeps(a: seq<Task>, b: seq<Task>, guards: seq<W.Guard>, more: seq<W.Guard>)
    requires Extends(a, b) && AllGuarded(a, guards) && |guards| == Count(a, IsTracked)
    requires more == if Count(b, IsTracked) > Count(a, IsTracked) then guards + [W.Live] else guards
    ensures AllGuarded(b, more) && |more| == Count(b, IsTracked)
  {
    TotalGuards(a, b);
    forall t | 0 <= t < |b| ensures Guarded(b, more, t) {
      if t < |a| {
        OldGuards(a, b, t);
        assert Guarded(a, guards, t);
      } else if IsTracked(b[t]) {
        NewGuard(a, b, t);
      }
    }
  }

  // ── every act keeps it ────────────────────────────────────────────────

  lemma {:induction false} OneTracked(t: Task)
    ensures Count([t], IsTracked) <= 1
    ensures !IsTracked(t) ==> Count([t], IsTracked) == 0
  {
    assert [t][..0] == [];
  }

  lemma {:induction false} BeginTail(j: Job, now: nat)
    ensures var k := Launch(j, now); |k.tasks| >= |j.tasks| && Count(k.tasks[|j.tasks|..], IsTracked) <= 1
  {
    var k, n := Launch(j, now), |j.tasks|;
    var tail := k.tasks[n..];
    assert tail == [tail[0]] + [tail[1]];
    CountConcat([tail[0]], [tail[1]], IsTracked);
    OneTracked(tail[0]);
    OneTracked(tail[1]);
  }

  lemma {:induction false} DispatchTail(j: Job, now: nat)
    requires Enabled(j, Dispatch, now)
    ensures |j.tasks| <= |Next(j, Dispatch, now).tasks| <= |j.tasks| + 1
  {
    var c := DispatchVia(j, now, 0);
  }

  lemma {:induction false} OtherTail(j: Job, s: Step, now: nat)
    requires Enabled(j, s, now) && s != Begin && s != Dispatch
    ensures |j.tasks| <= |Next(j, s, now).tasks| <= |j.tasks| + 1
  {
  }

  lemma {:induction false} TailIsShort(j: Job, s: Step, now: nat)
    requires Enabled(j, s, now)
    ensures var k := Next(j, s, now); |j.tasks| <= |k.tasks| && Count(k.tasks[|j.tasks|..], IsTracked) <= 1
  {
    if s == Begin {
      BeginTail(j, now);
    } else {
      if s == Dispatch { DispatchTail(j, now); } else { OtherTail(j, s, now); }
      var tail := Next(j, s, now).tasks[|j.tasks|..];
      if |tail| == 1 {
        assert tail == [tail[0]];
        OneTracked(tail[0]);
      }
    }
  }

  /** A finished task stays finished. */
  lemma {:induction false} FinishedStays(j: Job, s: Step, now: nat, t: nat)
    requires Enabled(j, s, now) && t < |j.tasks| && t < |Next(j, s, now).tasks| && j.tasks[t].pc == Finished
    ensures Next(j, s, now).tasks[t].pc == Finished
  {
    TaskStep(j, s, now, t);
  }

  lemma {:induction false} StepExtends(j: Job, s: Step, now: nat)
    requires Enabled(j, s, now)
    ensures Extends(j.tasks, Next(j, s, now).tasks)
  {
    var k := Next(j, s, now);
    TailIsShort(j, s, now);
    forall t | 0 <= t < |j.tasks|
      ensures k.tasks[t].kind == j.tasks[t].kind && (k.tasks[t].pc != Finished ==> j.tasks[t].pc != Finished)
    {
      TaskStep(j, s, now, t);
      if j.tasks[t].pc == Finished { FinishedStays(j, s, now, t); }
    }
  }

  /** How a step moves the loop: only Shutdown starts the leaving, and nothing ends it. */
  lemma {:induction false} LoopStep(j: Job, s: Step, now: nat)
    requires Enabled(j, s, now) && s != ExitLoop
    ensures IsLeaving(Next(j, s, now)) <==> IsLeaving(j) || s == Shutdown
    ensures s == Shutdown ==> !IsLeaving(j)
  {
    if s == Dispatch { DispatchLoop(j, now); }
  }

  lemma {:induction false} DispatchLoop(j: Job, now: nat)
    requires Enabled(j, Dispatch, now)
    ensures Next(j, Dispatch, now).loop == j.loop
  {
    DispatchSameFrame(j, now);
  }

  lemma {:induction false} LeavingAddsNothing(j: Job, s: Step, now: nat)
    requires Enabled(j, s, now) && IsLeaving(j)
    ensures Count(Next(j, s, now).tasks, IsTracked) == Count(j.tasks, IsTracked)
  {
    var k := Next(j, s, now);
    DrainingStep(j, s, now);
    StepExtends(j, s, now);
    OldGuards(j.tasks, k.tasks, |j.tasks|);
    assert k.tasks[..|j.tasks|] == k.tasks && j.tasks[..|j.tasks|] == j.tasks;
  }

  lemma {:induction false} ShutdownAddsNothing(j: Job, now: nat)
    requires Enabled(j, Shutdown, now)
    ensures Count(Next(j, Shutdown, now).tasks, IsTracked) == Count(j.tasks, IsTracked)
  {
    var k := Next(j, Shutdown, now);
    StepExtends(j, Shutdown, now);
    assert |k.tasks| == |j.tasks|;
    OldGuards(j.tasks, k.tasks, |j.tasks|);
    assert k.tasks[..|j.tasks|] == k.tasks && j.tasks[..|j.tasks|] == j.tasks;
  }

  lemma {:induction false} JobStepKeeps(w: Whole, s: Step, now: nat)
    requires JoinInv(w) && CanAct(w, JobStep(s), now)
    ensures JoinInv(After(w, JobStep(s), now))
  {
    var k := Next(w.job, s, now);
    var g := GroupAfter(w.group, w.job, s, k);
    StepExtends(w.job, s, now);
    LoopStep(w.job, s, now);
    if s == Shutdown {
      ShutdownAddsNothing(w.job, now);
      W.DoKeeps(w.group, W.Enter);
    } else if IsLeaving(w.job) {
      LeavingAddsNothing(w.job, s, now);
    } else if Count(k.tasks, IsTracked) > Count(w.job.tasks, IsTracked) {
      W.DoKeeps(w.group, W.Add);
    }
    ExtendsKeeps(w.job.tasks, k.tasks, w.group.guards, g.guards);
  }

  /** No guard is live once the count is zero. */
  lemma {:induction false} ZeroMeansNoneLive(g: W.Group, i: nat)
    requires W.Inv(g) && g.count == 0 && i < |g.guards|
    ensures g.guards[i] != W.Live
  {
    if W.IsLive(g.guards[i]) { CountPositive(g.guards, i, W.IsLive); }
  }

  lemma {:induction false} GroupOpKeeps(w: Whole, op: W.Op, now: nat)
    requires JoinInv(w) && CanAct(w, GroupOp(op), now)
    ensures JoinInv(After(w, GroupOp(op), now))
  {
    var g := W.Do(w.group, op);
    W.DoKeeps(w.group, op);
    forall t | 0 <= t < |w.job.tasks| ensures Guarded(w.job.tasks, g.guards, t) {
      assert Guarded(w.job.tasks, w.group.guards, t);
    }
    if op.Decrement? && w.group.count == 0 { ZeroMeansNoneLive(w.group, op.g); }
  }

  lemma {:induction false} ActKeeps(w: Whole, a: Act, now: nat)
    requires JoinInv(w) && CanAct(w, a, now)
    ensures JoinInv(After(w, a, now))
  {
    match a
    case JobStep(s) => JobStepKeeps(w, s, now);
    case GroupOp(op) => GroupOpKeeps(w, op, now);
    case Leave =>
  }

  lemma {:induction false} WholeRunInv(r: WholeRun, n: nat)
    requires IsWholeRun(r) && n < |r.wholes|
    ensures JoinInv(r.wholes[n])
    decreases n
  {
    if n > 0 {
      WholeRunInv(r, n - 1);
      ActOfRun(r, n - 1);
      ActKeeps(r.wholes[n - 1], r.acts[n - 1], r.clocks[n - 1]);
    }
  }

  // ── what the wait achieves ────────────────────────────────────────────

  /** With the count at zero every tracked task has ended. */
  lemma {:induction false} ZeroMeansJoined(w: Whole)
    requires JoinInv(w) && w.group.count == 0
    ensures Count(w.job.tasks, IsBackground) == 0
  {
    forall u | u in w.job.tasks ensures !IsBackground(u) {
      var t :| 0 <= t < |w.job.tasks| && w.job.tasks[t] == u;
      assert Guarded(w.job.tasks, w.group.guards, t);
      if IsBackground(u) { ZeroMeansNoneLive(w.group, GuardOf(w.job.tasks, t)); }
    }
    CountNone(w.job.tasks, IsBackground);
  }

  /** The step of the job that an act is, if it is one. */
  function StepOf(a: Act): Option<Step> {
    match a
    case JobStep(s) => Some(s)
    case GroupOp(_) => None
    case Leave => Some(ExitLoop)
  }

  /** Whenever wait has returned, JobModel's ExitLoop is enabled; so every act is a step of JobModel or none. */
  lemma {:induction false} ActIsStep(w: Whole, a: Act, now: nat)
    requires JoinInv(w) && CanAct(w, a, now)
    ensures match StepOf(a)
            case None => After(w, a, now).job == w.job
            case Some(s) => Enabled(w.job, s, now) && After(w, a, now).job == Next(w.job, s, now)
  {
    if a == Leave {
      assert w.group.waiters[0] == W.Returned;
      ZeroMeansJoined(w);
    }
  }

  /** Seen from the job alone, the operations of the wait group are no steps: what is left is a run of JobModel. */
  lemma {:induction false} Projects(w: WholeRun, n: nat) returns (r: JobRun)
    requires IsWholeRun(w) && n < |w.wholes|
    ensures IsRun(r) && r.jobs[|r.steps|] == w.wholes[n].job && r.clocks[|r.steps|] == w.clocks[n]
    decreases n
  {
    if n == 0 {
      r := Trace([w.wholes[0].job], [w.clocks[0]], []);
    } else {
      r := Projects(w, n - 1);
      WholeRunInv(w, n - 1);
      ActOfRun(w, n - 1);
      ActIsStep(w.wholes[n - 1], w.acts[n - 1], w.clocks[n - 1]);
      match StepOf(w.acts[n - 1])
      case Some(s) => r := Longer(r, s, w.wholes[n].job, w.clocks[n]);
      case None => r := Later(r, w.clocks[n]);
    }
  }

  /**
   * The loop's done flag means that no tracked task remains: in every run of job and
   * wait group, once the loop has exited every tracked task has ended.
   */
  lemma {:induction false} DoneFlagMeansJoined(w: WholeRun, n: nat, t: nat)
    requires IsWholeRun(w) && n < |w.wholes| && w.wholes[n].job.loop == Exited && t < |w.wholes[n].job.tasks|
    ensures IsTracked(w.wholes[n].job.tasks[t]) ==> w.wholes[n].job.tasks[t].pc == Finished
  {
    var r := Projects(w, n);
    LoopDoneMeansNoBackground(r, |r.steps|, t);
  }

  /** And it gets there: with every guard dropped the loop's wait returns after at most three operations of its own. */
  lemma {:induction false} DrainedWaitReturns(w: WholeRun, n: nat)
    requires IsWholeRun(w) && n < |w.wholes| && w.wholes[n].job.loop == Draining
    requires forall g :: g in w.wholes[n].group.guards ==> g == W.Dropped
    ensures var s := w.wholes[n].group;
            && |s.waiters| == 1
            && var home := W.DoAll(s, W.WayHome(s.waiters[0], 0));
               home.Some? && home.value.waiters == [W.Returned]
  {
    WholeRunInv(w, n);
    W.QuietGroupReturns(w.wholes[n].group, 0);
  }
}
