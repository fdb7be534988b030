/**
 * A job composed with the homeserver that holds its delayed event. The homeserver
 * sends the event one delay timeout after the last restart it accepted, unless
 * another restart is accepted first.
 */
module KeepAlive {
  import opened Support
  import opened Fsm
  import opened JobModel
  import opened JobInvariant
  import opened JobProperties

  datatype World = World(
    job: Job,
    now: nat,
    due: nat,           // when the homeserver sends the event
    fired: bool,        // whether it has sent it
    accepted: bool,     // whether it has accepted any restart
    last: nat,          // when it accepted the last one
    inHand: bool,       // whether it accepted the attempt now in flight
    rested: bool,       // whether the restart timer has run out since then
    busy: nat           // time since then that the restart timer was not asleep
  )

  datatype Act =
    | JobStep(step: Step)   // the job, its tasks or its handler
    | Accept(task: nat)     // the homeserver accepts a restart attempt in flight
    | Lapse                 // the homeserver sends the delayed event
    | Pass(d: nat)          // time passes

  predicate IsRestartAttempt(j: Job, t: nat) {
    t < |j.tasks| && j.tasks[t].kind == Restart && j.tasks[t].pc.Calling? && j.tasks[t].pc.call.Attempt?
  }

  /** A restart succeeds only if the homeserver accepted it, and starts unaccepted. */
  predicate Permitted(w: World, a: Act) {
    match a
    case JobStep(s) =>
      && Enabled(w.job, s, w.now)
      && (s.Run? && s.move == Succeed && IsRestartAttempt(w.job, s.task) ==> w.inHand)
    case Accept(t) => IsRestartAttempt(w.job, t) && !w.fired && !w.inHand
    case Lapse => !w.fired && w.now >= w.due
    case Pass(_) => true
  }

  /** When the timer in the restart slot will fire, while it sleeps. */
  function Alarm(j: Job): Option<nat> {
    if j.restart.Some? && j.restart.value < |j.tasks| && j.tasks[j.restart.value].pc.Sleep?
    then Some(j.tasks[j.restart.value].pc.fireAt)
    else None
  }

  /** How much of the next `d` the restart timer sleeps through. */
  function Asleep(w: World, d: nat): nat {
    match Alarm(w.job)
    case None => 0
    case Some(f) => Min(d, Since(f, w.now))
  }

  /** Whether the step is the restart timer running out. */
  predicate IsAlarm(j: Job, s: Step) {
    s.Run? && s.move == Fire && s.task < |j.tasks| && j.tasks[s.task].kind == ResetTimer
  }

  predicate StartsRestart(j: Job, s: Step) {
    s.Run? && s.move == Start && s.task < |j.tasks| && j.tasks[s.task].kind == Restart
  }

  function Do(w: World, a: Act): World
    requires Permitted(w, a)
  {
    match a
    case JobStep(s) =>
      w.(job := Next(w.job, s, w.now),
         inHand := w.inHand && !StartsRestart(w.job, s),
         rested := w.rested || IsAlarm(w.job, s))
    case Accept(_) =>
      w.(accepted := true, last := w.now, due := w.now + w.job.timeout,
         inHand := true, rested := false, busy := 0)
    case Lapse => w.(fired := true)
    case Pass(d) => w.(now := w.now + d, busy := w.busy + (d - Asleep(w, d)))
  }

  datatype Story = Story(worlds: seq<World>, acts: seq<Act>)

  predicate IsStart(w: World) {
    && w.job.timeout > 0
    && w.job == NewJob(w.job.timeout, w.job.sanity)
    && !w.fired && !w.accepted && !w.inHand && !w.rested
  }

  ghost predicate IsStory(st: Story) {
    && |st.worlds| == |st.acts| + 1
    && IsStart(st.worlds[0])
    && forall i :: 0 <= i < |st.acts| ==> IsActAt(st, i)
  }

  predicate IsActAt(st: Story, i: nat)
    requires i < |st.acts| < |st.worlds|
  {
    Permitted(st.worlds[i], st.acts[i]) && st.worlds[i + 1] == Do(st.worlds[i], st.acts[i])
  }

  /** One act of a story. */
  lemma {:induction false} ActOfStory(st: Story, i: nat)
    requires IsStory(st) && i < |st.acts|
    ensures Permitted(st.worlds[i], st.acts[i]) && st.worlds[i + 1] == Do(st.worlds[i], st.acts[i])
  {
    assert IsActAt(st, i);
  }

  predicate Live(j: Job) {
    j.state == Connected && !j.cancelled
  }

  /**
   * What the deployment has to provide: the first restart is accepted before the
   * event is due, and after every accepted restart the time that is not the timer's
   * own sleep stays below what 80 % of the timeout leaves over.
   */
  predicate InTime(w: World) {
    if w.accepted then Live(w.job) ==> w.busy < w.job.timeout - RestartDelay(w.job.timeout)
    else w.now < w.due
  }

  // ── the accounting invariant ──────────────────────────────────────────

  /** The task holds an acceptance the loop has not yet turned into a timer. */
  predicate IsFreshTask(t: Task, inHand: bool) {
    t.kind == Restart && (t.pc.Report? || t.pc.HandOver? || (inHand && t.pc.Calling? && t.pc.call.Attempt?))
  }

  predicate Fresh(j: Job, inHand: bool) {
    j.result.Some? || exists i :: 0 <= i < |j.tasks| && IsFreshTask(j.tasks[i], inHand)
  }

  /** Time since the last acceptance is the busy time plus what the timer has slept. */
  predicate Balance(w: World) {
    var delay := RestartDelay(w.job.timeout);
    && w.last <= w.now
    && w.due == w.last + w.job.timeout
    && (w.rested ==> w.now - w.last == w.busy + delay && Alarm(w.job).None?)
    && (Alarm(w.job).Some? ==> w.now - w.last + Since(Alarm(w.job).value, w.now) == w.busy + delay)
    && (!w.rested && Alarm(w.job).None? ==> w.now - w.last == w.busy)
  }

  predicate Books(w: World) {
    && (Fresh(w.job, w.inHand) ==> w.accepted && !w.rested)
    && (Alarm(w.job).Some? ==> w.accepted && !w.rested)
    && (w.rested ==> w.accepted)
    && (w.accepted ==> Balance(w))
  }

  predicate Sound(w: World) {
    && Inv(w.job, w.now)
    && (w.inHand ==> w.accepted)
    && (w.job.state == WaitingForInitialConnect ==> !w.rested)
    && (w.accepted ==> Connected in w.job.entered)
    && (Live(w.job) ==> Books(w))
  }

  // ── each act keeps it ─────────────────────────────────────────────────

  lemma {:induction false} PassKeeps(w: World, d: nat)
    requires Sound(w)
    ensures Sound(Do(w, Pass(d)))
  {
    InvLater(w.job, w.now, w.now + d);
  }

  /** While a restart attempt is in flight no timer sleeps: it is the one token. */
  lemma {:induction false} TokenTaskMeansNoAlarm(j: Job, t: nat)
    requires TokenInv(j) && SlotInv(j) && t < |j.tasks| && IsTokenTask(j.tasks[t])
    ensures Alarm(j).Some? ==> j.restart == Some(t)
    ensures j.result.None?
  {
    CountPositive(j.tasks, t, IsTokenTask);
    if Alarm(j).Some? && j.restart.value != t {
      var s := j.restart.value;
      CountTwo(j.tasks, if s < t then s else t, if s < t then t else s, IsTokenTask);
    }
  }

  lemma {:induction false} AcceptKeeps(w: World, t: nat)
    requires Sound(w) && Permitted(w, Accept(t))
    ensures Sound(Do(w, Accept(t)))
  {
    assert TaskFits(w.job, w.job.tasks[t], w.now);
    TokenTaskMeansNoAlarm(w.job, t);
  }

  lemma {:induction false} RearmBooks(w: World)
    requires Sound(w) && Enabled(w.job, Rearm, w.now) && Live(w.job)
    ensures Books(Do(w, JobStep(Rearm)))
  {
    var k := Do(w, JobStep(Rearm));
    ResultIsOnlyToken(w.job);
    StopTimerTasks(w.job.tasks, w.job.restart);
    if w.job.restart.Some? { assert !IsTokenTask(w.job.tasks[w.job.restart.value]); }
    assert Alarm(w.job).None?;
    assert Fresh(w.job, w.inHand);
    assert !Fresh(k.job, k.inHand) by {
      forall i | 0 <= i < |k.job.tasks| ensures !IsFreshTask(k.job.tasks[i], k.inHand) {
        if i < |w.job.tasks| { assert !IsTokenTask(w.job.tasks[i]); }
      }
    }
  }

  /** Dispatching without leaving Connected spawns at most a restart that has nothing accepted yet. */
  lemma {:induction false} DispatchFresh(j: Job, now: nat, inHand: bool)
    requires SlotInv(j) && Enabled(j, Dispatch, now) && Live(j)
    requires Live(Next(j, Dispatch, now))
    ensures var k := Next(j, Dispatch, now);
            Alarm(k) == Alarm(j) && (Fresh(k, inHand) ==> Fresh(j, inHand))
  {
    var k := Next(j, Dispatch, now);
    ConnectedDispatch(j, now);
    if k != Popped(j) {
      NewRestartNotFresh(Popped(j), now, inHand);
      assert forall i :: 0 <= i < |j.tasks| ==> k.tasks[i] == j.tasks[i];
    }
    assert Fresh(Popped(j), inHand) ==> Fresh(j, inHand);
  }

  lemma {:induction false} DispatchBooks(w: World)
    requires Sound(w) && Enabled(w.job, Dispatch, w.now) && Live(w.job)
    requires Live(Next(w.job, Dispatch, w.now))
    ensures Books(Do(w, JobStep(Dispatch)))
  {
    DispatchFresh(w.job, w.now, w.inHand);
    DispatchSameFrame(w.job, w.now);
  }

  /** Entering Connected starts with no timer, no result and nothing accepted. */
  lemma {:induction false} ConnectFresh(j: Job, now: nat, inHand: bool)
    requires TokenInv(j) && SlotInv(j) && j.loop == Running && |j.events| > 0
    requires Transition(j.state, j.events[0]) == Some(Connected)
    ensures var k := StartRestart(Crossing(Popped(j), Connected, now), now);
            !Fresh(k, inHand) && k.restart.None?
  {
    var c := Crossing(Popped(j), Connected, now);
    CrossingFacts(Popped(j), Connected, now);
    assert c.result.None? && forall i :: 0 <= i < |j.tasks| ==> !IsTokenTask(j.tasks[i]) by { NoTokens(j); }
    forall i | 0 <= i < |c.tasks| ensures !IsFreshTask(c.tasks[i], inHand) {
      assert !IsTokenTask(j.tasks[i]) && c.tasks[i].kind == j.tasks[i].kind;
    }
    NewRestartNotFresh(c, now, inHand);
  }

  lemma {:induction false} NewRestartNotFresh(c: Job, now: nat, inHand: bool)
    ensures Fresh(StartRestart(c, now), inHand) ==> Fresh(c, inHand)
    ensures StartRestart(c, now).restart == c.restart
  {
    var k := StartRestart(c, now);
    if Fresh(k, inHand) && k.result.None? {
      var i :| 0 <= i < |k.tasks| && IsFreshTask(k.tasks[i], inHand);
      assert i < |c.tasks| && c.tasks[i] == k.tasks[i];
    }
  }

  /** Entering Connected: nothing has been accepted yet, and nothing sleeps. */
  lemma {:induction false} ConnectBooks(w: World)
    requires Sound(w) && Enabled(w.job, Dispatch, w.now) && !Live(w.job)
    requires Live(Next(w.job, Dispatch, w.now))
    ensures Books(Do(w, JobStep(Dispatch)))
  {
    var j := w.job;
    ConnectFirst(j, w.now);
    ConnectFresh(j, w.now, w.inHand);
  }

  /** Connected is entered once, from the table. */
  lemma {:induction false} ConnectFirst(j: Job, now: nat)
    requires Inv(j, now) && Enabled(j, Dispatch, now) && !Live(j) && Live(Next(j, Dispatch, now))
    ensures Transition(j.state, j.events[0]) == Some(Connected) && Connected !in j.entered
    ensures Next(j, Dispatch, now) == StartRestart(Crossing(Popped(j), Connected, now), now)
  {
    assert j.state != Connected by { DispatchSameFrame(j, now); }
    DispatchIs(j, now);
    var next := Transition(j.state, j.events[0]);
    if next.Some? && next.value != Connected {
      LeavesFor(Popped(j), next.value, now);
    }
    ShapeGrows(j, j.events[0], Connected);
  }

  /** A move of a task that carries no token touches neither the alarm nor any acceptance. */
  lemma {:induction false} OtherMoveBooks(w: World, t: nat, m: Move)
    requires Sound(w) && Enabled(w.job, Run(t, m), w.now) && Live(w.job)
    requires !IsTokenTask(w.job.tasks[t])
    ensures Books(Do(w, JobStep(Run(t, m))))
  {
    OtherMoveFresh(w.job, t, m, w.now, w.inHand);
  }

  lemma {:induction false} OtherMoveFresh(j: Job, t: nat, m: Move, now: nat, inHand: bool)
    requires SlotInv(j) && TasksFit(j, now) && Enabled(j, Run(t, m), now) && !IsTokenTask(j.tasks[t])
    ensures var k := Next(j, Run(t, m), now);
            Alarm(k) == Alarm(j) && k.timeout == j.timeout && (Fresh(k, inHand) ==> Fresh(j, inHand))
  {
    var k := Next(j, Run(t, m), now);
    OtherMoveFrame(j, t, m, now);
    if Fresh(k, inHand) && k.result.None? {
      var i :| 0 <= i < |k.tasks| && IsFreshTask(k.tasks[i], inHand);
      assert IsFreshTask(j.tasks[i], inHand);
    }
  }

  lemma {:induction false} OtherMoveFrame(j: Job, t: nat, m: Move, now: nat)
    requires SlotInv(j) && TasksFit(j, now) && Enabled(j, Run(t, m), now) && !IsTokenTask(j.tasks[t])
    ensures var k := Next(j, Run(t, m), now);
            && Alarm(k) == Alarm(j) && k.timeout == j.timeout && k.result == j.result
            && |k.tasks| == |j.tasks| && k.tasks[t].kind != Restart
            && forall i :: 0 <= i < |j.tasks| && i != t ==> k.tasks[i] == j.tasks[i]
  {
    assert TaskFits(j, j.tasks[t], now);
  }

  /** The restart timer runs out: the cycle has rested exactly its delay. */
  lemma {:induction false} AlarmBooks(w: World, t: nat, m: Move)
    requires Sound(w) && Enabled(w.job, Run(t, m), w.now) && Live(w.job)
    requires w.job.tasks[t].kind == ResetTimer && w.job.tasks[t].pc != Finished
    ensures Books(Do(w, JobStep(Run(t, m))))
  {
    var j, k := w.job, Next(w.job, Run(t, m), w.now);
    assert TaskFits(j, j.tasks[t], w.now);
    TokenTaskMeansNoAlarm(j, t);
    assert !IsKilledTimer(j.tasks[t]);
    OnlyToken(j, k, t, w.inHand);
    if j.tasks[t].pc.Sleep? { assert IsRunningTimer(j.tasks[t]) && j.restart == Some(t); }
  }

  /** Task `t` held the only token, so an acceptance still open after its move is its own. */
  lemma {:induction false} OnlyToken(j: Job, k: Job, t: nat, inHand: bool)
    requires TokenInv(j) && t < |j.tasks| == |k.tasks| && IsTokenTask(j.tasks[t])
    requires forall i :: 0 <= i < |j.tasks| && i != t ==> k.tasks[i] == j.tasks[i]
    ensures j.result.None?
    ensures k.result.None? ==> (Fresh(k, inHand) <==> IsFreshTask(k.tasks[t], inHand))
    ensures Fresh(j, inHand) <==> IsFreshTask(j.tasks[t], inHand)
  {
    CountPositive(j.tasks, t, IsTokenTask);
    forall i | 0 <= i < |j.tasks| && i != t ensures !IsTokenTask(j.tasks[i]) {
      if IsTokenTask(j.tasks[i]) { CountTwo(j.tasks, if i < t then i else t, if i < t then t else i, IsTokenTask); }
    }
  }

  /** A restart's own move: an acceptance is handed on, and starting over forgets it. */
  lemma {:induction false} RestartBooks(w: World, t: nat, m: Move)
    requires Sound(w) && Permitted(w, JobStep(Run(t, m))) && Live(w.job)
    requires w.job.tasks[t].kind == Restart && w.job.tasks[t].pc != Finished
    ensures Books(Do(w, JobStep(Run(t, m))))
  {
    var j, v := w.job, Do(w, JobStep(Run(t, m)));
    TokenTaskMeansNoAlarm(j, t);
    RestartMove(w, t, m);
    OnlyToken(j, v.job, t, w.inHand);
    OnlyToken(j, v.job, t, v.inHand);
  }

  lemma {:induction false} RestartMove(w: World, t: nat, m: Move)
    requires SlotInv(w.job) && TasksFit(w.job, w.now) && Permitted(w, JobStep(Run(t, m)))
    requires w.job.tasks[t].kind == Restart && w.job.tasks[t].pc != Finished
    ensures var v := Do(w, JobStep(Run(t, m)));
            && (w.job.restart != Some(t) ==> Alarm(v.job) == Alarm(w.job))
            && v == w.(job := v.job, inHand := v.inHand)
            && v.job.timeout == w.job.timeout && |v.job.tasks| == |w.job.tasks|
            && (forall i :: 0 <= i < |w.job.tasks| && i != t ==> v.job.tasks[i] == w.job.tasks[i])
            && (v.job.result.Some? && w.job.result.None? ==> w.job.tasks[t].pc.HandOver?)
            && (IsFreshTask(v.job.tasks[t], v.inHand) ==> IsFreshTask(w.job.tasks[t], w.inHand))
  {
    assert TaskFits(w.job, w.job.tasks[t], w.now);
  }

  lemma {:induction false} JobStepBooks(w: World, s: Step)
    requires Sound(w) && Permitted(w, JobStep(s))
    requires Live(Next(w.job, s, w.now))
    ensures Books(Do(w, JobStep(s)))
  {
    match s
    case Dispatch => if Live(w.job) { DispatchBooks(w); } else { ConnectBooks(w); }
    case Rearm => RearmBooks(w);
    case Run(t, m) =>
      assert Live(w.job);
      if !IsTokenTask(w.job.tasks[t]) {
        OtherMoveBooks(w, t, m);
      } else if w.job.tasks[t].kind == ResetTimer {
        AlarmBooks(w, t, m);
      } else {
        RestartBooks(w, t, m);
      }
    case _ =>
  }

  lemma {:induction false} JobStepKeeps(w: World, s: Step)
    requires Sound(w) && Permitted(w, JobStep(s))
    ensures Sound(Do(w, JobStep(s)))
  {
    NextKeeps(w.job, s, w.now);
    StepHistory(w.job, s, w.now);
    if w.job.state == WaitingForInitialConnect { NoTokens(w.job); }
    if Live(Next(w.job, s, w.now)) { JobStepBooks(w, s); }
  }

  lemma {:induction false} SoundKeeps(w: World, a: Act)
    requires Sound(w) && Permitted(w, a)
    ensures Sound(Do(w, a))
  {
    match a
    case JobStep(s) => JobStepKeeps(w, s);
    case Accept(t) => AcceptKeeps(w, t);
    case Lapse =>
    case Pass(d) => PassKeeps(w, d);
  }

  /** The accounting holds in every world of every story. */
  lemma {:induction false} StorySound(st: Story, i: nat)
    requires IsStory(st) && i < |st.worlds|
    ensures Sound(st.worlds[i])
    decreases i
  {
    if i == 0 {
      StartSound(st.worlds[0]);
    } else {
      StorySound(st, i - 1);
      SoundAt(st, i);
    }
  }

  lemma {:induction false} StartSound(w: World)
    requires IsStart(w)
    ensures Sound(w)
  {
    InitEstablishes(w.job.timeout, w.job.sanity, w.now);
  }

  lemma {:induction false} SoundAt(st: Story, i: nat)
    requires IsStory(st) && 0 < i < |st.worlds| && Sound(st.worlds[i - 1])
    ensures Sound(st.worlds[i])
  {
    ActOfStory(st, i - 1);
    SoundKeeps(st.worlds[i - 1], st.acts[i - 1]);
  }

  // ── the theorem ───────────────────────────────────────────────────────

  /** The timer takes 80 % rounded down: a fifth, rounded up and so never zero, is left over for latency. */
  lemma {:induction false} SlackIsPositive(timeout: nat)
    requires timeout > 0
    ensures RestartDelay(timeout) < timeout
    ensures timeout <= 5 * (timeout - RestartDelay(timeout)) < timeout + 5
  {
  }

  /**
   * The bound is exact. Once the timer of a cycle has run out, the event is due
   * exactly when the busy time has used up what 80 % of the timeout leaves over,
   * a fifth or more; at no time in the cycle is it due earlier than that.
   */
  lemma {:induction false} DueExactlyWhenSlackIsSpent(st: Story, i: nat)
    requires IsStory(st) && i < |st.worlds|
    requires Live(st.worlds[i].job) && st.worlds[i].accepted
    ensures var w := st.worlds[i];
            var slack := w.job.timeout - RestartDelay(w.job.timeout);
            && 5 * slack >= w.job.timeout > 0
            && (w.rested ==> (w.now >= w.due <==> w.busy >= slack))
            && (w.now >= w.due ==> w.busy >= slack)
  {
    StorySound(st, i);
    SlackIsPositive(st.worlds[i].job.timeout);
  }

  /** A world where the homeserver has fired although the job still counts on it not having. */
  predicate Betrayed(w: World) {
    w.fired && !w.job.cancelled && (w.job.state == WaitingForInitialConnect || w.job.state == Connected)
  }

  /** A job that has stopped counting on the homeserver never starts again. */
  lemma {:induction false} NoReturn(w: World, a: Act)
    requires Sound(w) && Permitted(w, a) && Betrayed(Do(w, a))
    ensures Betrayed(w) || a == Lapse
  {
    if a.JobStep? {
      StepHistory(w.job, a.step, w.now);
      if w.job.cancelled { CancelStays(w.job, a.step, w.now); }
    }
  }

  /**
   * Keep-alive: if the first restart is accepted before the event is due, and from
   * then on every cycle's latency stays below what the timer leaves over, the
   * homeserver never sends the event while the job is waiting or Connected,
   * however many cycles the story has.
   */
  lemma {:induction false} NeverFiresWhileConnected(st: Story, i: nat)
    requires IsStory(st) && i < |st.worlds|
    requires forall k :: 0 <= k <= i ==> InTime(st.worlds[k])
    ensures Live(st.worlds[i].job) ==> !st.worlds[i].fired
    ensures !Betrayed(st.worlds[i])
  {
    if i > 0 {
      NeverFiresWhileConnected(st, i - 1);
      StorySound(st, i - 1);
      ActOfStory(st, i - 1);
      assert InTime(st.worlds[i - 1]);
      NotBetrayed(st.worlds[i - 1], st.acts[i - 1]);
    }
  }

  lemma {:induction false} NotBetrayed(w: World, a: Act)
    requires Sound(w) && InTime(w) && Permitted(w, a) && !Betrayed(w)
    ensures !Betrayed(Do(w, a))
  {
    if Betrayed(Do(w, a)) {
      NoReturn(w, a);
      LapseWouldBeLate(w);
    }
  }

  /** In an in-time world the event is not due. */
  lemma {:induction false} LapseWouldBeLate(w: World)
    requires Sound(w) && InTime(w) && !w.job.cancelled
    requires w.job.state == WaitingForInitialConnect || w.job.state == Connected
    ensures w.now < w.due
  {
    if w.job.state == WaitingForInitialConnect {
      assert !w.accepted by { EnteredBelow(w.job.entered, w.job.state); }
    }
  }

  /** Every state entered before the current one is below it. */
  lemma {:induction false} EnteredBelow(entered: seq<State>, current: State)
    requires Climbs(entered, current)
    ensures forall s :: s in entered ==> s == current || Rank(s) < Rank(current)
  {
    var n := |entered| - 1;
    forall a | 0 <= a < n ensures Rank(entered[a]) < Rank(current) {
      assert Rank(entered[a]) < Rank(entered[n]);
    }
  }
}
