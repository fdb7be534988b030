/**
 * The retry loop: capped randomized exponential backoff within an elapsed-time
 * budget, against an arbitrary sequence of attempt outcomes, durations, random
 * draws, oversleeps and cancellations. Times are exact, in seconds.
 */
module Retry {

  datatype Schedule = Schedule(initial: real, multiplier: real, randomization: real, maxInterval: real)

  /** The parameters every retry loop of the service uses. */
  const SERVICE_DEFAULT: Schedule := Schedule(1.0, 1.5, 0.5, 60.0)

  datatype Outcome = Ok | Permanent | RetryAfter(hint: real) | Transient

  /** What the environment does to one turn of the loop. */
  datatype Turn = Turn(
    cancelledBefore: bool,  // the token had fired at the check
    duration: real,         // how long the attempt takes
    outcome: Outcome,
    draw: real,             // what the random source is set on, in seconds
    cancelledDuring: bool,  // the token fires during the wait
    oversleep: real         // how much longer than asked the sleep takes
  )

  predicate IsTurn(t: Turn) {
    && t.duration >= 0.0 && t.oversleep >= 0.0
    && (t.outcome.RetryAfter? ==> t.outcome.hint >= 0.0)
  }

  predicate AreTurns(turns: seq<Turn>) {
    forall i :: 0 <= i < |turns| ==> IsTurn(turns[i])
  }

  datatype Verdict =
    | Succeeded
    | PermanentError
    | BudgetExhausted
    | Cancelled
    | Unfinished  // the given turns ran out

  function Smaller(a: real, b: real): real { if a <= b then a else b }

  // ── the schedule ──────────────────────────────────────────────────────

  /** 1.5^n. */
  function Growth(n: nat): (r: real)
    ensures r >= 1.0
  {
    if n == 0 then 1.0 else 1.5 * Growth(n - 1)
  }

  /** The base interval after `n` transient failures: min(60 s, 1.5^n s). */
  function Base(n: nat): (r: real)
    ensures r >= 1.0
  {
    Smaller(60.0, Growth(n))
  }

  lemma {:induction false} FirstBase()
    ensures Base(0) == 1.0
  {
  }

  /** Capping step by step is capping the power. */
  lemma {:induction false} BaseStep(n: nat)
    ensures Base(n + 1) == Smaller(60.0, 1.5 * Base(n))
  {
  }

  /** What the random source picks from a range: any value in it, and none outside. */
  function Picked(low: real, high: real, draw: real): (r: real)
    requires low <= high
    ensures low <= r <= high
    ensures low <= draw <= high ==> r == draw
  {
    if draw < low then low else if draw > high then high else draw
  }

  /** A wait within half the interval below it and half the interval above it. */
  function Drawn(base: real, draw: real): (r: real)
    requires base >= 0.0
    ensures 0.5 * base <= r <= 1.5 * base
  {
    Picked(0.5 * base, 1.5 * base, draw)
  }

  class BackoffState {
    const schedule: Schedule
    var current: real

    constructor (schedule: Schedule)
      ensures this.schedule == schedule && current == schedule.initial
    {
      this.schedule := schedule;
      current := schedule.initial;
    }

    /** A wait drawn around the current interval; the interval then grows up to the cap. */
    method NextInterval(draw: real) returns (wait: real)
      requires schedule == SERVICE_DEFAULT && current > 0.0
      modifies this
      ensures wait == Drawn(old(current), draw)
      ensures 0.5 * old(current) <= wait <= 1.5 * old(current)
      ensures current == Smaller(60.0, 1.5 * old(current))
    {
      var base := current;
      var randomized := base;
      if schedule.randomization > 0.0 {
        var delta := schedule.randomization * base;
        randomized := Picked(base - delta, base + delta, draw);
      }
      current := Smaller(current * schedule.multiplier, schedule.maxInterval);
      wait := if randomized >= 0.0 then randomized else 0.0;
    }
  }

  // ── what the loop does with its turns ─────────────────────────────────

  /** The transient failures among the first `i` turns. */
  function Transients(turns: seq<Turn>, i: nat): nat
    requires i <= |turns|
  {
    if i == 0 then 0 else Transients(turns, i - 1) + if turns[i - 1].outcome == Transient then 1 else 0
  }

  /** How long to wait after turn `i`, if its attempt may be repeated. */
  function WaitOf(turns: seq<Turn>, i: nat): real
    requires i < |turns|
  {
    match turns[i].outcome
    case Transient => Drawn(Base(Transients(turns, i)), turns[i].draw)
    case RetryAfter(hint) => hint
    case _ => 0.0
  }

  /** When turn `i` begins, if the loop gets there. */
  function StartAt(turns: seq<Turn>, i: nat): real
    requires i <= |turns|
  {
    if i == 0 then 0.0
    else StartAt(turns, i - 1) + turns[i - 1].duration + WaitOf(turns, i - 1) + turns[i - 1].oversleep
  }

  /** Whether the wait after turn `i` would end past the budget. */
  predicate Overruns(turns: seq<Turn>, i: nat, maxElapsed: real)
    requires i < |turns|
  {
    maxElapsed > 0.0 && StartAt(turns, i) + turns[i].duration + WaitOf(turns, i) > maxElapsed
  }

  predicate IsRetryable(o: Outcome) { o == Transient || o.RetryAfter? }

  /** How turn `i` ends the loop, or Unfinished if it does not. */
  function Judgement(turns: seq<Turn>, i: nat, maxElapsed: real): Verdict
    requires i < |turns|
  {
    if turns[i].cancelledBefore then Cancelled
    else if turns[i].outcome == Ok then Succeeded
    else if turns[i].outcome == Permanent then PermanentError
    else if Overruns(turns, i, maxElapsed) then BudgetExhausted
    else if turns[i].cancelledDuring then Cancelled
    else Unfinished
  }

  /** Turn `i` did not end the loop, and this was its wait. */
  predicate WasSlept(waits: seq<real>, turns: seq<Turn>, maxElapsed: real, i: nat)
    requires i < |waits| <= |turns|
  {
    Judgement(turns, i, maxElapsed) == Unfinished && waits[i] == WaitOf(turns, i)
  }

  /** The attempt of turn `i` began when it should. */
  predicate WasStarted(starts: seq<real>, turns: seq<Turn>, i: nat)
    requires i < |starts| <= |turns|
  {
    starts[i] == StartAt(turns, i)
  }

  /** The turns whose wait was slept through are those before the first that ends the loop. */
  predicate IsRetry(v: Verdict, starts: seq<real>, waits: seq<real>, turns: seq<Turn>, maxElapsed: real) {
    var n := |waits|;
    && n <= |turns|
    && (forall i :: 0 <= i < n ==> WasSlept(waits, turns, maxElapsed, i))
    && (if n == |turns| then v == Unfinished else v == Judgement(turns, n, maxElapsed) != Unfinished)
    && |starts| == (if n == |turns| || turns[n].cancelledBefore then n else n + 1) <= |turns|
    && (forall i :: 0 <= i < |starts| ==> WasStarted(starts, turns, i))
  }

  /** The wait a repeatable failure asks for. */
  method NextWait(backoff: BackoffState, ghost turns: seq<Turn>, i: nat, turn: Turn) returns (wait: real)
    requires AreTurns(turns) && i < |turns| && turn == turns[i] && IsRetryable(turn.outcome)
    requires backoff.schedule == SERVICE_DEFAULT && backoff.current == Base(Transients(turns, i))
    modifies backoff
    ensures wait == WaitOf(turns, i)
    ensures backoff.current == Base(Transients(turns, i + 1))
  {
    if turn.outcome == Transient {
      BaseStep(Transients(turns, i));
      wait := backoff.NextInterval(turn.draw);
    } else {
      wait := turn.outcome.hint;
    }
  }

  /** Judges an attempt that has been made: stop for good, give up, be cancelled, or sleep. */
  method Judge(backoff: BackoffState, ghost turns: seq<Turn>, i: nat, turn: Turn, elapsed: real, maxElapsed: real)
    returns (verdict: Verdict, wait: real)
    requires AreTurns(turns) && i < |turns| && turn == turns[i] && !turn.cancelledBefore
    requires elapsed == StartAt(turns, i) + turn.duration
    requires backoff.schedule == SERVICE_DEFAULT && backoff.current == Base(Transients(turns, i))
    modifies backoff
    ensures verdict == Judgement(turns, i, maxElapsed)
    ensures verdict == Unfinished ==> wait == WaitOf(turns, i) && backoff.current == Base(Transients(turns, i + 1))
  {
    wait := 0.0;
    if turn.outcome == Ok {
      return Succeeded, wait;
    }
    if turn.outcome == Permanent {
      return PermanentError, wait;
    }
    wait := NextWait(backoff, turns, i, turn);
    if maxElapsed > 0.0 && elapsed + wait > maxElapsed {
      return BudgetExhausted, wait;
    }
    if turn.cancelledDuring {
      return Cancelled, wait;
    }
    return Unfinished, wait;
  }

  /** The loop has slept through the waits of its first `i` turns. */
  predicate InLoop(starts: seq<real>, waits: seq<real>, turns: seq<Turn>, maxElapsed: real, i: nat) {
    && |waits| == |starts| == i <= |turns|
    && (forall k :: 0 <= k < i ==> WasSlept(waits, turns, maxElapsed, k))
    && (forall k :: 0 <= k < i ==> WasStarted(starts, turns, k))
  }

  /** A turn that ends the loop, with or without an attempt. */
  lemma {:induction false} EndedBefore(starts: seq<real>, waits: seq<real>, turns: seq<Turn>, maxElapsed: real, i: nat)
    requires InLoop(starts, waits, turns, maxElapsed, i) && i < |turns| && turns[i].cancelledBefore
    ensures IsRetry(Cancelled, starts, waits, turns, maxElapsed)
  {
    assert Judgement(turns, i, maxElapsed) == Cancelled;
  }

  lemma {:induction false} EndedAfter(starts: seq<real>, waits: seq<real>, turns: seq<Turn>, maxElapsed: real, i: nat)
    requires InLoop(starts, waits, turns, maxElapsed, i) && i < |turns| && !turns[i].cancelledBefore
    requires Judgement(turns, i, maxElapsed) != Unfinished
    ensures IsRetry(Judgement(turns, i, maxElapsed), starts + [StartAt(turns, i)], waits, turns, maxElapsed)
  {
    var all := starts + [StartAt(turns, i)];
    forall k | 0 <= k < |all| ensures WasStarted(all, turns, k) {
      if k < i { assert WasStarted(starts, turns, k); }
    }
  }

  lemma {:induction false} OneTurnMore(starts: seq<real>, waits: seq<real>, turns: seq<Turn>, maxElapsed: real, i: nat)
    requires InLoop(starts, waits, turns, maxElapsed, i) && i < |turns|
    requires Judgement(turns, i, maxElapsed) == Unfinished
    ensures InLoop(starts + [StartAt(turns, i)], waits + [WaitOf(turns, i)], turns, maxElapsed, i + 1)
  {
    var s, w := starts + [StartAt(turns, i)], waits + [WaitOf(turns, i)];
    forall k | 0 <= k < i + 1 ensures WasSlept(w, turns, maxElapsed, k) && WasStarted(s, turns, k) {
      if k < i { assert WasSlept(waits, turns, maxElapsed, k) && WasStarted(starts, turns, k); }
    }
  }

  // ── the results, in the terms of a caller ─────────────────────────────

  function Power(x: real, n: nat): real {
    if n == 0 then 1.0 else x * Power(x, n - 1)
  }

  /** How many of the first `i` attempts failed transiently. */
  function Failures(turns: seq<Turn>, i: nat): nat
    requires i <= |turns|
  {
    |set k | 0 <= k < i && turns[k].outcome == Transient|
  }

  /** The value, moved to the nearer end if it is outside. */
  predicate IsClamped(w: real, value: real, low: real, high: real) {
    low <= w <= high && (value <= low ==> w == low) && (value >= high ==> w == high)
    && (low <= value <= high ==> w == value)
  }

  /**
   * The wait that the failure of turn `i` asks for: what the server said, or else
   * the draw between half and one and a half of min(60 s, 1.5^n s) after n transient
   * failures before it.
   */
  predicate IsAsked(turns: seq<Turn>, i: nat, w: real)
    requires i < |turns|
  {
    match turns[i].outcome
    case RetryAfter(hint) => w == hint
    case Transient =>
      var power := Power(1.5, Failures(turns, i));
      var base := if power < 60.0 then power else 60.0;
      IsClamped(w, turns[i].draw, base / 2.0, base * 3.0 / 2.0)
    case _ => false
  }

  /** The attempt failed in a way that may be repeated. */
  predicate IsFailed(turns: seq<Turn>, i: nat)
    requires i < |turns|
  {
    turns[i].outcome == Transient || turns[i].outcome.RetryAfter?
  }

  /** The last attempt failed, and waiting as long as it asks for would pass the budget. */
  ghost predicate IsSpent(turns: seq<Turn>, starts: seq<real>, maxElapsed: real)
    requires 0 < |starts| <= |turns|
  {
    var i := |starts| - 1;
    IsFailed(turns, i) && maxElapsed > 0.0
    && exists w :: IsAsked(turns, i, w) && starts[i] + turns[i].duration + w > maxElapsed
  }

  /** Each attempt was followed by the wait it asked for, and the next began when that was over. */
  predicate IsTimed(turns: seq<Turn>, starts: seq<real>, waits: seq<real>) {
    && |waits| <= |starts| <= |turns| && |starts| <= |waits| + 1
    && (|starts| > 0 ==> starts[0] == 0.0)
    && (forall i :: 0 <= i < |starts| - 1 ==>
          starts[i + 1] == starts[i] + turns[i].duration + waits[i] + turns[i].oversleep)
    && (forall i :: 0 <= i < |waits| ==>
          IsFailed(turns, i) && IsAsked(turns, i, waits[i]) && !turns[i].cancelledBefore && !turns[i].cancelledDuring)
  }

  /** Why the loop stopped, each reason exactly when it applies. */
  ghost predicate IsWhy(v: Verdict, turns: seq<Turn>, starts: seq<real>, waits: seq<real>, maxElapsed: real)
    requires |waits| <= |starts| <= |turns|
  {
    var n := |waits|;
    var judged := |starts| == n + 1;  // the last attempt was not followed by a wait
    && (v == Succeeded <==> judged && turns[n].outcome == Ok)
    && (v == PermanentError <==> judged && turns[n].outcome == Permanent)
    && (v == BudgetExhausted <==> judged && IsSpent(turns, starts, maxElapsed))
    && (v == Cancelled <==>
          if judged then IsFailed(turns, n) && turns[n].cancelledDuring && !IsSpent(turns, starts, maxElapsed)
          else n < |turns| && turns[n].cancelledBefore)
    && (v == Unfinished <==> n == |turns|)
  }

  lemma {:induction false} PowerIsGrowth(n: nat)
    ensures Power(1.5, n) == Growth(n)
  {
    if n > 0 { PowerIsGrowth(n - 1); }
  }

  lemma {:induction false} FailuresAreTransients(turns: seq<Turn>, i: nat)
    requires i <= |turns|
    ensures Failures(turns, i) == Transients(turns, i)
  {
    if i > 0 {
      var all := set k | 0 <= k < i && turns[k].outcome == Transient;
      var before := set k | 0 <= k < i - 1 && turns[k].outcome == Transient;
      FailuresAreTransients(turns, i - 1);
      assert all == if turns[i - 1].outcome == Transient then before + {i - 1} else before;
    }
  }

  /** The wait asked for is the one the loop computes. */
  lemma {:induction false} AskedIsWaitOf(turns: seq<Turn>, i: nat)
    requires i < |turns| && IsRetryable(turns[i].outcome)
    ensures forall w :: IsAsked(turns, i, w) <==> w == WaitOf(turns, i)
  {
    if turns[i].outcome == Transient {
      PowerIsGrowth(Transients(turns, i));
      FailuresAreTransients(turns, i);
    }
  }

  lemma {:induction false} ResultsAreTimed(v: Verdict, starts: seq<real>, waits: seq<real>, turns: seq<Turn>,
      maxElapsed: real)
    requires IsRetry(v, starts, waits, turns, maxElapsed)
    ensures IsTimed(turns, starts, waits)
  {
    forall i | 0 <= i < |starts| - 1
      ensures starts[i + 1] == starts[i] + turns[i].duration + waits[i] + turns[i].oversleep
    {
      assert WasStarted(starts, turns, i) && WasStarted(starts, turns, i + 1) && WasSlept(waits, turns, maxElapsed, i);
    }
    if |starts| > 0 { assert WasStarted(starts, turns, 0); }
    forall i | 0 <= i < |waits|
      ensures IsFailed(turns, i) && IsAsked(turns, i, waits[i])
      ensures !turns[i].cancelledBefore && !turns[i].cancelledDuring
    {
      assert WasSlept(waits, turns, maxElapsed, i);
      AskedIsWaitOf(turns, i);
    }
  }

  lemma {:induction false} SpentIsOverrun(v: Verdict, starts: seq<real>, waits: seq<real>, turns: seq<Turn>,
      maxElapsed: real)
    requires IsRetry(v, starts, waits, turns, maxElapsed) && |starts| == |waits| + 1
    ensures IsSpent(turns, starts, maxElapsed)
            <==> IsRetryable(turns[|waits|].outcome) && Overruns(turns, |waits|, maxElapsed)
  {
    assert WasStarted(starts, turns, |waits|);
    if IsRetryable(turns[|waits|].outcome) {
      AskedIsWaitOf(turns, |waits|);
      assert IsAsked(turns, |waits|, WaitOf(turns, |waits|));
    }
  }

  /** What the loop returns, when it made its attempts and how long it waited are as a caller is told. */
  lemma {:induction false} ResultsAreRight(v: Verdict, starts: seq<real>, waits: seq<real>, turns: seq<Turn>,
      maxElapsed: real)
    requires IsRetry(v, starts, waits, turns, maxElapsed)
    ensures IsTimed(turns, starts, waits) && IsWhy(v, turns, starts, waits, maxElapsed)
  {
    ResultsAreTimed(v, starts, waits, turns, maxElapsed);
    if |starts| == |waits| + 1 { SpentIsOverrun(v, starts, waits, turns, maxElapsed); }
  }

  /** Runs the loop until it returns or the turns run out. */
  method Run(turns: seq<Turn>, maxElapsed: real) returns (verdict: Verdict, starts: seq<real>, waits: seq<real>)
    requires AreTurns(turns) && maxElapsed >= 0.0
    ensures IsRetry(verdict, starts, waits, turns, maxElapsed)
    ensures IsTimed(turns, starts, waits) && IsWhy(verdict, turns, starts, waits, maxElapsed)
  {
    var backoff := new BackoffState(SERVICE_DEFAULT);
    var elapsed := 0.0;
    starts, waits := [], [];
    FirstBase();
    for i := 0 to |turns|
      invariant InLoop(starts, waits, turns, maxElapsed, i) && elapsed == StartAt(turns, i)
      invariant backoff.schedule == SERVICE_DEFAULT && backoff.current == Base(Transients(turns, i))
    {
      var turn := turns[i];
      if turn.cancelledBefore {
        EndedBefore(starts, waits, turns, maxElapsed, i);
        ResultsAreRight(Cancelled, starts, waits, turns, maxElapsed);
        return Cancelled, starts, waits;
      }
      ghost var before := starts;
      starts := starts + [elapsed];
      elapsed := elapsed + turn.duration;
      var stop, wait := Judge(backoff, turns, i, turn, elapsed, maxElapsed);
      if stop != Unfinished {
        EndedAfter(before, waits, turns, maxElapsed, i);
        ResultsAreRight(stop, starts, waits, turns, maxElapsed);
        return stop, starts, waits;
      }
      OneTurnMore(before, waits, turns, maxElapsed, i);
      elapsed := elapsed + wait + turn.oversleep;
      waits := waits + [wait];
    }
    ResultsAreRight(Unfinished, starts, waits, turns, maxElapsed);
    return Unfinished, starts, waits;
  }

  // ── what that amounts to ──────────────────────────────────────────────

  /** Every wait lies where the schedule or the server put it. */
  lemma {:induction false} WaitRange(turns: seq<Turn>, i: nat)
    requires AreTurns(turns) && i < |turns|
    ensures WaitOf(turns, i) >= 0.0
    ensures turns[i].outcome == Transient ==>
              var base := Base(Transients(turns, i)); 0.5 * base <= WaitOf(turns, i) <= 1.5 * base
  {
    BaseStep(Transients(turns, i));
    assert IsTurn(turns[i]);
  }

  /** With a positive budget no attempt starts later than the budget allows, but for the last oversleep. */
  lemma {:induction false} AttemptsStartInTime(v: Verdict, starts: seq<real>, waits: seq<real>, turns: seq<Turn>,
      maxElapsed: real, i: nat)
    requires IsRetry(v, starts, waits, turns, maxElapsed) && maxElapsed > 0.0 && i < |starts|
    ensures starts[i] <= maxElapsed + if i == 0 then 0.0 else turns[i - 1].oversleep
  {
    assert WasStarted(starts, turns, i);
    if i > 0 { assert WasSlept(waits, turns, maxElapsed, i - 1); }
  }

  /** Sum of the first `n` base intervals. */
  function BaseSum(n: nat): real {
    if n == 0 then 0.0 else BaseSum(n - 1) + Base(n - 1)
  }

  /** Half the base intervals of the transient failures fit into the time before a turn. */
  lemma {:induction false} TransientsTakeTime(turns: seq<Turn>, i: nat)
    requires AreTurns(turns) && i <= |turns|
    ensures 0.5 * BaseSum(Transients(turns, i)) <= StartAt(turns, i)
  {
    if i > 0 {
      TransientsTakeTime(turns, i - 1);
      WaitRange(turns, i - 1);
      assert IsTurn(turns[i - 1]);
    }
  }

  /** And so they do into the time up to the end of the wait after it, with its own. */
  lemma {:induction false} TransientsFitWait(turns: seq<Turn>, i: nat)
    requires AreTurns(turns) && i < |turns|
    ensures 0.5 * BaseSum(Transients(turns, i + 1)) <= StartAt(turns, i) + turns[i].duration + WaitOf(turns, i)
  {
    var n := Transients(turns, i);
    TransientsTakeTime(turns, i);
    WaitRange(turns, i);
    assert turns[i].duration >= 0.0;
    var start, length := StartAt(turns, i), turns[i].duration + WaitOf(turns, i);
    assert start + length >= 0.5 * BaseSum(n) + if turns[i].outcome == Transient then 0.5 * Base(n) else 0.0;
  }

  /** The last wait that was slept through ends within the budget. */
  lemma {:induction false} LastWaitFits(v: Verdict, starts: seq<real>, waits: seq<real>, turns: seq<Turn>,
      maxElapsed: real)
    requires IsRetry(v, starts, waits, turns, maxElapsed) && |waits| > 0
    ensures |waits| <= |turns| && !Overruns(turns, |waits| - 1, maxElapsed)
  {
    assert WasSlept(waits, turns, maxElapsed, |waits| - 1);
  }

  /** Retry attempt bound: the transient waits taken satisfy half the sum of min(60, 1.5^i) <= budget. */
  lemma {:induction false} TransientBound(v: Verdict, starts: seq<real>, waits: seq<real>, turns: seq<Turn>,
      maxElapsed: real)
    requires AreTurns(turns) && IsRetry(v, starts, waits, turns, maxElapsed) && maxElapsed > 0.0
    ensures 0.5 * BaseSum(Transients(turns, |waits|)) <= maxElapsed
  {
    if |waits| > 0 {
      LastWaitFits(v, starts, waits, turns, maxElapsed);
      TransientsFitWait(turns, |waits| - 1);
    }
  }

  // ── termination ───────────────────────────────────────────────────────

  /** `n` turns of this length together. */
  function Times(n: nat, length: real): real {
    if n == 0 then 0.0 else Times(n - 1, length) + length
  }

  lemma {:induction false} TimesIs(n: nat, length: real)
    ensures Times(n, length) == n as real * length
  {
    if n > 0 {
      var m := (n - 1) as real;
      TimesIs(n - 1, length);
      assert n as real == m + 1.0;
      OneMore(m, length);
    }
  }

  lemma {:induction false} OneMore(a: real, b: real)
    ensures (a + 1.0) * b == a * b + b
  {
  }

  /** How long a turn takes at least, whatever is drawn: the attempt, the wait and the overrun of the sleep. */
  function LeastLength(t: Turn): real {
    t.duration + t.oversleep + match t.outcome case Transient => 0.5 case RetryAfter(hint) => hint case _ => 0.0
  }

  lemma {:induction false} TurnsTakeTime(turns: seq<Turn>, i: nat, least: real)
    requires AreTurns(turns) && i <= |turns|
    requires forall k :: 0 <= k < i ==> LeastLength(turns[k]) >= least
    ensures Times(i, least) <= StartAt(turns, i)
  {
    if i > 0 {
      TurnsTakeTime(turns, i - 1, least);
      WaitRange(turns, i - 1);
      BaseStep(Transients(turns, i - 1));
      assert LeastLength(turns[i - 1]) >= least;
    }
  }

  lemma {:induction false} StartFits(turns: seq<Turn>, i: nat, maxElapsed: real)
    requires AreTurns(turns) && i < |turns| && maxElapsed > 0.0 && !Overruns(turns, i, maxElapsed)
    ensures StartAt(turns, i) <= maxElapsed
  {
    WaitRange(turns, i);
    assert turns[i].duration >= 0.0;
  }

  /**
   * Termination: with a positive budget the loop returns as soon as turns take time
   * at all. All turns but the last one slept through fit into the budget, so when
   * each takes at least this long the loop returns on any environment with more
   * turns than that; hints may be zero.
   */
  lemma {:induction false} Terminates(v: Verdict, starts: seq<real>, waits: seq<real>, turns: seq<Turn>,
      maxElapsed: real, least: real)
    requires AreTurns(turns) && IsRetry(v, starts, waits, turns, maxElapsed) && maxElapsed > 0.0
    requires forall k :: 0 <= k < |turns| ==> LeastLength(turns[k]) >= least
    ensures |waits| > 0 ==> Times(|waits| - 1, least) <= maxElapsed
    ensures |turns| > 0 && Times(|turns| - 1, least) > maxElapsed ==> v != Unfinished
  {
    if |waits| > 0 {
      var last := |waits| - 1;
      LastWaitFits(v, starts, waits, turns, maxElapsed);
      StartFits(turns, last, maxElapsed);
      TurnsTakeTime(turns, last, least);
    }
  }

  /** The turn neither succeeds nor fails for good nor is cancelled. */
  predicate IsRepeated(t: Turn) {
    IsRetryable(t.outcome) && !t.cancelledBefore && !t.cancelledDuring
  }

  /**
   * The budget is exact: when no attempt succeeds, fails for good or is cancelled,
   * the loop runs through all its turns if and only if no wait ends past the
   * budget, and otherwise gives up at the first that does.
   */
  lemma {:induction false} BudgetIsExact(v: Verdict, starts: seq<real>, waits: seq<real>, turns: seq<Turn>,
      maxElapsed: real)
    requires IsRetry(v, starts, waits, turns, maxElapsed)
    requires forall k :: 0 <= k < |turns| ==> IsRepeated(turns[k])
    ensures v == Unfinished <==> forall k :: 0 <= k < |turns| ==> !Overruns(turns, k, maxElapsed)
    ensures v == Unfinished || v == BudgetExhausted
    ensures v == BudgetExhausted ==>
              && |waits| < |turns| && Overruns(turns, |waits|, maxElapsed)
              && forall k :: 0 <= k < |waits| ==> !Overruns(turns, k, maxElapsed)
  {
    forall k | 0 <= k < |waits| ensures !Overruns(turns, k, maxElapsed) {
      assert WasSlept(waits, turns, maxElapsed, k) && IsRepeated(turns[k]);
    }
    if |waits| < |turns| { assert IsRepeated(turns[|waits|]); }
  }

  /** `n` attempts of this length, all answered with a hint of zero. */
  function Hurried(n: nat, length: real): seq<Turn> {
    seq(n, _ => Turn(false, length, RetryAfter(0.0), 0.0, false, 0.0))
  }

  lemma {:induction false} HurriedStart(n: nat, length: real, i: nat)
    requires i <= n
    ensures StartAt(Hurried(n, length), i) == Times(i, length)
  {
    if i > 0 { HurriedStart(n, length, i - 1); }
  }

  lemma {:induction false} TimesGrows(m: nat, n: nat, length: real)
    requires m <= n && length >= 0.0
    ensures Times(m, length) <= Times(n, length)
    decreases n
  {
    if m < n { TimesGrows(m, n - 1, length); }
  }

  lemma {:induction false} TimesHalved(n: nat, length: real)
    ensures Times(n, 0.5 * length) == 0.5 * Times(n, length)
  {
    if n > 0 { TimesHalved(n - 1, length); }
  }

  /** Any positive budget has room for any number of equal positive shares. */
  lemma {:induction false} ShareOf(n: nat, budget: real) returns (length: real)
    requires budget > 0.0
    ensures 0.0 < length <= budget && Times(n, length) <= budget
  {
    if n == 0 {
      length := budget;
    } else {
      var wider := ShareOf(n - 1, budget);
      length := 0.5 * wider;
      TimesHalved(n - 1, wider);
    }
  }

  lemma {:induction false} HurriedFits(n: nat, length: real, budget: real, k: nat)
    requires k < n && length > 0.0 && Times(n, length) <= budget
    ensures !Overruns(Hurried(n, length), k, budget)
  {
    HurriedStart(n, length, k);
    TimesGrows(k + 1, n, length);
    assert Times(k + 1, length) == Times(k, length) + length;
  }

  lemma {:induction false} HurriedRuns(n: nat, length: real, budget: real, v: Verdict,
      starts: seq<real>, waits: seq<real>)
    requires length > 0.0 && Times(n, length) <= budget
    requires IsRetry(v, starts, waits, Hurried(n, length), budget)
    ensures |starts| == n
  {
    forall k | 0 <= k < n ensures !Overruns(Hurried(n, length), k, budget) { HurriedFits(n, length, budget, k); }
    BudgetIsExact(v, starts, waits, Hurried(n, length), budget);
  }

  /**
   * Hints of zero leave the number of attempts unbounded: within any positive
   * budget a server that takes some time for each answer, and then asks for no
   * wait, is called any number of times.
   */
  lemma {:induction false} AttemptsAreUnbounded(n: nat, budget: real) returns (turns: seq<Turn>)
    requires budget > 0.0
    ensures AreTurns(turns) && forall k :: 0 <= k < |turns| ==> turns[k].duration > 0.0
    ensures forall v, starts, waits :: IsRetry(v, starts, waits, turns, budget) ==> |starts| == n
  {
    var length := ShareOf(n, budget);
    turns := Hurried(n, length);
    forall v, starts, waits | IsRetry(v, starts, waits, turns, budget) ensures |starts| == n {
      HurriedRuns(n, length, budget, v, starts, waits);
    }
  }

  // ── a small budget, and none ──────────────────────────────────────────

  lemma {:induction false} OnlyTransients(turns: seq<Turn>, i: nat)
    requires i <= |turns| && forall k :: 0 <= k < i ==> turns[k].outcome == Transient
    ensures Transients(turns, i) == i
  {
    if i > 0 { OnlyTransients(turns, i - 1); }
  }

  lemma {:induction false} BaseSumGrows(m: nat, n: nat)
    requires m <= n
    ensures BaseSum(m) <= BaseSum(n)
    decreases n
  {
    if m < n {
      BaseSumGrows(m, n - 1);
      BaseStep(n - 1);
    }
  }

  lemma {:induction false} FirstTwoBases()
    ensures BaseSum(2) == 1.0 + 1.5
  {
    assert Growth(1) == 1.5 * Growth(0);
    assert BaseSum(1) == Base(0);
  }

  /** A one-second budget, the least a leave is sent with, allows at most two attempts without server hints. */
  lemma {:induction false} OneSecondTwoAttempts(v: Verdict, starts: seq<real>, waits: seq<real>, turns: seq<Turn>)
    requires AreTurns(turns) && IsRetry(v, starts, waits, turns, 1.0)
    requires forall i :: 0 <= i < |turns| ==> !turns[i].outcome.RetryAfter?
    ensures |starts| <= 2
  {
    var n := |waits|;
    forall k | 0 <= k < n ensures turns[k].outcome == Transient {
      assert WasSlept(waits, turns, 1.0, k);
    }
    OnlyTransients(turns, n);
    TransientBound(v, starts, waits, turns, 1.0);
    FirstTwoBases();
    if n >= 2 { BaseSumGrows(2, n); }
  }

  /** A zero budget never runs out: the loop stops only for success, a permanent error or cancellation. */
  lemma {:induction false} ZeroBudgetIsForever(v: Verdict, starts: seq<real>, waits: seq<real>, turns: seq<Turn>)
    requires IsRetry(v, starts, waits, turns, 0.0)
    ensures v != BudgetExhausted
    ensures (forall i :: 0 <= i < |turns| ==> IsRepeated(turns[i])) ==> v == Unfinished
  {
    if forall i :: 0 <= i < |turns| ==> IsRepeated(turns[i]) { BudgetIsExact(v, starts, waits, turns, 0.0); }
  }
}
