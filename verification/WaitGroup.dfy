/**
 * The wait group at the granularity of its atomic operations: fetch_add,
 * fetch_sub, notify_waiters, registering a waiter, and loading the count.
 * Any number of guards and waiters interleave.
 */
module WaitGroup {
  import opened Support

  /** A guard between its creation and the end of its drop. */
  datatype Guard =
    | Live
    | Leaving   // took the count to zero and has yet to notify
    | Dropped

  datatype Waiter =
    | Outside
    | Registered(notified: bool)  // enabled the notification, count not loaded yet
    | Parked(notified: bool)      // saw a positive count and awaits the notification
    | Returned

  datatype Group = Group(count: nat, guards: seq<Guard>, waiters: seq<Waiter>)

  datatype Op =
    | Add
    | Decrement(g: nat)
    | NotifyAll(g: nat)
    | Enter             // another task calls wait
    | Register(w: nat)
    | Load(w: nat)
    | Resume(w: nat)

  predicate CanDo(s: Group, op: Op) {
    match op
    case Add => true
    case Decrement(g) => g < |s.guards| && s.guards[g] == Live
    case NotifyAll(g) => g < |s.guards| && s.guards[g] == Leaving
    case Enter => true
    case Register(w) => w < |s.waiters| && s.waiters[w] == Outside
    case Load(w) => w < |s.waiters| && s.waiters[w].Registered?
    case Resume(w) => w < |s.waiters| && s.waiters[w] == Parked(true)
  }

  function Notified(w: Waiter): Waiter {
    match w
    case Registered(_) => Registered(true)
    case Parked(_) => Parked(true)
    case _ => w
  }

  /** fetch_sub on an unsigned counter, which wraps below zero. */
  function FetchSub(count: nat): nat {
    if count == 0 then 0xFFFF_FFFF_FFFF_FFFF else count - 1
  }

  function Do(s: Group, op: Op): Group
    requires CanDo(s, op)
  {
    match op
    case Add => s.(count := s.count + 1, guards := s.guards + [Live])
    case Decrement(g) =>
      s.(count := FetchSub(s.count),
         guards := s.guards[g := if s.count == 1 then Leaving else Dropped])
    case NotifyAll(g) =>
      s.(guards := s.guards[g := Dropped],
         waiters := seq(|s.waiters|, i requires 0 <= i < |s.waiters| => Notified(s.waiters[i])))
    case Enter => s.(waiters := s.waiters + [Outside])
    case Register(w) => s.(waiters := s.waiters[w := Registered(false)])
    case Load(w) =>
      s.(waiters := s.waiters[w := if s.count == 0 then Returned else Parked(s.waiters[w].notified)])
    case Resume(w) => s.(waiters := s.waiters[w := Outside])
  }

  predicate IsLive(g: Guard) { g == Live }

  predicate IsForgotten(w: Waiter) { w == Parked(false) }

  /**
   * The count is the number of live guards, and a waiter that is parked and not
   * notified still has someone who will notify it.
   */
  predicate Inv(s: Group) {
    && s.count == Count(s.guards, IsLive)
    && forall w :: 0 <= w < |s.waiters| && IsForgotten(s.waiters[w]) ==> s.count > 0 || Leaving in s.guards
  }

  lemma {:induction false} DoKeeps(s: Group, op: Op)
    requires Inv(s) && CanDo(s, op)
    ensures Inv(Do(s, op))
  {
    var t := Do(s, op);
    match op
    case Add =>
      CountAppend(s.guards, Live, IsLive);
    case Decrement(g) =>
      CountPositive(s.guards, g, IsLive);
      CountUpdate(s.guards, g, t.guards[g], IsLive);
      assert t.guards[g] == (if s.count == 1 then Leaving else Dropped);
      if Leaving in s.guards {
        var l :| 0 <= l < |s.guards| && s.guards[l] == Leaving;
        assert t.guards[l] == Leaving;
      }
    case NotifyAll(g) =>
      CountUpdate(s.guards, g, Dropped, IsLive);
    case _ =>
  }

  datatype Run = Trace(states: seq<Group>, ops: seq<Op>)

  ghost predicate IsRun(r: Run) {
    && |r.states| == |r.ops| + 1
    && r.states[0] == Group(0, [], [])
    && forall i :: 0 <= i < |r.ops| ==> IsOpAt(r, i)
  }

  predicate IsOpAt(r: Run, i: nat)
    requires i < |r.ops| < |r.states|
  {
    CanDo(r.states[i], r.ops[i]) && r.states[i + 1] == Do(r.states[i], r.ops[i])
  }

  /** One operation of a run. */
  lemma {:induction false} OpOfRun(r: Run, i: nat)
    requires IsRun(r) && i < |r.ops|
    ensures CanDo(r.states[i], r.ops[i]) && r.states[i + 1] == Do(r.states[i], r.ops[i])
  {
    assert IsOpAt(r, i);
  }

  lemma {:induction false} RunInv(r: Run, i: nat)
    requires IsRun(r) && i < |r.states|
    ensures Inv(r.states[i])
  {
    if i > 0 {
      RunInv(r, i - 1);
      OpOfRun(r, i - 1);
      DoKeeps(r.states[i - 1], r.ops[i - 1]);
    }
  }

  /** The counter is exact, so no decrement ever wraps below zero. */
  lemma {:induction false} CountIsLiveGuards(r: Run, i: nat)
    requires IsRun(r) && i < |r.states|
    ensures r.states[i].count == Count(r.states[i].guards, IsLive)
    ensures i < |r.ops| && r.ops[i].Decrement? ==>
              r.states[i].count > 0 && r.states[i + 1].count == r.states[i].count - 1
  {
    RunInv(r, i);
    if i < |r.ops| && r.ops[i].Decrement? {
      OpOfRun(r, i);
      CountPositive(r.states[i].guards, r.ops[i].g, IsLive);
    }
  }

  /** With every guard fully dropped, the count is zero and no waiter is parked without its notification. */
  lemma {:induction false} QuietGroup(s: Group, w: nat)
    requires Inv(s) && w < |s.waiters| && forall g :: g in s.guards ==> g == Dropped
    ensures s.count == 0 && !IsForgotten(s.waiters[w])
  {
    CountNone(s.guards, IsLive);
  }

  /** No wake-up is lost: with every guard fully dropped, no waiter is parked without its notification. */
  lemma {:induction false} NoLostWakeUp(r: Run, i: nat, w: nat)
    requires IsRun(r) && i < |r.states| && w < |r.states[i].waiters|
    requires forall g :: g in r.states[i].guards ==> g == Dropped
    ensures r.states[i].count == 0 && !IsForgotten(r.states[i].waiters[w])
  {
    RunInv(r, i);
    QuietGroup(r.states[i], w);
  }

  /** The operations that take a waiter home once every guard is dropped. */
  function WayHome(s: Waiter, w: nat): seq<Op> {
    match s
    case Outside => [Register(w), Load(w)]
    case Registered(_) => [Load(w)]
    case Parked(_) => [Resume(w), Register(w), Load(w)]
    case Returned => []
  }

  /** Performing a list of operations in order, if each one is possible in its turn. */
  function DoAll(s: Group, ops: seq<Op>): Option<Group>
    decreases |ops|
  {
    if |ops| == 0 then Some(s)
    else if CanDo(s, ops[0]) then DoAll(Do(s, ops[0]), ops[1..])
    else None
  }

  /** With every guard dropped a waiter returns after at most three operations of its own. */
  lemma {:induction false} QuietGroupReturns(s: Group, w: nat)
    requires Inv(s) && w < |s.waiters| && forall g :: g in s.guards ==> g == Dropped
    ensures var home := DoAll(s, WayHome(s.waiters[w], w));
            home.Some? && home.value.waiters == s.waiters[w := Returned]
  {
    QuietGroup(s, w);
    match s.waiters[w]
    case Outside => FromOutside(s, w);
    case Registered(_) => FromRegistered(s, w);
    case Parked(_) =>
      var t := Do(s, Resume(w));
      FromOutside(t, w);
      assert WayHome(s.waiters[w], w)[1..] == WayHome(Outside, w);
      assert t.waiters[w := Returned] == s.waiters[w := Returned];
    case Returned =>
      assert s.waiters[w := Returned] == s.waiters;
  }

  /** With every guard dropped each waiter of a run returns after at most three operations of its own. */
  lemma {:induction false} QuietWaiterReturns(r: Run, i: nat, w: nat)
    requires IsRun(r) && i < |r.states| && w < |r.states[i].waiters|
    requires forall g :: g in r.states[i].guards ==> g == Dropped
    ensures var home := DoAll(r.states[i], WayHome(r.states[i].waiters[w], w));
            home.Some? && |home.value.waiters| == |r.states[i].waiters| && home.value.waiters[w] == Returned
  {
    RunInv(r, i);
    QuietGroupReturns(r.states[i], w);
  }

  lemma {:induction false} FromRegistered(s: Group, w: nat)
    requires s.count == 0 && w < |s.waiters| && s.waiters[w].Registered?
    ensures var home := DoAll(s, [Load(w)]);
            home == Some(s.(waiters := s.waiters[w := Returned]))
  {
    assert [Load(w)][1..] == [];
    assert DoAll(Do(s, Load(w)), []) == Some(Do(s, Load(w)));
  }

  lemma {:induction false} FromOutside(s: Group, w: nat)
    requires s.count == 0 && w < |s.waiters| && s.waiters[w] == Outside
    ensures var home := DoAll(s, WayHome(Outside, w));
            home == Some(s.(waiters := s.waiters[w := Returned]))
  {
    var t := Do(s, Register(w));
    FromRegistered(t, w);
    assert WayHome(Outside, w)[1..] == [Load(w)];
    assert t.waiters[w := Returned] == s.waiters[w := Returned];
  }

  /** A wait returns exactly when it loads the count and finds that no guard is live. */
  lemma {:induction false} ReturnsExactlyThen(r: Run, i: nat, w: nat)
    requires IsRun(r) && i < |r.ops| && w < |r.states[i].waiters|
    ensures w < |r.states[i + 1].waiters|
    ensures r.states[i].waiters[w] != Returned == r.states[i + 1].waiters[w]
            <==> r.ops[i] == Load(w) && forall g :: g in r.states[i].guards ==> g != Live
  {
    OpOfRun(r, i);
    RunInv(r, i);
    var s := r.states[i];
    if forall g :: g in s.guards ==> g != Live {
      CountNone(s.guards, IsLive);
    } else {
      var g :| g in s.guards && g == Live;
      var k :| 0 <= k < |s.guards| && s.guards[k] == g;
      CountPositive(s.guards, k, IsLive);
    }
  }

  /** Without further adds the count only goes down. */
  lemma {:induction false} QuietCount(r: Run, i: nat, k: nat)
    requires IsRun(r) && i <= k < |r.states|
    requires forall a :: i <= a < k ==> r.ops[a] != Add
    ensures r.states[k].count <= r.states[i].count
  {
    if i < k {
      QuietCount(r, i, k - 1);
      CountIsLiveGuards(r, k - 1);
      OpOfRun(r, k - 1);
      assert r.ops[k - 1] != Add;
    }
  }

  /**
   * What returning from wait means: at the load no guard was live, and as long as
   * nothing is added afterwards none ever is.
   */
  lemma {:induction false} ReturnedMeansNoGuard(r: Run, i: nat, w: nat, k: nat)
    requires IsRun(r) && i < |r.ops| && r.ops[i] == Load(w) && i < k < |r.states|
    requires w < |r.states[i + 1].waiters| && r.states[i + 1].waiters[w] == Returned
    requires forall a :: i <= a < k ==> r.ops[a] != Add
    ensures Live !in r.states[k].guards
  {
    OpOfRun(r, i);
    QuietCount(r, i, k);
    RunInv(r, k);
    forall g | 0 <= g < |r.states[k].guards| ensures r.states[k].guards[g] != Live {
      if IsLive(r.states[k].guards[g]) { CountPositive(r.states[k].guards, g, IsLive); }
    }
  }
}
