/**
 The Ready and WarmPoolReady conditions over the life of an instance: what a reconcile pass
 writes from what it observed and from the status before it, and when it asks to run again.
 */
module ReadyHistory {
  import opened Prelude
  import WarmPool

  /** What a pool pass reports. */
  type Snapshot = WarmPool.Snapshot

  const DEADLINE := 5 * 60 * SECOND
  const GATE_RETRY := 2 * SECOND
  const RESYNC := 5 * 60 * SECOND

  /** A status condition; the API stores the time of its last change as a whole second. */
  datatype Condition = Unset | Condition(isTrue: bool, since: nat)

  datatype Status = Status(desired: int, ready: int, warmPoolReady: Condition, instanceReady: Condition)

  const NEW: Status := Status(0, 0, Unset, Unset)

  /** `SetStatusCondition`: the time moves only when the value does. */
  function SetCondition(c: Condition, isTrue: bool, now: nat): Condition {
    if c.Unset? || c.isTrue != isTrue then Condition(isTrue, WholeSecond(now)) else c
  }

  predicate Holds(c: Condition) { c.Condition? && c.isTrue }

  predicate Fails(c: Condition) { c.Condition? && !c.isTrue }

  predicate PoolFull(pool: Snapshot) { pool.desired == 0 || pool.desired <= pool.ready }

  predicate WarmOk(pool: Snapshot) { !pool.unhealthy && PoolFull(pool) }

  predicate PastDeadline(orig: Status, now: int) {
    Fails(orig.warmPoolReady) && orig.warmPoolReady.since + DEADLINE <= now
  }

  /** `poolReadyGate`. */
  predicate PoolReadyGate(orig: Status, pool: Snapshot, now: int) {
    if pool.desired == 0 then true
    else if pool.unhealthy then false
    else if pool.desired <= pool.ready then true
    else if orig.desired < pool.desired || pool.overlayRebuild || !Holds(orig.instanceReady) then false
    else !PastDeadline(orig, now)
  }

  /**
   One reconcile pass: what it saw, whether every check before the pool gate passed, the clock readings
   it took in order, and whether its status write went through.
   */
  datatype Pass = Pass(pool: Snapshot, othersOk: bool, warmAt: nat, gateAt: nat, readyAt: nat, written: bool)

  /** `syncStatus`: the status a pass computes from the one it read. */
  function Synced(orig: Status, p: Pass): Status {
    Status(p.pool.desired, p.pool.ready,
           SetCondition(orig.warmPoolReady, WarmOk(p.pool), p.warmAt),
           SetCondition(orig.instanceReady, p.othersOk && PoolReadyGate(orig, p.pool, p.gateAt), p.readyAt))
  }

  class InstanceStatus {
    var desired: int
    var ready: int
    var warmPoolReady: Condition
    var instanceReady: Condition

    ghost function Value(): Status reads this { Status(desired, ready, warmPoolReady, instanceReady) }

    constructor ()
      ensures Value() == NEW
    {
      desired, ready, warmPoolReady, instanceReady := 0, 0, Unset, Unset;
    }

    /** The gate is asked about the status as it was read, although the fields are already being rewritten. */
    method SyncStatus(p: Pass)
      modifies this
      ensures Value() == Synced(old(Value()), p)
    {
      var orig := Status(desired, ready, warmPoolReady, instanceReady);
      desired := p.pool.desired;
      ready := p.pool.ready;
      var warm := false;
      if p.pool.unhealthy {
      } else if p.pool.desired == 0 || p.pool.ready >= p.pool.desired {
        warm := true;
      }
      warmPoolReady := SetCondition(warmPoolReady, warm, p.warmAt);
      var ok := p.othersOk;
      if ok {
        ok := PoolReadyGate(orig, p.pool, p.gateAt);
      }
      instanceReady := SetCondition(instanceReady, ok, p.readyAt);
    }
  }

  /** The stored status after a sequence of passes; a pass whose write failed leaves it alone. */
  function After(passes: seq<Pass>): Status {
    if passes == [] then NEW else
    var before, p := After(passes[..|passes| - 1]), passes[|passes| - 1];
    if p.written then Synced(before, p) else before
  }

  predicate SawFullPool(p: Pass, size: int) {
    p.written && !p.pool.unhealthy && size <= p.pool.desired <= p.pool.ready
  }

  /** Ready has held in the stored status ever since pass `j`. */
  ghost predicate ReadySince(passes: seq<Pass>, j: nat) {
    forall k :: j < k <= |passes| ==> Holds(After(passes[..k]).instanceReady)
  }

  /**
   Ready at a positive size rests on an unbroken Ready stretch back to a pass that saw a full, healthy
   pool of at least that size.
   */
  lemma {:induction false} ReadyRestsOnAFullPool(passes: seq<Pass>) returns (j: nat)
    requires Holds(After(passes).instanceReady) && 0 < After(passes).desired
    ensures j < |passes| && SawFullPool(passes[j], After(passes).desired) && ReadySince(passes, j)
  {
    var n := |passes| - 1;
    var front, p := passes[..n], passes[n];
    assert passes[..|passes|] == passes;
    if p.written && WarmOk(p.pool) {
      j := n;
    } else {
      j := ReadyRestsOnAFullPool(front);
      assert forall k :: 0 <= k <= n ==> front[..k] == passes[..k];
    }
  }

  /** WarmPoolReady got its present value at pass `k` and every later written pass computed the same. */
  ghost predicate TurnedAt(passes: seq<Pass>, k: nat, isTrue: bool) {
    && k < |passes| && passes[k].written && WarmOk(passes[k].pool) == isTrue
    && (var before := After(passes[..k]).warmPoolReady; before.Unset? || before.isTrue != isTrue)
    && forall j :: k < j < |passes| && passes[j].written ==> WarmOk(passes[j].pool) == isTrue
  }

  lemma {:induction false} ConditionTimeIsTheTurn(passes: seq<Pass>) returns (k: nat)
    requires After(passes).warmPoolReady.Condition?
    ensures TurnedAt(passes, k, After(passes).warmPoolReady.isTrue)
    ensures After(passes).warmPoolReady.since == WholeSecond(passes[k].warmAt)
  {
    var n := |passes| - 1;
    var front, p := passes[..n], passes[n];
    var before := After(front).warmPoolReady;
    if p.written && (before.Unset? || before.isTrue != WarmOk(p.pool)) {
      k := n;
    } else {
      k := ConditionTimeIsTheTurn(front);
      assert front[..k] == passes[..k];
      forall j | k < j < |passes| && passes[j].written ensures WarmOk(passes[j].pool) == before.isTrue {
        assert j < n ==> passes[j] == front[j];
      }
    }
  }

  /** A pass that finds fewer ready pods than wanted, and no other reason to clear Ready. */
  predicate ClaimShortfall(orig: Status, p: Pass) {
    && p.written && p.othersOk && 0 < p.pool.desired <= orig.desired && p.pool.ready < p.pool.desired
    && !p.pool.unhealthy && !p.pool.overlayRebuild
  }

  /**
   Through a claim shortfall Ready survives a pass exactly until five minutes after WarmPoolReady turned
   False, counted from the whole second of the pass that turned it.
   */
  lemma ShortfallClearsReadyExactlyAtTheDeadline(passes: seq<Pass>, p: Pass)
    requires Holds(After(passes).instanceReady) && ClaimShortfall(After(passes), p)
    ensures !Holds(After(passes + [p]).instanceReady) <==>
              exists k: nat :: TurnedAt(passes, k, false) && WholeSecond(passes[k].warmAt) + DEADLINE <= p.gateAt
  {
    assert (passes + [p])[..|passes|] == passes;
    var orig := After(passes);
    if orig.warmPoolReady.Condition? {
      var k := ConditionTimeIsTheTurn(passes);
      forall l: nat | TurnedAt(passes, l, false) ensures Fails(orig.warmPoolReady) && l == k {
        TurnIsUnique(passes, k, l);
      }
    } else {
      forall l: nat | TurnedAt(passes, l, false) ensures false {
        WarmSetForGood(passes, l);
      }
    }
  }

  /** After the first written pass the condition is set. */
  lemma {:induction false} WarmSetForGood(passes: seq<Pass>, k: nat)
    requires k < |passes| && passes[k].written
    ensures After(passes).warmPoolReady.Condition?
  {
    var n := |passes| - 1;
    if k < n {
      WarmSetForGood(passes[..n], k);
    }
  }

  lemma {:induction false} WarmStays(passes: seq<Pass>, k: nat, isTrue: bool, n: nat)
    requires TurnedAt(passes, k, isTrue) && k < n <= |passes|
    ensures After(passes[..n]).warmPoolReady.Condition? && After(passes[..n]).warmPoolReady.isTrue == isTrue
    decreases n
  {
    assert passes[..n][..n - 1] == passes[..n - 1];
    if k < n - 1 {
      WarmStays(passes, k, isTrue, n - 1);
    }
  }

  lemma TurnIsUnique(passes: seq<Pass>, k: nat, l: nat)
    requires After(passes).warmPoolReady.Condition?
    requires TurnedAt(passes, k, After(passes).warmPoolReady.isTrue) && TurnedAt(passes, l, false)
    ensures Fails(After(passes).warmPoolReady) && l == k
  {
    assert passes[..|passes|] == passes;
    WarmStays(passes, l, false, |passes|);
    if k < l {
      WarmStays(passes, k, false, l);
    } else if l < k {
      WarmStays(passes, l, false, k);
    }
  }

  // ----- Asking to run again -----

  /** `poolRequeueAfter`, on the status as the pass read it; 0 asks for nothing. */
  function PoolRequeueAfter(orig: Status, pool: Snapshot, now: int): (d: int)
    ensures 0 <= d
  {
    if pool.gateClosed then GATE_RETRY
    else if pool.desired == 0 || pool.unhealthy || pool.desired <= pool.ready then 0
    else if !Holds(orig.instanceReady) then 0
    else
      var start := if Fails(orig.warmPoolReady) then orig.warmPoolReady.since else now;
      Max(start + DEADLINE - now, 0)
  }

  function MergeRequeueAfter(a: int, b: int): int {
    if a == 0 then b else if b == 0 then a else Min(a, b)
  }

  /** `scheduledRequeueAfter`: the sooner of the two wishes, and a resync if there is none. */
  function ScheduledRequeueAfter(idle: int, pool: int): (d: int)
    requires 0 <= idle && 0 <= pool
    ensures 0 < d
    ensures 0 < idle ==> d <= idle
    ensures 0 < pool ==> d <= pool
    ensures d == idle || d == pool || (idle == pool == 0 && d == RESYNC)
  {
    if MergeRequeueAfter(idle, pool) > 0 then MergeRequeueAfter(idle, pool) else RESYNC
  }

  predicate WaitingShortfall(orig: Status, pool: Snapshot) {
    !pool.gateClosed && 0 < pool.desired && pool.ready < pool.desired && !pool.unhealthy && Holds(orig.instanceReady)
  }

  /** The second in which pass `k` turned WarmPoolReady, plus the five minutes. */
  function DeadlineOf(passes: seq<Pass>, k: nat): int
    requires k < |passes|
  {
    WholeSecond(passes[k].warmAt) + DEADLINE
  }

  /** A stored False condition was turned by exactly one pass of the history. */
  lemma TurnOfFalse(passes: seq<Pass>) returns (k: nat)
    requires Fails(After(passes).warmPoolReady)
    ensures TurnedAt(passes, k, false) && After(passes).warmPoolReady.since == WholeSecond(passes[k].warmAt)
    ensures forall l: nat :: TurnedAt(passes, l, false) ==> l == k
  {
    k := ConditionTimeIsTheTurn(passes);
    forall l: nat | TurnedAt(passes, l, false) ensures l == k {
      TurnIsUnique(passes, k, l);
    }
  }

  lemma NoTurnUnlessFalse(passes: seq<Pass>)
    requires !Fails(After(passes).warmPoolReady)
    ensures forall l: nat :: !TurnedAt(passes, l, false)
  {
    forall l: nat | TurnedAt(passes, l, false) ensures false {
      WarmSetForGood(passes, l);
      var k := ConditionTimeIsTheTurn(passes);
      TurnIsUnique(passes, k, l);
    }
  }

  /**
   When a written pass leaves Ready True, after any history: all other checks passed, and the pool is of size zero, or
   healthy and full, or only short of pods because of claims. In that last case nothing is rebuilt, the size has not
   grown, Ready held before, and the five minutes since WarmPoolReady turned False are not over.
   */
  lemma ReadyExactlyWhen(passes: seq<Pass>, p: Pass)
    requires p.written
    ensures Holds(After(passes + [p]).instanceReady) <==>
              p.othersOk &&
              (|| p.pool.desired == 0
               || (!p.pool.unhealthy && p.pool.ready >= p.pool.desired)
               || (&& !p.pool.unhealthy && !p.pool.overlayRebuild && After(passes).desired >= p.pool.desired
                   && Holds(After(passes).instanceReady)
                   && forall k: nat | TurnedAt(passes, k, false) :: p.gateAt < DeadlineOf(passes, k)))
    ensures Holds(After(passes + [p]).warmPoolReady) <==>
              !p.pool.unhealthy && (p.pool.desired == 0 || p.pool.ready >= p.pool.desired)
    ensures After(passes + [p]).desired == p.pool.desired && After(passes + [p]).ready == p.pool.ready
  {
    assert (passes + [p])[..|passes|] == passes;
    if Fails(After(passes).warmPoolReady) {
      var k := TurnOfFalse(passes);
    } else {
      NoTurnUnlessFalse(passes);
    }
  }

  /**
   When the pool asks to be looked at again: two seconds after it found the gate closed, and otherwise only while Ready
   is kept through a shortfall whose deadline is still ahead.
   */
  lemma WakeUpAskedExactlyWhen(passes: seq<Pass>, pool: Snapshot, now: int)
    ensures PoolRequeueAfter(After(passes), pool, now) > 0 <==>
              || pool.gateClosed
              || (&& 0 < pool.desired && pool.ready < pool.desired && !pool.unhealthy && Holds(After(passes).instanceReady)
                  && forall k: nat | TurnedAt(passes, k, false) :: now < DeadlineOf(passes, k))
    ensures pool.gateClosed ==> PoolRequeueAfter(After(passes), pool, now) == 2 * SECOND
  {
    if Fails(After(passes).warmPoolReady) {
      var k := TurnOfFalse(passes);
    } else {
      NoTurnUnlessFalse(passes);
    }
  }

  /**
   After any history that left WarmPoolReady False, a pass that finds the shortfall asks to be woken at
   the deadline of the pass `k` that turned it, if that is still ahead of its clock, and for nothing
   otherwise. A shortfall pass at that instant clears Ready, and one before it does not.
   */
  lemma RequeueLandsOnTheDeadline(passes: seq<Pass>, pool: Snapshot, now: int) returns (k: nat)
    requires WaitingShortfall(After(passes), pool) && Fails(After(passes).warmPoolReady)
    ensures TurnedAt(passes, k, false)
    ensures now + PoolRequeueAfter(After(passes), pool, now) == Max(now, DeadlineOf(passes, k))
    ensures forall q :: ClaimShortfall(After(passes), q) ==>
              (!Holds(After(passes + [q]).instanceReady) <==> DeadlineOf(passes, k) <= q.gateAt)
  {
    k := TurnOfFalse(passes);
    forall q | ClaimShortfall(After(passes), q)
      ensures !Holds(After(passes + [q]).instanceReady) <==> DeadlineOf(passes, k) <= q.gateAt
    {
      ShortfallClearsReadyExactlyAtTheDeadline(passes, q);
    }
  }

  /**
   The pass that finds the first shortfall turns WarmPoolReady itself. Its wake-up is not before the
   deadline that counts from then, and less than a second plus its own running time after it.
   */
  lemma FirstShortfallRequeue(passes: seq<Pass>, p: Pass, now: int)
    requires WaitingShortfall(After(passes), p.pool) && !Fails(After(passes).warmPoolReady) && p.written && p.warmAt <= now
    ensures var all := passes + [p];
            var wake := now + PoolRequeueAfter(After(passes), p.pool, now);
            && TurnedAt(all, |passes|, false)
            && DeadlineOf(all, |passes|) <= wake < DeadlineOf(all, |passes|) + SECOND + (now - p.warmAt)
  {
    assert (passes + [p])[..|passes|] == passes;
  }

  /**
   The two clock readings of one pass can straddle the deadline. Then the gate still keeps Ready, and yet
   the pool asks for no wake-up; after any history this is the only way a kept shortfall goes without one.
   */
  lemma KeptWithoutAWakeUpIffStraddled(passes: seq<Pass>, p: Pass, now: int)
    requires WaitingShortfall(After(passes), p.pool) && ClaimShortfall(After(passes), p) && p.gateAt <= now
    ensures Holds(After(passes + [p]).instanceReady) && PoolRequeueAfter(After(passes), p.pool, now) == 0
            <==> exists k: nat :: TurnedAt(passes, k, false) && p.gateAt < DeadlineOf(passes, k) <= now
  {
    ShortfallClearsReadyExactlyAtTheDeadline(passes, p);
    if Fails(After(passes).warmPoolReady) {
      var k := TurnOfFalse(passes);
    } else {
      NoTurnUnlessFalse(passes);
    }
  }

  /**
   A deadline that the readings straddled is made up at the next wake-up, which is the one for the next
   idle session or else a resync, if the shortfall lasts. So with no session to collect Ready outlives the
   deadline by less than a resync and the running time of the pass that missed it.
   */
  lemma MissedDeadlineIsMadeUp(passes: seq<Pass>, p: Pass, k: nat, now: int, idle: int, q: Pass)
    requires WaitingShortfall(After(passes), p.pool) && ClaimShortfall(After(passes), p) && 0 <= idle
    requires TurnedAt(passes, k, false) && p.gateAt < DeadlineOf(passes, k) <= now
    requires now <= q.gateAt && ClaimShortfall(After(passes + [p]), q)
    ensures var wake := now + ScheduledRequeueAfter(idle, PoolRequeueAfter(After(passes), p.pool, now));
            wake <= now + Max(idle, RESYNC) && (idle == 0 ==> wake < DeadlineOf(passes, k) + (now - p.gateAt) + RESYNC)
    ensures Holds(After(passes + [p]).instanceReady) && !Holds(After(passes + [p] + [q]).instanceReady)
  {
    var all := passes + [p];
    assert all[..|passes|] == passes;
    ShortfallClearsReadyExactlyAtTheDeadline(passes, p);
    NoTurnUnlessFalseAt(passes, k);
    var turn := TurnOfFalse(passes);
    TurnStays(passes, p, k);
    ShortfallClearsReadyExactlyAtTheDeadline(all, q);
  }

  lemma NoTurnUnlessFalseAt(passes: seq<Pass>, k: nat)
    requires TurnedAt(passes, k, false)
    ensures Fails(After(passes).warmPoolReady)
  {
    WarmStays(passes, k, false, |passes|);
    assert passes[..|passes|] == passes;
  }

  /** A further shortfall pass leaves the turn where it was. */
  lemma TurnStays(passes: seq<Pass>, p: Pass, k: nat)
    requires TurnedAt(passes, k, false) && !WarmOk(p.pool)
    ensures TurnedAt(passes + [p], k, false) && DeadlineOf(passes + [p], k) == DeadlineOf(passes, k)
  {
    var all := passes + [p];
    assert all[..k] == passes[..k];
    forall j | k < j < |all| && all[j].written ensures WarmOk(all[j].pool) == false {
      assert j < |passes| ==> all[j] == passes[j];
    }
  }

  /** It happens: a full pool, then a claim, and a pass whose readings fall on either side of the deadline. */
  lemma StraddlingHistory() returns (passes: seq<Pass>, p: Pass, now: int)
    ensures WaitingShortfall(After(passes), p.pool) && ClaimShortfall(After(passes), p) && p.gateAt <= now
    ensures TurnedAt(passes, 1, false) && p.gateAt < DeadlineOf(passes, 1) <= now == p.gateAt + 1
    ensures Holds(After(passes + [p]).instanceReady) && PoolRequeueAfter(After(passes), p.pool, now) == 0
  {
    var full := WarmPool.Snapshot(1, 1, false, false, false);
    var short := WarmPool.Snapshot(1, 0, false, false, false);
    var first := Pass(full, true, 0, 0, 0, true);
    var claimed := Pass(short, true, SECOND, SECOND, SECOND, true);
    passes := [first, claimed];
    p := Pass(short, true, SECOND + DEADLINE - 1, SECOND + DEADLINE - 1, SECOND + DEADLINE - 1, true);
    now := SECOND + DEADLINE;
    assert [first][..0] == [] && After([first]) == Synced(NEW, first);
    assert passes[..1] == [first] && After(passes) == Synced(After([first]), claimed);
    assert WholeSecond(SECOND) == SECOND;
    KeptWithoutAWakeUpIffStraddled(passes, p, now);
  }
}
