/**
 Idle collection of assigned sandboxes: which pods a pass deletes, when the next pass is
 asked for, and why a pod cannot be collected before its session has been idle long enough.
 */
module IdleTiming {
  import opened Prelude

  /** A timestamp annotation: missing, not RFC 3339, or a whole second. */
  datatype Stamp = Absent | Unreadable | Time(at: int)

  datatype Pod = Pod(name: string, session: Option<string>, deleting: bool, lastActivity: Stamp, createdAt: Stamp)

  const MIN_REQUEUE := SECOND
  const DEFAULT_TIMEOUT := 30 * 60 * SECOND

  function TimeoutOrDefault(d: int): (r: int)
    ensures 0 < r && (0 < d ==> r == d)
  {
    if d <= 0 then DEFAULT_TIMEOUT else d
  }

  /** `activityTime`: last activity, or creation only when no activity was recorded at all. */
  function ActivityTime(p: Pod): Option<int> {
    var raw := if p.lastActivity.Absent? then p.createdAt else p.lastActivity;
    if raw.Time? then Some(raw.at) else None
  }

  /** The pods idle collection looks after: assigned, not going away, with a readable time. */
  predicate Watched(p: Pod) { !p.deleting && p.session.Some? && ActivityTime(p).Some? }

  function Expiry(p: Pod, timeout: int): int
    requires Watched(p)
  {
    ActivityTime(p).value + timeout
  }

  /** `idleExpired`. */
  predicate IdleExpired(p: Pod, now: int, timeout: int) { Watched(p) && Expiry(p, timeout) <= now }

  predicate Pending(p: Pod, now: int, timeout: int) { Watched(p) && now < Expiry(p, timeout) }

  /** The time since the last activity counts, and the time since creation only where no activity was ever recorded. */
  lemma ExpiredExactlyWhen(p: Pod, now: int, timeout: int)
    ensures IdleExpired(p, now, timeout) <==>
              && !p.deleting && p.session.Some?
              && match p.lastActivity
                 case Time(at) => at + timeout <= now
                 case Absent => p.createdAt.Time? && p.createdAt.at + timeout <= now
                 case Unreadable => false
  {
  }

  /** `d` is the wake-up for the earliest pending expiry: never early, less than a second late, 0 if there is none. */
  ghost predicate WakesFor(pods: seq<Pod>, now: int, timeout: int, d: int) {
    && (d == 0 <==> forall i :: 0 <= i < |pods| ==> !Pending(pods[i], now, timeout))
    && (d != 0 ==>
          exists i :: 0 <= i < |pods| && Pending(pods[i], now, timeout)
                      && (forall j :: 0 <= j < |pods| && Pending(pods[j], now, timeout) ==>
                            Expiry(pods[i], timeout) <= Expiry(pods[j], timeout))
                      && 0 <= now + d - Expiry(pods[i], timeout) < MIN_REQUEUE)
    && (d != 0 ==> MIN_REQUEUE <= d)
  }

  method SoonestIdleRequeue(pods: seq<Pod>, now: int, timeout: int) returns (d: int)
    ensures WakesFor(pods, now, timeout, d)
  {
    var next := 0;
    for i := 0 to |pods|
      invariant 0 <= next
      invariant next == 0 <==> forall j :: 0 <= j < i ==> !Pending(pods[j], now, timeout)
      invariant next != 0 ==> exists j :: 0 <= j < i && Pending(pods[j], now, timeout) && next == Expiry(pods[j], timeout) - now
      invariant forall j :: 0 <= j < i && Pending(pods[j], now, timeout) ==> next <= Expiry(pods[j], timeout) - now
    {
      var pod := pods[i];
      if pod.deleting || pod.session.None? || ActivityTime(pod).None? {
        continue;
      }
      var delay := ActivityTime(pod).value + timeout - now;
      if delay <= 0 {
        continue;
      }
      if next == 0 || delay < next {
        next := delay;
      }
    }
    if next == 0 {
      return 0;
    }
    d := Max(next, MIN_REQUEUE);
  }

  /** Pod `n` is as it was, or some expired pod of the listing has its name and it is gone or marked. */
  ghost predicate PodFate(before: map<string, Pod>, after: map<string, Pod>, n: string, listed: seq<Pod>, now: int, timeout: int)
    requires n in before
  {
    if n in after && after[n] == before[n] then true
    else
      && (exists i :: 0 <= i < |listed| && listed[i].name == n && IdleExpired(listed[i], now, timeout))
      && (n in after ==> after[n] == before[n].(deleting := true))
  }

  /** The API refuses to delete the pod or its session's Secret; a pod without a session name has none. */
  predicate Fails(p: Pod, brokenPods: set<string>, brokenSecrets: set<string>) {
    p.name in brokenPods || (p.session.Some? && p.session.value != "" && p.session.value in brokenSecrets)
  }

  predicate Deleted(pods: map<string, Pod>, n: string) { n in pods ==> pods[n].deleting }

  /** The API objects a pass works on. A delete of an object in `broken` fails. */
  class Cluster {
    var pods: map<string, Pod>
    var secrets: set<string>

    constructor (pods: map<string, Pod>, secrets: set<string>)
      ensures this.pods == pods && this.secrets == secrets
    {
      this.pods, this.secrets := pods, secrets;
    }

    /** A pod that is deleted is gone at once, or carries a deletion mark until it has terminated. */
    method DeletePod(n: string, instant: set<string>)
      modifies this`pods
      ensures pods == if n !in old(pods) then old(pods)
                      else if n in instant then old(pods) - {n} else old(pods)[n := old(pods)[n].(deleting := true)]
    {
      if n in pods {
        pods := if n in instant then pods - {n} else pods[n := pods[n].(deleting := true)];
      }
    }

    /**
     `gcIdleAssigned` over a listing. A pass that succeeds has deleted exactly the expired pods of the
     listing and their session Secrets, and asks to be woken for the earliest one that is left. It fails only if one of
     those deletes does.
     */
    method GcIdleAssigned(listed: seq<Pod>, instant: set<string>, brokenPods: set<string>, brokenSecrets: set<string>,
                          now: int, idleTimeout: int) returns (r: Result<int, string>)
      modifies this
      ensures var timeout := TimeoutOrDefault(idleTimeout);
              && pods.Keys <= old(pods).Keys && secrets <= old(secrets)
              && (forall n :: n in old(pods) ==> PodFate(old(pods), pods, n, listed, now, timeout))
              && (forall s :: s in old(secrets) && s !in secrets ==>
                    exists i :: 0 <= i < |listed| && listed[i].session == Some(s) && IdleExpired(listed[i], now, timeout))
              && (r.Ok? ==>
                    && (forall i :: 0 <= i < |listed| && IdleExpired(listed[i], now, timeout) ==>
                          Deleted(pods, listed[i].name) && (listed[i].session.value != "" ==> listed[i].session.value !in secrets))
                    && WakesFor(listed, now, timeout, r.value))
              && (r.Ok? <==> forall i :: 0 <= i < |listed| && IdleExpired(listed[i], now, timeout) ==>
                               !Fails(listed[i], brokenPods, brokenSecrets))
    {
      var timeout := TimeoutOrDefault(idleTimeout);
      var i := 0;
      while i < |listed|
        invariant 0 <= i <= |listed|
        invariant pods.Keys <= old(pods).Keys && secrets <= old(secrets)
        invariant forall n :: n in old(pods) ==> PodFate(old(pods), pods, n, listed, now, timeout)
        invariant forall s :: s in old(secrets) && s !in secrets ==>
                    exists k :: 0 <= k < i && listed[k].session == Some(s) && IdleExpired(listed[k], now, timeout)
        invariant forall k :: 0 <= k < i && IdleExpired(listed[k], now, timeout) ==>
                    Deleted(pods, listed[k].name) && (listed[k].session.value != "" ==> listed[k].session.value !in secrets)
        invariant forall k :: 0 <= k < i && IdleExpired(listed[k], now, timeout) ==> !Fails(listed[k], brokenPods, brokenSecrets)
      {
        var pod := listed[i];
        i := i + 1;
        if IdleExpired(pod, now, timeout) {
          if pod.name in brokenPods {
            return Err(pod.name);
          }
          DeletePod(pod.name, instant);
          var sessionID := pod.session.value;
          if sessionID == "" {
            continue;
          }
          if sessionID in brokenSecrets {
            return Err(sessionID);
          }
          secrets := secrets - {sessionID};
        }
      }
      var d := SoonestIdleRequeue(listed, now, timeout);
      return Ok(d);
    }
  }

  /** After a pass, every watched pod of the listing is either expired, and so deleted, or expires no sooner than the wake-up allows. */
  lemma EveryWatchedPodIsDeletedOrScheduled(pods: seq<Pod>, now: int, timeout: int, d: int, i: nat)
    requires WakesFor(pods, now, timeout, d) && i < |pods| && Watched(pods[i])
    ensures IdleExpired(pods[i], now, timeout) || (0 < d && now + d < Expiry(pods[i], timeout) + MIN_REQUEUE)
  {
  }

  // ----- Why a fresh session is not collected: the versions one pool pod goes through -----

  /** One stored change: when it landed, and the clock reading its writer took before sending it. */
  datatype Write =
    | ClaimPatch(landed: nat, session: string, reading: nat)   // label and last activity in one patch
    | RollbackPatch(landed: nat)                               // label removed, last activity left alone
    | ActivityPatch(landed: nat, reading: nat)                 // last activity only, sent in the background

  /** A stored version and the reading of the patch that put its current label there. */
  datatype Stored = Stored(pod: Pod, claimedAt: nat)

  function Changed(v: Stored, w: Write): Stored {
    match w
    case ClaimPatch(_, s, t) =>
      if v.pod.session.Some? then v
      else Stored(v.pod.(session := Some(s), lastActivity := Time(WholeSecond(t))), t)
    case RollbackPatch(_) => v.(pod := v.pod.(session := None))
    case ActivityPatch(_, t) => v.(pod := v.pod.(lastActivity := Time(WholeSecond(t))))
  }

  function After(v: Stored, writes: seq<Write>): Stored {
    if writes == [] then v else Changed(After(v, writes[..|writes| - 1]), writes[|writes| - 1])
  }

  /** No version with this label counts as idle before the label's second plus the timeout. */
  ghost predicate SafeWhileFresh(v: Stored, timeout: int) {
    v.pod.session.Some? ==> forall now :: now < WholeSecond(v.claimedAt) + timeout ==> !IdleExpired(v.pod, now, timeout)
  }

  /** A background activity patch that lands on a labelled pod with a reading from an earlier second than the label's. */
  predicate StalePatch(v: Stored, w: Write) {
    w.ActivityPatch? && v.pod.session.Some? && WholeSecond(w.reading) < WholeSecond(v.claimedAt)
  }

  /** A pool pod as the operator created it: unassigned. */
  predicate Fresh(v: Stored) { v.pod.session.None? && !v.pod.deleting }

  ghost predicate Inv(v: Stored) {
    !v.pod.deleting && (v.pod.session.Some? ==> v.pod.lastActivity.Time?)
  }

  lemma {:induction false} InvAfter(v: Stored, writes: seq<Write>)
    requires Fresh(v)
    ensures Inv(After(v, writes))
  {
    if writes != [] {
      InvAfter(v, writes[..|writes| - 1]);
    }
  }

  lemma SafeIffRecent(v: Stored, timeout: int)
    requires Inv(v)
    ensures SafeWhileFresh(v, timeout) <==> (v.pod.session.Some? ==> WholeSecond(v.claimedAt) <= v.pod.lastActivity.at)
  {
    if v.pod.session.Some? && v.pod.lastActivity.at < WholeSecond(v.claimedAt) {
      assert IdleExpired(v.pod, v.pod.lastActivity.at + timeout, timeout);
    }
  }

  lemma ChangeKeepsSafetyIffNotStale(v: Stored, w: Write, timeout: int)
    requires Inv(v) && SafeWhileFresh(v, timeout)
    ensures SafeWhileFresh(Changed(v, w), timeout) <==> !StalePatch(v, w)
  {
    SafeIffRecent(v, timeout);
    SafeIffRecent(Changed(v, w), timeout);
  }

  ghost predicate AlwaysSafe(v: Stored, writes: seq<Write>, timeout: int) {
    forall k :: 0 <= k <= |writes| ==> SafeWhileFresh(After(v, writes[..k]), timeout)
  }

  ghost predicate NeverStale(v: Stored, writes: seq<Write>) {
    forall k :: 0 <= k < |writes| ==> !StalePatch(After(v, writes[..k]), writes[k])
  }

  lemma AfterOne(v: Stored, writes: seq<Write>, w: Write)
    ensures After(v, writes + [w]) == Changed(After(v, writes), w)
  {
    assert (writes + [w])[..|writes|] == writes;
  }

  lemma AlwaysSafeOne(v: Stored, front: seq<Write>, w: Write, timeout: int)
    ensures AlwaysSafe(v, front + [w], timeout)
            <==> AlwaysSafe(v, front, timeout) && SafeWhileFresh(After(v, front + [w]), timeout)
  {
    var all := front + [w];
    assert all[..|all|] == all;
    assert forall k :: 0 <= k <= |front| ==> all[..k] == front[..k];
  }

  lemma NeverStaleOne(v: Stored, front: seq<Write>, w: Write)
    ensures NeverStale(v, front + [w]) <==> NeverStale(v, front) && !StalePatch(After(v, front), w)
  {
    var all := front + [w];
    assert all[..|front|] == front;
    assert forall k :: 0 <= k < |front| ==> all[..k] == front[..k] && all[k] == front[k];
  }

  /**
   Because the claim writes label and last activity in one patch, every version a pool pod ever has is
   safe from idle collection until its label time plus the timeout, to the second, exactly when no
   activity patch with an older reading lands on the labelled pod.
   */
  lemma {:induction false} FreshSessionsAreSafeIffNoStalePatch(v: Stored, writes: seq<Write>, timeout: int)
    requires Fresh(v)
    ensures AlwaysSafe(v, writes, timeout) <==> NeverStale(v, writes)
  {
    if writes != [] {
      var front, w := writes[..|writes| - 1], writes[|writes| - 1];
      assert writes == front + [w];
      FreshSessionsAreSafeIffNoStalePatch(v, front, timeout);
      AlwaysSafeOne(v, front, w, timeout);
      NeverStaleOne(v, front, w);
      if AlwaysSafe(v, front, timeout) {
        InvAfter(v, front);
        assert front[..|front|] == front;
        AfterOne(v, front, w);
        ChangeKeepsSafetyIffNotStale(After(v, front), w, timeout);
      }
    }
  }

  // ----- How much a stale patch can cost -----

  /** `updateLastActivity` gives its patch up after ten seconds. */
  const PATCH_TIMEOUT := 10 * SECOND

  predicate Prompt(w: Write) {
    && (w.ClaimPatch? ==> w.reading <= w.landed)
    && (w.ActivityPatch? ==> w.reading <= w.landed < w.reading + PATCH_TIMEOUT)
  }

  /** The writes landed in this order, none before its reading, and no activity patch after its timeout. */
  ghost predicate Timed(writes: seq<Write>) {
    && (forall i :: 0 <= i < |writes| ==> Prompt(writes[i]))
    && (forall i, j :: 0 <= i < j < |writes| ==> writes[i].landed <= writes[j].landed)
  }

  /** The label was read off the clock no later than the last write landed, and the activity is not ten seconds older. */
  ghost predicate Recent(v: Stored, last: int) {
    v.pod.session.Some? ==>
      v.pod.lastActivity.Time? && v.claimedAt <= last && WholeSecond(v.claimedAt) - PATCH_TIMEOUT <= v.pod.lastActivity.at
  }

  lemma SecondsApart(t: nat, r: nat)
    requires t < r + PATCH_TIMEOUT
    ensures WholeSecond(t) - PATCH_TIMEOUT <= WholeSecond(r)
  {
    assert WholeSecond(t) <= t && r < WholeSecond(r) + SECOND;
    assert (WholeSecond(t) - WholeSecond(r)) % SECOND == 0;
  }

  lemma RecentStep(v: Stored, w: Write, last: int)
    requires Recent(v, last) && Prompt(w) && last <= w.landed
    ensures Recent(Changed(v, w), w.landed)
  {
    if w.ActivityPatch? && v.pod.session.Some? {
      SecondsApart(v.claimedAt, w.reading);
    }
  }

  lemma {:induction false} RecentAfter(v: Stored, writes: seq<Write>)
    requires Fresh(v) && Timed(writes)
    ensures Recent(After(v, writes), if writes == [] then 0 else writes[|writes| - 1].landed)
  {
    if writes != [] {
      var front := writes[..|writes| - 1];
      RecentAfter(v, front);
      RecentStep(After(v, front), writes[|writes| - 1], if front == [] then 0 else front[|front| - 1].landed);
    }
  }

  /** In every timed history no version with a label counts as idle before the label's second plus the timeout less ten seconds. */
  lemma StalePatchesCostTenSeconds(v: Stored, writes: seq<Write>, timeout: int, now: int)
    requires Fresh(v) && Timed(writes)
    ensures var last := After(v, writes);
            last.pod.session.Some? && now < WholeSecond(last.claimedAt) + timeout - PATCH_TIMEOUT ==>
              !IdleExpired(last.pod, now, timeout)
  {
    RecentAfter(v, writes);
  }

  /**
   And they do cost something: for every whole number of seconds under ten there is a timed history in
   which a patch read that long before a re-claim lands just after it, and the new session counts as idle
   exactly that much before its label's second plus the timeout.
   */
  lemma DelayedActivityPatchExpiresAFreshSession(v: Stored, timeout: int, seconds: nat) returns (writes: seq<Write>)
    requires Fresh(v) && 0 < seconds < 10
    ensures Timed(writes)
    ensures var last := After(v, writes);
            && last.pod.session == Some("b") && last.claimedAt == seconds * SECOND == WholeSecond(last.claimedAt)
            && forall now :: IdleExpired(last.pod, now, timeout) <==> last.claimedAt + timeout - seconds * SECOND <= now
  {
    var t := seconds * SECOND;
    assert t % SECOND == 0 && WholeSecond(t) == t && WholeSecond(0) == 0;
    var w0, w1, w2, w3 := ClaimPatch(0, "a", 0), RollbackPatch(t), ClaimPatch(t, "b", t), ActivityPatch(t, 0);
    writes := [w0, w1, w2, w3];
    AfterOne(v, [], w0);
    AfterOne(v, [w0], w1);
    AfterOne(v, [w0, w1], w2);
    AfterOne(v, [w0, w1, w2], w3);
    assert [] + [w0] == [w0] && [w0] + [w1] == [w0, w1] && [w0, w1] + [w2] == [w0, w1, w2];
    assert [w0, w1, w2] + [w3] == writes;
  }
}
