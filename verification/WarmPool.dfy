/**
 The operator's warm pool: one reconcile pass over the sandbox pods of an instance, and the
 convergence of repeated passes. Reads are fresh; a deleted pod either carries a deletion mark
 until it vanishes or is gone at once, and a delete that meets a concurrent change is skipped.
 */
module WarmPool {
  import opened Prelude

  type Name = nat

  datatype Pod = Pod(
    held: bool,        // carries a session label
    deleting: bool,
    failed: bool,
    backoff: bool,
    running: bool,
    readyCondition: bool,
    hash: string,      // overlay annotation
    created: int)

  type Pods = map<Name, Pod>

  // ----- Classes of pods -----

  /** `sandboxPodReady`. */
  predicate Ready(p: Pod) { !p.deleting && p.running && p.readyCondition }

  /** `poolPodUnhealthy`. */
  predicate Unhealthy(p: Pod) { !p.held && !p.deleting && (p.failed || p.backoff) }

  predicate Stale(p: Pod, hash: string) { p.hash != hash }

  predicate IsTerminating(p: Pod) { !p.held && p.deleting }

  /** A pod a pass gets rid of whatever the size: unassigned, and of another overlay or unhealthy. */
  predicate IsBad(p: Pod, hash: string) { !p.held && !p.deleting && (Stale(p, hash) || Unhealthy(p)) }

  predicate IsGood(p: Pod, hash: string) { !p.held && !p.deleting && !Stale(p, hash) && !Unhealthy(p) }

  function Terminating(pods: Pods): set<Name> { set n | n in pods && IsTerminating(pods[n]) }

  function Bad(pods: Pods, hash: string): set<Name> { set n | n in pods && IsBad(pods[n], hash) }

  function Good(pods: Pods, hash: string): set<Name> { set n | n in pods && IsGood(pods[n], hash) }

  // ----- Slot arithmetic -----

  /** How many good pods are over the wanted size, counting every slot that is still occupied. */
  function Surplus(terminating: nat, good: nat, badLeft: nat, desired: nat): nat {
    Min(Max(terminating + good + badLeft - desired, 0), good)
  }

  function Deficit(terminating: nat, kept: nat, deletedLeft: nat, desired: nat): nat {
    Max(desired - terminating - kept - deletedLeft, 0)
  }

  // ----- What one pass does, stated on the populations before and after it -----

  function NewPod(hash: string, created: int): Pod { Pod(false, false, false, false, false, false, hash, created) }

  /** What became of pod `n`, which existed before the pass. */
  ghost predicate PodDid(pre: Pods, post: Pods, n: Name, removed: bool, skipped: set<Name>)
    requires n in pre
  {
    if removed then n in post ==> post[n] == pre[n].(deleting := true) || (n in skipped && post[n] == pre[n])
    else n in post && post[n] == pre[n]
  }

  /**
   Effect of a pass on the pods: `trimmed` are the good pods deleted for being too many, `made` the pods
   created. Sessions and pods already going away are left alone, and the oldest good pods go first. The
   deletes of `skipped` pods met a concurrent change.
   */
  ghost predicate Effect(pre: Pods, post: Pods, hash: string, trimmed: set<Name>, made: set<Name>, skipped: set<Name>) {
    && post.Keys <= pre.Keys + made && made !! pre.Keys && made <= post.Keys
    && trimmed <= Good(pre, hash)
    && (forall n :: n in pre ==> PodDid(pre, post, n, IsBad(pre[n], hash) || n in trimmed, skipped))
    && (forall n :: n in made ==> post[n] == NewPod(hash, post[n].created))
    && (forall a, b :: a in trimmed && b in Good(pre, hash) && b !in trimmed ==> pre[a].created <= pre[b].created)
  }

  /** How many are trimmed and made; the slot of a deleted pod counts until the pod is gone. */
  ghost predicate Counts(pre: Pods, post: Pods, desired: nat, hash: string, trimmed: set<Name>, made: set<Name>) {
    var terminating, badLeft := |Terminating(pre)|, |Bad(pre, hash) * post.Keys|;
    && |trimmed| == Surplus(terminating, |Good(pre, hash)|, badLeft, desired)
    && |made| == Deficit(terminating, |Good(pre, hash) - trimmed|, badLeft + |trimmed * post.Keys|, desired)
  }

  ghost predicate Passed(pre: Pods, post: Pods, desired: nat, hash: string, skipped: set<Name>) {
    exists trimmed, made :: Effect(pre, post, hash, trimmed, made, skipped) && Counts(pre, post, desired, hash, trimmed, made)
  }

  lemma {:induction false} SubsetCard(a: set<Name>, b: set<Name>)
    requires a <= b
    ensures |a| <= |b| && |b - a| == |b| - |a|
  {
    if a == {} {
      assert b - a == b;
    } else {
      var x :| x in a;
      SubsetCard(a - {x}, b - {x});
      assert (b - {x}) - (a - {x}) == b - a;
    }
  }

  lemma CountsNeverBoth(pre: Pods, post: Pods, desired: nat, hash: string, trimmed: set<Name>, made: set<Name>)
    requires trimmed <= Good(pre, hash) && Counts(pre, post, desired, hash, trimmed, made)
    ensures trimmed == {} || made == {}
  {
    SubsetCard(trimmed, Good(pre, hash));
  }

  /** Every good pod is still there as it was, or no pod is new. */
  ghost predicate TrimsOrCreates(pre: Pods, post: Pods, hash: string) {
    (forall n :: n in Good(pre, hash) ==> n in post && post[n] == pre[n]) || post.Keys <= pre.Keys
  }

  /** No pass both trims and creates, whatever deletes were skipped and however many pods have left their slot meanwhile. */
  lemma NeverTrimsAndCreates(pre: Pods, post: Pods, desired: nat, hash: string, trimmed: set<Name>, made: set<Name>, skipped: set<Name>)
    requires Effect(pre, post, hash, trimmed, made, skipped) && Counts(pre, post, desired, hash, trimmed, made)
    ensures trimmed == {} || made == {}
    ensures TrimsOrCreates(pre, post, hash)
  {
    CountsNeverBoth(pre, post, desired, hash, trimmed, made);
    if trimmed == {} {
      forall n | n in Good(pre, hash) ensures n in post && post[n] == pre[n] {
        assert PodDid(pre, post, n, IsBad(pre[n], hash) || n in trimmed, skipped);
      }
    }
  }

  // ----- How many pods a pass leaves -----

  function Unassigned(pods: Pods): set<Name> { set n | n in pods && !pods[n].held }

  /** The good pods the pass did not touch. */
  function Kept(pre: Pods, post: Pods, hash: string): set<Name> { set n | n in Good(pre, hash) && n in post && post[n] == pre[n] }

  /** The slots that no good pod can have: pods that were going away already, and bad ones not yet gone. */
  function Occupied(pre: Pods, post: Pods, hash: string): set<Name> { Terminating(pre) + Bad(pre, hash) * post.Keys }

  /** The wanted number of unassigned pods is there at least, counting those going away, and exactly if a pod was made. */
  predicate Filled(pre: Pods, post: Pods, desired: nat) {
    desired <= |Unassigned(post)| && (post.Keys <= pre.Keys || |Unassigned(post)| == desired)
  }

  /**
   Good pods are kept only in slots that are free and wanted. If some but not all of them go, the wanted number is met
   exactly, and all go only if no slot is free for one.
   */
  predicate Trimmed(pre: Pods, post: Pods, desired: nat, hash: string) {
    var kept, occupied := Kept(pre, post, hash), |Occupied(pre, post, hash)|;
    && (kept != {} ==> |kept| + occupied <= desired)
    && (kept != {} && kept != Good(pre, hash) ==> |kept| + occupied == desired)
    && (kept == {} && Good(pre, hash) != {} ==> desired <= occupied)
  }

  lemma OccupiedCard(pre: Pods, post: Pods, hash: string)
    ensures |Occupied(pre, post, hash)| == |Terminating(pre)| + |Bad(pre, hash) * post.Keys|
  {
    DisjointCard(Terminating(pre), Bad(pre, hash) * post.Keys);
  }

  /** After any successful pass the unassigned pods are those it found occupying a slot, the good ones and the new ones. */
  lemma UnassignedAfter(pre: Pods, post: Pods, hash: string, trimmed: set<Name>, made: set<Name>, skipped: set<Name>)
    requires Effect(pre, post, hash, trimmed, made, skipped)
    ensures Unassigned(post) == Occupied(pre, post, hash) + (Good(pre, hash) - trimmed) + trimmed * post.Keys + made
    ensures Occupied(pre, post, hash) !! (Good(pre, hash) - trimmed) !! (trimmed * post.Keys) !! made
  {
    forall n | n in pre
      ensures n in Unassigned(post) <==>
                n in Occupied(pre, post, hash) || n in Good(pre, hash) - trimmed || n in trimmed * post.Keys
    {
      assert PodDid(pre, post, n, IsBad(pre[n], hash) || n in trimmed, skipped);
    }
  }

  lemma UnassignedCard(pre: Pods, post: Pods, hash: string, trimmed: set<Name>, made: set<Name>, skipped: set<Name>)
    requires Effect(pre, post, hash, trimmed, made, skipped)
    ensures |Unassigned(post)| == |Terminating(pre)| + |Bad(pre, hash) * post.Keys|
                                  + |Good(pre, hash) - trimmed| + |trimmed * post.Keys| + |made|
  {
    UnassignedAfter(pre, post, hash, trimmed, made, skipped);
    DisjointCards(Occupied(pre, post, hash), Good(pre, hash) - trimmed, trimmed * post.Keys, made);
    OccupiedCard(pre, post, hash);
  }

  lemma DisjointCards(a: set<Name>, b: set<Name>, c: set<Name>, d: set<Name>)
    requires a !! b !! c !! d
    ensures |a + b + c + d| == |a| + |b| + |c| + |d|
  {
    DisjointCard(a, b);
    DisjointCard(a + b, c);
    DisjointCard(a + b + c, d);
  }

  lemma CountsFill(pre: Pods, post: Pods, desired: nat, hash: string, trimmed: set<Name>, made: set<Name>)
    requires trimmed <= Good(pre, hash) && Counts(pre, post, desired, hash, trimmed, made)
    ensures var found := |Terminating(pre)| + |Bad(pre, hash) * post.Keys| + |Good(pre, hash) - trimmed| + |trimmed * post.Keys|;
            desired <= found + |made| && (made == {} || found + |made| == desired)
  {
    SubsetCard(trimmed, Good(pre, hash));
  }

  /** The size is met by any successful pass, whatever deletes were skipped. */
  lemma PassFills(pre: Pods, post: Pods, desired: nat, hash: string, skipped: set<Name>)
    requires Passed(pre, post, desired, hash, skipped)
    ensures Filled(pre, post, desired)
  {
    var trimmed, made :| Effect(pre, post, hash, trimmed, made, skipped) && Counts(pre, post, desired, hash, trimmed, made);
    UnassignedCard(pre, post, hash, trimmed, made, skipped);
    CountsFill(pre, post, desired, hash, trimmed, made);
  }

  lemma KeptIsTheRest(pre: Pods, post: Pods, hash: string, trimmed: set<Name>, made: set<Name>)
    requires Effect(pre, post, hash, trimmed, made, {})
    ensures Kept(pre, post, hash) == Good(pre, hash) - trimmed
  {
    forall n | n in Good(pre, hash) ensures n in Kept(pre, post, hash) <==> n !in trimmed {
      assert PodDid(pre, post, n, IsBad(pre[n], hash) || n in trimmed, {});
    }
  }

  lemma CountsTrim(pre: Pods, post: Pods, desired: nat, hash: string, trimmed: set<Name>, made: set<Name>)
    requires trimmed <= Good(pre, hash) && Counts(pre, post, desired, hash, trimmed, made)
    ensures var kept, occupied := |Good(pre, hash)| - |trimmed|, |Occupied(pre, post, hash)|;
            && |Good(pre, hash) - trimmed| == kept
            && (0 < kept ==> kept + occupied <= desired)
            && (0 < kept && 0 < |trimmed| ==> kept + occupied == desired)
            && (kept == 0 && 0 < |trimmed| ==> desired <= occupied)
  {
    SubsetCard(trimmed, Good(pre, hash));
    OccupiedCard(pre, post, hash);
  }

  lemma PassTrims(pre: Pods, post: Pods, desired: nat, hash: string)
    requires Passed(pre, post, desired, hash, {})
    ensures Trimmed(pre, post, desired, hash)
  {
    var trimmed, made :| Effect(pre, post, hash, trimmed, made, {}) && Counts(pre, post, desired, hash, trimmed, made);
    KeptIsTheRest(pre, post, hash, trimmed, made);
    CountsTrim(pre, post, desired, hash, trimmed, made);
    assert trimmed == {} ==> Good(pre, hash) - trimmed == Good(pre, hash);
  }

  // ----- Convergence -----

  /** Pods may start, stop or become ready; nothing else about them changes. */
  predicate SameButReadiness(p: Pod, q: Pod) {
    q == p.(running := q.running, readyCondition := q.readyCondition)
  }

  /** Every pod that was going away is gone; the others are as they were, readiness aside. */
  ghost predicate Vanished(pods: Pods, later: Pods) {
    && later.Keys == pods.Keys - Terminating(pods)
    && forall n :: n in later ==> SameButReadiness(pods[n], later[n])
  }

  /** Time passes: the same pods, readiness aside. */
  ghost predicate Waited(pods: Pods, later: Pods) {
    later.Keys == pods.Keys && forall n :: n in later ==> SameButReadiness(pods[n], later[n])
  }

  /**
   Exactly the wanted number of pods of the current overlay that have not failed and are not backing off,
   and no other unassigned pod. A pod that ran to completion counts as one of them, as it does in the source.
   */
  ghost predicate Settled(pods: Pods, desired: nat, hash: string) {
    Terminating(pods) == {} && Bad(pods, hash) == {} && |Good(pods, hash)| == desired
  }

  /** In terms of the pods: as many unassigned ones as wanted, each of the overlay and none deleted, failed or backing off. */
  lemma SettledMeans(pods: Pods, desired: nat, hash: string)
    ensures Settled(pods, desired, hash) <==>
              && |Unassigned(pods)| == desired
              && forall n :: n in Unassigned(pods) ==>
                   pods[n].hash == hash && !pods[n].deleting && !pods[n].failed && !pods[n].backoff
  {
    if forall n :: n in Unassigned(pods) ==> IsGood(pods[n], hash) {
      assert Good(pods, hash) == Unassigned(pods);
    } else {
      var n :| n in Unassigned(pods) && !IsGood(pods[n], hash);
      assert n in Terminating(pods) || n in Bad(pods, hash);
    }
  }

  lemma EffectThenVanished(pre: Pods, post: Pods, later: Pods, hash: string, trimmed: set<Name>, made: set<Name>)
    requires Effect(pre, post, hash, trimmed, made, {}) && Vanished(post, later)
    ensures Terminating(later) == {} && Bad(later, hash) == {}
    ensures Good(later, hash) == (Good(pre, hash) - trimmed) + made
  {
    forall n | n in later ensures !IsTerminating(later[n]) && !IsBad(later[n], hash)
                                  && (IsGood(later[n], hash) <==> n in Good(pre, hash) - trimmed || n in made) {
      assert n in pre ==> PodDid(pre, post, n, IsBad(pre[n], hash) || n in trimmed, {});
    }
    forall n | n in Good(pre, hash) - trimmed ensures n in later {
      assert PodDid(pre, post, n, IsBad(pre[n], hash) || n in trimmed, {});
    }
  }

  /** After one pass without a skipped delete and the end of what it deleted, only good pods are left, and not too many. */
  lemma OnePassLeavesRoom(pre: Pods, post: Pods, later: Pods, desired: nat, hash: string)
    requires Passed(pre, post, desired, hash, {}) && Vanished(post, later)
    ensures Terminating(later) == {} && Bad(later, hash) == {} && |Good(later, hash)| <= desired
  {
    var trimmed, made :| Effect(pre, post, hash, trimmed, made, {}) && Counts(pre, post, desired, hash, trimmed, made);
    EffectThenVanished(pre, post, later, hash, trimmed, made);
    RoomLeft(pre, post, desired, hash, trimmed, made);
  }

  lemma RoomLeft(pre: Pods, post: Pods, desired: nat, hash: string, trimmed: set<Name>, made: set<Name>)
    requires trimmed <= Good(pre, hash) && made !! pre.Keys && Counts(pre, post, desired, hash, trimmed, made)
    ensures |(Good(pre, hash) - trimmed) + made| <= desired
  {
    SubsetCard(trimmed, Good(pre, hash));
    DisjointCard(Good(pre, hash) - trimmed, made);
  }

  lemma EffectOnGoodOnly(pre: Pods, post: Pods, hash: string, made: set<Name>, skipped: set<Name>)
    requires Effect(pre, post, hash, {}, made, skipped) && Terminating(pre) == {} && Bad(pre, hash) == {}
    ensures Terminating(post) == {} && Bad(post, hash) == {} && Good(post, hash) == Good(pre, hash) + made
    ensures forall n :: n in pre ==> n in post && post[n] == pre[n]
  {
    forall n | n in pre ensures n in post && post[n] == pre[n] {
      assert n !in Bad(pre, hash);
      assert PodDid(pre, post, n, IsBad(pre[n], hash) || n in {}, skipped);
    }
    forall n | n in post ensures !IsTerminating(post[n]) && !IsBad(post[n], hash) {
      assert n in pre ==> n !in Terminating(pre) && n !in Bad(pre, hash);
    }
  }

  lemma CountsOnGoodOnly(pre: Pods, post: Pods, desired: nat, hash: string, trimmed: set<Name>, made: set<Name>)
    requires Counts(pre, post, desired, hash, trimmed, made)
    requires Terminating(pre) == {} && Bad(pre, hash) == {} && |Good(pre, hash)| <= desired
    ensures trimmed == {} && |made| == desired - |Good(pre, hash)|
  {
    assert Bad(pre, hash) * post.Keys == {};
    assert |trimmed| == 0;
    assert trimmed * post.Keys == {} && Good(pre, hash) - trimmed == Good(pre, hash);
  }

  /** A pass over good pods only tops them up, and does nothing when there are enough. */
  lemma PassTopsUp(pre: Pods, post: Pods, desired: nat, hash: string, skipped: set<Name>)
    requires Passed(pre, post, desired, hash, skipped)
    requires Terminating(pre) == {} && Bad(pre, hash) == {} && |Good(pre, hash)| <= desired
    ensures Settled(post, desired, hash)
    ensures forall n :: n in pre ==> n in post && post[n] == pre[n]
    ensures |Good(pre, hash)| == desired ==> post.Keys == pre.Keys
  {
    var trimmed, made :| Effect(pre, post, hash, trimmed, made, skipped) && Counts(pre, post, desired, hash, trimmed, made);
    CountsOnGoodOnly(pre, post, desired, hash, trimmed, made);
    EffectOnGoodOnly(pre, post, hash, made, skipped);
    DisjointCard(Good(pre, hash), made);
    assert |Good(pre, hash)| == desired ==> made == {};
  }

  lemma SettledStays(pre: Pods, post: Pods, desired: nat, hash: string, skipped: set<Name>)
    requires Passed(pre, post, desired, hash, skipped) && Settled(pre, desired, hash)
    ensures post == pre
  {
    PassTopsUp(pre, post, desired, hash, skipped);
  }

  lemma SettledWaits(pods: Pods, later: Pods, desired: nat, hash: string)
    requires Settled(pods, desired, hash) && Waited(pods, later)
    ensures Settled(later, desired, hash)
  {
    forall n | n in later ensures IsTerminating(later[n]) == IsTerminating(pods[n]) && IsBad(later[n], hash) == IsBad(pods[n], hash)
                                  && IsGood(later[n], hash) == IsGood(pods[n], hash) {
      assert SameButReadiness(pods[n], later[n]);
    }
    assert Good(later, hash) == Good(pods, hash) && Bad(later, hash) == Bad(pods, hash);
    assert Terminating(later) == Terminating(pods);
  }

  lemma DisjointCard(a: set<Name>, b: set<Name>)
    requires a !! b
    ensures |a + b| == |a| + |b|
  {
  }

  /**
   From any population, one pass whose deletes went through, the end of the pods going away, and a second
   pass give exactly the wanted number of good pods; any further pass changes nothing, however the pods'
   readiness moves in between. No session pod is touched.
   */
  lemma TwoPassesConverge(p0: Pods, p1: Pods, p2: Pods, p3: Pods, p4: Pods, p5: Pods, desired: nat, hash: string,
                          skipped: set<Name>, skippedLater: set<Name>)
    requires Passed(p0, p1, desired, hash, {}) && Vanished(p1, p2)
    requires Passed(p2, p3, desired, hash, skipped) && Waited(p3, p4) && Passed(p4, p5, desired, hash, skippedLater)
    ensures Settled(p3, desired, hash) && p5 == p4 && Settled(p5, desired, hash)
    ensures forall n :: n in p0 && p0[n].held ==> n in p3 && SameButReadiness(p0[n], p3[n])
  {
    OnePassLeavesRoom(p0, p1, p2, desired, hash);
    PassTopsUp(p2, p3, desired, hash, skipped);
    SettledWaits(p3, p4, desired, hash);
    SettledStays(p4, p5, desired, hash, skippedLater);
    forall n | n in p0 && p0[n].held ensures n in p2 && SameButReadiness(p0[n], p2[n]) {
      PassSparesSessions(p0, p1, desired, hash, n, {});
    }
  }

  lemma PassSparesSessions(pre: Pods, post: Pods, desired: nat, hash: string, n: Name, skipped: set<Name>)
    requires Passed(pre, post, desired, hash, skipped) && n in pre && pre[n].held
    ensures n in post && post[n] == pre[n]
  {
    var trimmed, made :| Effect(pre, post, hash, trimmed, made, skipped) && Counts(pre, post, desired, hash, trimmed, made);
    assert PodDid(pre, post, n, IsBad(pre[n], hash) || n in trimmed, skipped);
  }

  // ----- The pass itself -----

  /** Some pod of a non-empty set is at least as old as all of them. */
  lemma {:induction false} OldestExists(pods: Pods, s: set<Name>) returns (n: Name)
    requires s != {} && s <= pods.Keys
    ensures n in s && forall m :: m in s ==> pods[n].created <= pods[m].created
  {
    var x :| x in s;
    n := x;
    if s - {x} != {} {
      var m := OldestExists(pods, s - {x});
      if pods[m].created < pods[x].created {
        n := m;
      }
      assert forall k :: k in s ==> k == x || k in s - {x};
    } else {
      assert s == {x};
    }
  }

  datatype Snapshot = Snapshot(desired: nat, ready: nat, unhealthy: bool, overlayRebuild: bool, gateClosed: bool)

  /** The snapshot of a pool that could not be listed. */
  function Unobserved(desired: nat): Snapshot { Snapshot(desired, 0, false, false, false) }

  function ReadyPods(pods: Pods): set<Name> { set n | n in pods && !pods[n].held && Ready(pods[n]) }

  ghost predicate SomeUnhealthy(pods: Pods) { exists n :: n in pods && Unhealthy(pods[n]) }

  function Removed(pods: Pods, n: Name, instant: set<Name>, skipped: set<Name>): Pods {
    if n !in pods || pods[n].held || n in skipped then pods
    else if n in instant then pods - {n}
    else pods[n := pods[n].(deleting := true)]
  }

  /** Sessions and pods already going away are as they were, and no pod has come back. */
  ghost predicate Spares(pre: Pods, post: Pods) {
    forall n :: n in pre && (pre[n].held || pre[n].deleting) ==> n in post && post[n] == pre[n]
  }

  /** How far the first loop has got: the pods outside `todo` have been dealt with. */
  ghost predicate Swept(pre: Pods, pods: Pods, hash: string, todo: set<Name>,
                        going: set<Name>, live: set<Name>, left: set<Name>, skipped: set<Name>)
  {
    && todo <= pre.Keys && pods.Keys <= pre.Keys
    && going == Terminating(pre) - todo
    && live == Good(pre, hash) - todo
    && left == (Bad(pre, hash) - todo) * pods.Keys
    && forall n :: n in pre ==> PodDid(pre, pods, n, n !in todo && IsBad(pre[n], hash), skipped)
  }

  lemma AddedCard(s: set<Name>, n: Name, added: bool)
    requires n !in s
    ensures |if added then s + {n} else s| == if added then |s| + 1 else |s|
  {
  }

  lemma SweptNone(pre: Pods, hash: string, skipped: set<Name>)
    ensures Swept(pre, pre, hash, pre.Keys, {}, {}, {}, skipped)
  {
  }

  lemma SweptAll(pre: Pods, pods: Pods, hash: string, going: set<Name>, live: set<Name>, left: set<Name>, skipped: set<Name>)
    requires Swept(pre, pods, hash, {}, going, live, left, skipped)
    ensures going == Terminating(pre) && live == Good(pre, hash) && left == Bad(pre, hash) * pods.Keys
  {
    assert Terminating(pre) - {} == Terminating(pre) && Good(pre, hash) - {} == Good(pre, hash);
    assert Bad(pre, hash) - {} == Bad(pre, hash);
  }

  lemma SweptOne(pre: Pods, pods: Pods, hash: string, todo: set<Name>,
                 going: set<Name>, live: set<Name>, left: set<Name>, n: Name, skipped: set<Name>)
    requires Swept(pre, pods, hash, todo, going, live, left, skipped) && n in todo
    ensures n in pods && pods[n] == pre[n] && n !in going && n !in left
    ensures pre[n].held ==> Swept(pre, pods, hash, todo - {n}, going, live, left, skipped)
    ensures IsTerminating(pre[n]) ==> Swept(pre, pods, hash, todo - {n}, going + {n}, live, left, skipped)
    ensures IsGood(pre[n], hash) ==> Swept(pre, pods, hash, todo - {n}, going, live + {n}, left, skipped)
  {
    assert PodDid(pre, pods, n, false, skipped);
    forall m | m in pre && !IsBad(pre[n], hash)
      ensures PodDid(pre, pods, m, m !in todo - {n} && IsBad(pre[m], hash), skipped)
    {
      assert PodDid(pre, pods, m, m !in todo && IsBad(pre[m], hash), skipped);
    }
  }

  lemma SweptBad(pre: Pods, pods: Pods, hash: string, todo: set<Name>,
                 going: set<Name>, live: set<Name>, left: set<Name>, n: Name, instant: set<Name>, skipped: set<Name>)
    requires Swept(pre, pods, hash, todo, going, live, left, skipped) && n in todo && IsBad(pre[n], hash)
    ensures var after := Removed(pods, n, instant, skipped);
            Swept(pre, after, hash, todo - {n}, going, live, if n in after then left + {n} else left, skipped)
  {
    var after := Removed(pods, n, instant, skipped);
    assert PodDid(pre, pods, n, false, skipped);
    forall m | m in pre ensures PodDid(pre, after, m, m !in todo - {n} && IsBad(pre[m], hash), skipped) {
      assert PodDid(pre, pods, m, m !in todo && IsBad(pre[m], hash), skipped);
    }
  }

  lemma SweptSpares(pre: Pods, pods: Pods, hash: string, todo: set<Name>,
                    going: set<Name>, live: set<Name>, left: set<Name>, skipped: set<Name>)
    requires Swept(pre, pods, hash, todo, going, live, left, skipped)
    ensures Spares(pre, pods) && pods.Keys <= pre.Keys
  {
    forall n | n in pre && (pre[n].held || pre[n].deleting) ensures n in pods && pods[n] == pre[n] {
      assert PodDid(pre, pods, n, n !in todo && IsBad(pre[n], hash), skipped);
    }
  }

  /** How far the second loop has got: `trimmed` are deleted, the oldest of the good pods; `rest` are kept so far. */
  ghost predicate Trimming(pre: Pods, pods: Pods, hash: string, trimmed: set<Name>, rest: set<Name>, left: set<Name>, skipped: set<Name>) {
    && pods.Keys <= pre.Keys
    && trimmed + rest == Good(pre, hash) && trimmed !! rest
    && left == trimmed * pods.Keys
    && (forall n :: n in pre ==> PodDid(pre, pods, n, IsBad(pre[n], hash) || n in trimmed, skipped))
    && (forall a, b :: a in trimmed && b in rest ==> pre[a].created <= pre[b].created)
  }

  lemma TrimmingNone(pre: Pods, pods: Pods, hash: string, going: set<Name>, live: set<Name>, left: set<Name>, skipped: set<Name>)
    requires Swept(pre, pods, hash, {}, going, live, left, skipped)
    ensures Trimming(pre, pods, hash, {}, live, {}, skipped)
  {
    SweptAll(pre, pods, hash, going, live, left, skipped);
    forall n | n in pre ensures PodDid(pre, pods, n, IsBad(pre[n], hash) || n in {}, skipped) {
      assert PodDid(pre, pods, n, n !in {} && IsBad(pre[n], hash), skipped);
    }
  }

  lemma TrimmingOne(pre: Pods, pods: Pods, hash: string, trimmed: set<Name>, rest: set<Name>, left: set<Name>,
                    n: Name, instant: set<Name>, skipped: set<Name>)
    requires Trimming(pre, pods, hash, trimmed, rest, left, skipped)
    requires n in rest && forall m :: m in rest ==> pre[n].created <= pre[m].created
    ensures n in pods && !pods[n].held && n !in left
    ensures var after := Removed(pods, n, instant, skipped);
            && Trimming(pre, after, hash, trimmed + {n}, rest - {n}, if n in after then left + {n} else left, skipped)
            && Bad(pre, hash) * after.Keys == Bad(pre, hash) * pods.Keys
  {
    var after := Removed(pods, n, instant, skipped);
    assert PodDid(pre, pods, n, IsBad(pre[n], hash) || n in trimmed, skipped);
    forall m | m in pre ensures PodDid(pre, after, m, IsBad(pre[m], hash) || m in trimmed + {n}, skipped) {
      assert PodDid(pre, pods, m, IsBad(pre[m], hash) || m in trimmed, skipped);
    }
  }

  lemma TrimmingSpares(pre: Pods, pods: Pods, hash: string, trimmed: set<Name>, rest: set<Name>, left: set<Name>, skipped: set<Name>)
    requires Trimming(pre, pods, hash, trimmed, rest, left, skipped)
    ensures Spares(pre, pods) && pods.Keys <= pre.Keys
  {
    forall n | n in pre && (pre[n].held || pre[n].deleting) ensures n in pods && pods[n] == pre[n] {
      assert PodDid(pre, pods, n, IsBad(pre[n], hash) || n in trimmed, skipped);
    }
  }

  /** The pods before, plus freshly made ones. */
  ghost predicate Extended(pods: Pods, after: Pods, hash: string, made: set<Name>) {
    && made !! pods.Keys && after.Keys == pods.Keys + made
    && (forall n :: n in pods ==> after[n] == pods[n])
    && (forall n :: n in made ==> after[n] == NewPod(hash, after[n].created))
  }

  lemma ExtendedOne(pods: Pods, after: Pods, hash: string, made: set<Name>, n: Name, now: int)
    requires Extended(pods, after, hash, made) && n !in after
    ensures Extended(pods, after[n := NewPod(hash, now)], hash, made + {n})
  {
  }

  lemma ExtendedEffect(pre: Pods, pods: Pods, after: Pods, hash: string,
                       trimmed: set<Name>, rest: set<Name>, left: set<Name>, made: set<Name>, skipped: set<Name>)
    requires Trimming(pre, pods, hash, trimmed, rest, left, skipped) && Extended(pods, after, hash, made) && made !! pre.Keys
    ensures Effect(pre, after, hash, trimmed, made, skipped)
    ensures Bad(pre, hash) * after.Keys == Bad(pre, hash) * pods.Keys && trimmed * after.Keys == left
  {
    forall n | n in pre ensures PodDid(pre, after, n, IsBad(pre[n], hash) || n in trimmed, skipped) {
      assert PodDid(pre, pods, n, IsBad(pre[n], hash) || n in trimmed, skipped);
    }
  }

  lemma TrimmedAndExtended(pre: Pods, pods: Pods, after: Pods, desired: nat, hash: string,
                           trimmed: set<Name>, rest: set<Name>, left: set<Name>, made: set<Name>, skipped: set<Name>)
    requires Trimming(pre, pods, hash, trimmed, rest, left, skipped) && Extended(pods, after, hash, made) && made !! pre.Keys
    requires |trimmed| == Surplus(|Terminating(pre)|, |Good(pre, hash)|, |Bad(pre, hash) * pods.Keys|, desired)
    requires |made| == Deficit(|Terminating(pre)|, |rest|, |Bad(pre, hash) * pods.Keys| + |left|, desired)
    ensures Passed(pre, after, desired, hash, skipped) && Filled(pre, after, desired)
    ensures skipped == {} ==> Trimmed(pre, after, desired, hash)
  {
    ExtendedEffect(pre, pods, after, hash, trimmed, rest, left, made, skipped);
    assert Good(pre, hash) - trimmed == rest;
    assert Counts(pre, after, desired, hash, trimmed, made);
    PassFills(pre, after, desired, hash, skipped);
    if skipped == {} {
      PassTrims(pre, after, desired, hash);
    }
  }

  /** The third loop has something to create only if the second one had nothing to trim. */
  lemma CreatedNothingOrTrimmedNothing(pre: Pods, pods: Pods, after: Pods, desired: nat, hash: string,
                                       trimmed: set<Name>, rest: set<Name>, left: set<Name>, made: set<Name>, skipped: set<Name>)
    requires Trimming(pre, pods, hash, trimmed, rest, left, skipped) && Extended(pods, after, hash, made)
    requires |trimmed| == Surplus(|Terminating(pre)|, |Good(pre, hash)|, |Bad(pre, hash) * pods.Keys|, desired)
    requires |made| <= Deficit(|Terminating(pre)|, |rest|, |Bad(pre, hash) * pods.Keys| + |left|, desired)
    ensures TrimsOrCreates(pre, after, hash)
  {
    DisjointCard(trimmed, rest);
    if |trimmed| == 0 {
      assert trimmed == {};
      RestUntouched(pre, pods, hash, trimmed, rest, left, skipped);
    } else {
      assert made == {};
    }
  }

  /** What the first loop makes of one pod: not its business, going away, deleted (gone or still there), or kept. */
  datatype Verdict = Skipped | Going | Gone | Left | Live

  class Operator {
    var pods: Pods
    var nextName: Name

    ghost predicate Valid() reads this { forall n :: n in pods ==> n < nextName }

    constructor (pods: Pods, nextName: Name)
      requires forall n :: n in pods ==> n < nextName
      ensures Valid() && this.pods == pods
    {
      this.pods, this.nextName := pods, nextName;
    }

    /** `observePool`. */
    method ObservePool(desired: nat) returns (snap: Snapshot)
      ensures snap == Snapshot(desired, |ReadyPods(pods)|, snap.unhealthy, false, false)
      ensures snap.unhealthy <==> SomeUnhealthy(pods)
    {
      var ready, unhealthy, todo := 0, false, pods.Keys;
      while todo != {}
        invariant todo <= pods.Keys
        invariant ready == |ReadyPods(pods) - todo|
        invariant unhealthy <==> exists n :: n in pods && n !in todo && Unhealthy(pods[n])
        decreases todo
      {
        var n :| n in todo;
        ghost var seen := ReadyPods(pods) - todo;
        todo := todo - {n};
        if pods[n].held {
          assert ReadyPods(pods) - todo == seen;
          continue;
        }
        if Unhealthy(pods[n]) {
          unhealthy := true;
        }
        if Ready(pods[n]) {
          assert ReadyPods(pods) - todo == seen + {n};
          ready := ready + 1;
        } else {
          assert ReadyPods(pods) - todo == seen;
        }
      }
      assert ReadyPods(pods) - {} == ReadyPods(pods);
      return Snapshot(desired, ready, unhealthy, false, false);
    }

    /**
     `deleteUnassignedIfStillUnassigned`. A pod that is gone or assigned is left alone, and so is one in
     `skipped`, which changed between the read and the delete; the call fails on `broken` pods.
     */
    method DeleteIfStillUnassigned(n: Name, instant: set<Name>, broken: set<Name>, skipped: set<Name>) returns (ok: bool)
      modifies this`pods
      ensures ok ==> pods == Removed(old(pods), n, instant, skipped)
      ensures !ok ==> pods == old(pods) && n in broken
    {
      if n !in pods || pods[n].held {
        return true;
      }
      if n in broken {
        return false;
      }
      pods := Removed(pods, n, instant, skipped);
      return true;
    }

    /** `unassignedOccupiesSlot`. */
    method OccupiesSlot(n: Name) returns (r: bool)
      ensures r <==> n in pods && !pods[n].held
    {
      r := n in pods && !pods[n].held;
    }

    /** One turn of the first loop. */
    method SweepPod(pre: Pods, n: Name, hash: string, instant: set<Name>, broken: set<Name>,
                    ghost todo: set<Name>, ghost going: set<Name>, ghost live: set<Name>, ghost left: set<Name>, skipped: set<Name>)
      returns (ok: bool, v: Verdict)
      requires Swept(pre, pods, hash, todo, going, live, left, skipped) && n in todo
      modifies this`pods
      ensures !ok ==> pods == old(pods) && n in broken
      ensures n !in going && n !in left
      ensures ok ==> Swept(pre, pods, hash, todo - {n}, if v.Going? then going + {n} else going,
                           if v.Live? then live + {n} else live, if v.Left? then left + {n} else left, skipped)
    {
      SweptOne(pre, pods, hash, todo, going, live, left, n, skipped);
      if pre[n].held {
        return true, Skipped;
      }
      if pre[n].deleting {
        return true, Going;
      }
      if Stale(pre[n], hash) || Unhealthy(pre[n]) {
        SweptBad(pre, pods, hash, todo, going, live, left, n, instant, skipped);
        ok := DeleteIfStillUnassigned(n, instant, broken, skipped);
        var occupies := OccupiesSlot(n);
        return ok, if occupies then Left else Gone;
      }
      return true, Live;
    }

    /** First loop: count what is going away, delete what is stale or unhealthy, collect the rest. */
    method SweepBad(hash: string, instant: set<Name>, broken: set<Name>, skipped: set<Name>)
      returns (ok: bool, terminating: nat, live: set<Name>, badLeft: nat)
      modifies this`pods
      ensures pods.Keys <= old(pods).Keys && Spares(old(pods), pods)
      ensures !ok ==> broken != {}
      ensures ok ==> Trimming(old(pods), pods, hash, {}, live, {}, skipped) && live == Good(old(pods), hash)
      ensures ok ==> terminating == |Terminating(old(pods))| && badLeft == |Bad(old(pods), hash) * pods.Keys|
    {
      var pre := pods;
      var todo := pre.Keys;
      ghost var going, left := {}, {};
      terminating, live, badLeft := 0, {}, 0;
      SweptNone(pre, hash, skipped);
      while todo != {}
        invariant Swept(pre, pods, hash, todo, going, live, left, skipped)
        invariant terminating == |going| && badLeft == |left|
        decreases todo
      {
        var n :| n in todo;
        var v;
        ok, v := SweepPod(pre, n, hash, instant, broken, todo, going, live, left, skipped);
        if !ok {
          SweptSpares(pre, pods, hash, todo, going, live, left, skipped);
          return;
        }
        AddedCard(going, n, v.Going?);
        AddedCard(left, n, v.Left?);
        terminating := if v.Going? then terminating + 1 else terminating;
        badLeft := if v.Left? then badLeft + 1 else badLeft;
        todo := todo - {n};
        going := if v.Going? then going + {n} else going;
        live := if v.Live? then live + {n} else live;
        left := if v.Left? then left + {n} else left;
      }
      SweptSpares(pre, pods, hash, todo, going, live, left, skipped);
      SweptAll(pre, pods, hash, going, live, left, skipped);
      TrimmingNone(pre, pods, hash, going, live, left, skipped);
      ok := true;
    }

    /** One turn of the second loop: delete an oldest of the good pods that are left. */
    method TrimOne(ghost pre: Pods, rest: set<Name>, hash: string, instant: set<Name>, broken: set<Name>,
                   ghost trimmed: set<Name>, ghost left: set<Name>, skipped: set<Name>) returns (ok: bool, n: Name, occupies: bool)
      requires Trimming(pre, pods, hash, trimmed, rest, left, skipped) && rest != {}
      modifies this`pods
      ensures !ok ==> pods == old(pods) && n in broken
      ensures n in rest && n !in trimmed && n !in left
      ensures ok ==> Trimming(pre, pods, hash, trimmed + {n}, rest - {n}, if occupies then left + {n} else left, skipped)
      ensures Bad(pre, hash) * pods.Keys == Bad(pre, hash) * old(pods).Keys
    {
      RestUntouched(pre, pods, hash, trimmed, rest, left, skipped);
      ghost var w := OldestExists(pods, rest);
      n :| n in rest && forall m :: m in rest ==> pods[n].created <= pods[m].created;
      TrimmingOne(pre, pods, hash, trimmed, rest, left, n, instant, skipped);
      ok := DeleteIfStillUnassigned(n, instant, broken, skipped);
      occupies := OccupiesSlot(n);
    }

    /** Second loop: delete the `surplus` oldest of the good pods. */
    method TrimOldest(ghost pre: Pods, live: set<Name>, surplus: nat, hash: string, instant: set<Name>, broken: set<Name>, skipped: set<Name>)
      returns (ok: bool, rest: set<Name>, trimmedLeft: nat, ghost trimmed: set<Name>, ghost left: set<Name>)
      requires Trimming(pre, pods, hash, {}, live, {}, skipped) && surplus <= |live|
      modifies this`pods
      ensures pods.Keys <= pre.Keys && Spares(pre, pods)
      ensures !ok ==> broken != {}
      ensures ok ==> Trimming(pre, pods, hash, trimmed, rest, left, skipped)
      ensures ok ==> |trimmed| == surplus && |rest| == |live| - surplus && trimmedLeft == |left|
      ensures Bad(pre, hash) * pods.Keys == Bad(pre, hash) * old(pods).Keys
    {
      rest, trimmedLeft, trimmed, left := live, 0, {}, {};
      ok := true;
      var i := 0;
      while i < surplus
        invariant 0 <= i <= surplus
        invariant Trimming(pre, pods, hash, trimmed, rest, left, skipped)
        invariant |trimmed| == i && |rest| == |live| - i && trimmedLeft == |left|
        invariant Bad(pre, hash) * pods.Keys == Bad(pre, hash) * old(pods).Keys
      {
        var n, occupies;
        ok, n, occupies := TrimOne(pre, rest, hash, instant, broken, trimmed, left, skipped);
        if !ok {
          break;
        }
        AddedCard(left, n, occupies);
        AddedCard(trimmed, n, true);
        RemovedCard(rest, n);
        trimmedLeft := if occupies then trimmedLeft + 1 else trimmedLeft;
        left := if occupies then left + {n} else left;
        trimmed, rest := trimmed + {n}, rest - {n};
        i := i + 1;
      }
      TrimmingSpares(pre, pods, hash, trimmed, rest, left, skipped);
    }

    /** `createPoolPod`: one pod under a name never used before. */
    method CreatePod(hash: string, now: int, ghost start: Pods, ghost made: set<Name>)
      requires Valid() && Extended(start, pods, hash, made)
      modifies this
      ensures Valid() && nextName == old(nextName) + 1
      ensures Extended(start, pods, hash, made + {old(nextName)})
      ensures old(nextName) !in made
    {
      assert nextName !in pods;
      ExtendedOne(start, pods, hash, made, nextName, now);
      pods := pods[nextName := NewPod(hash, now)];
      nextName := nextName + 1;
    }

    /** Third loop: create the missing pods; the API refuses to create more than `limit`. */
    method CreatePods(count: nat, hash: string, now: int, limit: nat) returns (ok: bool, ghost made: set<Name>)
      requires Valid()
      modifies this
      ensures Valid() && Extended(old(pods), pods, hash, made)
      ensures |made| <= count && (ok ==> |made| == count) && (ok <==> count <= limit)
      ensures forall n :: n in made ==> old(nextName) <= n
    {
      made, ok := {}, true;
      var i := 0;
      while i < count
        invariant 0 <= i <= count && ok && i <= limit && Valid() && old(nextName) <= nextName
        invariant Extended(old(pods), pods, hash, made) && |made| == i
        invariant forall n :: n in made ==> old(nextName) <= n
      {
        if i >= limit {
          ok := false;
          return;
        }
        ghost var n := nextName;
        CreatePod(hash, now, old(pods), made);
        AddedCard(made, n, true);
        made := made + {n};
        i := i + 1;
      }
    }

    /** The part of `reconcilePool` that changes pods: sweep, trim, create. Even a pass that fails never trims and creates. */
    method AdjustPool(desired: nat, hash: string, instant: set<Name>, broken: set<Name>, now: int, limit: nat, skipped: set<Name>)
      returns (ok: bool)
      requires Valid()
      modifies this
      ensures Valid() && Spares(old(pods), pods) && TrimsOrCreates(old(pods), pods, hash)
      ensures ok ==> Passed(old(pods), pods, desired, hash, skipped) && Filled(old(pods), pods, desired)
      ensures ok && skipped == {} ==> Trimmed(old(pods), pods, desired, hash)
      ensures !ok ==> broken != {} || limit < desired
    {
      ghost var pre := pods;
      var terminating, live, badLeft;
      ok, terminating, live, badLeft := SweepBad(hash, instant, broken, skipped);
      if !ok {
        return;
      }
      var surplus := Surplus(terminating, |live|, badLeft, desired);
      var rest, trimmedLeft;
      ghost var trimmed, left;
      ok, rest, trimmedLeft, trimmed, left := TrimOldest(pre, live, surplus, hash, instant, broken, skipped);
      if !ok {
        return;
      }
      ghost var mid := pods;
      var deficit := Deficit(terminating, |rest|, badLeft + trimmedLeft, desired);
      ghost var made;
      ok, made := CreatePods(deficit, hash, now, limit);
      if ok {
        TrimmedAndExtended(pre, mid, pods, desired, hash, trimmed, rest, left, made, skipped);
      }
      CreatedNothingOrTrimmedNothing(pre, mid, pods, desired, hash, trimmed, rest, left, made, skipped);
    }

    /** `reconcileZeroPool`: delete every live unassigned pod, whatever its overlay. */
    method ReconcileZeroPool(instant: set<Name>, broken: set<Name>, skipped: set<Name>) returns (ok: bool)
      requires Valid()
      modifies this`pods
      ensures Valid() && Spares(old(pods), pods) && pods.Keys <= old(pods).Keys
      ensures ok ==> forall hash :: Passed(old(pods), pods, 0, hash, skipped)
      ensures !ok ==> broken != {}
    {
      var pre := pods;
      var todo := set n | n in pods && !pods[n].held && !pods[n].deleting;
      ok := true;
      while todo != {}
        invariant Zeroing(pre, pods, todo, skipped)
        decreases todo
      {
        var n :| n in todo;
        ghost var before := pods;
        ok := DeleteIfStillUnassigned(n, instant, broken, skipped);
        if !ok {
          break;
        }
        ZeroingOne(pre, before, todo, n, instant, skipped);
        todo := todo - {n};
      }
      if ok {
        forall hash ensures Passed(pre, pods, 0, hash, skipped) {
          ZeroPassed(pre, pods, hash, skipped);
        }
      }
    }

    /** `observeAfterMutate`: what the pods are like now and what was wrong before, unless they cannot be listed. */
    method ObserveAfterMutate(desired: nat, relisted: bool, unhealthy: bool, rebuild: bool, adjusted: bool)
      returns (snap: Snapshot, ok: bool)
      ensures !relisted ==> snap == Unobserved(desired) && !ok
      ensures relisted ==>
                && ok == adjusted && snap == Snapshot(desired, |ReadyPods(pods)|, snap.unhealthy, rebuild, false)
                && (snap.unhealthy <==> unhealthy || SomeUnhealthy(pods))
    {
      if !relisted {
        return Unobserved(desired), false;
      }
      snap := ObservePool(desired);
      return snap.(unhealthy := snap.unhealthy || unhealthy, overlayRebuild := rebuild), adjusted;
    }

    /**
     `reconcilePool`. Pods change only when they could be listed, children were applied and, for a positive
     size, the proxy gate is open and the overlay inputs are there. A call without error that changes pods is
     a pass of the convergence theorem, and no call both trims and creates. The snapshot reports the pods as
     they are afterwards, plus what the pass found wrong, or nothing if they could not be listed.
     */
    method ReconcilePool(desired: nat, mutate: bool, gate: Option<bool>, overlay: Option<string>, listed: bool, relisted: bool,
                         instant: set<Name>, broken: set<Name>, now: int, limit: nat, skipped: set<Name>)
      returns (snap: Snapshot, ok: bool)
      requires Valid()
      modifies this
      ensures Valid() && Spares(old(pods), pods)
      ensures !listed || !mutate || (0 < desired && (gate != Some(true) || overlay.None?)) ==> pods == old(pods)
      ensures if overlay.Some? then TrimsOrCreates(old(pods), pods, overlay.value) else pods.Keys <= old(pods).Keys
      ensures mutate && desired == 0 && ok ==> forall hash :: Passed(old(pods), pods, 0, hash, skipped)
      ensures mutate && 0 < desired && gate == Some(true) && overlay.Some? && ok ==>
                && Passed(old(pods), pods, desired, overlay.value, skipped) && Filled(old(pods), pods, desired)
                && (skipped == {} ==> Trimmed(old(pods), pods, desired, overlay.value))
                && (snap.overlayRebuild <==> exists n :: n in old(pods) && !old(pods)[n].held && !old(pods)[n].deleting
                                                         && Stale(old(pods)[n], overlay.value))
                && (snap.unhealthy <==> SomeUnhealthy(old(pods)) || SomeUnhealthy(pods))
      ensures snap == Unobserved(desired) || (snap.desired == desired && snap.ready == |ReadyPods(pods)|)
      ensures ok ==> listed && snap.ready == |ReadyPods(pods)|
      ensures snap.gateClosed <==> listed && mutate && 0 < desired && gate == Some(false)
      ensures ok ==> !(mutate && 0 < desired) || (gate.Some? && (gate.value ==> overlay.Some?))
      ensures !ok ==>
                || !listed || !relisted || broken != {} || limit < desired
                || (mutate && 0 < desired && (gate.None? || (gate.value && overlay.None?)))
    {
      if !listed {
        return Unobserved(desired), false;
      }
      if !mutate {
        snap := ObservePool(desired);
        return snap, true;
      }
      if desired == 0 {
        var anyLive := exists n | n in pods :: !pods[n].held && !pods[n].deleting;
        ok := ReconcileZeroPool(instant, broken, skipped);
        if anyLive {
          snap, ok := ObserveAfterMutate(desired, relisted, false, false, ok);
        } else {
          snap := ObservePool(desired);
        }
        return;
      }
      if gate != Some(true) || overlay.None? {
        snap := ObservePool(desired);
        assert gate.Some? && !gate.value ==> gate == Some(false);
        return snap.(gateClosed := gate == Some(false)), gate == Some(false);
      }
      var pre := ObservePool(desired);
      var rebuild := exists n | n in pods :: !pods[n].held && !pods[n].deleting && Stale(pods[n], overlay.value);
      ok := AdjustPool(desired, overlay.value, instant, broken, now, limit, skipped);
      snap, ok := ObserveAfterMutate(desired, relisted, pre.unhealthy, rebuild, ok);
    }
  }

  /** How far the size-zero pass has got: every live unassigned pod outside `todo` is deleted. */
  ghost predicate Zeroing(pre: Pods, pods: Pods, todo: set<Name>, skipped: set<Name>) {
    && pods.Keys <= pre.Keys
    && (forall n :: n in todo ==> n in pre && !pre[n].held && !pre[n].deleting)
    && (forall n :: n in pre ==> PodDid(pre, pods, n, !pre[n].held && !pre[n].deleting && n !in todo, skipped))
  }

  lemma ZeroingOne(pre: Pods, pods: Pods, todo: set<Name>, n: Name, instant: set<Name>, skipped: set<Name>)
    requires Zeroing(pre, pods, todo, skipped) && n in todo
    ensures Zeroing(pre, Removed(pods, n, instant, skipped), todo - {n}, skipped)
  {
    var after := Removed(pods, n, instant, skipped);
    assert PodDid(pre, pods, n, false, skipped);
    forall m | m in pre ensures PodDid(pre, after, m, !pre[m].held && !pre[m].deleting && m !in todo - {n}, skipped) {
      assert PodDid(pre, pods, m, !pre[m].held && !pre[m].deleting && m !in todo, skipped);
    }
  }

  lemma ZeroPassed(pre: Pods, post: Pods, hash: string, skipped: set<Name>)
    requires Zeroing(pre, post, {}, skipped)
    ensures Passed(pre, post, 0, hash, skipped)
  {
    var trimmed := Good(pre, hash);
    forall n | n in pre ensures PodDid(pre, post, n, IsBad(pre[n], hash) || n in trimmed, skipped) {
      assert PodDid(pre, post, n, !pre[n].held && !pre[n].deleting && n !in {}, skipped);
    }
    assert Effect(pre, post, hash, trimmed, {}, skipped);
    assert Good(pre, hash) - trimmed == {};
    assert Counts(pre, post, 0, hash, trimmed, {});
  }

  lemma RemovedCard(s: set<Name>, n: Name)
    requires n in s
    ensures |s - {n}| == |s| - 1
  {
  }

  lemma RestUntouched(pre: Pods, pods: Pods, hash: string, trimmed: set<Name>, rest: set<Name>, left: set<Name>, skipped: set<Name>)
    requires Trimming(pre, pods, hash, trimmed, rest, left, skipped)
    ensures forall n :: n in rest ==> n in pre && n in pods && pods[n] == pre[n]
  {
    forall n | n in rest ensures n in pre && n in pods && pods[n] == pre[n] {
      assert n in Good(pre, hash);
      assert PodDid(pre, pods, n, IsBad(pre[n], hash) || n in trimmed, skipped);
    }
  }
}
