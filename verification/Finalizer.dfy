/**
 Deleting an instance. The reconciler (one pass at a time), the MCP servers, the Deployment
 controller, the kubelet and the user act in any order; `finalize` is a sequence of API calls
 between which all of them may act.
 */
module Finalizer {
  import opened Prelude

  type Id = nat

  /** Where the reconciler is. `Applying` is a pass that read the instance as not being deleted. */
  datatype Pass =
    | Resting
    | Applying(hasFinalizer: bool)
    | ScalingServers
    | ListingServers
    | DeletingPods
    | DeletingSecrets
    | ListingPods
    | ListingSecrets(podsGone: bool)
    | RemovingFinalizer

  datatype State = State(
    present: bool,            // the instance object
    deleting: bool,
    finalizer: bool,
    replicas: Option<nat>,    // of the MCP Deployment; None when there is none
    servers: set<Id>,
    sandboxes: set<Id>,
    dying: set<Id>,           // sandboxes with a deletion mark
    secrets: set<Id>,
    pass: Pass)

  const INITIAL: State := State(true, false, false, None, {}, {}, {}, {}, Resting)

  datatype Step =
    // the user and the rest of the cluster
    | UserDeletes
    | DeploymentDeleted
    | ServerStarts(id: Id)
    | ServerStops(id: Id)
    | ServerCreatesPod(id: Id)
    | ServerCreatesSecret(id: Id)
    | PodMarked(id: Id)
    | PodVanishes(id: Id)
    | SecretVanishes(id: Id)
    // a reconcile pass
    | Begin
    | AddFinalizer
    | ApplyDeployment(n: nat)
    | CreatePoolPod(id: Id)
    | PassFails
    | EndPass
    | ScaleToZero
    | ListServers
    | DeletePods
    | DeleteSecrets(lingering: set<Id>)
    | ListPods
    | ListSecrets
    | RemoveFinalizer

  predicate Finalizing(p: Pass) { !p.Resting? && !p.Applying? }

  function Apply(st: State, step: Step): State {
    match step
    case UserDeletes =>
      if !st.present || st.deleting then st
      else if st.finalizer then st.(deleting := true) else st.(present := false)
    case DeploymentDeleted => st.(replicas := None)
    case ServerStarts(x) => if st.replicas.Some? && st.replicas.value > 0 then st.(servers := st.servers + {x}) else st
    case ServerStops(x) => st.(servers := st.servers - {x})
    case ServerCreatesPod(x) => if st.servers != {} then st.(sandboxes := st.sandboxes + {x}) else st
    case ServerCreatesSecret(x) => if st.servers != {} then st.(secrets := st.secrets + {x}) else st
    case PodMarked(x) => if x in st.sandboxes then st.(dying := st.dying + {x}) else st
    case PodVanishes(x) =>
      if x in st.dying then st.(sandboxes := st.sandboxes - {x}, dying := st.dying - {x}) else st
    case SecretVanishes(x) => st.(secrets := st.secrets - {x})
    case Begin =>
      if !st.pass.Resting? || !st.present then st
      else if !st.deleting then st.(pass := Applying(st.finalizer))
      else if st.finalizer then st.(pass := ScalingServers) else st
    case AddFinalizer =>
      if st.pass != Applying(false) then st
      else if st.present && !st.deleting then st.(finalizer := true, pass := Applying(true))
      else st.(pass := Resting)
    case ApplyDeployment(n) => if st.pass == Applying(true) then st.(replicas := Some(Max(n, 1))) else st
    case CreatePoolPod(x) => if st.pass == Applying(true) then st.(sandboxes := st.sandboxes + {x}) else st
    case PassFails => st.(pass := Resting)
    case EndPass => if st.pass.Applying? then st.(pass := Resting) else st
    case ScaleToZero =>
      if st.pass != ScalingServers then st
      else st.(replicas := if st.replicas.Some? then Some(0) else None, pass := ListingServers)
    case ListServers =>
      if st.pass != ListingServers then st else st.(pass := if st.servers != {} then Resting else DeletingPods)
    case DeletePods => if st.pass != DeletingPods then st else st.(dying := st.sandboxes, pass := DeletingSecrets)
    case DeleteSecrets(lingering) =>
      if st.pass != DeletingSecrets then st else st.(secrets := st.secrets * lingering, pass := ListingPods)
    case ListPods => if st.pass != ListingPods then st else st.(pass := ListingSecrets(st.sandboxes == {}))
    case ListSecrets =>
      if !st.pass.ListingSecrets? then st
      else st.(pass := if st.pass.podsGone && st.secrets == {} then RemovingFinalizer else Resting)
    case RemoveFinalizer =>
      if st.pass != RemovingFinalizer then st else st.(finalizer := false, present := false, pass := Resting)
  }

  function Then(st: State, steps: seq<Step>): State {
    if steps == [] then st else Apply(Then(st, steps[..|steps| - 1]), steps[|steps| - 1])
  }

  function Exec(steps: seq<Step>): State { Then(INITIAL, steps) }

  predicate NoServers(st: State) {
    st.servers == {} && (st.replicas.Some? ==> st.replicas.value == 0)
  }

  /** Nothing of the instance is left, and nothing is left that could create any of it. */
  predicate Nothing(st: State) { NoServers(st) && st.sandboxes == {} && st.secrets == {} }

  ghost predicate Inv(st: State) {
    && (!st.finalizer ==> Nothing(st))
    && (st.finalizer ==> st.present)
    && (st.pass == Applying(true) ==> st.finalizer)
    && (Finalizing(st.pass) ==> st.deleting && st.finalizer)
    && (st.pass.ListingServers? && st.replicas.Some? ==> st.replicas.value == 0)
    && (Finalizing(st.pass) && !st.pass.ScalingServers? && !st.pass.ListingServers? ==> NoServers(st))
    && (st.pass == ListingSecrets(true) || st.pass.RemovingFinalizer? ==> st.sandboxes == {})
    && (st.pass.RemovingFinalizer? ==> st.secrets == {})
  }

  lemma InvStep(st: State, step: Step)
    requires Inv(st)
    ensures Inv(Apply(st, step))
    ensures !st.present ==> !Apply(st, step).present
  {
  }

  lemma {:induction false} InvThen(st: State, steps: seq<Step>)
    requires Inv(st)
    ensures Inv(Then(st, steps))
    ensures !st.present ==> !Then(st, steps).present
  {
    if steps != [] {
      InvThen(st, steps[..|steps| - 1]);
      InvStep(Then(st, steps[..|steps| - 1]), steps[|steps| - 1]);
    }
  }

  lemma {:induction false} ThenThen(st: State, a: seq<Step>, b: seq<Step>)
    ensures Then(st, a + b) == Then(Then(st, a), b)
  {
    if b == [] {
      assert a + b == a;
    } else {
      var n := |b| - 1;
      ThenThen(st, a, b[..n]);
      ThenOne(st, a + b[..n], b[n]);
      assert a + b == a + b[..n] + [b[n]];
    }
  }

  /**
   Once the instance is gone, which takes the finalizer's removal, there is no server, sandbox pod or
   session Secret of it, now or in any later state.
   */
  lemma NothingOutlivesTheInstance(steps: seq<Step>, later: seq<Step>)
    requires !Exec(steps).present
    ensures Nothing(Exec(steps + later))
  {
    InvThen(INITIAL, steps);
    ThenThen(INITIAL, steps, later);
    InvThen(Exec(steps), later);
  }

  /** Likewise in every state in which the finalizer is not set: nothing is created before it is added. */
  lemma NothingWithoutTheFinalizer(steps: seq<Step>)
    requires !Exec(steps).finalizer
    ensures Nothing(Exec(steps))
  {
    InvThen(INITIAL, steps);
  }

  // ----- finalize as a program running among the others -----

  /** Everything but the reconciler's own calls. */
  predicate Foreign(step: Step) {
    match step
    case UserDeletes => true
    case DeploymentDeleted => true
    case ServerStarts(_) => true
    case ServerStops(_) => true
    case ServerCreatesPod(_) => true
    case ServerCreatesSecret(_) => true
    case PodMarked(_) => true
    case PodVanishes(_) => true
    case SecretVanishes(_) => true
    case _ => false
  }

  lemma {:induction false} ForeignKeepsPass(st: State, steps: seq<Step>)
    requires forall x :: x in steps ==> Foreign(x)
    ensures Then(st, steps).pass == st.pass
  {
    if steps != [] {
      ForeignKeepsPass(st, steps[..|steps| - 1]);
      assert Foreign(steps[|steps| - 1]);
    }
  }

  /** The order of the calls inside `finalize`. */
  predicate Follows(before: Pass, step: Step, after: Pass) {
    match step
    case ScaleToZero => before.ScalingServers? && after.ListingServers?
    case ListServers => before.ListingServers? && (after.Resting? || after.DeletingPods?)
    case DeletePods => before.DeletingPods? && after.DeletingSecrets?
    case DeleteSecrets(_) => before.DeletingSecrets? && after.ListingPods?
    case ListPods => before.ListingPods? && after.ListingSecrets?
    case ListSecrets => before.ListingSecrets? && (after.Resting? || after.RemovingFinalizer?)
    case RemoveFinalizer => before.RemovingFinalizer? && after.Resting?
    case PassFails => after.Resting?
    case _ => false
  }

  /** The stage at which `finalize` makes this call. */
  predicate Due(pass: Pass, step: Step) {
    match step
    case ScaleToZero => pass.ScalingServers?
    case ListServers => pass.ListingServers?
    case DeletePods => pass.DeletingPods?
    case DeleteSecrets(_) => pass.DeletingSecrets?
    case ListPods => pass.ListingPods?
    case ListSecrets => pass.ListingSecrets?
    case RemoveFinalizer => pass.RemovingFinalizer?
    case _ => false
  }

  lemma OwnStep(st: State, step: Step)
    requires Inv(st) && Finalizing(st.pass) && (Due(st.pass, step) || step.PassFails?)
    ensures Follows(st.pass, step, Apply(st, step).pass)
    ensures if step.RemoveFinalizer? then !Apply(st, step).present
            else Apply(st, step).present && Apply(st, step).deleting && Apply(st, step).finalizer
  {
  }

  /** No call of the pass fails, and nobody acts in between. */
  ghost predicate Calm(others: int -> seq<Step>, fails: int -> bool) {
    (forall k :: others(k) == []) && forall k :: !fails(k)
  }

  /** What `finalize` does by itself: the servers go first, and only without them are pods and Secrets deleted. */
  predicate FinalizedAlone(st: State, st': State, lingering: set<Id>, removed: bool) {
    && st'.replicas == (if st.replicas.Some? then Some(0) else None)
    && (removed <==> st.servers == {} && st.sandboxes == {} && st.secrets * lingering == {})
    && st'.sandboxes == st.sandboxes
    && (st.servers != {} ==> st'.dying == st.dying && st'.secrets == st.secrets)
    && (st.servers == {} ==> st'.dying == st.sandboxes && st'.secrets == st.secrets * lingering)
  }

  class Reconciler {
    var st: State
    ghost var run: seq<Step>

    ghost predicate Valid() reads this { st == Exec(run) }

    constructor (steps: seq<Step>)
      ensures Valid() && run == steps
    {
      st := Exec(steps);
      run := steps;
    }

    /** The instance is still there, marked for deletion and held by the finalizer. */
    ghost predicate Held() reads this { st.present && st.deleting && st.finalizer }

    /** One API call of the pass; the others act before it is served, and it may fail and end the pass. */
    method Call(step: Step, others: seq<Step>, fails: bool) returns (ok: bool)
      requires Valid() && Due(st.pass, step) && forall x :: x in others ==> Foreign(x)
      modifies this
      ensures Valid() && run == old(run) + others + [if fails then PassFails else step]
      ensures ok == !fails && Follows(old(st).pass, if fails then PassFails else step, st.pass)
      ensures if ok && step.RemoveFinalizer? then !st.present else Held()
      ensures others == [] && !fails ==> st == Apply(old(st), step)
    {
      var actual := if fails then PassFails else step;
      ForeignKeepsPass(st, others);
      ThenThen(INITIAL, run, others);
      InvThen(INITIAL, run + others);
      OwnStep(Then(st, others), actual);
      assert (run + others + [actual])[..|run + others|] == run + others;
      st := Apply(Then(st, others), actual);
      run := run + others + [actual];
      ok := !fails;
    }

    /**
     `finalize`, from the instance read as being deleted. It removes the finalizer only when its lists came
     back empty; if it does, nothing is left. Otherwise it ends with the finalizer in place, to be retried. Left alone,
     it succeeds exactly if no server and no sandbox pod was there and no Secret lingers.
     */
    method Finalize(others: int -> seq<Step>, fails: int -> bool, lingering: set<Id>) returns (removed: bool)
      requires Valid() && st.pass.ScalingServers?
      requires forall k, x :: x in others(k) ==> Foreign(x)
      modifies this
      ensures Valid() && st.pass.Resting?
      ensures if removed then !st.present && Nothing(st) else Held()
      ensures Calm(others, fails) ==> FinalizedAlone(old(st), st, lingering, removed)
    {
      removed := false;
      var ok := Call(ScaleToZero, others(0), fails(0));
      if !ok {
        return;
      }
      ok := Call(ListServers, others(1), fails(1));
      if !ok || st.pass.Resting? {
        return;
      }
      ok := Call(DeletePods, others(2), fails(2));
      if !ok {
        return;
      }
      ok := Call(DeleteSecrets(lingering), others(3), fails(3));
      if !ok {
        return;
      }
      removed := CheckAndRemove(others, fails);
    }

    /** The second half: remove the finalizer if no sandbox pod and no session Secret is listed. */
    method CheckAndRemove(others: int -> seq<Step>, fails: int -> bool) returns (removed: bool)
      requires Valid() && st.pass.ListingPods?
      requires forall k, x :: x in others(k) ==> Foreign(x)
      modifies this
      ensures Valid() && st.pass.Resting?
      ensures if removed then !st.present && Nothing(st) else Held()
      ensures Calm(others, fails) ==>
                && st.sandboxes == old(st).sandboxes && st.dying == old(st).dying && st.secrets == old(st).secrets
                && st.replicas == old(st).replicas
                && (removed <==> old(st).sandboxes == {} && old(st).secrets == {})
    {
      removed := false;
      var ok := Call(ListPods, others(4), fails(4));
      if !ok {
        return;
      }
      ok := Call(ListSecrets, others(5), fails(5));
      if !ok || st.pass.Resting? {
        return;
      }
      removed := Call(RemoveFinalizer, others(6), fails(6));
      if removed {
        NothingOutlivesTheInstance(run, []);
        assert run + [] == run;
      }
    }
  }

  // ----- The finalizer can always be removed -----

  lemma ThenOne(st: State, steps: seq<Step>, step: Step)
    ensures Then(st, steps + [step]) == Apply(Then(st, steps), step)
  {
    assert (steps + [step])[..|steps|] == steps;
  }

  lemma ThenFirst(st: State, step: Step, more: seq<Step>)
    ensures Then(st, [step] + more) == Then(Apply(st, step), more)
  {
    ThenOne(st, [], step);
    assert [] + [step] == [step];
    ThenThen(st, [step], more);
  }

  lemma {:induction false} ServersStop(st: State) returns (rest: seq<Step>)
    ensures Then(st, rest) == st.(servers := {})
    decreases |st.servers|
  {
    rest := [];
    if st.servers != {} {
      var x :| x in st.servers;
      var more := ServersStop(Apply(st, ServerStops(x)));
      ThenFirst(st, ServerStops(x), more);
      rest := [ServerStops(x)] + more;
    }
  }

  lemma {:induction false} MarkedPodsVanish(st: State) returns (rest: seq<Step>)
    ensures Then(st, rest) == st.(sandboxes := st.sandboxes - st.dying, dying := {})
    decreases |st.dying|
  {
    rest := [];
    if st.dying == {} {
      assert st.sandboxes - st.dying == st.sandboxes;
    } else {
      var x :| x in st.dying;
      var st1 := Apply(st, PodVanishes(x));
      var more := MarkedPodsVanish(st1);
      ThenFirst(st, PodVanishes(x), more);
      assert st1.sandboxes - st1.dying == st.sandboxes - st.dying;
      rest := [PodVanishes(x)] + more;
    }
  }

  lemma RunCalls(st: State, a: Step, b: Step, c: Step, d: Step)
    ensures Then(st, [a, b, c, d]) == Apply(Apply(Apply(Apply(st, a), b), c), d)
  {
    ThenFirst(st, a, [b, c, d]);
    ThenFirst(Apply(st, a), b, [c, d]);
    ThenFirst(Apply(Apply(st, a), b), c, [d]);
    ThenFirst(Apply(Apply(Apply(st, a), b), c), d, []);
    assert [a] + [b, c, d] == [a, b, c, d] && [b] + [c, d] == [b, c, d] && [c] + [d] == [c, d] && [d] + [] == [d];
  }

  lemma SecondHalf(st: State) returns (rest: seq<Step>)
    requires st.pass.DeletingSecrets? && st.sandboxes == st.dying
    ensures !Then(st, rest).present
  {
    var vanish := MarkedPodsVanish(st);
    var last := [DeleteSecrets({}), ListPods, ListSecrets, RemoveFinalizer];
    RunCalls(Then(st, vanish), DeleteSecrets({}), ListPods, ListSecrets, RemoveFinalizer);
    ThenThen(st, vanish, last);
    rest := vanish + last;
  }

  lemma BothHalves(st: State) returns (rest: seq<Step>)
    requires st.pass.Resting? && st.present && st.deleting && st.finalizer
    ensures !Then(st, rest).present
  {
    var stops := ServersStop(st);
    var first := [Begin, ScaleToZero, ListServers, DeletePods];
    RunCalls(Then(st, stops), Begin, ScaleToZero, ListServers, DeletePods);
    ThenThen(st, stops, first);
    var more := SecondHalf(Then(st, stops + first));
    ThenThen(st, stops + first, more);
    rest := stops + first + more;
  }

  // ----- Every population is one to be deleted -----

  lemma {:induction false} ServersStart(st: State, servers: set<Id>) returns (rest: seq<Step>)
    requires st.replicas.Some? && st.replicas.value > 0
    ensures Then(st, rest) == st.(servers := st.servers + servers)
    decreases |servers|
  {
    rest := [];
    if servers == {} {
      assert st.servers + servers == st.servers;
    } else {
      var x :| x in servers;
      var more := ServersStart(Apply(st, ServerStarts(x)), servers - {x});
      ThenFirst(st, ServerStarts(x), more);
      assert st.servers + {x} + (servers - {x}) == st.servers + servers;
      rest := [ServerStarts(x)] + more;
    }
  }

  /** Pods come from the pool or, those in `onDemand`, from a server. */
  lemma {:induction false} PodsAppear(st: State, pods: set<Id>, onDemand: set<Id>) returns (rest: seq<Step>)
    requires st.pass == Applying(true) && st.servers != {}
    ensures Then(st, rest) == st.(sandboxes := st.sandboxes + pods)
    decreases |pods|
  {
    rest := [];
    if pods == {} {
      assert st.sandboxes + pods == st.sandboxes;
    } else {
      var x :| x in pods;
      var step := if x in onDemand then ServerCreatesPod(x) else CreatePoolPod(x);
      var more := PodsAppear(Apply(st, step), pods - {x}, onDemand);
      ThenFirst(st, step, more);
      assert st.sandboxes + {x} + (pods - {x}) == st.sandboxes + pods;
      rest := [step] + more;
    }
  }

  lemma {:induction false} SecretsAppear(st: State, secrets: set<Id>) returns (rest: seq<Step>)
    requires st.servers != {}
    ensures Then(st, rest) == st.(secrets := st.secrets + secrets)
    decreases |secrets|
  {
    rest := [];
    if secrets == {} {
      assert st.secrets + secrets == st.secrets;
    } else {
      var x :| x in secrets;
      var more := SecretsAppear(Apply(st, ServerCreatesSecret(x)), secrets - {x});
      ThenFirst(st, ServerCreatesSecret(x), more);
      assert st.secrets + {x} + (secrets - {x}) == st.secrets + secrets;
      rest := [ServerCreatesSecret(x)] + more;
    }
  }

  lemma {:induction false} PodsMarked(st: State, dying: set<Id>) returns (rest: seq<Step>)
    requires dying <= st.sandboxes
    ensures Then(st, rest) == st.(dying := st.dying + dying)
    decreases |dying|
  {
    rest := [];
    if dying == {} {
      assert st.dying + dying == st.dying;
    } else {
      var x :| x in dying;
      var more := PodsMarked(Apply(st, PodMarked(x)), dying - {x});
      ThenFirst(st, PodMarked(x), more);
      assert st.dying + {x} + (dying - {x}) == st.dying + dying;
      rest := [PodMarked(x)] + more;
    }
  }

  lemma ServersAndPodsAppear(st: State, servers: set<Id>, pods: set<Id>, onDemand: set<Id>) returns (rest: seq<Step>)
    requires st.pass == Applying(true) && st.replicas.Some? && st.replicas.value > 0 && servers != {}
    ensures Then(st, rest) == st.(servers := st.servers + servers, sandboxes := st.sandboxes + pods)
  {
    var a := ServersStart(st, servers);
    var b := PodsAppear(Then(st, a), pods, onDemand);
    ThenThen(st, a, b);
    rest := a + b;
  }

  lemma SecretsAndMarksAppear(st: State, secrets: set<Id>, dying: set<Id>) returns (rest: seq<Step>)
    requires st.servers != {} && dying <= st.sandboxes
    ensures Then(st, rest) == st.(secrets := st.secrets + secrets, dying := st.dying + dying)
  {
    var a := SecretsAppear(st, secrets);
    var b := PodsMarked(Then(st, a), dying);
    ThenThen(st, a, b);
    rest := a + b;
  }

  lemma DeletedWhileApplying(n: nat) returns (steps: seq<Step>)
    ensures Exec(steps) == State(true, true, true, Some(Max(n, 1)), {}, {}, {}, {}, Applying(true))
  {
    RunCalls(INITIAL, Begin, AddFinalizer, ApplyDeployment(n), UserDeletes);
    steps := [Begin, AddFinalizer, ApplyDeployment(n), UserDeletes];
  }

  /**
   Any servers, pods, marked or not, of the pool or made by a server, and Secrets can be there when an instance with the
   finalizer is deleted.
   */
  lemma AnyPopulationCanBeDeleted(n: nat, servers: set<Id>, pool: set<Id>, onDemand: set<Id>, dying: set<Id>, secrets: set<Id>)
    returns (steps: seq<Step>)
    requires servers != {} && dying <= pool + onDemand
    ensures Exec(steps) == State(true, true, true, Some(Max(n, 1)), servers, pool + onDemand, dying, secrets, Resting)
  {
    var start := DeletedWhileApplying(n);
    var first := ServersAndPodsAppear(Exec(start), servers, pool + onDemand, onDemand);
    ThenThen(INITIAL, start, first);
    var second := SecretsAndMarksAppear(Exec(start + first), secrets, dying);
    ThenThen(INITIAL, start + first, second);
    ThenOne(INITIAL, start + first + second, EndPass);
    steps := start + first + second + [EndPass];
  }

  /** From every reachable state of a deleted instance its finalizer can still be removed: it never gets stuck. */
  lemma FinalizerCanAlwaysBeRemoved(steps: seq<Step>) returns (rest: seq<Step>)
    requires Exec(steps).deleting && Exec(steps).finalizer
    ensures !Exec(steps + rest).present
  {
    InvThen(INITIAL, steps);
    var more := BothHalves(Apply(Exec(steps), PassFails));
    rest := [PassFails] + more;
    ThenFirst(Exec(steps), PassFails, more);
    ThenThen(INITIAL, steps, rest);
  }
}
