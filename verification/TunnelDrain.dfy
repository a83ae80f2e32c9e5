/**
 Shutdown of hijacked proxy tunnels: `add`, `remove` and `drain` of the tunnel tracker,
 the goroutine that watches the shutdown context, and connections closing at any time.
 The mutex is explicit where a thread holds it across steps.
 */
module TunnelDrain {
  type Conn = nat

  /** What the mutex guards. */
  datatype Tracker = Tracker(conns: set<Conn>, draining: bool)

  function Added(t: Tracker, c: Conn): Tracker {
    if t.draining then t else t.(conns := t.conns + {c})
  }

  function Removed(t: Tracker, c: Conn): Tracker { t.(conns := t.conns - {c}) }

  /** The source's `mitmTracker`; each method is the critical section of the call it is named after. */
  class MitmTracker {
    var conns: set<Conn>
    var draining: bool

    ghost function Value(): Tracker reads this { Tracker(conns, draining) }

    constructor ()
      ensures Value() == Tracker({}, false)
    {
      conns, draining := {}, false;
    }

    /** A connection that arrives while draining is not tracked; the caller closes it after unlocking. */
    method Add(c: Conn) returns (mustClose: bool)
      modifies this
      ensures Value() == Added(old(Value()), c)
      ensures mustClose == old(draining)
    {
      if draining {
        return true;
      }
      conns := conns + {c};
      return false;
    }

    /** Broadcasts exactly when nothing is left. */
    method Remove(c: Conn) returns (broadcast: bool)
      modifies this
      ensures Value() == Removed(old(Value()), c)
      ensures broadcast == (conns == {})
    {
      conns := conns - {c};
      return |conns| == 0;
    }

    /** What `drain` does once its wait is over: take a copy of what is still open. */
    method Leftover() returns (left: seq<Conn>)
      ensures forall c :: c in left <==> c in conns
      ensures |left| == |conns|
    {
      left := [];
      var todo := conns;
      while todo != {}
        invariant todo <= conns
        invariant forall c :: c in left <==> c in conns - todo
        invariant |left| + |todo| == |conns|
        decreases todo
      {
        var c :| c in todo;
        todo := todo - {c};
        left := left + [c];
      }
    }
  }

  datatype Drain =
    | Idle
    | WantsLock
    | Testing
    | FallingAsleep
    | Asleep
    | Woken
    | Closing(left: set<Conn>)
    | Returned

  datatype Watcher = NotStarted | Listening | Holding | Finished

  datatype Holder = Free | ByDrain | ByWatcher

  datatype State = State(
    tracker: Tracker,
    mutex: Holder,
    drain: Drain,
    watcher: Watcher,
    ctxDone: bool,
    arrived: set<Conn>,    // every connection ever passed to add
    refused: set<Conn>,    // adds in flight that saw draining and still have to close
    closed: set<Conn>,
    removing: set<Conn>)   // closed, with the call to remove still to come

  const INITIAL: State := State(Tracker({}, false), Free, Idle, NotStarted, false, {}, {}, {}, {})

  datatype Step =
    | Add(c: Conn)
    | FinishAdd(c: Conn)
    | CloseConn(c: Conn)
    | Remove(c: Conn)
    | CtxEnds
    | WatcherLocks
    | WatcherBroadcasts
    | WatcherLeaves
    | DrainStarts
    | DrainLocks
    | DrainTests
    | DrainSleeps
    | DrainRelocks
    | DrainCloses(c: Conn)
    | DrainReturns

  function Broadcast(d: Drain): Drain { if d.Asleep? then Woken else d }

  /** `trackedConn.Close`: the socket closes, and the first close leads to one call of `remove`. */
  function Close(st: State, c: Conn): State {
    if c in st.closed then st else st.(closed := st.closed + {c}, removing := st.removing + {c})
  }

  /** The loop test of `drain`, made while holding the mutex. */
  predicate KeepWaiting(st: State) { st.tracker.conns != {} && !st.ctxDone }

  function Apply(st: State, step: Step): State {
    match step
    case Add(c) =>
      if !st.mutex.Free? || c in st.arrived then st
      else st.(arrived := st.arrived + {c}, tracker := Added(st.tracker, c),
               refused := if st.tracker.draining then st.refused + {c} else st.refused)
    case FinishAdd(c) => if c !in st.refused then st else Close(st.(refused := st.refused - {c}), c)
    case CloseConn(c) => Close(st, c)
    case Remove(c) =>
      if !st.mutex.Free? || c !in st.removing then st
      else
        var after := Removed(st.tracker, c);
        st.(removing := st.removing - {c}, tracker := after,
            drain := if after.conns == {} then Broadcast(st.drain) else st.drain)
    case CtxEnds => st.(ctxDone := true)
    case WatcherLocks =>
      if st.watcher.Listening? && st.ctxDone && st.mutex.Free? then st.(mutex := ByWatcher, watcher := Holding) else st
    case WatcherBroadcasts =>
      if st.watcher.Holding? then st.(drain := Broadcast(st.drain), mutex := Free, watcher := Finished) else st
    case WatcherLeaves =>
      if st.watcher.Listening? && (st.drain.Closing? || st.drain.Returned?) then st.(watcher := Finished) else st
    case DrainStarts => if st.drain.Idle? then st.(drain := WantsLock, watcher := Listening) else st
    case DrainLocks =>
      if st.drain.WantsLock? && st.mutex.Free?
      then st.(drain := Testing, mutex := ByDrain, tracker := st.tracker.(draining := true)) else st
    case DrainTests =>
      if !st.drain.Testing? then st
      else if KeepWaiting(st) then st.(drain := FallingAsleep)
      else st.(drain := Closing(st.tracker.conns), mutex := Free)
    case DrainSleeps => if st.drain.FallingAsleep? then st.(drain := Asleep, mutex := Free) else st
    case DrainRelocks =>
      if st.drain.Woken? && st.mutex.Free? then st.(drain := Testing, mutex := ByDrain) else st
    case DrainCloses(c) =>
      if st.drain.Closing? && c in st.drain.left then Close(st.(drain := Closing(st.drain.left - {c})), c) else st
    case DrainReturns => if st.drain == Closing({}) then st.(drain := Returned) else st
  }

  function Exec(steps: seq<Step>): State {
    if steps == [] then INITIAL else Apply(Exec(steps[..|steps| - 1]), steps[|steps| - 1])
  }

  ghost predicate Inv(st: State) {
    && st.tracker.conns <= st.arrived && st.refused <= st.arrived && st.removing <= st.closed
    && st.arrived <= st.tracker.conns + st.closed + st.refused
    && (st.refused != {} ==> st.tracker.draining)
    && (st.tracker.draining <==> !st.drain.Idle? && !st.drain.WantsLock?)
    && (st.watcher.NotStarted? <==> st.drain.Idle?)
    && (st.mutex.ByDrain? <==> st.drain.Testing? || st.drain.FallingAsleep?)
    && (st.mutex.ByWatcher? <==> st.watcher.Holding?)
    && (st.watcher.Holding? ==> st.ctxDone)
    && (st.watcher.Finished? ==> st.ctxDone || st.drain.Closing? || st.drain.Returned?)
    && (st.drain.FallingAsleep? || st.drain.Asleep? ==>
          st.tracker.conns != {} && (st.watcher.Listening? || st.watcher.Holding?))
    && (st.drain.Closing? ==> st.tracker.conns <= st.drain.left + st.closed && (st.drain.left != {} ==> st.ctxDone))
    && (st.drain.Returned? ==> st.tracker.conns <= st.closed)
  }

  lemma {:induction false} InvExec(steps: seq<Step>)
    ensures Inv(Exec(steps))
  {
    if steps != [] {
      InvExec(steps[..|steps| - 1]);
      InvStep(Exec(steps[..|steps| - 1]), steps[|steps| - 1]);
    }
  }

  lemma InvStep(st: State, step: Step)
    requires Inv(st)
    ensures Inv(Apply(st, step))
  {
  }

  /** After `drain` has returned every connection ever added is closed, or is being closed by an add in flight. */
  lemma DrainLeavesNothingOpen(steps: seq<Step>, c: Conn)
    requires Exec(steps).drain.Returned? && c in Exec(steps).arrived
    ensures c in Exec(steps).closed || c in Exec(steps).refused
  {
    InvExec(steps);
  }

  /** A tunnel that arrives in time is tracked; one that comes too late is closed by the very call that was to track it. */
  lemma TunnelIsTrackedOrClosed(steps: seq<Step>, c: Conn)
    requires Exec(steps).mutex.Free? && c !in Exec(steps).arrived
    ensures var added := Apply(Exec(steps), Add(c));
            && c in added.arrived
            && if Exec(steps).drain.Idle? || Exec(steps).drain.WantsLock? then c in added.tracker.conns
               else c in added.refused && var done := Apply(added, FinishAdd(c)); c in done.closed && c !in done.refused
  {
    InvExec(steps);
  }

  /** Before the context ends no tunnel is left for `drain` to close. */
  lemma DrainClosesOnlyAfterContextEnds(steps: seq<Step>, c: Conn)
    requires !Exec(steps).ctxDone
    ensures Apply(Exec(steps), DrainCloses(c)) == Exec(steps)
  {
    InvExec(steps);
  }

  /** `drain` sleeps only while its condition to wait holds, or the watcher's broadcast is still to come. */
  lemma NoWakeUpIsMissed(steps: seq<Step>)
    requires Exec(steps).drain.Asleep?
    ensures var st := Exec(steps);
            && st.tracker.conns != {}
            && !st.mutex.ByDrain?
            && (st.ctxDone ==> (st.watcher.Listening? && st.mutex.Free?) || st.watcher.Holding?)
  {
    InvExec(steps);
  }

  /** When the context ends, the watcher's own next steps wake the sleeper, whatever happened before. */
  lemma ContextEndWakesDrain(steps: seq<Step>)
    requires Exec(steps).drain.Asleep? && Exec(steps).ctxDone
    ensures Apply(Apply(Exec(steps), WatcherLocks), WatcherBroadcasts).drain.Woken?
  {
    InvExec(steps);
  }

  /** The last tunnel to close wakes the sleeper in the very step that removes it. */
  lemma LastRemoveWakesDrain(steps: seq<Step>, c: Conn)
    requires Exec(steps).drain.Asleep? && Exec(steps).mutex.Free?
    requires c in Exec(steps).removing && Exec(steps).tracker.conns == {c}
    ensures Apply(Exec(steps), Remove(c)).drain.Woken?
  {
    InvExec(steps);
    assert {c} - {c} == {};
  }

  function WatcherRank(w: Watcher): nat {
    match w case NotStarted => 3 case Listening => 2 case Holding => 1 case Finished => 0
  }

  function DrainRank(d: Drain): nat {
    match d
    case FallingAsleep => 4
    case Asleep => 3
    case WantsLock => 3
    case Woken => 3
    case Testing => 2
    case Closing(_) => 1
    case _ => 0
  }

  /** What the drain or its watcher does next when the context has ended. */
  predicate Helps(st: State, step: Step) {
    if st.watcher.Holding? then step == WatcherBroadcasts else
    match st.drain
    case WantsLock => step == DrainLocks
    case Testing => step == DrainTests
    case FallingAsleep => step == DrainSleeps
    case Asleep => step == WatcherLocks
    case Woken => step == DrainRelocks
    case Closing(left) => if left == {} then step == DrainReturns else step.DrainCloses? && step.c in left
    case _ => false
  }

  function LeftRank(d: Drain): nat { if d.Closing? then |d.left| else 0 }

  lemma HelpingStep(st: State) returns (step: Step)
    requires Inv(st) && st.ctxDone && !st.drain.Idle? && !st.drain.Returned?
    ensures Helps(st, step)
  {
    if st.watcher.Holding? {
      step := WatcherBroadcasts;
    } else {
      match st.drain
      case WantsLock => step := DrainLocks;
      case Testing => step := DrainTests;
      case FallingAsleep => step := DrainSleeps;
      case Asleep => step := WatcherLocks;
      case Woken => step := DrainRelocks;
      case Closing(left) =>
        step := DrainReturns;
        if left != {} {
          var c :| c in left;
          step := DrainCloses(c);
        }
    }
  }

  /** Progress: the watcher moves on, or the drain does, or one connection less is left to close. */
  predicate Nearer(st: State, st': State) {
    || WatcherRank(st'.watcher) < WatcherRank(st.watcher)
    || (st'.watcher == st.watcher && DrainRank(st'.drain) < DrainRank(st.drain))
    || (st'.watcher == st.watcher && DrainRank(st'.drain) == DrainRank(st.drain) && LeftRank(st'.drain) < LeftRank(st.drain))
  }

  lemma ClosingProgress(st: State, step: Step)
    requires st.drain.Closing? && !st.watcher.Holding? && Helps(st, step)
    ensures var st' := Apply(st, step); st'.ctxDone == st.ctxDone && !st'.drain.Idle? && Nearer(st, st')
  {
  }

  lemma WaitingProgress(st: State, step: Step)
    requires Inv(st) && st.ctxDone && !st.drain.Closing? && !st.watcher.Holding? && Helps(st, step)
    ensures var st' := Apply(st, step); st'.ctxDone && !st'.drain.Idle? && Nearer(st, st')
  {
    assert st.mutex.Free? || st.mutex.ByDrain?;
  }

  lemma HelpingProgress(st: State, step: Step)
    requires Inv(st) && st.ctxDone && !st.drain.Idle? && Helps(st, step)
    ensures var st' := Apply(st, step); st'.ctxDone && !st'.drain.Idle? && Nearer(st, st')
  {
    if !st.watcher.Holding? {
      if st.drain.Closing? {
        ClosingProgress(st, step);
      } else {
        WaitingProgress(st, step);
      }
    }
  }

  /** Steps of the drain and of its watcher. */
  predicate Own(step: Step) {
    match step
    case WatcherLocks => true
    case WatcherBroadcasts => true
    case DrainLocks => true
    case DrainTests => true
    case DrainSleeps => true
    case DrainRelocks => true
    case DrainCloses(_) => true
    case DrainReturns => true
    case _ => false
  }

  lemma ExecOne(steps: seq<Step>, step: Step)
    ensures Exec(steps + [step]) == Apply(Exec(steps), step)
  {
    assert (steps + [step])[..|steps|] == steps;
  }

  /**
   Once the context has ended a started `drain` can always run to its return on its own and its
   watcher's steps alone, from every reachable state: no lock, sleep or lost signal holds it up.
   */
  lemma {:induction false} DrainReturnsAfterContextEnds(steps: seq<Step>) returns (rest: seq<Step>)
    requires Exec(steps).ctxDone && !Exec(steps).drain.Idle?
    ensures Exec(steps + rest).drain.Returned?
    ensures forall step :: step in rest ==> Own(step)
    decreases WatcherRank(Exec(steps).watcher), DrainRank(Exec(steps).drain), LeftRank(Exec(steps).drain)
  {
    var st := Exec(steps);
    if st.drain.Returned? {
      rest := [];
      assert steps + rest == steps;
    } else {
      InvExec(steps);
      var step := HelpingStep(st);
      HelpingProgress(st, step);
      ExecOne(steps, step);
      var more := DrainReturnsAfterContextEnds(steps + [step]);
      rest := [step] + more;
      assert steps + [step] + more == steps + rest;
    }
  }

  // ----- Waiting for the tunnels to finish -----

  /** `drain` has been called and the context has not ended. */
  predicate Waiting(st: State) {
    !st.ctxDone && (st.drain.WantsLock? || st.drain.Testing? || st.drain.FallingAsleep? || st.drain.Asleep? || st.drain.Woken?)
  }

  /** Tunnel `c` was closed before it was tracked: no call of `remove` is to come for it. */
  predicate Stuck(st: State, c: Conn) { c in st.tracker.conns && c in st.closed && c !in st.removing }

  predicate NoneStuck(st: State) { forall c <- st.tracker.conns :: !Stuck(st, c) }

  /** A step of the drain or of a tunnel that finishes; the context does not end, and nothing is closed by force. */
  predicate Patient(step: Step) {
    step.CloseConn? || step.Remove? || step.DrainLocks? || step.DrainTests? || step.DrainSleeps? || step.DrainRelocks? || step.DrainReturns?
  }

  /** One tunnel finishes by itself. */
  lemma TunnelFinishes(steps: seq<Step>, c: Conn) returns (rest: seq<Step>)
    requires Waiting(Exec(steps)) && Exec(steps).mutex.Free? && c in Exec(steps).tracker.conns && !Stuck(Exec(steps), c)
    ensures var st, st' := Exec(steps), Exec(steps + rest);
            && Waiting(st') && st'.mutex.Free? && st'.tracker.conns == st.tracker.conns - {c}
            && (NoneStuck(st) ==> NoneStuck(st'))
    ensures forall step :: step in rest ==> Patient(step)
  {
    ExecOne(steps, CloseConn(c));
    ExecOne(steps + [CloseConn(c)], Remove(c));
    rest := [CloseConn(c), Remove(c)];
    assert steps + rest == steps + [CloseConn(c)] + [Remove(c)];
  }

  lemma {:induction false} TunnelsFinish(steps: seq<Step>) returns (rest: seq<Step>)
    requires Waiting(Exec(steps)) && Exec(steps).mutex.Free? && NoneStuck(Exec(steps))
    ensures Waiting(Exec(steps + rest)) && Exec(steps + rest).mutex.Free? && Exec(steps + rest).tracker.conns == {}
    ensures forall step :: step in rest ==> Patient(step)
    decreases Exec(steps).tracker.conns
  {
    rest := [];
    if Exec(steps).tracker.conns == {} {
      assert steps + rest == steps;
    } else {
      var c :| c in Exec(steps).tracker.conns;
      var first := TunnelFinishes(steps, c);
      var more := TunnelsFinish(steps + first);
      rest := first + more;
      assert steps + first + more == steps + rest;
    }
  }

  /** The drain lets go of the mutex, by falling asleep if it has to wait; or it is done. */
  lemma DrainLetsGo(steps: seq<Step>) returns (rest: seq<Step>)
    requires Waiting(Exec(steps))
    ensures var st, st' := Exec(steps), Exec(steps + rest);
            && st'.mutex.Free? && (Waiting(st') || st'.drain == Closing({}))
            && st'.tracker.conns == st.tracker.conns && st'.closed == st.closed && st'.removing == st.removing
    ensures forall step :: step in rest ==> Patient(step)
  {
    InvExec(steps);
    rest := [];
    assert steps + rest == steps;
    if Exec(steps).drain.Testing? {
      ExecOne(steps, DrainTests);
      ExecOne(steps + [DrainTests], DrainSleeps);
      rest := [DrainTests, DrainSleeps];
      assert steps + rest == steps + [DrainTests] + [DrainSleeps];
    } else if Exec(steps).drain.FallingAsleep? {
      ExecOne(steps, DrainSleeps);
      rest := [DrainSleeps];
    }
  }

  /** With nothing tracked any more the drain returns. */
  lemma DrainEnds(steps: seq<Step>) returns (rest: seq<Step>)
    requires Waiting(Exec(steps)) && Exec(steps).mutex.Free? && Exec(steps).tracker.conns == {}
    ensures Exec(steps + rest).drain.Returned?
    ensures forall step :: step in rest ==> Patient(step)
  {
    InvExec(steps);
    var first := if Exec(steps).drain.WantsLock? then DrainLocks else DrainRelocks;
    ExecOne(steps, first);
    ExecOne(steps + [first], DrainTests);
    ExecOne(steps + [first] + [DrainTests], DrainReturns);
    rest := [first, DrainTests, DrainReturns];
    assert steps + rest == steps + [first] + [DrainTests] + [DrainReturns];
  }

  /** From every reachable state in which `drain` waits, the tunnels finishing by themselves let it return. */
  lemma DrainWaitsForTheTunnels(steps: seq<Step>) returns (rest: seq<Step>)
    requires Waiting(Exec(steps)) && NoneStuck(Exec(steps))
    ensures Exec(steps + rest).drain.Returned?
    ensures forall step :: step in rest ==> Patient(step)
  {
    var first := DrainLetsGo(steps);
    rest := first;
    if Waiting(Exec(steps + first)) {
      var second := TunnelsFinish(steps + first);
      var third := DrainEnds(steps + first + second);
      rest := first + second + third;
      assert steps + first + second + third == steps + rest;
    } else {
      ExecOne(steps + first, DrainReturns);
      rest := first + [DrainReturns];
      assert steps + first + [DrainReturns] == steps + rest;
    }
  }

  lemma StuckStep(st: State, step: Step, c: Conn)
    requires Inv(st) && Waiting(st) && Stuck(st, c) && !step.CtxEnds?
    ensures Waiting(Apply(st, step)) && Stuck(Apply(st, step), c)
  {
  }

  /** A tunnel closed before it was tracked holds the drain up until the context ends. */
  lemma {:induction false} StuckTunnelHoldsTheDrain(steps: seq<Step>, later: seq<Step>, c: Conn)
    requires Waiting(Exec(steps)) && Stuck(Exec(steps), c) && CtxEnds !in later
    ensures Waiting(Exec(steps + later)) && Stuck(Exec(steps + later), c)
  {
    if later == [] {
      assert steps + later == steps;
    } else {
      var n := |later| - 1;
      StuckTunnelHoldsTheDrain(steps, later[..n], c);
      assert steps + later == steps + later[..n] + [later[n]];
      ExecOne(steps + later[..n], later[n]);
      InvExec(steps + later[..n]);
      StuckStep(Exec(steps + later[..n]), later[n], c);
    }
  }
}
