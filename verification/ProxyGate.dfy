/**
 The fail-closed gate in front of claiming or creating a sandbox: a short-lived cache of
 the last proxy lookup, a single flight shared by concurrent callers, and the order in
 which `GetOrCreatePod` consults them. Every lock-protected section is one step: checking the
 cache, storing a result in it, and handing a flight's result to its callers.
 */
module ProxyGate {
  import opened Prelude

  const TTL := 5 * SECOND

  // ----- One lookup -----

  datatype Endpoint = Endpoint(addresses: nat, ready: Option<bool>)

  /** An endpoint can take traffic when it has an address and is not known to be unready. */
  predicate Serving(ep: Endpoint) { 0 < ep.addresses && ep.ready != Some(false) }

  /** `EndpointSlicesReady`. */
  method EndpointSlicesReady(slices: seq<seq<Endpoint>>) returns (r: bool)
    ensures r <==> exists i, j :: 0 <= i < |slices| && 0 <= j < |slices[i]| && Serving(slices[i][j])
  {
    for i := 0 to |slices|
      invariant forall k, j :: 0 <= k < i && 0 <= j < |slices[k]| ==> !Serving(slices[k][j])
    {
      for j := 0 to |slices[i]|
        invariant forall l :: 0 <= l < j ==> !Serving(slices[i][l])
      {
        var ep := slices[i][j];
        if ep.addresses == 0 {
          continue;
        }
        if ep.ready.None? || ep.ready.value {
          return true;
        }
      }
    }
    return false;
  }

  datatype GateResult = Nil | Cancelled | Failure

  /** What the two API calls of one lookup returned; `None` is a successful call. */
  datatype Observation = Observation(
    listError: Option<GateResult>, endpointReady: bool, policyError: Option<GateResult>, egress: bool)

  predicate WellFormed(o: Observation) { o.listError != Some(Nil) && o.policyError != Some(Nil) }

  /** `lookupProxyReady`. */
  function Outcome(o: Observation): GateResult {
    if o.listError.Some? then o.listError.value
    else if !o.endpointReady then Failure
    else if o.policyError.Some? then o.policyError.value
    else if !o.egress then Failure
    else Nil
  }

  // ----- The gate, shared by all callers -----

  datatype Lookup = Lookup(seen: Observation, flight: nat, finishedAt: nat)

  datatype Cached = Cached(result: GateResult, storedAt: nat, lookup: nat)

  /** Why a caller was let through: a cache check, or a flight handing out its own lookup. */
  datatype Grounds =
    | FromCache(entry: Cached, checkedAt: nat)
    | FromFlight(lookup: nat, flight: nat, deliveredAt: nat)

  datatype Verdict = Verdict(result: GateResult, grounds: Grounds)

  datatype Stage =
    | Entered
    | Looking
    | Looked(lookup: nat)                    // the result is still to be stored
    | Stored(lookup: nat)                    // the result is still to be handed out
    | Hit(entry: Cached, checkedAt: nat)     // the flight found the cache filled

  datatype Flight = Flight(id: nat, stage: Stage)

  datatype Caller =
    | Arrived
    | Joining
    | Waiting(flight: nat)
    | Received(verdict: Verdict)
    | Refused
    | Admitted(grounds: Grounds)
    | Acted(grounds: Grounds)   // claimed or created a sandbox

  datatype State = State(
    clock: nat,
    cache: Option<Cached>,
    flight: Option<Flight>,
    flights: nat,
    running: nat,
    lookups: seq<Lookup>,
    callers: map<nat, Caller>)

  const INITIAL: State := State(0, None, None, 0, 0, [], map[])

  datatype Step =
    | Tick(d: nat)
    | Arrive(c: nat)
    | CheckCache(c: nat)
    | Join(c: nat)
    | FlightCheck
    | LookupReturns(seen: Observation)
    | StoreResult
    | FlightReturns
    | Take(c: nat, ctxEnded: bool)
    | CtxEnds(c: nat)
    | Act(c: nat)

  /** An entry is served strictly less than one TTL after it was stored. */
  predicate StillServed(storedAt: nat, now: nat) { now - storedAt < TTL }

  function CacheCheck(st: State): Option<Cached> {
    if st.cache.Some? && StillServed(st.cache.value.storedAt, st.clock) then st.cache else None
  }

  /** The mutex-guarded fields; each method is one critical section. */
  class GateCache {
    var isSet: bool
    var at: nat
    var err: GateResult

    ghost function Value(): Option<(GateResult, nat)> reads this { if isSet then Some((err, at)) else None }

    constructor ()
      ensures Value() == None
    {
      isSet, at, err := false, 0, Nil;
    }

    /** `cachedProxyGate`. */
    method CachedProxyGate(now: nat) returns (hit: Option<GateResult>)
      ensures hit.Some? <==> Value().Some? && StillServed(Value().value.1, now)
      ensures hit.Some? ==> hit.value == Value().value.0
    {
      if !isSet || now - at >= TTL {
        return None;
      }
      return Some(err);
    }

    /** `storeProxyGate`. */
    method StoreProxyGate(result: GateResult, now: nat)
      modifies this
      ensures Value() == Some((result, now))
    {
      isSet, at, err := true, now, result;
    }
  }

  predicate Cacheable(r: GateResult) { !r.Cancelled? }

  function Judge(v: Verdict): Caller { if v.result.Nil? then Admitted(v.grounds) else Refused }

  function SetCaller(st: State, c: nat, caller: Caller): State { st.(callers := st.callers[c := caller]) }

  /** The flight is over: everyone waiting on it receives its verdict. */
  function Deliver(st: State, v: Verdict): State
    requires st.flight.Some?
  {
    var id := st.flight.value.id;
    st.(flight := None,
        callers := map c | c in st.callers :: if st.callers[c] == Waiting(id) then Received(v) else st.callers[c])
  }

  function SetStage(st: State, stage: Stage): State
    requires st.flight.Some?
  {
    st.(flight := Some(st.flight.value.(stage := stage)))
  }

  predicate AtStage(st: State, step: Step) {
    match step
    case CheckCache(c) => c in st.callers && st.callers[c].Arrived?
    case Join(c) => c in st.callers && st.callers[c].Joining?
    case Take(c, _) => c in st.callers && st.callers[c].Received?
    case CtxEnds(c) => c in st.callers && (st.callers[c].Waiting? || st.callers[c].Received?)
    case Act(c) => c in st.callers && st.callers[c].Admitted?
    case Arrive(c) => c !in st.callers
    case FlightCheck => st.flight.Some? && st.flight.value.stage.Entered?
    case LookupReturns(seen) => st.flight.Some? && st.flight.value.stage.Looking? && WellFormed(seen) && 0 < st.running
    case StoreResult =>
      st.flight.Some? && st.flight.value.stage.Looked? && st.flight.value.stage.lookup < |st.lookups|
    case FlightReturns =>
      && st.flight.Some?
      && (st.flight.value.stage.Hit? || (st.flight.value.stage.Stored? && st.flight.value.stage.lookup < |st.lookups|))
    case Tick(_) => true
  }

  function Apply(st: State, step: Step): State {
    if !AtStage(st, step) then st else
    match step
    case Tick(d) => st.(clock := st.clock + d)
    case Arrive(c) => SetCaller(st, c, Arrived)
    case CheckCache(c) =>
      var hit := CacheCheck(st);
      SetCaller(st, c, if hit.None? then Joining
                       else Judge(Verdict(hit.value.result, FromCache(hit.value, st.clock))))
    case Join(c) =>
      if st.flight.Some? then SetCaller(st, c, Waiting(st.flight.value.id))
      else SetCaller(st.(flight := Some(Flight(st.flights, Entered)), flights := st.flights + 1), c, Waiting(st.flights))
    case FlightCheck =>
      var hit := CacheCheck(st);
      if hit.Some? then SetStage(st, Hit(hit.value, st.clock))
      else SetStage(st, Looking).(running := st.running + 1)
    case LookupReturns(seen) =>
      SetStage(st, Looked(|st.lookups|)).(
        lookups := st.lookups + [Lookup(seen, st.flight.value.id, st.clock)], running := st.running - 1)
    case StoreResult =>
      var k := st.flight.value.stage.lookup;
      var result := Outcome(st.lookups[k].seen);
      SetStage(if Cacheable(result) then st.(cache := Some(Cached(result, st.clock, k))) else st, Stored(k))
    case FlightReturns =>
      var Flight(id, stage) := st.flight.value;
      Deliver(st, if stage.Hit? then Verdict(stage.entry.result, FromCache(stage.entry, stage.checkedAt))
                  else Verdict(Outcome(st.lookups[stage.lookup].seen), FromFlight(stage.lookup, id, st.clock)))
    case Take(c, ctxEnded) => SetCaller(st, c, if ctxEnded then Refused else Judge(st.callers[c].verdict))
    case CtxEnds(c) => SetCaller(st, c, Refused)
    case Act(c) => SetCaller(st, c, Acted(st.callers[c].grounds))
  }

  function Exec(steps: seq<Step>): State {
    if steps == [] then INITIAL else Apply(Exec(steps[..|steps| - 1]), steps[|steps| - 1])
  }

  /** A caller that waits can leave at any time, and is then refused; nobody else notices. */
  lemma CallerMayLeave(steps: seq<Step>, c: nat)
    requires c in Exec(steps).callers && (Exec(steps).callers[c].Waiting? || Exec(steps).callers[c].Received?)
    ensures Exec(steps + [CtxEnds(c)]) == Exec(steps).(callers := Exec(steps).callers[c := Refused])
  {
    assert (steps + [CtxEnds(c)])[..|steps|] == steps;
  }

  // ----- What every run keeps -----

  /** A cache entry is the outcome of a finished lookup, stored when that lookup was over. */
  predicate EntryOk(st: State, e: Cached) {
    && e.lookup < |st.lookups| && e.result == Outcome(st.lookups[e.lookup].seen) && Cacheable(e.result)
    && st.lookups[e.lookup].finishedAt <= e.storedAt <= st.clock
  }

  predicate GroundsOk(st: State, result: GateResult, g: Grounds) {
    match g
    case FromCache(e, checkedAt) =>
      EntryOk(st, e) && result == e.result && e.storedAt <= checkedAt < e.storedAt + TTL && checkedAt <= st.clock
    case FromFlight(k, flight, deliveredAt) =>
      && k < |st.lookups| && result == Outcome(st.lookups[k].seen) && st.lookups[k].flight == flight
      && st.lookups[k].finishedAt <= deliveredAt <= st.clock
  }

  predicate CallerOk(st: State, caller: Caller) {
    match caller
    case Waiting(id) => st.flight.Some? && st.flight.value.id == id
    case Received(v) => GroundsOk(st, v.result, v.grounds)
    case Admitted(g) => GroundsOk(st, Nil, g)
    case Acted(g) => GroundsOk(st, Nil, g)
    case _ => true
  }

  predicate StageOk(st: State, f: Flight) {
    match f.stage
    case Looked(k) => k < |st.lookups| && st.lookups[k].flight == f.id
    case Stored(k) => k < |st.lookups| && st.lookups[k].flight == f.id
    case Hit(e, checkedAt) => GroundsOk(st, e.result, FromCache(e, checkedAt))
    case _ => true
  }

  ghost predicate Inv(st: State) {
    && (st.cache.Some? ==> EntryOk(st, st.cache.value))
    && (st.flight.Some? ==> StageOk(st, st.flight.value))
    && (forall k :: 0 <= k < |st.lookups| ==> WellFormed(st.lookups[k].seen) && st.lookups[k].finishedAt <= st.clock)
    && st.running == (if st.flight.Some? && st.flight.value.stage.Looking? then 1 else 0)
    && (forall c :: c in st.callers ==> CallerOk(st, st.callers[c]))
  }

  /** Time passing, lookups being added and flights moving on leave every caller's grounds standing. */
  lemma CallersKeep(st: State, st': State)
    requires Inv(st)
    requires st'.callers == st.callers && st.lookups <= st'.lookups && st.clock <= st'.clock
    requires st.flight.Some? ==> st'.flight.Some? && st'.flight.value.id == st.flight.value.id
    ensures forall c :: c in st'.callers ==> CallerOk(st', st'.callers[c])
  {
    forall c | c in st'.callers ensures CallerOk(st', st'.callers[c]) {
      assert CallerOk(st, st.callers[c]);
    }
  }

  lemma InvDeliver(st: State, v: Verdict)
    requires Inv(st) && st.flight.Some? && !st.flight.value.stage.Looking? && GroundsOk(st, v.result, v.grounds)
    ensures Inv(Deliver(st, v))
  {
    var st' := Deliver(st, v);
    forall c | c in st'.callers ensures CallerOk(st', st'.callers[c]) {
      assert CallerOk(st, st.callers[c]);
    }
  }

  lemma InvSetCaller(st: State, c: nat, caller: Caller)
    requires Inv(st) && CallerOk(st, caller)
    ensures Inv(SetCaller(st, c, caller))
  {
    var st' := SetCaller(st, c, caller);
    forall d | d in st'.callers ensures CallerOk(st', st'.callers[d]) {
      assert d != c ==> CallerOk(st, st.callers[d]);
    }
  }

  predicate OfFlight(step: Step) {
    step.FlightCheck? || step.LookupReturns? || step.StoreResult? || step.FlightReturns? || step.Tick?
  }

  lemma InvFlight(st: State, step: Step)
    requires Inv(st) && OfFlight(step) && AtStage(st, step)
    ensures Inv(Apply(st, step))
  {
    if step.FlightReturns? {
      var Flight(id, stage) := st.flight.value;
      InvDeliver(st, if stage.Hit? then Verdict(stage.entry.result, FromCache(stage.entry, stage.checkedAt))
                     else Verdict(Outcome(st.lookups[stage.lookup].seen), FromFlight(stage.lookup, id, st.clock)));
    } else {
      CallersKeep(st, Apply(st, step));
    }
  }

  lemma InvCallers(st: State, step: Step)
    requires Inv(st) && !OfFlight(step) && AtStage(st, step)
    ensures Inv(Apply(st, step))
  {
    var c := step.c;
    if step.Join? {
      if st.flight.None? {
        var st1 := st.(flight := Some(Flight(st.flights, Entered)), flights := st.flights + 1);
        CallersKeep(st, st1);
        InvSetCaller(st1, c, Waiting(st.flights));
      } else {
        InvSetCaller(st, c, Waiting(st.flight.value.id));
      }
    } else {
      assert c in st.callers ==> CallerOk(st, st.callers[c]);
      InvSetCaller(st, c, Apply(st, step).callers[c]);
    }
  }

  lemma {:induction false} InvExec(steps: seq<Step>)
    ensures Inv(Exec(steps))
  {
    if steps != [] {
      var st, step := Exec(steps[..|steps| - 1]), steps[|steps| - 1];
      InvExec(steps[..|steps| - 1]);
      if AtStage(st, step) {
        if OfFlight(step) {
          InvFlight(st, step);
        } else {
          InvCallers(st, step);
        }
      }
    }
  }

  // ----- What holds of every run -----

  function LookupOf(g: Grounds): nat {
    match g case FromCache(e, _) => e.lookup case FromFlight(k, _, _) => k
  }

  /** When the answer was handed out: at the cache check, or when the flight returned. */
  function HandedOutAt(g: Grounds): nat {
    match g case FromCache(_, checkedAt) => checkedAt case FromFlight(_, _, deliveredAt) => deliveredAt
  }

  ghost predicate LetIn(st: State, c: nat) {
    c in st.callers && (st.callers[c].Admitted? || st.callers[c].Acted?)
  }

  /** How old the lookup behind an admission was when the answer was handed out. */
  ghost function Age(st: State, g: Grounds): int
    requires LookupOf(g) < |st.lookups|
  {
    HandedOutAt(g) - st.lookups[LookupOf(g)].finishedAt
  }

  /**
   Whoever claims or creates a sandbox was let in on a finished lookup that saw a ready endpoint and the
   egress policy. Out of the cache that lookup was younger than one TTL plus the time its store had
   taken; from a flight it was the flight's own, as old as the flight took to hand it out.
   */
  lemma NobodyActsWithoutAFreshLookup(steps: seq<Step>, c: nat)
    requires LetIn(Exec(steps), c)
    ensures var st := Exec(steps);
            var g := st.callers[c].grounds;
            && LookupOf(g) < |st.lookups|
            && var l := st.lookups[LookupOf(g)];
               && l.seen == Observation(None, true, None, true)
               && match g
                  case FromCache(e, _) =>
                    e.result.Nil? && l.finishedAt <= e.storedAt && 0 <= Age(st, g) < TTL + (e.storedAt - l.finishedAt)
                  case FromFlight(_, flight, deliveredAt) =>
                    l.flight == flight && 0 <= Age(st, g) == deliveredAt - l.finishedAt
  {
    InvExec(steps);
    assert CallerOk(Exec(steps), Exec(steps).callers[c]);
  }

  /** A cancelled lookup is never served from the cache, and at most one lookup runs at a time. */
  lemma CacheHoldsNoCancellation(steps: seq<Step>)
    ensures Exec(steps).cache.Some? ==> !Exec(steps).cache.value.result.Cancelled?
    ensures Exec(steps).running <= 1
  {
    InvExec(steps);
  }

  /** A waiting caller waits on the flight in progress: no flight ends without answering everyone it carries. */
  lemma NoWaiterIsStranded(steps: seq<Step>, c: nat)
    requires c in Exec(steps).callers && Exec(steps).callers[c].Waiting?
    ensures Exec(steps).flight.Some? && Exec(steps).flight.value.id == Exec(steps).callers[c].flight
  {
    InvExec(steps);
    assert CallerOk(Exec(steps), Exec(steps).callers[c]);
  }

  // ----- When an admission can come a whole TTL after its lookup -----

  /** The caller was let in on a lookup that was over one TTL or more before. */
  ghost predicate Late(st: State, c: nat) {
    LetIn(st, c) && LookupOf(st.callers[c].grounds) < |st.lookups| && Age(st, st.callers[c].grounds) >= TTL
  }

  /** The store came in a later clock reading than the end of the lookup. */
  ghost predicate StoreDelayed(st: State, e: Cached) {
    e.lookup < |st.lookups| && st.lookups[e.lookup].finishedAt < e.storedAt
  }

  /** Some continuation lets a caller in late on cache entry `e`. */
  ghost predicate CanBeLateOn(steps: seq<Step>, e: Cached) {
    exists later, c :: LateOn(Exec(steps + later), c, e)
  }

  ghost predicate LateOn(st: State, c: nat, e: Cached) {
    Late(st, c) && st.callers[c].grounds.FromCache? && st.callers[c].grounds.entry == e
  }

  lemma Extend(steps: seq<Step>, step: Step) returns (longer: seq<Step>)
    ensures longer == steps + [step] && Exec(longer) == Apply(Exec(steps), step)
  {
    longer := steps + [step];
    assert longer[..|longer| - 1] == steps;
  }

  /** Finished lookups stay in the record. */
  lemma LookupsStay(st: State, step: Step)
    ensures st.lookups <= Apply(st, step).lookups
  {
  }

  lemma {:induction false} LookupsGrow(steps: seq<Step>, later: seq<Step>)
    ensures Exec(steps).lookups <= Exec(steps + later).lookups
  {
    if later == [] {
      assert steps + later == steps;
    } else {
      var front := later[..|later| - 1];
      LookupsGrow(steps, front);
      assert (steps + later)[..|steps + later| - 1] == steps + front;
      LookupsStay(Exec(steps + front), later[|later| - 1]);
    }
  }

  lemma {:induction false} FreshCaller(used: set<nat>) returns (c: nat)
    ensures forall u :: u in used ==> u < c
  {
    if used == {} {
      c := 0;
    } else {
      var u :| u in used;
      var d := FreshCaller(used - {u});
      c := Max(u + 1, d);
      assert forall v :: v in used ==> v == u || v in used - {u};
    }
  }

  /** From a state whose cache still serves `e`, a new caller can be let in on `e` at the last moment. */
  lemma LastMoment(steps: seq<Step>, e: Cached) returns (later: seq<Step>, c: nat)
    requires Exec(steps).cache == Some(e) && e.result.Nil? && e.storedAt <= Exec(steps).clock < e.storedAt + TTL
    ensures var end := Exec(steps + later);
            c in end.callers && end.callers[c] == Admitted(FromCache(e, e.storedAt + TTL - 1))
            && end.lookups == Exec(steps).lookups
  {
    var st := Exec(steps);
    c := FreshCaller(st.callers.Keys);
    assert c !in st.callers;
    var wait := e.storedAt + TTL - 1 - st.clock;
    var waited := Extend(steps, Tick(wait));
    var arrived := Extend(waited, Arrive(c));
    assert CacheCheck(Exec(arrived)) == Some(e);
    var checked := Extend(arrived, CheckCache(c));
    later := [Tick(wait), Arrive(c), CheckCache(c)];
    assert steps + later == checked;
  }

  /**
   From every reachable state whose cache still serves a positive entry: some caller can be let in on
   it a whole TTL after its lookup if and only if its store was delayed.
   */
  lemma CanBeLateIffStoreDelayed(steps: seq<Step>, e: Cached)
    requires Exec(steps).cache == Some(e) && e.result.Nil? && StillServed(e.storedAt, Exec(steps).clock)
    ensures CanBeLateOn(steps, e) <==> StoreDelayed(Exec(steps), e)
  {
    InvExec(steps);
    if later, c :| LateOn(Exec(steps + later), c, e) {
      NobodyActsWithoutAFreshLookup(steps + later, c);
      LookupsGrow(steps, later);
    }
    if StoreDelayed(Exec(steps), e) {
      var later, c := LastMoment(steps, e);
      assert LateOn(Exec(steps + later), c, e);
    }
  }

  /** The flight has its lookup, positive, and caller `c` waits for it. */
  ghost predicate AboutToAnswer(st: State, c: nat, k: nat) {
    && st.flight.Some? && (st.flight.value.stage == Looked(k) || st.flight.value.stage == Stored(k))
    && k < |st.lookups| && Outcome(st.lookups[k].seen).Nil?
    && c in st.callers && st.callers[c] == Waiting(st.flight.value.id)
  }

  /** The flight stores its result if it has not yet, hands it out after `wait`, and `c` takes it. */
  lemma AnswerAfter(steps: seq<Step>, c: nat, k: nat, wait: nat) returns (later: seq<Step>)
    requires AboutToAnswer(Exec(steps), c, k)
    ensures var st, end := Exec(steps), Exec(steps + later);
            && c in end.callers && end.callers[c] == Admitted(FromFlight(k, st.flight.value.id, st.clock + wait))
            && end.lookups == st.lookups
  {
    var run := Extend(steps, StoreResult);
    run := Extend(run, Tick(wait));
    run := Extend(run, FlightReturns);
    run := Extend(run, Take(c, false));
    later := [StoreResult, Tick(wait), FlightReturns, Take(c, false)];
    assert steps + later == run;
  }

  /**
   A flight has no limit of its own: whatever age of one TTL or more is asked for, from every reachable
   state in which a positive flight is about to answer some continuation hands its lookup out at that
   age, or now if it is older already. Handed out at once it is late only if it is that old already.
   */
  lemma FlightAnswersAtAnyAge(steps: seq<Step>, c: nat, k: nat, age: nat) returns (later: seq<Step>)
    requires AboutToAnswer(Exec(steps), c, k) && TTL <= age
    ensures var st, end := Exec(steps), Exec(steps + later);
            Late(end, c) && Age(end, end.callers[c].grounds) == Max(age, st.clock - st.lookups[k].finishedAt)
  {
    InvExec(steps);
    var st := Exec(steps);
    later := AnswerAfter(steps, c, k, Max(age - (st.clock - st.lookups[k].finishedAt), 0));
  }

  /** A first caller's flight has started its lookup. */
  lemma FlightLooking() returns (steps: seq<Step>)
    ensures Exec(steps) == State(0, None, Some(Flight(0, Looking)), 1, 1, [], map[1 := Waiting(0)])
  {
    steps := Extend([], Arrive(1));
    steps := Extend(steps, CheckCache(1));
    steps := Extend(steps, Join(1));
    steps := Extend(steps, FlightCheck);
  }

  /** Every delay of the store can happen: a flight about to store what it looked up `delay` ago, and the same just after. */
  lemma EveryStoreDelayHappens(delay: nat) returns (before: seq<Step>, after: seq<Step>)
    ensures AboutToAnswer(Exec(before), 1, 0)
    ensures Exec(before).clock == Exec(before).lookups[0].finishedAt + delay
    ensures Exec(after).cache == Some(Cached(Nil, delay, 0)) && Exec(after).clock == delay
    ensures 0 < delay ==> StoreDelayed(Exec(after), Cached(Nil, delay, 0))
  {
    before := FlightLooking();
    before := Extend(before, LookupReturns(Observation(None, true, None, true)));
    before := Extend(before, Tick(delay));
    after := Extend(before, StoreResult);
  }
}
