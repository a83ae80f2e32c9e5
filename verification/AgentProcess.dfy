/**
 One sandbox agent process: a token delivered at most once, and any number of
 concurrent `/exec` and `/assign` requests. `/exec` reads "assigned" and "token" in
 two separate critical sections, so each is a step of its own here.
 */
module AgentProcess {
  import opened Prelude

  /** What the mutex guards. */
  datatype Agent = Agent(taken: bool, token: string)

  function NewAgent(token: string): Agent { Agent(token != "", token) }

  function AfterAssign(agent: Agent, token: string): Agent {
    if agent.taken then agent else Agent(true, token)
  }

  /** The source's `AgentState`; each method is one critical section. */
  class AgentState {
    var taken: bool
    var token: string

    ghost function Value(): Agent reads this { Agent(taken, token) }

    constructor (token: string)
      ensures Value() == NewAgent(token)
    {
      this.taken := token != "";
      this.token := token;
    }

    method IsAssigned() returns (r: bool)
      ensures r == Value().taken
    {
      r := taken;
    }

    method GetToken() returns (r: string)
      ensures r == Value().token
    {
      r := token;
    }

    /** Accepted exactly when nobody was assigned before; a refused call changes nothing. */
    method Assign(token: string) returns (accepted: bool)
      modifies this
      ensures accepted == !old(Value()).taken
      ensures Value() == AfterAssign(old(Value()), token)
    {
      if taken {
        return false;
      }
      this.token := token;
      taken := true;
      return true;
    }
  }

  const BEARER := "Bearer "

  /** The bearer token of an Authorization header, "" being a missing header. */
  function BearerToken(auth: string): Option<string> {
    if auth != "" && BEARER <= auth then Some(auth[|BEARER|..]) else None
  }

  datatype Body = Malformed | Command(text: string)

  datatype Stage = Arrived | SeenAssigned | Authorized(token: string) | Done(status: nat)

  datatype Request = Request(auth: string, body: Body, stage: Stage)

  /** A command handed to bash, with the token its request presented. */
  datatype Execution = Execution(token: string, command: string)

  datatype State = State(agent: Agent, requests: map<nat, Request>, ran: seq<Execution>, delivered: seq<string>)

  datatype Step =
    | Arrive(id: nat, auth: string, body: Body)
    | ReadAssigned(id: nat)
    | ReadToken(id: nat)
    | Run(id: nat, bashFailed: bool)
    | AssignCall(token: Option<string>)

  function Initial(token: string): State { State(NewAgent(token), map[], [], []) }

  function MoveTo(st: State, id: nat, stage: Stage): State
    requires id in st.requests
  {
    st.(requests := st.requests[id := st.requests[id].(stage := stage)])
  }

  /** `/assign`: a malformed body or an empty token is refused before the state is looked at. */
  function AssignStatus(st: State, token: Option<string>): nat {
    if token.None? || token.value == "" then 400 else if st.agent.taken then 409 else 200
  }

  function Apply(st: State, step: Step): State {
    match step
    case Arrive(id, auth, body) =>
      if id in st.requests then st else st.(requests := st.requests[id := Request(auth, body, Arrived)])
    case ReadAssigned(id) =>
      if id !in st.requests || !st.requests[id].stage.Arrived? then st
      else MoveTo(st, id, if st.agent.taken then SeenAssigned else Done(503))
    case ReadToken(id) =>
      if id !in st.requests || !st.requests[id].stage.SeenAssigned? then st
      else
        var provided := BearerToken(st.requests[id].auth);
        MoveTo(st, id, if provided == Some(st.agent.token) then Authorized(provided.value) else Done(401))
    case Run(id, bashFailed) =>
      if id !in st.requests || !st.requests[id].stage.Authorized? then st
      else
        var Request(_, body, stage) := st.requests[id];
        if body.Malformed? || body.text == "" then MoveTo(st, id, Done(400))
        else
          MoveTo(st, id, Done(if bashFailed then 500 else 200)).(
            ran := st.ran + [Execution(stage.token, body.text)])
    case AssignCall(token) =>
      if AssignStatus(st, token) != 200 then st
      else st.(agent := AfterAssign(st.agent, token.value), delivered := st.delivered + [token.value])
  }

  function Exec(token: string, steps: seq<Step>): State {
    if steps == [] then Initial(token) else Apply(Exec(token, steps[..|steps| - 1]), steps[|steps| - 1])
  }

  /** The token the process was started with, or else the one token delivered to it. */
  ghost predicate Inv(token: string, st: State) {
    && (st.agent.taken <==> st.agent.token != "")
    && st.delivered == (if token == "" && st.agent.taken then [st.agent.token] else [])
    && (token != "" ==> st.agent.token == token)
    && (forall id :: id in st.requests ==>
          match st.requests[id].stage
          case SeenAssigned => st.agent.taken
          case Authorized(t) => st.agent.taken && t == st.agent.token
          case _ => true)
    && (st.ran != [] ==> st.agent.taken)
    && (forall i :: 0 <= i < |st.ran| ==> st.ran[i].token == st.agent.token)
  }

  lemma {:induction false} InvExec(token: string, steps: seq<Step>)
    ensures Inv(token, Exec(token, steps))
  {
    if steps != [] {
      InvExec(token, steps[..|steps| - 1]);
    }
  }

  /** All commands one process executes carry one and the same non-empty token, the only one it was ever given. */
  lemma OneTokenPerProcess(token: string, steps: seq<Step>, i: nat)
    requires i < |Exec(token, steps).ran|
    ensures var st := Exec(token, steps);
            && st.ran[i].token != ""
            && st.ran[i].token == st.ran[0].token
            && (if token != "" then st.ran[i].token == token else st.delivered == [st.ran[i].token])
  {
    InvExec(token, steps);
  }

  /** At most one `/assign` is ever accepted, and none by a process started with a token. */
  lemma AssignedAtMostOnce(token: string, steps: seq<Step>)
    ensures |Exec(token, steps).delivered| <= if token == "" then 1 else 0
  {
    InvExec(token, steps);
  }

  /** What each `/assign` is answered: 200 exactly for the first usable token of a process started without one. */
  lemma AssignAnswered(token: string, steps: seq<Step>, given: Option<string>)
    ensures var st, st' := Exec(token, steps), Exec(token, steps + [AssignCall(given)]);
            && AssignStatus(st, given) == (if given == None || given == Some("") then 400
                                           else if token == "" && st.delivered == [] then 200 else 409)
            && if AssignStatus(st, given) == 200 then st'.agent == Agent(true, given.value) && st'.delivered == [given.value]
               else st' == st
  {
    InvExec(token, steps);
    assert (steps + [AssignCall(given)])[..|steps|] == steps;
  }

  /** What a request served in one go is answered, and whether its command is executed. */
  lemma RequestAnswered(token: string, steps: seq<Step>, id: nat, auth: string, body: Body, bashFailed: bool)
    requires id !in Exec(token, steps).requests
    ensures var st := Exec(token, steps);
            var end := Exec(token, steps + [Arrive(id, auth, body), ReadAssigned(id), ReadToken(id), Run(id, bashFailed)]);
            var status := if !st.agent.taken then 503
                          else if auth != "Bearer " + st.agent.token then 401
                          else if body.Malformed? || body.text == "" then 400
                          else if bashFailed then 500 else 200;
            && id in end.requests && end.requests[id].stage == Done(status)
            && end.ran == if status == 200 || status == 500 then st.ran + [Execution(st.agent.token, body.text)] else st.ran
  {
    var st := Exec(token, steps);
    InvExec(token, steps);
    BearerOf(auth, st.agent.token);
    var arrived := Extend(token, steps, Arrive(id, auth, body));
    var seen := Extend(token, arrived, ReadAssigned(id));
    var read := Extend(token, seen, ReadToken(id));
    var all := Extend(token, read, Run(id, bashFailed));
    assert all == steps + [Arrive(id, auth, body), ReadAssigned(id), ReadToken(id), Run(id, bashFailed)];
  }

  lemma Extend(token: string, steps: seq<Step>, step: Step) returns (longer: seq<Step>)
    ensures longer == steps + [step] && Exec(token, longer) == Apply(Exec(token, steps), step)
  {
    longer := steps + [step];
    assert longer[..|steps|] == steps;
  }

  lemma BearerOf(auth: string, token: string)
    ensures BearerToken(auth) == Some(token) <==> auth == "Bearer " + token
  {
    if auth == BEARER + token {
      assert auth[|BEARER|..] == token;
    }
    if BEARER <= auth {
      assert auth == BEARER + auth[|BEARER|..];
    }
  }

  /** A well-formed request bearing the process's token, not yet refused. */
  ghost predicate OnTrack(st: State, id: nat, auth: string, command: string) {
    && st.agent.taken && BearerToken(auth) == Some(st.agent.token)
    && id in st.requests && st.requests[id].auth == auth && st.requests[id].body == Command(command)
    && match st.requests[id].stage
       case Authorized(t) => t == st.agent.token
       case Done(status) => (status == 200 || status == 500) && Execution(st.agent.token, command) in st.ran
       case _ => true
  }

  lemma OnTrackStep(st: State, step: Step, id: nat, auth: string, command: string)
    requires OnTrack(st, id, auth, command) && command != ""
    ensures OnTrack(Apply(st, step), id, auth, command)
  {
    if step.Run? && Apply(st, step) != st && step.id == id {
      var st' := Apply(st, step);
      assert st'.ran != st.ran ==> st'.ran[|st'.ran| - 1] == Execution(st.agent.token, command);
    } else if Execution(st.agent.token, command) in st.ran {
      assert Execution(st.agent.token, command) in Apply(st, step).ran;
    }
  }

  /** Once assigned, the agent never turns away a well-formed request that bears its token, however steps interleave. */
  lemma {:induction false} RightTokenIsServed(token: string, steps: seq<Step>, later: seq<Step>, id: nat, command: string)
    requires Exec(token, steps).agent.taken && id !in Exec(token, steps).requests && command != ""
    ensures var auth := BEARER + Exec(token, steps).agent.token;
            OnTrack(Exec(token, steps + [Arrive(id, auth, Command(command))] + later), id, auth, command)
  {
    var auth := BEARER + Exec(token, steps).agent.token;
    var first := steps + [Arrive(id, auth, Command(command))];
    var all := first + later;
    if later == [] {
      assert all == first && first[..|first| - 1] == steps;
      assert auth[|BEARER|..] == Exec(token, steps).agent.token;
    } else {
      RightTokenIsServed(token, steps, later[..|later| - 1], id, command);
      assert all[..|all| - 1] == first + later[..|later| - 1];
      OnTrackStep(Exec(token, all[..|all| - 1]), all[|all| - 1], id, auth, command);
    }
  }
}
