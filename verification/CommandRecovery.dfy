/**
 One `ExecuteCommand` call of the session manager: resolve the session's pod, run the
 command, and at most one recovery on the same or a replacement pod. Every answer from
 the cluster, the agent and the clock is arbitrary; the log records what the call did.
 */
module CommandRecovery {
  import opened Prelude

  datatype Response = Response(stdout: string, stderr: string, exitCode: int)

  /** The ways an `/exec` request can end; `ctx` marks a transport error caused by the caller's context. */
  datatype ExecReply =
    | Answered(response: Response)
    | NotAssigned                 // the agent's 503 before /assign
    | Status(code: nat)           // any other status
    | Undecodable
    | Transport(ctx: bool)
    | CtxEnded                    // the caller gave up between two polls

  /** The ways an `/assign` request can end; `applied` marks a transport error after the agent took the token. */
  datatype AssignReply = Accepted | AlreadyAssigned | AssignStatus(code: nat) | AssignTransport(ctx: bool, applied: bool)

  datatype Error =
    | Invalid
    | Cluster
    | GateClosed
    | Agent(reply: ExecReply)
    | Assigning(answer: AssignReply)
    | Cancelled

  /** The named pod as one read shows it. */
  datatype PodView = Missing | Unreadable | Dying | NotReady | Ready(ip: string)

  /** The pod is gone for the session: it does not exist, is going away, or has no address. */
  predicate Abandoned(v: PodView) { v.Missing? || v.Dying? || v == Ready("") }

  ghost predicate SeenAbandoned(log: seq<Event>) {
    exists i :: 0 <= i < |log| && log[i].Saw? && Abandoned(log[i].pod)
  }

  datatype Event =
    | Executed(reply: ExecReply)
    | Assigned(answer: AssignReply)
    | Gate(open: bool)
    | Claim(ok: bool)
    | Create
    | Saw(pod: PodView)
    | Recovering(cause: ExecReply)
    | Invalidated
    | Replaced
    | Activity

  const NOTICE := "[session state was reset — previous bash process exited]\n"

  /** Everything but the agent's "not assigned" may have let the command run. */
  predicate MayHaveRun(e: Event) { e.Executed? && !e.reply.NotAssigned? && !e.reply.CtxEnded? }

  function Runs(log: seq<Event>): nat {
    if log == [] then 0 else (if MayHaveRun(log[0]) then 1 else 0) + Runs(log[1..])
  }

  lemma {:induction false} RunsConcat(a: seq<Event>, b: seq<Event>)
    ensures Runs(a + b) == Runs(a) + Runs(b)
  {
    if a == [] {
      assert a + b == b;
    } else {
      RunsConcat(a[1..], b);
      assert (a + b)[1..] == a[1..] + b;
    }
  }

  /** This call's own assign was accepted, or the pod was replaced. */
  ghost predicate Reset(log: seq<Event>) { Event.Assigned(Accepted) in log || Replaced in log }

  /** An assign of this call that the agent took, whether or not the reply came back. */
  predicate TookEffect(e: Event) { e.Assigned? && (e.answer.Accepted? || ReplyLost(e)) }

  predicate ReplyLost(e: Event) { e.Assigned? && e.answer.AssignTransport? && e.answer.applied }

  ghost predicate AssignTookEffect(log: seq<Event>) { exists e :: e in log && TookEffect(e) }

  /** The agent took this call's token, every such reply was lost, and the pod was not replaced. */
  ghost predicate OnlyLostAssigns(log: seq<Event>) {
    AssignTookEffect(log) && Replaced !in log && forall e :: e in log && TookEffect(e) ==> ReplyLost(e)
  }

  ghost predicate TransportFailed(log: seq<Event>) { Executed(Transport(false)) in log }

  /** Claims and creates come only after an open gate within the same stretch of the log. */
  ghost predicate Gated(log: seq<Event>) {
    forall i :: 0 <= i < |log| && (log[i].Claim? || log[i].Create?) ==> exists j :: 0 <= j < i && log[j] == Gate(true)
  }

  ghost predicate NoRecovery(log: seq<Event>) { forall e :: e in log ==> !e.Recovering? }

  /** Nothing in the stretch belongs to a recovery: no token is delivered and no pod is looked at. */
  ghost predicate FirstTry(log: seq<Event>) { forall e :: e in log ==> !e.Recovering? && !e.Assigned? && !e.Saw? }

  /**
   The call recovers once, and exactly after a first attempt that ended in the agent's "not assigned" or in a transport
   error of its own. Tokens are delivered and pods looked at only by then.
   */
  ghost predicate RecoversOnce(done: seq<Event>, r: Result<Response, Error>) {
    (&& FirstTry(done) && Executed(Transport(false)) !in done && r != Err(Agent(NotAssigned)))
    || exists i ::
      && 0 < i < |done| && done[i].Recovering? && done[i - 1] == Executed(done[i].cause)
      && (done[i].cause.NotAssigned? || done[i].cause == Transport(false))
      && FirstTry(done[..i]) && NoRecovery(done[i + 1..])
  }

  /** A stretch of the log in which no command was sent and no token delivered. */
  ghost predicate Quiet(log: seq<Event>) {
    forall i :: 0 <= i < |log| ==> !log[i].Executed? && !log[i].Assigned?
  }

  lemma {:induction false} QuietRunsNothing(log: seq<Event>)
    requires Quiet(log)
    ensures Runs(log) == 0
  {
    if log != [] {
      assert Quiet(log[1..]);
      QuietRunsNothing(log[1..]);
    }
  }

  function WithNotice(r: Response): Response { r.(stderr := NOTICE + r.stderr) }

  // ----- Error classifiers -----

  /** `recoverableSession`: the agent was not assigned, or the transport failed on its own. */
  predicate Recoverable(r: ExecReply) { r.NotAssigned? || r == Transport(false) }

  /** What the cluster would answer one `GetOrCreatePod`, in the order in which it is asked. */
  datatype Answers = Answers(
    valid: bool, cached: bool, first: Result<bool, Error>, open: bool, claimed: bool, ready: bool,
    second: Result<bool, Error>, created: bool, nameTaken: bool, third: Result<bool, Error>)

  predicate Known(a: Answers) { a.valid && (a.cached || a.first == Ok(true)) }

  predicate Unknown(a: Answers) { a.valid && !a.cached && a.first == Ok(false) }

  predicate NoneToClaim(a: Answers) { Unknown(a) && a.open && !a.claimed }

  /** A session's pod is found, or claimed and ready, or found after all, or made, also by somebody else in the meantime. */
  predicate Resolves(a: Answers) {
    || Known(a)
    || (Unknown(a) && a.open && a.claimed && a.ready)
    || (NoneToClaim(a) && a.second == Ok(true))
    || (NoneToClaim(a) && a.second == Ok(false) && (a.created || (a.nameTaken && a.third == Ok(true))))
  }

  /** The gate is asked only for a session without a pod, a pod is claimed only behind it, and made only if none was there to claim. */
  function Calls(a: Answers): seq<Event> {
    (if Unknown(a) then [Gate(a.open)] else [])
    + (if Unknown(a) && a.open then [Claim(a.claimed)] else [])
    + (if NoneToClaim(a) && a.second == Ok(false) then [Create] else [])
  }

  /** One call; each method also returns, as ghost, the stretch of the log it added. */
  class Call {
    var log: seq<Event>

    constructor ()
      ensures log == []
    {
      log := [];
    }

    method Note(e: Event)
      modifies this
      ensures log == old(log) + [e]
    {
      log := log + [e];
    }

    method Execute() returns (r: ExecReply)
      modifies this
      ensures log == old(log) + [Executed(r)] && !r.CtxEnded?
    {
      r := *;
      if r.CtxEnded? {
        r := Transport(true);
      }
      Note(Executed(r));
    }

    /** `reassign`: a 409 means somebody else delivered the same token. */
    method Reassign() returns (r: Result<bool, AssignReply>, ghost done: seq<Event>)
      modifies this
      ensures log == old(log) + done && |done| == 1 && done[0].Assigned?
      ensures r == var a := done[0].answer;
                   if a.Accepted? then Ok(true) else if a.AlreadyAssigned? then Ok(false) else Err(a)
    {
      var a: AssignReply := *;
      Note(Assigned(a));
      done := [Assigned(a)];
      match a
      case Accepted => r := Ok(true);
      case AlreadyAssigned => r := Ok(false);
      case _ => r := Err(a);
    }

    /**
     `executeWhenAssigned`: polls until the agent is assigned or the wait is over. Only the last
     attempt can have run the command, and its reply is the result. It gives up on an unassigned agent only after the
     wait, and polls at intervals, none of them begun when the wait is over.
     */
    method ExecuteWhenAssigned(wait: int, poll: int) returns (r: ExecReply, ghost done: seq<Event>, ghost waited: int)
      requires 0 < poll
      modifies this
      ensures r.NotAssigned? ==> wait <= waited
      ensures poll * (|done| - 1) <= waited && (1 < |done| ==> poll * (|done| - 2) < wait)
      ensures log == old(log) + done && done != []
      ensures forall e :: e in done ==> e.Executed? && (e.reply == r || e.reply.NotAssigned?)
      ensures Runs(done) == if r.NotAssigned? || r.CtxEnded? then 0 else 1
      ensures !r.CtxEnded? ==> done[|done| - 1] == Executed(r)
    {
      var now: int := *;
      var deadline := now + wait;
      waited := 0;
      r := Execute();
      done := [Executed(r)];
      while r.NotAssigned? && now < deadline
        invariant waited == now - (deadline - wait)
        invariant poll * (|done| - 1) <= waited && (1 < |done| ==> poll * (|done| - 2) < wait)
        invariant log == old(log) + done && done != []
        invariant done[|done| - 1] == Executed(r) && !r.CtxEnded?
        invariant forall e :: e in done ==> e.Executed? && (e.reply == r || e.reply.NotAssigned?)
        invariant Runs(done) == if r.NotAssigned? then 0 else 1
        decreases deadline - now
      {
        var gaveUp: bool := *;
        if gaveUp {
          r := CtxEnded;
          return;
        }
        var late: int := *;
        now := now + poll + Max(late, 0);
        waited := waited + poll + Max(late, 0);
        r := Execute();
        RunsConcat(done, [Executed(r)]);
        done := done + [Executed(r)];
      }
    }

    /** The session's pod as a listing shows it: found with an address, or not. */
    method DiscoverPod() returns (r: Result<bool, Error>)
      ensures r.Err? ==> r.error == Cluster
    {
      var failed: bool, found: bool := *, *;
      r := if failed then Err(Cluster) else Ok(found);
    }

    /**
     `GetOrCreatePod`: cache, then discovery, then the gate, then claim, discovery again, create. `seen` records the
     answers it was given; its result and the calls it makes depend on them in this order.
     */
    method GetOrCreatePod() returns (r: Result<(), Error>, ghost done: seq<Event>, ghost seen: Answers)
      modifies this
      ensures log == old(log) + done && Quiet(done) && Gated(done) && Replaced !in done && FirstTry(done) && Activity !in done
      ensures r.Err? ==> !r.error.Agent?
      ensures done == Calls(seen) && (r.Ok? <==> Resolves(seen))
    {
      done := [];
      var valid: bool, cached: bool := *, *;
      seen := Answers(valid, cached, Ok(false), false, false, false, Ok(false), false, false, Ok(false));
      if !valid {
        return Err(Invalid), done, seen;
      }
      if cached {
        return Ok(()), done, seen;
      }
      var found := DiscoverPod();
      seen := seen.(first := found);
      if found.Err? || found.value {
        return if found.Err? then Err(found.error) else Ok(()), done, seen;
      }
      var open: bool := *;
      Note(Gate(open));
      done, seen := [Gate(open)], seen.(open := open);
      if !open {
        return Err(GateClosed), done, seen;
      }
      var claimed: bool := *;
      Note(Claim(claimed));
      done, seen := [Gate(open), Claim(claimed)], seen.(claimed := claimed);
      assert done[0] == Gate(true);
      if claimed {
        var ready: bool := *;
        seen := seen.(ready := ready);
        return if ready then Ok(()) else Err(Cluster), done, seen;
      }
      found := DiscoverPod();
      seen := seen.(second := found);
      if found.Err? || found.value {
        return if found.Err? then Err(found.error) else Ok(()), done, seen;
      }
      var created: bool, nameTaken: bool := *, *;
      Note(Create);
      done, seen := [Gate(open), Claim(claimed), Create], seen.(created := created, nameTaken := nameTaken);
      assert done[0] == Gate(true);
      if created || !nameTaken {
        return if created then Ok(()) else Err(Cluster), done, seen;
      }
      found := DiscoverPod();
      seen := seen.(third := found);
      return if found.Ok? && found.value then Ok(()) else Err(Cluster), done, seen;
    }

    /** The same, for callers that only need to know what kind of calls it made. */
    method ResolvePod() returns (r: Result<(), Error>, ghost done: seq<Event>)
      modifies this
      ensures log == old(log) + done && Quiet(done) && Gated(done) && Replaced !in done && FirstTry(done) && Activity !in done
      ensures r.Err? ==> !r.error.Agent?
    {
      ghost var seen;
      r, done, seen := GetOrCreatePod();
    }

    method Look() returns (v: PodView)
      modifies this
      ensures log == old(log) + [Saw(v)]
    {
      v := *;
      Note(Saw(v));
    }

    /** `waitRecoveredPod`: whether the named pod is still the session's; it is given up only when seen abandoned. */
    method WaitRecoveredPod() returns (r: Result<bool, Error>, ghost done: seq<Event>)
      modifies this
      ensures log == old(log) + done && done != [] && forall i :: 0 <= i < |done| ==> done[i].Saw?
      ensures r == Ok(false) ==> SeenAbandoned(done)
      ensures r == Ok(false) <==>
                var last := done[|done| - 1].pod; last.Missing? || last.Dying? || (|done| == 1 && last == Ready(""))
      ensures r == Ok(true) <==> |done| == 1 && (done[0].pod.NotReady? || (done[0].pod.Ready? && done[0].pod.ip != ""))
    {
      var v := Look();
      done := [Saw(v)];
      assert done[0] == Saw(v);
      if v.Missing? || v.Dying? {
        return Ok(false), done;
      }
      if v.Unreadable? {
        return Err(Cluster), done;
      }
      if v.NotReady? {
        var becameReady: bool := *;
        if becameReady {
          return Ok(true), done;
        }
        v := Look();
        done := done + [Saw(v)];
        assert done[1] == Saw(v);
        if v.Missing? || v.Dying? {
          return Ok(false), done;
        }
        return Err(Cluster), done;
      }
      return Ok(v.ip != ""), done;
    }

    /** Drop the stale address and resolve the session afresh. */
    method ReplacePod() returns (r: Result<(), Error>, ghost done: seq<Event>)
      modifies this
      ensures log == old(log) + done && Quiet(done) && Gated(done) && NoRecovery(done) && Activity !in done
      ensures r.Ok? ==> Replaced in done
    {
      Note(Invalidated);
      ghost var more;
      r, more := ResolvePod();
      Joined([Invalidated], more);
      done := [Invalidated] + more;
      if r.Ok? {
        Note(Replaced);
        Joined(done, [Replaced]);
        done := done + [Replaced];
      }
    }

    /** `podForRecovery`: keep the named pod while it lives; it is replaced only when it was seen abandoned. */
    method PodForRecovery(named: bool) returns (r: Result<bool, Error>, ghost done: seq<Event>)
      modifies this
      ensures log == old(log) + done && Quiet(done) && Gated(done) && NoRecovery(done) && Activity !in done
      ensures r.Ok? ==> (r.value <==> Replaced in done)
      ensures named && Replaced in done ==> SeenAbandoned(done)
    {
      done := [];
      if named {
        var kept;
        kept, done := WaitRecoveredPod();
        if kept.Err? {
          return Err(kept.error), done;
        }
        if kept.value {
          return Ok(false), done;
        }
      }
      var got;
      ghost var more;
      got, more := ReplacePod();
      Joined(done, more);
      done := done + more;
      r := if got.Err? then Err(got.error) else Ok(true);
    }

    /** `recoverOnNewPod`: find the pod, deliver the token again, and run the command once. */
    method RecoverOnNewPod(named: bool) returns (r: Result<Response, Error>, ghost done: seq<Event>)
      modifies this
      ensures log == old(log) + done && Gated(done) && Runs(done) <= 1 && NoRecovery(done) && Activity !in done
      ensures r.Ok? ==> Runs(done) == 1 && Delivered(done, r.value)
      ensures named && Replaced in done ==> SeenAbandoned(done)
    {
      var replaced;
      replaced, done := PodForRecovery(named);
      QuietRunsNothing(done);
      if replaced.Err? {
        return Err(replaced.error), done;
      }
      var byUs;
      ghost var more;
      byUs, more := Reassign();
      Joined(done, more);
      done := done + more;
      if byUs.Err? {
        return Err(Assigning(byUs.error)), done;
      }
      assert Reset(done) <==> replaced.value || byUs.value;
      var reply := Execute();
      Joined(done, [Executed(reply)]);
      if !reply.Answered? {
        return Err(Agent(reply)), done + [Executed(reply)];
      }
      DeliveredNow(done, reply.response);
      return Ok(if replaced.value || byUs.value then WithNotice(reply.response) else reply.response), done + [Executed(reply)];
    }

    /** `recoverSession`: first try to deliver the token again where the agent says it has none. */
    method RecoverSession(named: bool, addressed: bool, cause: ExecReply)
      returns (r: Result<Response, Error>, ghost done: seq<Event>)
      requires Recoverable(cause)
      modifies this
      ensures log == old(log) + done && Gated(done) && Runs(done) <= 1
      ensures done != [] && done[0] == Recovering(cause) && NoRecovery(done[1..]) && Activity !in done
      ensures r.Ok? ==> Runs(done) == 1 && Delivered(done, r.value)
      ensures named && Replaced in done ==> SeenAbandoned(done)
    {
      Note(Recovering(cause));
      ghost var more;
      r, more := Redeliver(named, addressed, cause);
      done := [Recovering(cause)] + more;
      Joined([Recovering(cause)], more);
      if r.Ok? {
        DeliveredAfter([Recovering(cause)], more, r.value);
      }
    }

    method Redeliver(named: bool, addressed: bool, cause: ExecReply)
      returns (r: Result<Response, Error>, ghost done: seq<Event>)
      requires Recoverable(cause)
      modifies this
      ensures log == old(log) + done && Gated(done) && Runs(done) <= 1 && NoRecovery(done) && Activity !in done
      ensures r.Ok? ==> Runs(done) == 1 && Delivered(done, r.value)
      ensures named && Replaced in done ==> SeenAbandoned(done)
    {
      done := [];
      var ctxEnded: bool := *;
      if ctxEnded {
        return Err(Cancelled), done;
      }
      if cause.NotAssigned? && addressed {
        var byUs;
        byUs, done := Reassign();
        if byUs.Ok? {
          assert Reset(done) <==> byUs.value;
          var reply := Execute();
          Joined(done, [Executed(reply)]);
          if !reply.Answered? {
            return Err(Agent(reply)), done + [Executed(reply)];
          }
          DeliveredNow(done, reply.response);
          return Ok(if byUs.value then WithNotice(reply.response) else reply.response), done + [Executed(reply)];
        }
        if byUs.error.AssignTransport? && byUs.error.ctx {
          return Err(Cancelled), done;
        }
        if !byUs.error.AssignTransport? {
          return Err(Agent(cause)), done;
        }
      }
      ghost var more;
      r, more := RecoverOnNewPod(named);
      Joined(done, more);
      if r.Ok? {
        DeliveredAfter(done, more, r.value);
      }
      done := done + more;
    }

    /** Resolve the pod and run the command, without recovery. */
    method FirstAttempt(wait: int, poll: int) returns (r: Result<ExecReply, Error>, ghost done: seq<Event>)
      requires 0 < poll
      modifies this
      ensures log == old(log) + done && Gated(done) && !Reset(done)
      ensures Runs(done) == if r.Err? || r.value.NotAssigned? || r.value.CtxEnded? then 0 else 1
      ensures r.Ok? && !r.value.CtxEnded? ==> done != [] && done[|done| - 1] == Executed(r.value)
      ensures r.Err? ==> !r.error.Agent?
      ensures FirstTry(done) && Activity !in done && (r.Err? || r.value != Transport(false) ==> Executed(Transport(false)) !in done)
    {
      var resolved;
      resolved, done := ResolvePod();
      QuietRunsNothing(done);
      if resolved.Err? {
        return Err(resolved.error), done;
      }
      var reply;
      ghost var tries, waited;
      reply, tries, waited := ExecuteWhenAssigned(wait, poll);
      assert forall i :: 0 <= i < |tries| ==> tries[i] in tries;
      Joined(done, tries);
      return Ok(reply), done + tries;
    }

    /** The first attempt, and one recovery when its failure allows it. */
    method AttemptAndRecover(wait: int, poll: int) returns (r: Result<Response, Error>, ghost done: seq<Event>)
      requires 0 < poll
      modifies this
      ensures log == old(log) + done && Attempted(done, r) && Activity !in done
    {
      var first;
      first, done := FirstAttempt(wait, poll);
      if first.Err? {
        FailedFirst(done, first.error);
        return Err(first.error), done;
      }
      ghost var more;
      r, more := Conclude(first.value, done);
      done := done + more;
    }

    /** What follows the reply to the first attempt. */
    method Conclude(reply: ExecReply, ghost first: seq<Event>) returns (r: Result<Response, Error>, ghost done: seq<Event>)
      requires Gated(first) && !Reset(first) && FirstTry(first)
      requires Runs(first) == if reply.NotAssigned? || reply.CtxEnded? then 0 else 1
      requires !reply.CtxEnded? ==> first != [] && first[|first| - 1] == Executed(reply)
      requires reply != Transport(false) ==> Executed(Transport(false)) !in first
      modifies this
      ensures log == old(log) + done && Attempted(first + done, r) && Activity !in done
    {
      done := [];
      assert first + [] == first;
      if reply.Answered? {
        AnsweredFirst(first, reply.response);
        return Ok(reply.response), done;
      }
      if !Recoverable(reply) {
        FailedFirst(first, Agent(reply));
        if reply.Transport? {
          Note(Invalidated);
          done := [Invalidated];
        }
        return Err(Agent(reply)), done;
      }
      var named: bool, addressed: bool := *, *;
      r, done := RecoverSession(named, addressed, reply);
      FirstThenRecovery(first, done, r);
    }

    /**
     `ExecuteCommand`. The command may run at most twice, and twice only after a transport error. A
     response carries the reset notice exactly when this call's assign was seen to be accepted or the pod
     was replaced; so it is missing after an assign that took effect exactly when only such replies were
     lost. Nothing is claimed or created without an open gate. Activity is marked once, after success.
     */
    method ExecuteCommand(wait: int, poll: int) returns (r: Result<Response, Error>, ghost done: seq<Event>)
      requires 0 < poll
      modifies this
      ensures log == old(log) + done && Gated(done)
      ensures Runs(done) <= 2
      ensures Runs(done) == 2 ==> TransportFailed(done)
      ensures RecoversOnce(done, r)
      ensures r.Ok? ==> Runs(done) >= 1 && Delivered(done, r.value)
      ensures Activity in done ==> r.Ok? && done[|done| - 1] == Activity && Activity !in done[..|done| - 1]
      ensures r.Ok? ==> (AssignTookEffect(done) && !HasNotice(done, r.value) <==> OnlyLostAssigns(done))
    {
      r, done := AttemptAndRecover(wait, poll);
      var named: bool := *;
      if r.Ok? && named {
        Note(Activity);
        AttemptedThenMarked(done, r);
        done := done + [Activity];
      }
      if r.Ok? {
        NoticeMissingIffOnlyLostAssigns(done, r.value);
      }
    }
  }

  /**
   The response is the last reply of the agent, with the reset notice in front of its stderr
   exactly when this call's assign was accepted or the pod was replaced.
   */
  ghost predicate Delivered(done: seq<Event>, response: Response) {
    exists i :: 0 <= i < |done| && done[i].Executed? && done[i].reply.Answered?
                && (forall j :: i < j < |done| ==> !done[j].Executed?)
                && response == if Reset(done) then WithNotice(done[i].reply.response) else done[i].reply.response
  }

  /** Event `i` is the last command of the stretch, and the agent answered it. */
  ghost predicate LastAnswer(done: seq<Event>, i: int) {
    && 0 <= i < |done| && done[i].Executed? && done[i].reply.Answered?
    && forall j :: i < j < |done| ==> !done[j].Executed?
  }

  ghost predicate HasNotice(done: seq<Event>, response: Response) {
    exists i :: LastAnswer(done, i) && response == WithNotice(done[i].reply.response)
  }

  lemma NoticeShows(r: Response)
    ensures WithNotice(r) != r
  {
    assert |NOTICE + r.stderr| > |r.stderr|;
  }

  /** A delivered response lacks the notice although this call's assign took effect exactly when only such replies were lost. */
  lemma NoticeMissingIffOnlyLostAssigns(done: seq<Event>, response: Response)
    requires Delivered(done, response)
    ensures AssignTookEffect(done) && !HasNotice(done, response) <==> OnlyLostAssigns(done)
  {
    var i :| 0 <= i < |done| && done[i].Executed? && done[i].reply.Answered?
             && (forall j :: i < j < |done| ==> !done[j].Executed?)
             && response == if Reset(done) then WithNotice(done[i].reply.response) else done[i].reply.response;
    assert LastAnswer(done, i);
    NoticeShows(done[i].reply.response);
    assert HasNotice(done, response) <==> Reset(done) by {
      if k :| LastAnswer(done, k) && response == WithNotice(done[k].reply.response) {
        assert k == i;
      }
    }
    assert Event.Assigned(Accepted) in done ==> TookEffect(Event.Assigned(Accepted));
  }

  /** It happens: the reply to an accepted assign is lost, the pod is still there, and the repeated assign answers 409. */
  lemma LostReplyLeavesNoNotice(response: Response, ip: string)
    ensures var done := [Executed(NotAssigned), Event.Assigned(AssignTransport(false, true)), Saw(Ready(ip)),
                         Event.Assigned(AlreadyAssigned), Executed(Answered(response))];
            && Delivered(done, response) && Gated(done) && Runs(done) == 1
            && AssignTookEffect(done) && !HasNotice(done, response)
  {
    var front := [Executed(NotAssigned), Event.Assigned(AssignTransport(false, true)), Saw(Ready(ip)), Event.Assigned(AlreadyAssigned)];
    var done := [Executed(NotAssigned), Event.Assigned(AssignTransport(false, true)), Saw(Ready(ip)),
                 Event.Assigned(AlreadyAssigned), Executed(Answered(response))];
    assert done == front + [Executed(Answered(response))];
    DeliveredNow(front, response);
    RunsConcat(front, [Executed(Answered(response))]);
    assert front[1..] == [front[1], front[2], front[3]];
    assert Quiet([front[2]]) && Runs([front[3]]) == 0;
    assert Runs([front[2], front[3]]) == 0 && Runs(front[1..]) == 0;
    assert done[1] in done && TookEffect(done[1]);
    NoticeMissingIffOnlyLostAssigns(done, response);
  }

  /** What a first attempt and its recovery, if any, amount to. */
  ghost predicate Attempted(done: seq<Event>, r: Result<Response, Error>) {
    && Gated(done) && Runs(done) <= 2 && (Runs(done) == 2 ==> TransportFailed(done))
    && (r.Ok? ==> Runs(done) >= 1 && Delivered(done, r.value))
    && RecoversOnce(done, r)
  }

  lemma AttemptedThenMarked(done: seq<Event>, r: Result<Response, Error>)
    requires Attempted(done, r) && r.Ok?
    ensures Attempted(done + [Activity], r)
  {
    Joined(done, [Activity]);
    DeliveredBefore(done, Activity, r.value);
    RecoveryBefore(done, Activity, r);
    assert forall e :: e in done ==> e in done + [Activity];
  }

  lemma AnsweredFirst(first: seq<Event>, response: Response)
    requires Gated(first) && !Reset(first) && FirstTry(first) && Runs(first) == 1
    requires first != [] && first[|first| - 1] == Executed(Answered(response)) && Executed(Transport(false)) !in first
    ensures Attempted(first, Ok(response))
  {
    var n := |first| - 1;
    assert first == first[..n] + [first[n]];
    DeliveredNow(first[..n], response);
  }

  /** A first attempt that failed for good; its address may be dropped afterwards. */
  lemma FailedFirst(first: seq<Event>, error: Error)
    requires Gated(first) && FirstTry(first) && Runs(first) <= 1
    requires Executed(Transport(false)) !in first && error != Agent(NotAssigned)
    ensures Attempted(first, Err(error)) && Attempted(first + [Invalidated], Err(error))
  {
    Joined(first, [Invalidated]);
  }

  lemma FirstThenRecovery(first: seq<Event>, recovery: seq<Event>, r: Result<Response, Error>)
    requires Gated(first) && !Reset(first) && FirstTry(first)
    requires first != [] && recovery != [] && recovery[0].Recovering? && first[|first| - 1] == Executed(recovery[0].cause)
    requires recovery[0].cause.NotAssigned? || recovery[0].cause == Transport(false)
    requires Runs(first) == if recovery[0].cause.NotAssigned? then 0 else 1
    requires Gated(recovery) && Runs(recovery) <= 1 && NoRecovery(recovery[1..])
    requires r.Ok? ==> Runs(recovery) == 1 && Delivered(recovery, r.value)
    ensures Attempted(first + recovery, r)
  {
    Joined(first, recovery);
    if r.Ok? {
      DeliveredAfter(first, recovery, r.value);
    }
    assert (first + recovery)[|first| - 1] == Executed(recovery[0].cause);
    RecoveryAfter(first, recovery, r);
  }

  lemma RecoveryAfter(first: seq<Event>, recovery: seq<Event>, r: Result<Response, Error>)
    requires first != [] && recovery != [] && recovery[0].Recovering? && first[|first| - 1] == Executed(recovery[0].cause)
    requires recovery[0].cause.NotAssigned? || recovery[0].cause == Transport(false)
    requires FirstTry(first) && NoRecovery(recovery[1..])
    ensures RecoversOnce(first + recovery, r)
  {
    var i, all := |first|, first + recovery;
    assert all[i] == recovery[0] && all[i - 1] == first[i - 1];
    assert all[..i] == first && all[i + 1..] == recovery[1..];
  }

  lemma RecoveryBefore(done: seq<Event>, e: Event, r: Result<Response, Error>)
    requires RecoversOnce(done, r) && e.Activity?
    ensures RecoversOnce(done + [e], r)
  {
    var all := done + [e];
    if i :| 0 < i < |done| && done[i].Recovering? && done[i - 1] == Executed(done[i].cause)
            && (done[i].cause.NotAssigned? || done[i].cause == Transport(false))
            && FirstTry(done[..i]) && NoRecovery(done[i + 1..]) {
      assert all[i] == done[i] && all[i - 1] == done[i - 1];
      assert all[..i] == done[..i] && all[i + 1..] == done[i + 1..] + [e];
    }
  }

  lemma DeliveredNow(front: seq<Event>, response: Response)
    ensures Delivered(front + [Executed(Answered(response))], if Reset(front) then WithNotice(response) else response)
  {
    var done := front + [Executed(Answered(response))];
    assert Reset(done) <==> Reset(front);
    assert done[|front|] == Executed(Answered(response));
  }

  lemma DeliveredBefore(done: seq<Event>, e: Event, response: Response)
    requires Delivered(done, response) && !e.Executed? && !Reset([e])
    ensures Delivered(done + [e], response)
  {
    assert Reset(done + [e]) <==> Reset(done);
    var i :| 0 <= i < |done| && done[i].Executed? && done[i].reply.Answered?
             && (forall j :: i < j < |done| ==> !done[j].Executed?)
             && response == if Reset(done) then WithNotice(done[i].reply.response) else done[i].reply.response;
    assert (done + [e])[i] == done[i];
  }

  /** What concatenation does to the properties of a stretch. */
  lemma Joined(a: seq<Event>, b: seq<Event>)
    requires Gated(a) && Gated(b)
    ensures Gated(a + b) && Runs(a + b) == Runs(a) + Runs(b)
    ensures Reset(a + b) <==> Reset(a) || Reset(b)
    ensures Replaced in a + b <==> Replaced in a || Replaced in b
    ensures SeenAbandoned(a) || SeenAbandoned(b) ==> SeenAbandoned(a + b)
  {
    RunsConcat(a, b);
    var all := a + b;
    forall i | 0 <= i < |all| && (all[i].Claim? || all[i].Create?) ensures exists j :: 0 <= j < i && all[j] == Gate(true) {
      if i < |a| {
        var j :| 0 <= j < i && a[j] == Gate(true);
        assert all[j] == Gate(true);
      } else {
        var j :| 0 <= j < i - |a| && b[j] == Gate(true);
        assert all[|a| + j] == Gate(true);
      }
    }
    if SeenAbandoned(a) {
      var i :| 0 <= i < |a| && a[i].Saw? && Abandoned(a[i].pod);
      assert all[i] == a[i];
    }
    if SeenAbandoned(b) {
      var i :| 0 <= i < |b| && b[i].Saw? && Abandoned(b[i].pod);
      assert all[|a| + i] == b[i];
    }
  }

  lemma DeliveredAfter(front: seq<Event>, more: seq<Event>, response: Response)
    requires Delivered(more, response) && !Reset(front)
    ensures Delivered(front + more, response)
  {
    var done := front + more;
    assert Reset(done) <==> Reset(more);
    var i :| 0 <= i < |more| && more[i].Executed? && more[i].reply.Answered?
             && (forall j :: i < j < |more| ==> !more[j].Executed?)
             && response == if Reset(more) then WithNotice(more[i].reply.response) else more[i].reply.response;
    assert done[|front| + i] == more[i];
    forall j | |front| + i < j < |done| ensures !done[j].Executed? {
      assert done[j] == more[j - |front|];
    }
  }
}
