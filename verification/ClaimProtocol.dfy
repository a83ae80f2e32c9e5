/**
 The session allocator. Any number of MCP replicas claim unassigned pool pods
 through an optimistic-concurrency store while the operator deletes pool pods it
 may have read long ago, sessions are cleaned up, pods die and agents restart.

 A run is any sequence of steps. Every API call is one step, so all interleavings
 are covered; a call may also be applied with its reply lost, or refused.
 */
module ClaimProtocol {
  import opened Prelude

  type Session = string
  type AttemptId = nat

  /** Pool pods get a fresh UUID name; an on-demand pod is named after its session. */
  datatype PodName = Pool(id: nat) | OnDemand(session: Session)

  /** Provenance of a label or a Secret; the store does not record it. */
  datatype Writer = ByClaim(attempt: AttemptId) | ByOther

  datatype Label = Label(session: Session, writer: Writer)

  datatype Pod = Pod(
    uid: nat,
    rv: nat,
    tag: Option<Label>,
    deleting: bool,
    terminal: bool,
    backoff: bool,
    poolDeleted: bool)

  datatype Version = Version(name: PodName, pod: Pod)

  /** How far one `ClaimPod` call has got. */
  datatype Progress =
    | Choosing
    | Patching(pod: PodName, rv: nat)
    | CreatingSecret(pod: PodName)
    | Assigning(pod: PodName)
    | RollingBack(pod: PodName, dropSecret: bool)
    | DroppingSecret
    | Claimed(pod: PodName, process: nat)
    | Failed

  /**
   `clean` is lost when a label write went unacknowledged or a rollback was refused. `made` numbers the
   Secret the attempt created, from the moment it knows that it did.
   */
  datatype Attempt = Attempt(session: Session, at: Progress, clean: bool, made: nat)

  /** A Secret object. `id` and `writer` stand for its uid: a Secret created again is another one. */
  datatype Secret = Secret(id: nat, session: Session, writer: Writer)

  datatype Deleter = ByRollback(attempt: AttemptId) | ByCleanup

  /** Who deleted a Secret, and how many Secrets had been created by then. */
  datatype Gone = Gone(who: Deleter, created: nat)

  /** The Secrets in place by session, those that are gone, and the number of the next one. */
  datatype Vault = Vault(inPlace: map<Session, Secret>, gone: map<Secret, Gone>, next: nat)

  function Make(v: Vault, s: Session, w: Writer): Vault {
    v.(inPlace := v.inPlace[s := Secret(v.next, s, w)], next := v.next + 1)
  }

  /** A Secret is deleted by name, whoever made the one that is there. */
  function Lose(v: Vault, s: Session, who: Deleter): Vault {
    if s in v.inPlace then
      v.(inPlace := v.inPlace - {s}, gone := v.gone[v.inPlace[s] := Gone(who, v.next)])
    else v
  }

  datatype Assignment = Assignment(session: Session, writer: Writer)

  /** A pool delete the operator has decided on after re-reading the pod. */
  datatype Intent = Intent(name: PodName, uid: nat, rv: nat)

  /**
   `versions` holds every object version ever written; a resourceVersion is an
   index into it. `current` gives the stored state of each pod that exists.
   */
  datatype State = State(
    versions: seq<Version>,
    current: map<PodName, Pod>,
    nextPod: nat,
    vault: Vault,
    attempts: map<AttemptId, Attempt>,
    intents: set<Intent>,
    processes: map<PodName, nat>,
    nextProcess: nat,
    tokens: map<nat, Assignment>)

  const INITIAL: State := State([], map[], 0, Vault(map[], map[], 0), map[], {}, map[], 0, map[])

  datatype Reply = Answered | Lost | Refused

  datatype Step =
    | Begin(a: AttemptId, s: Session)
    | Choose(a: AttemptId, rv: nat)
    | GiveUp(a: AttemptId)
    | PatchLabel(a: AttemptId, reply: Reply)
    | CreateSecret(a: AttemptId, reply: Reply)
    | Assign(a: AttemptId, reply: Reply)
    | Rollback(a: AttemptId, reply: Reply)
    | DropSecret(a: AttemptId, reply: Reply)
    | PoolRead(rv: nat)
    | PoolDelete(intent: Intent)
    | PoolCreate
    | OnDemandSecret(s: Session)
    | OnDemandPod(s: Session)
    | CleanupSecret(s: Session)
    | MarkDeleted(name: PodName)
    | Vanish(name: PodName)
    | Report(name: PodName, terminal: bool, backoff: bool)
    | Restart(name: PodName)
    | ForeignAssign(name: PodName, s: Session)

  // ----- Reading the store -----

  predicate Unassigned(p: Pod) { p.tag.None? }

  /** `IsClaimableUnassigned`. */
  predicate Claimable(p: Pod) {
    !p.deleting && !p.terminal && !p.backoff
  }

  /** Store one new version of pod `n`. */
  function Write(st: State, n: PodName, p: Pod): State {
    var stored := p.(rv := |st.versions|);
    st.(versions := st.versions + [Version(n, stored)], current := st.current[n := stored])
  }

  function Move(st: State, a: AttemptId, at: Progress): State
    requires a in st.attempts
  {
    st.(attempts := st.attempts[a := st.attempts[a].(at := at)])
  }

  function Unclean(st: State, a: AttemptId): State
    requires a in st.attempts
  {
    st.(attempts := st.attempts[a := st.attempts[a].(clean := false)])
  }

  // ----- The steps of a claim -----

  /** The label patch carries the resourceVersion that was listed; any other stored version is a conflict. */
  function StepPatch(st: State, a: AttemptId, reply: Reply): (r: State)
    requires a in st.attempts && st.attempts[a].at.Patching?
    ensures r.vault == st.vault && r.nextPod == st.nextPod
  {
    var Patching(n, rv) := st.attempts[a].at;
    if reply.Refused? || n !in st.current || st.current[n].rv != rv then
      Move(st, a, Choosing)
    else
      var tag := Label(st.attempts[a].session, ByClaim(a));
      var st' := Write(st, n, st.current[n].(tag := Some(tag)));
      if reply.Answered? then Move(st', a, CreatingSecret(n)) else Unclean(Move(st', a, Choosing), a)
  }

  /** Creating the auth Secret fails when it already exists, whoever made it. */
  function StepCreateSecret(st: State, a: AttemptId, reply: Reply): State
    requires a in st.attempts && st.attempts[a].at.CreatingSecret?
  {
    var n, s := st.attempts[a].at.pod, st.attempts[a].session;
    if reply.Refused? || s in st.vault.inPlace then
      Move(st, a, RollingBack(n, false))
    else
      var st' := st.(vault := Make(st.vault, s, ByClaim(a)));
      if reply.Answered?
      then st'.(attempts := st.attempts[a := st.attempts[a].(at := Assigning(n), made := st.vault.next)])
      else Move(st', a, RollingBack(n, false))
  }

  /** `POST /assign` is accepted once per agent process. */
  function StepAssign(st: State, a: AttemptId, reply: Reply): (r: State)
    requires a in st.attempts && st.attempts[a].at.Assigning?
    ensures r.vault == st.vault && r.nextPod == st.nextPod
  {
    var n := st.attempts[a].at.pod;
    if reply.Refused? || n !in st.processes || st.processes[n] in st.tokens then
      Move(st, a, RollingBack(n, true))
    else
      var given := Assignment(st.attempts[a].session, ByClaim(a));
      var st' := st.(tokens := st.tokens[st.processes[n] := given]);
      Move(st', a, if reply.Answered? then Claimed(n, st.processes[n]) else RollingBack(n, true))
  }

  /** The rollback patch has no resourceVersion: it clears whatever label it finds. */
  function StepRollback(st: State, a: AttemptId, reply: Reply): (r: State)
    requires a in st.attempts && st.attempts[a].at.RollingBack?
    ensures r.vault == st.vault && r.nextPod == st.nextPod
  {
    var RollingBack(n, drop) := st.attempts[a].at;
    var st1 := if reply.Refused? then Unclean(st, a)
               else if n in st.current then Write(st, n, st.current[n].(tag := None))
               else st;
    Move(st1, a, if drop then DroppingSecret else Choosing)
  }

  /** The rollback of the Secret; the attempt takes the one that is there for its own. */
  function StepDropSecret(st: State, a: AttemptId, reply: Reply): State
    requires a in st.attempts && st.attempts[a].at.DroppingSecret?
  {
    var s := st.attempts[a].session;
    Move(if reply.Refused? then st else st.(vault := Lose(st.vault, s, ByRollback(a))), a, Choosing)
  }

  // ----- The operator's pool delete -----

  /** The re-read may come from a cache: it returns any version ever stored. */
  function StepPoolRead(st: State, rv: nat): State {
    if rv < |st.versions| && Unassigned(st.versions[rv].pod) then
      var v := st.versions[rv];
      st.(intents := st.intents + {Intent(v.name, v.pod.uid, rv)})
    else st
  }

  /** The delete carries uid and resourceVersion preconditions. */
  function StepPoolDelete(st: State, i: Intent): State {
    if i in st.intents && i.name in st.current && st.current[i.name].rv == i.rv && st.current[i.name].uid == i.uid then
      Write(st, i.name, st.current[i.name].(deleting := true, poolDeleted := true))
    else st
  }

  function NewPod(st: State, tag: Option<Label>): Pod {
    Pod(|st.versions|, |st.versions|, tag, false, false, false, false)
  }

  function StartProcess(st: State, n: PodName): State {
    st.(processes := st.processes[n := st.nextProcess], nextProcess := st.nextProcess + 1)
  }

  function StepForeignAssign(st: State, n: PodName, s: Session): State {
    if n in st.processes && st.processes[n] !in st.tokens then
      st.(tokens := st.tokens[st.processes[n] := Assignment(s, ByOther)])
    else st
  }

  function StepPoolCreate(st: State): State {
    var n := Pool(st.nextPod);
    StartProcess(Write(st, n, NewPod(st, None)), n).(nextPod := st.nextPod + 1)
  }

  function StepOnDemandPod(st: State, s: Session): State {
    var n := OnDemand(s);
    StepForeignAssign(StartProcess(Write(st, n, NewPod(st, Some(Label(s, ByOther)))), n), n, s)
  }

  // ----- One step of any party; a step that is not enabled changes nothing -----

  predicate AtStage(st: State, step: Step) {
    match step
    case Choose(a, _) => a in st.attempts && st.attempts[a].at.Choosing?
    case GiveUp(a) => a in st.attempts && st.attempts[a].at.Choosing?
    case PatchLabel(a, _) => a in st.attempts && st.attempts[a].at.Patching?
    case CreateSecret(a, _) => a in st.attempts && st.attempts[a].at.CreatingSecret?
    case Assign(a, _) => a in st.attempts && st.attempts[a].at.Assigning?
    case Rollback(a, _) => a in st.attempts && st.attempts[a].at.RollingBack?
    case DropSecret(a, _) => a in st.attempts && st.attempts[a].at.DroppingSecret?
    case Begin(a, _) => a !in st.attempts
    case OnDemandPod(s) => OnDemand(s) !in st.current
    case MarkDeleted(n) => n in st.current
    case Vanish(n) => n in st.current && st.current[n].deleting
    case Report(n, _, _) => n in st.current
    case Restart(n) => n in st.processes
    case _ => true
  }

  predicate OfClaim(step: Step) {
    || step.Begin? || step.Choose? || step.GiveUp? || step.PatchLabel?
    || step.CreateSecret? || step.Assign? || step.Rollback? || step.DropSecret?
  }

  function ClaimStep(st: State, step: Step): State
    requires OfClaim(step) && AtStage(st, step)
  {
    match step
    case Begin(a, s) => st.(attempts := st.attempts[a := Attempt(s, Choosing, true, 0)])
    case Choose(a, rv) =>
      if rv < |st.versions| && Unassigned(st.versions[rv].pod) && Claimable(st.versions[rv].pod)
      then Move(st, a, Patching(st.versions[rv].name, rv)) else st
    case GiveUp(a) => Move(st, a, Failed)
    case PatchLabel(a, reply) => StepPatch(st, a, reply)
    case CreateSecret(a, reply) => StepCreateSecret(st, a, reply)
    case Assign(a, reply) => StepAssign(st, a, reply)
    case Rollback(a, reply) => StepRollback(st, a, reply)
    case DropSecret(a, reply) => StepDropSecret(st, a, reply)
  }

  function OtherStep(st: State, step: Step): State
    requires !OfClaim(step) && AtStage(st, step)
  {
    match step
    case PoolRead(rv) => StepPoolRead(st, rv)
    case PoolDelete(i) => StepPoolDelete(st, i)
    case PoolCreate => StepPoolCreate(st)
    case OnDemandSecret(s) => if s in st.vault.inPlace then st else st.(vault := Make(st.vault, s, ByOther))
    case OnDemandPod(s) => StepOnDemandPod(st, s)
    case CleanupSecret(s) => st.(vault := Lose(st.vault, s, ByCleanup))
    case MarkDeleted(n) => Write(st, n, st.current[n].(deleting := true))
    case Vanish(n) => st.(current := st.current - {n}, processes := st.processes - {n})
    case Report(n, terminal, backoff) => Write(st, n, st.current[n].(terminal := terminal, backoff := backoff))
    case Restart(n) => StartProcess(st, n)
    case ForeignAssign(n, s) => StepForeignAssign(st, n, s)
  }

  function Apply(st: State, step: Step): State {
    if !AtStage(st, step) then st else if OfClaim(step) then ClaimStep(st, step) else OtherStep(st, step)
  }

  /** The state after a run. */
  function Exec(steps: seq<Step>): State {
    if steps == [] then INITIAL else Apply(Exec(steps[..|steps| - 1]), steps[|steps| - 1])
  }

  // ----- What every run keeps -----

  /** The attempt has labelled this pod and has neither rolled it back nor given it up. */
  predicate Owns(t: Attempt, n: PodName) {
    match t.at
    case CreatingSecret(m) => m == n
    case Assigning(m) => m == n
    case RollingBack(m, _) => m == n
    case Claimed(m, _) => m == n
    case _ => false
  }

  /** The attempt is past Secret creation and has not deleted the Secret again. */
  predicate Holds(t: Attempt) {
    match t.at
    case Assigning(_) => true
    case RollingBack(_, drop) => drop
    case DroppingSecret => true
    case Claimed(_, _) => true
    case _ => false
  }

  ghost predicate VersionsOk(versions: seq<Version>, current: map<PodName, Pod>, nextPod: nat) {
    && (forall n :: n in current ==>
          current[n].rv < |versions| && versions[current[n].rv] == Version(n, current[n]))
    && (forall i :: 0 <= i < |versions| ==> VersionOk(versions[i], nextPod))
  }

  predicate VersionOk(v: Version, nextPod: nat) {
    && (v.name.Pool? ==> v.name.id < nextPod)
    && (v.name.OnDemand? ==> v.pod.tag.Some? && v.pod.tag.value.writer.ByOther?)
    && (v.pod.poolDeleted ==> v.pod.deleting && Unassigned(v.pod))
  }

  /** An attempt in the middle of a claim, or done, still has its own label on its pod. */
  ghost predicate OwnsLabel(current: map<PodName, Pod>, nextPod: nat, a: AttemptId, t: Attempt) {
    forall n :: Owns(t, n) ==>
      && n.Pool? && n.id < nextPod
      && (n in current ==> current[n].tag == Some(Label(t.session, ByClaim(a))))
  }

  predicate LabelledBy(p: Pod, a: AttemptId) { p.tag.Some? && p.tag.value.writer == ByClaim(a) }

  /** The labels an attempt wrote name its session; a clean attempt has one only on the pod it owns. */
  ghost predicate LabelsOwned(current: map<PodName, Pod>, a: AttemptId, t: Attempt) {
    forall n :: n in current && LabelledBy(current[n], a) ==>
      current[n].tag.value.session == t.session && (t.clean ==> Owns(t, n))
  }

  /** What a patch is aimed at was listed unassigned and claimable. */
  predicate CandidateOk(versions: seq<Version>, t: Attempt) {
    t.at.Patching? ==>
      && t.at.rv < |versions| && versions[t.at.rv].name == t.at.pod
      && Unassigned(versions[t.at.rv].pod) && Claimable(versions[t.at.rv].pod)
  }

  function Own(a: AttemptId, t: Attempt): Secret { Secret(t.made, t.session, ByClaim(a)) }

  /** A holder's own Secret is in place, or somebody else deleted it; what is in place is not older than its own. */
  predicate SecretHeld(v: Vault, a: AttemptId, t: Attempt) {
    Holds(t) ==>
      && (if Own(a, t) in v.gone then v.gone[Own(a, t)].who != ByRollback(a)
          else t.session in v.inPlace && v.inPlace[t.session] == Own(a, t))
      && t.made < v.next && (t.session in v.inPlace ==> t.made <= v.inPlace[t.session].id)
  }

  /** What is in place is numbered, and younger than everything of its session that is gone. */
  ghost predicate InPlaceOk(v: Vault) {
    && (forall s <- v.inPlace :: v.inPlace[s].session == s && v.inPlace[s].id < v.next && v.inPlace[s] !in v.gone)
    && (forall x <- v.gone :: x.id < v.next && v.gone[x].created <= v.next)
    && (forall x <- v.gone :: x.session in v.inPlace ==> Before(v, x, v.inPlace[x.session]))
  }

  /** Secret `x` was gone when `y` was created. */
  predicate Before(v: Vault, x: Secret, y: Secret) { x in v.gone && x.id < y.id && v.gone[x].created <= y.id }

  /** The Secrets of one session followed one another. */
  ghost predicate GoneInOrder(v: Vault) {
    forall x <- v.gone, y <- v.gone :: x.session == y.session && x != y ==> Before(v, x, y) || Before(v, y, x)
  }

  /** A Secret that a rollback took from somebody else: the attempt's own one had been taken before. */
  ghost predicate TakenInTurn(v: Vault) {
    forall x <- v.gone :: v.gone[x].who.ByRollback? && x.writer != ByClaim(v.gone[x].who.attempt) ==>
      exists y <- v.gone :: TakenFrom(v, y, x)
  }

  predicate TakenFrom(v: Vault, y: Secret, x: Secret) {
    && y in v.gone && x in v.gone && v.gone[x].who.ByRollback?
    && y.session == x.session && y.id < x.id
    && y.writer == ByClaim(v.gone[x].who.attempt) && v.gone[y].who != v.gone[x].who
  }

  ghost predicate VaultOk(v: Vault) { InPlaceOk(v) && GoneInOrder(v) && TakenInTurn(v) }

  predicate AgentHeld(tokens: map<nat, Assignment>, a: AttemptId, t: Attempt) {
    t.at.Claimed? ==> t.at.process in tokens && tokens[t.at.process] == Assignment(t.session, ByClaim(a))
  }

  ghost predicate AttemptOk(st: State, a: AttemptId, t: Attempt) {
    && OwnsLabel(st.current, st.nextPod, a, t)
    && LabelsOwned(st.current, a, t)
    && CandidateOk(st.versions, t)
    && SecretHeld(st.vault, a, t)
    && AgentHeld(st.tokens, a, t)
  }

  ghost predicate IntentsOk(intents: set<Intent>, versions: seq<Version>) {
    forall i :: i in intents ==>
      i.rv < |versions| && versions[i.rv].name == i.name && Unassigned(versions[i.rv].pod)
  }

  ghost predicate ProcessesOk(processes: map<PodName, nat>, nextProcess: nat, tokens: map<nat, Assignment>) {
    && (forall n :: n in processes ==> processes[n] < nextProcess)
    && (forall p :: p in tokens ==> p < nextProcess)
  }

  ghost predicate WritersKnown(current: map<PodName, Pod>, attempts: map<AttemptId, Attempt>) {
    forall n, a :: n in current && LabelledBy(current[n], a) ==> a in attempts
  }

  /** The invariant, leaving out the obligations of attempt `except`. */
  ghost predicate InvBut(st: State, except: Option<AttemptId>) {
    && VersionsOk(st.versions, st.current, st.nextPod)
    && IntentsOk(st.intents, st.versions)
    && ProcessesOk(st.processes, st.nextProcess, st.tokens)
    && WritersKnown(st.current, st.attempts)
    && VaultOk(st.vault)
    && (forall a :: a in st.attempts && Some(a) != except ==> AttemptOk(st, a, st.attempts[a]))
  }

  ghost predicate Inv(st: State) { InvBut(st, None) }

  /** Attempt `a` moving on, in a state where everyone else's obligations already hold. */
  lemma InvReplace(st: State, a: AttemptId, t: Attempt, st': State)
    requires InvBut(st, Some(a)) && AttemptOk(st, a, t)
    requires st' == st.(attempts := st.attempts[a := t])
    ensures Inv(st')
  {
    forall b | b in st'.attempts ensures AttemptOk(st', b, st'.attempts[b]) {
      assert b != a ==> AttemptOk(st, b, st.attempts[b]);
    }
  }

  lemma InvBegin(st: State, a: AttemptId, s: Session)
    requires Inv(st) && a !in st.attempts
    ensures Inv(Apply(st, Begin(a, s)))
  {
    InvReplace(st, a, Attempt(s, Choosing, true, 0), Apply(st, Begin(a, s)));
  }

  lemma InvMove(st: State, a: AttemptId, at: Progress)
    requires Inv(st) && a in st.attempts
    requires AttemptOk(st, a, st.attempts[a].(at := at))
    ensures Inv(Move(st, a, at))
  {
    InvReplace(st, a, st.attempts[a].(at := at), Move(st, a, at));
  }

  /** A pod write, as seen by attempt `b`: it keeps its obligations if the label stays, or never was its own. */
  lemma WriteFrame(st: State, n: PodName, p: Pod, b: AttemptId, t: Attempt)
    requires AttemptOk(st, b, t)
    requires (!Owns(t, n) && !LabelledBy(p, b)) || (n in st.current && p.tag == st.current[n].tag)
    ensures AttemptOk(Write(st, n, p), b, t)
  {
  }

  lemma WriteBase(st: State, n: PodName, p: Pod)
    requires VersionsOk(st.versions, st.current, st.nextPod) && IntentsOk(st.intents, st.versions)
    requires WritersKnown(st.current, st.attempts)
    requires VersionOk(Version(n, p), st.nextPod)
    requires forall a :: LabelledBy(p, a) ==> a in st.attempts
    ensures var w := Write(st, n, p);
            && VersionsOk(w.versions, w.current, w.nextPod)
            && IntentsOk(w.intents, w.versions)
            && WritersKnown(w.current, w.attempts)
  {
  }

  /**
   Writing a pod on behalf of attempt `a`, either labelling an unlabelled pod or clearing
   its own label: nobody else's obligations are touched.
   */
  lemma WriteFor(st: State, a: AttemptId, n: PodName, p: Pod)
    requires Inv(st) && a in st.attempts && n in st.current
    requires Unassigned(st.current[n]) || LabelledBy(st.current[n], a)
    requires Unassigned(p) || LabelledBy(p, a)
    requires VersionOk(Version(n, p), st.nextPod)
    ensures InvBut(Write(st, n, p), Some(a))
  {
    WriteBase(st, n, p);
    forall b | b in st.attempts && b != a ensures AttemptOk(Write(st, n, p), b, st.attempts[b]) {
      assert AttemptOk(st, b, st.attempts[b]);
      WriteFrame(st, n, p, b, st.attempts[b]);
    }
  }

  lemma PatchOwn(st: State, a: AttemptId, n: PodName, p: Pod, t: Attempt, answered: bool)
    requires AttemptOk(st, a, t) && t.at.Patching?
    requires n.Pool? && n.id < st.nextPod && p.tag == Some(Label(t.session, ByClaim(a)))
    ensures AttemptOk(Write(st, n, p), a, if answered then t.(at := CreatingSecret(n)) else t.(at := Choosing, clean := false))
  {
  }

  lemma RollbackIdle(st: State, a: AttemptId, t: Attempt, next: Progress, reply: Reply)
    requires AttemptOk(st, a, t) && t.at.RollingBack?
    requires next == if t.at.dropSecret then DroppingSecret else Choosing
    requires reply.Refused? || t.at.pod !in st.current
    ensures AttemptOk(st, a, t.(at := next, clean := t.clean && !reply.Refused?))
  {
  }

  lemma RollbackOwn(st: State, a: AttemptId, n: PodName, p: Pod, t: Attempt, next: Progress)
    requires AttemptOk(st, a, t) && t.at.RollingBack? && t.at.pod == n && Unassigned(p)
    requires next == if t.at.dropSecret then DroppingSecret else Choosing
    ensures AttemptOk(Write(st, n, p), a, t.(at := next))
  {
  }

  lemma InvPatchWritten(st: State, a: AttemptId, n: PodName, p: Pod, t: Attempt, answered: bool)
    requires Inv(st) && a in st.attempts && t == st.attempts[a] && t.at.Patching? && t.at.pod == n
    requires n in st.current && st.current[n].rv == t.at.rv
    requires p == st.current[n].(tag := Some(Label(t.session, ByClaim(a))))
    ensures Inv(Write(st, n, p).(attempts := st.attempts[
                  a := if answered then t.(at := CreatingSecret(n)) else t.(at := Choosing, clean := false)]))
  {
    assert AttemptOk(st, a, t);
    assert VersionOk(st.versions[t.at.rv], st.nextPod) && st.versions[t.at.rv] == Version(n, st.current[n]);
    WriteFor(st, a, n, p);
    PatchOwn(st, a, n, p, t, answered);
    var w, t' := Write(st, n, p), if answered then t.(at := CreatingSecret(n)) else t.(at := Choosing, clean := false);
    InvReplace(w, a, t', w.(attempts := w.attempts[a := t']));
  }

  lemma InvPatchMissed(st: State, a: AttemptId)
    requires Inv(st) && a in st.attempts && st.attempts[a].at.Patching?
    ensures Inv(Move(st, a, Choosing))
  {
    assert AttemptOk(st, a, st.attempts[a]);
    InvMove(st, a, Choosing);
  }

  predicate PatchMisses(st: State, a: AttemptId, reply: Reply)
    requires a in st.attempts && st.attempts[a].at.Patching?
  {
    var Patching(n, rv) := st.attempts[a].at;
    reply.Refused? || n !in st.current || st.current[n].rv != rv
  }

  lemma PatchOutcome(st: State, a: AttemptId, reply: Reply)
    requires a in st.attempts && st.attempts[a].at.Patching?
    ensures PatchMisses(st, a, reply) ==> StepPatch(st, a, reply) == Move(st, a, Choosing)
    ensures !PatchMisses(st, a, reply) ==>
              var t := st.attempts[a];
              var n := t.at.pod;
              StepPatch(st, a, reply) == Write(st, n, st.current[n].(tag := Some(Label(t.session, ByClaim(a))))).(attempts := st.attempts[
                a := if reply.Answered? then t.(at := CreatingSecret(n)) else t.(at := Choosing, clean := false)])
  {
  }

  lemma InvPatch(st: State, a: AttemptId, reply: Reply)
    requires Inv(st) && a in st.attempts && st.attempts[a].at.Patching?
    ensures Inv(StepPatch(st, a, reply))
  {
    PatchOutcome(st, a, reply);
    if PatchMisses(st, a, reply) {
      InvPatchMissed(st, a);
    } else {
      var t := st.attempts[a];
      var n := t.at.pod;
      InvPatchWritten(st, a, n, st.current[n].(tag := Some(Label(t.session, ByClaim(a)))), t, reply.Answered?);
    }
  }

  lemma VaultMake(v: Vault, s: Session, w: Writer)
    requires VaultOk(v) && s !in v.inPlace
    ensures VaultOk(Make(v, s, w))
  {
    var v' := Make(v, s, w);
    forall x <- v'.gone | v'.gone[x].who.ByRollback? && x.writer != ByClaim(v'.gone[x].who.attempt)
      ensures exists y <- v'.gone :: TakenFrom(v', y, x)
    {
      var y :| y in v.gone && TakenFrom(v, y, x);
      assert TakenFrom(v', y, x);
    }
  }

  /** A deletion keeps the vault in order if a rollback that takes a foreign Secret lost its own before. */
  lemma VaultLose(v: Vault, s: Session, who: Deleter, own: Secret)
    requires VaultOk(v) && s in v.inPlace
    requires who.ByRollback? && v.inPlace[s].writer != ByClaim(who.attempt) ==>
               && own in v.gone && own.session == s && own.id < v.inPlace[s].id
               && own.writer == ByClaim(who.attempt) && v.gone[own].who != who
    ensures VaultOk(Lose(v, s, who))
  {
    var v', z := Lose(v, s, who), v.inPlace[s];
    forall x <- v'.gone, y <- v'.gone | x.session == y.session && x != y ensures Before(v', x, y) || Before(v', y, x) {
      if x != z && y != z {
        assert Before(v, x, y) || Before(v, y, x);
      } else {
        assert x != z ==> Before(v, x, z);
        assert y != z ==> Before(v, y, z);
      }
    }
    forall x <- v'.gone | v'.gone[x].who.ByRollback? && x.writer != ByClaim(v'.gone[x].who.attempt)
      ensures exists y <- v'.gone :: TakenFrom(v', y, x)
    {
      if x == z {
        assert TakenFrom(v', own, x);
      } else {
        var y :| y in v.gone && TakenFrom(v, y, x);
        assert TakenFrom(v', y, x);
      }
    }
  }

  /** A new Secret leaves every other attempt's obligations standing. */
  lemma MakeFrame(v: Vault, s: Session, w: Writer, b: AttemptId, t: Attempt)
    requires VaultOk(v) && s !in v.inPlace && SecretHeld(v, b, t)
    ensures SecretHeld(Make(v, s, w), b, t)
  {
  }

  lemma LoseFrame(v: Vault, s: Session, who: Deleter, b: AttemptId, t: Attempt)
    requires VaultOk(v) && SecretHeld(v, b, t) && who != ByRollback(b)
    ensures SecretHeld(Lose(v, s, who), b, t)
  {
  }

  lemma InvVault(st: State, v: Vault, except: Option<AttemptId>)
    requires Inv(st) && VaultOk(v)
    requires forall b :: b in st.attempts && Some(b) != except ==> SecretHeld(v, b, st.attempts[b])
    ensures InvBut(st.(vault := v), except)
  {
    var w := st.(vault := v);
    forall b | b in st.attempts && Some(b) != except ensures AttemptOk(w, b, st.attempts[b]) {
      assert AttemptOk(st, b, st.attempts[b]);
    }
  }

  lemma InvMadeSecret(st: State, a: AttemptId, t: Attempt, t': Attempt)
    requires Inv(st) && a in st.attempts && t == st.attempts[a] && t.at.CreatingSecret? && t.session !in st.vault.inPlace
    requires t' == t.(at := Assigning(t.at.pod), made := st.vault.next) || t' == t.(at := RollingBack(t.at.pod, false))
    ensures Inv(st.(vault := Make(st.vault, t.session, ByClaim(a)), attempts := st.attempts[a := t']))
  {
    var v := Make(st.vault, t.session, ByClaim(a));
    VaultMake(st.vault, t.session, ByClaim(a));
    forall b | b in st.attempts && b != a ensures SecretHeld(v, b, st.attempts[b]) {
      assert AttemptOk(st, b, st.attempts[b]);
      MakeFrame(st.vault, t.session, ByClaim(a), b, st.attempts[b]);
    }
    InvVault(st, v, Some(a));
    var w := st.(vault := v);
    assert AttemptOk(st, a, t);
    OwnMade(st, a, t, t');
    InvReplace(w, a, t', w.(attempts := w.attempts[a := t']));
  }

  lemma OwnMade(st: State, a: AttemptId, t: Attempt, t': Attempt)
    requires AttemptOk(st, a, t) && VaultOk(st.vault) && t.at.CreatingSecret? && t.session !in st.vault.inPlace
    requires t' == t.(at := Assigning(t.at.pod), made := st.vault.next) || t' == t.(at := RollingBack(t.at.pod, false))
    ensures AttemptOk(st.(vault := Make(st.vault, t.session, ByClaim(a))), a, t')
  {
  }

  lemma CreateSecretOutcome(st: State, a: AttemptId, reply: Reply)
    requires a in st.attempts && st.attempts[a].at.CreatingSecret?
    ensures var t := st.attempts[a];
            if reply.Refused? || t.session in st.vault.inPlace
            then StepCreateSecret(st, a, reply) == Move(st, a, RollingBack(t.at.pod, false))
            else StepCreateSecret(st, a, reply)
                 == st.(vault := Make(st.vault, t.session, ByClaim(a)), attempts := st.attempts[a :=
                      if reply.Answered? then t.(at := Assigning(t.at.pod), made := st.vault.next)
                      else t.(at := RollingBack(t.at.pod, false))])
  {
  }

  lemma InvCreateSecret(st: State, a: AttemptId, reply: Reply)
    requires Inv(st) && a in st.attempts && st.attempts[a].at.CreatingSecret?
    ensures Inv(StepCreateSecret(st, a, reply))
  {
    var t := st.attempts[a];
    CreateSecretOutcome(st, a, reply);
    if reply.Refused? || t.session in st.vault.inPlace {
      assert AttemptOk(st, a, t);
      InvMove(st, a, RollingBack(t.at.pod, false));
    } else {
      InvMadeSecret(st, a, t, if reply.Answered? then t.(at := Assigning(t.at.pod), made := st.vault.next)
                              else t.(at := RollingBack(t.at.pod, false)));
    }
  }

  lemma InvAssigned(st: State, a: AttemptId, process: nat, t: Attempt, t': Attempt)
    requires Inv(st) && a in st.attempts && t == st.attempts[a] && t.at.Assigning?
    requires process !in st.tokens && process < st.nextProcess
    requires t' == t.(at := Claimed(t.at.pod, process)) || t' == t.(at := RollingBack(t.at.pod, true))
    ensures Inv(st.(tokens := st.tokens[process := Assignment(t.session, ByClaim(a))], attempts := st.attempts[a := t']))
  {
    assert AttemptOk(st, a, t);
    var w := st.(tokens := st.tokens[process := Assignment(t.session, ByClaim(a))]);
    forall b | b in st.attempts && b != a ensures AttemptOk(w, b, st.attempts[b]) {
      assert AttemptOk(st, b, st.attempts[b]);
    }
    InvReplace(w, a, t', w.(attempts := w.attempts[a := t']));
  }

  lemma InvAssign(st: State, a: AttemptId, reply: Reply)
    requires Inv(st) && a in st.attempts && st.attempts[a].at.Assigning?
    ensures Inv(StepAssign(st, a, reply))
  {
    var t := st.attempts[a];
    var n := t.at.pod;
    if reply.Refused? || n !in st.processes || st.processes[n] in st.tokens {
      assert AttemptOk(st, a, t);
      InvMove(st, a, RollingBack(n, true));
    } else {
      InvAssigned(st, a, st.processes[n], t, StepAssign(st, a, reply).attempts[a]);
    }
  }

  lemma InvRollbackWritten(st: State, a: AttemptId, n: PodName, t: Attempt, next: Progress)
    requires Inv(st) && a in st.attempts && t == st.attempts[a] && t.at.RollingBack? && t.at.pod == n && n in st.current
    requires next == if t.at.dropSecret then DroppingSecret else Choosing
    ensures Inv(Move(Write(st, n, st.current[n].(tag := None)), a, next))
  {
    var p := st.current[n].(tag := None);
    assert AttemptOk(st, a, t) && Owns(t, n);
    assert VersionOk(st.versions[st.current[n].rv], st.nextPod);
    WriteFor(st, a, n, p);
    RollbackOwn(st, a, n, p, t, next);
    InvReplace(Write(st, n, p), a, t.(at := next), Move(Write(st, n, p), a, next));
  }

  lemma InvRollbackIdle(st: State, a: AttemptId, t: Attempt, next: Progress, reply: Reply)
    requires Inv(st) && a in st.attempts && t == st.attempts[a] && t.at.RollingBack?
    requires next == if t.at.dropSecret then DroppingSecret else Choosing
    requires reply.Refused? || t.at.pod !in st.current
    ensures Inv(st.(attempts := st.attempts[a := t.(at := next, clean := t.clean && !reply.Refused?)]))
  {
    assert AttemptOk(st, a, t);
    RollbackIdle(st, a, t, next, reply);
    var t' := t.(at := next, clean := t.clean && !reply.Refused?);
    InvReplace(st, a, t', st.(attempts := st.attempts[a := t']));
  }

  lemma RollbackOutcome(st: State, a: AttemptId, reply: Reply)
    requires a in st.attempts && st.attempts[a].at.RollingBack?
    ensures var t := st.attempts[a];
            var n, next := t.at.pod, if t.at.dropSecret then DroppingSecret else Choosing;
            StepRollback(st, a, reply)
            == if reply.Refused? || n !in st.current
               then st.(attempts := st.attempts[a := t.(at := next, clean := t.clean && !reply.Refused?)])
               else Move(Write(st, n, st.current[n].(tag := None)), a, next)
  {
  }

  lemma InvRollback(st: State, a: AttemptId, reply: Reply)
    requires Inv(st) && a in st.attempts && st.attempts[a].at.RollingBack?
    ensures Inv(StepRollback(st, a, reply))
  {
    var t := st.attempts[a];
    var next := if t.at.dropSecret then DroppingSecret else Choosing;
    RollbackOutcome(st, a, reply);
    if reply.Refused? || t.at.pod !in st.current {
      InvRollbackIdle(st, a, t, next, reply);
    } else {
      InvRollbackWritten(st, a, t.at.pod, t, next);
    }
  }

  lemma InvLost(st: State, s: Session, who: Deleter, own: Secret)
    requires Inv(st) && s in st.vault.inPlace
    requires who.ByRollback? && st.vault.inPlace[s].writer != ByClaim(who.attempt) ==>
               && own in st.vault.gone && own.session == s && own.id < st.vault.inPlace[s].id
               && own.writer == ByClaim(who.attempt) && st.vault.gone[own].who != who
    ensures InvBut(st.(vault := Lose(st.vault, s, who)), if who.ByRollback? then Some(who.attempt) else None)
  {
    VaultLose(st.vault, s, who, own);
    forall b | b in st.attempts && who != ByRollback(b) ensures SecretHeld(Lose(st.vault, s, who), b, st.attempts[b]) {
      assert AttemptOk(st, b, st.attempts[b]);
      LoseFrame(st.vault, s, who, b, st.attempts[b]);
    }
    InvVault(st, Lose(st.vault, s, who), if who.ByRollback? then Some(who.attempt) else None);
  }

  /** A rollback that finds another Secret than its own lost its own before. */
  lemma OwnLostBefore(v: Vault, a: AttemptId, t: Attempt)
    requires VaultOk(v) && SecretHeld(v, a, t) && Holds(t) && t.session in v.inPlace && v.inPlace[t.session] != Own(a, t)
    ensures Own(a, t) in v.gone && v.gone[Own(a, t)].who != ByRollback(a) && t.made < v.inPlace[t.session].id
  {
    assert Before(v, Own(a, t), v.inPlace[t.session]);
  }

  lemma InvDropped(st: State, a: AttemptId, t: Attempt)
    requires Inv(st) && a in st.attempts && t == st.attempts[a] && t.at.DroppingSecret? && t.session in st.vault.inPlace
    ensures Inv(st.(vault := Lose(st.vault, t.session, ByRollback(a)), attempts := st.attempts[a := t.(at := Choosing)]))
  {
    assert AttemptOk(st, a, t);
    if st.vault.inPlace[t.session] != Own(a, t) {
      OwnLostBefore(st.vault, a, t);
    }
    InvLost(st, t.session, ByRollback(a), Own(a, t));
    var w := st.(vault := Lose(st.vault, t.session, ByRollback(a)));
    InvReplace(w, a, t.(at := Choosing), w.(attempts := w.attempts[a := t.(at := Choosing)]));
  }

  lemma InvDropSecret(st: State, a: AttemptId, reply: Reply)
    requires Inv(st) && a in st.attempts && st.attempts[a].at.DroppingSecret?
    ensures Inv(StepDropSecret(st, a, reply))
  {
    var t := st.attempts[a];
    if reply.Refused? || t.session !in st.vault.inPlace {
      assert AttemptOk(st, a, t);
      InvMove(st, a, Choosing);
    } else {
      InvDropped(st, a, t);
    }
  }

  /** Rewriting a pod without touching its label: status reports and both kinds of delete mark. */
  lemma InvRewrite(st: State, n: PodName, p: Pod)
    requires Inv(st) && n in st.current && p.tag == st.current[n].tag
    requires VersionOk(Version(n, p), st.nextPod)
    ensures Inv(Write(st, n, p))
  {
    WriteBase(st, n, p);
    forall b | b in st.attempts ensures AttemptOk(Write(st, n, p), b, st.attempts[b]) {
      assert AttemptOk(st, b, st.attempts[b]);
      WriteFrame(st, n, p, b, st.attempts[b]);
    }
  }

  lemma InvNewPod(st: State, n: PodName, p: Pod, next: nat)
    requires Inv(st) && n !in st.current
    requires p.tag.Some? ==> p.tag.value.writer.ByOther?
    requires VersionOk(Version(n, p), next) && st.nextPod <= next
    requires n.Pool? ==> st.nextPod <= n.id
    ensures Inv(Write(st.(nextPod := next), n, p))
  {
    var st1 := st.(nextPod := next);
    forall i | 0 <= i < |st.versions| ensures VersionOk(st.versions[i], next) {
      assert VersionOk(st.versions[i], st.nextPod);
    }
    WriteBase(st1, n, p);
    forall b | b in st.attempts ensures AttemptOk(Write(st1, n, p), b, st.attempts[b]) {
      assert AttemptOk(st, b, st.attempts[b]);
      WriteFrame(st1, n, p, b, st.attempts[b]);
    }
  }

  /** Agents starting or being assigned by someone else do not disturb any attempt. */
  lemma InvAgents(st: State, processes: map<PodName, nat>, nextProcess: nat, tokens: map<nat, Assignment>)
    requires Inv(st) && ProcessesOk(processes, nextProcess, tokens)
    requires forall p :: p in st.tokens ==> p in tokens && tokens[p] == st.tokens[p]
    ensures Inv(st.(processes := processes, nextProcess := nextProcess, tokens := tokens))
  {
    var st' := st.(processes := processes, nextProcess := nextProcess, tokens := tokens);
    forall b | b in st.attempts ensures AttemptOk(st', b, st.attempts[b]) {
      assert AttemptOk(st, b, st.attempts[b]);
    }
  }

  lemma InvSecrets(st: State, step: Step)
    requires Inv(st) && (step.OnDemandSecret? || step.CleanupSecret?)
    ensures Inv(OtherStep(st, step))
  {
    if step.CleanupSecret? {
      if step.s in st.vault.inPlace {
        InvLost(st, step.s, ByCleanup, st.vault.inPlace[step.s]);
      }
    } else if step.s !in st.vault.inPlace {
      var v := Make(st.vault, step.s, ByOther);
      VaultMake(st.vault, step.s, ByOther);
      forall b | b in st.attempts ensures SecretHeld(v, b, st.attempts[b]) {
        assert AttemptOk(st, b, st.attempts[b]);
        MakeFrame(st.vault, step.s, ByOther, b, st.attempts[b]);
      }
      InvVault(st, v, None);
    }
  }

  lemma InvVanish(st: State, n: PodName)
    requires Inv(st)
    ensures Inv(st.(current := st.current - {n}, processes := st.processes - {n}))
  {
    var st' := st.(current := st.current - {n}, processes := st.processes - {n});
    forall b | b in st.attempts ensures AttemptOk(st', b, st.attempts[b]) {
      assert AttemptOk(st, b, st.attempts[b]);
    }
  }

  lemma InvPool(st: State, step: Step)
    requires Inv(st) && (step.PoolRead? || step.PoolDelete?)
    ensures Inv(Apply(st, step))
  {
    match step
    case PoolRead(rv) =>
      var st' := Apply(st, step);
      forall b | b in st.attempts ensures AttemptOk(st', b, st.attempts[b]) {
        assert AttemptOk(st, b, st.attempts[b]);
      }
    case PoolDelete(i) =>
      if Apply(st, step) != st {
        assert VersionOk(st.versions[i.rv], st.nextPod);
        InvRewrite(st, i.name, st.current[i.name].(deleting := true, poolDeleted := true));
      }
  }

  lemma PoolCreateOutcome(st: State)
    ensures var n := Pool(st.nextPod);
            StepPoolCreate(st)
            == Write(st.(nextPod := st.nextPod + 1), n, NewPod(st, None)).(
                 processes := st.processes[n := st.nextProcess], nextProcess := st.nextProcess + 1)
  {
  }

  lemma InvPoolCreate(st: State)
    requires Inv(st)
    ensures Inv(StepPoolCreate(st))
  {
    var n := Pool(st.nextPod);
    forall m | m in st.current ensures m.Pool? ==> m.id < st.nextPod {
      assert VersionOk(st.versions[st.current[m].rv], st.nextPod);
    }
    InvNewPod(st, n, NewPod(st, None), st.nextPod + 1);
    var st1 := Write(st.(nextPod := st.nextPod + 1), n, NewPod(st, None));
    InvAgents(st1, st.processes[n := st.nextProcess], st.nextProcess + 1, st.tokens);
    PoolCreateOutcome(st);
  }

  lemma InvOnDemandPod(st: State, s: Session)
    requires Inv(st) && OnDemand(s) !in st.current
    ensures Inv(StepOnDemandPod(st, s))
  {
    var n, p := OnDemand(s), NewPod(st, Some(Label(s, ByOther)));
    InvNewPod(st, n, p, st.nextPod);
    InvAgents(Write(st, n, p), st.processes[n := st.nextProcess], st.nextProcess + 1,
              st.tokens[st.nextProcess := Assignment(s, ByOther)]);
  }

  lemma InvClaimStep(st: State, step: Step)
    requires Inv(st) && OfClaim(step) && AtStage(st, step)
    ensures Inv(ClaimStep(st, step))
  {
    match step
    case Begin(a, s) => InvBegin(st, a, s);
    case Choose(a, rv) =>
      assert AttemptOk(st, a, st.attempts[a]);
      if ClaimStep(st, step) != st { InvMove(st, a, Patching(st.versions[rv].name, rv)); }
    case GiveUp(a) =>
      assert AttemptOk(st, a, st.attempts[a]);
      InvMove(st, a, Failed);
    case PatchLabel(a, reply) => InvPatch(st, a, reply);
    case CreateSecret(a, reply) => InvCreateSecret(st, a, reply);
    case Assign(a, reply) => InvAssign(st, a, reply);
    case Rollback(a, reply) => InvRollback(st, a, reply);
    case DropSecret(a, reply) => InvDropSecret(st, a, reply);
  }

  lemma InvOtherStep(st: State, step: Step)
    requires Inv(st) && !OfClaim(step) && AtStage(st, step)
    ensures Inv(OtherStep(st, step))
  {
    match step
    case PoolRead(_) => InvPool(st, step);
    case PoolDelete(_) => InvPool(st, step);
    case PoolCreate => InvPoolCreate(st);
    case OnDemandSecret(_) => InvSecrets(st, step);
    case CleanupSecret(_) => InvSecrets(st, step);
    case OnDemandPod(s) => InvOnDemandPod(st, s);
    case MarkDeleted(n) =>
      assert VersionOk(st.versions[st.current[n].rv], st.nextPod);
      InvRewrite(st, n, st.current[n].(deleting := true));
    case Report(n, terminal, backoff) =>
      assert VersionOk(st.versions[st.current[n].rv], st.nextPod);
      InvRewrite(st, n, st.current[n].(terminal := terminal, backoff := backoff));
    case Vanish(n) => InvVanish(st, n);
    case Restart(n) => InvAgents(st, st.processes[n := st.nextProcess], st.nextProcess + 1, st.tokens);
    case ForeignAssign(n, s) =>
      if OtherStep(st, step) != st {
        InvAgents(st, st.processes, st.nextProcess, st.tokens[st.processes[n] := Assignment(s, ByOther)]);
      }
  }

  lemma InvStep(st: State, step: Step)
    requires Inv(st)
    ensures Inv(Apply(st, step))
  {
    if AtStage(st, step) {
      if OfClaim(step) {
        InvClaimStep(st, step);
      } else {
        InvOtherStep(st, step);
      }
    }
  }

  lemma {:induction false} InvExec(steps: seq<Step>)
    ensures Inv(Exec(steps))
  {
    if steps != [] {
      InvExec(steps[..|steps| - 1]);
      InvStep(Exec(steps[..|steps| - 1]), steps[|steps| - 1]);
    }
  }

  // ----- What holds of every run -----

  /** The one way a label may change in a step from `st`. */
  ghost predicate LabelMove(st: State, step: Step, n: PodName) {
    var st' := Apply(st, step);
    n in st.current && n in st'.current && st'.current[n].tag != st.current[n].tag ==>
      && (step.PatchLabel? || step.Rollback?)
      && step.a in st.attempts
      && var own := Some(Label(st.attempts[step.a].session, ByClaim(step.a)));
         if step.PatchLabel?
         then Unassigned(st.current[n]) && Claimable(st.current[n]) && st'.current[n].tag == own
         else st.current[n].tag == own && st'.current[n].tag == None
  }

  lemma LabelMovePatch(st: State, step: Step, n: PodName)
    requires Inv(st) && step.PatchLabel?
    ensures LabelMove(st, step, n)
  {
    if AtStage(st, step) {
      assert AttemptOk(st, step.a, st.attempts[step.a]);
    }
  }

  lemma LabelMoveRollback(st: State, step: Step, n: PodName)
    requires Inv(st) && step.Rollback?
    ensures LabelMove(st, step, n)
  {
    if AtStage(st, step) {
      assert AttemptOk(st, step.a, st.attempts[step.a]) && Owns(st.attempts[step.a], st.attempts[step.a].at.pod);
    }
  }

  lemma ClaimStepsKeepLabels(st: State, step: Step)
    requires OfClaim(step) && AtStage(st, step) && !step.PatchLabel? && !step.Rollback?
    ensures ClaimStep(st, step).current == st.current
  {
  }

  lemma OtherStepsKeepLabels(st: State, step: Step, n: PodName)
    requires Inv(st) && !OfClaim(step) && AtStage(st, step) && n in st.current
    ensures n in OtherStep(st, step).current ==> OtherStep(st, step).current[n].tag == st.current[n].tag
  {
    assert VersionOk(st.versions[st.current[n].rv], st.nextPod);
  }

  lemma LabelStays(st: State, step: Step, n: PodName)
    requires Inv(st) && !step.PatchLabel? && !step.Rollback? && n in st.current
    ensures n in Apply(st, step).current ==> Apply(st, step).current[n].tag == st.current[n].tag
  {
    if AtStage(st, step) {
      if OfClaim(step) {
        ClaimStepsKeepLabels(st, step);
      } else {
        OtherStepsKeepLabels(st, step, n);
      }
    }
  }

  /**
   A session label only appears on an unlabelled, claimable pod by the patch of the
   attempt it names, and only disappears by the rollback of that same attempt.
   */
  lemma LabelsMoveOnlyByTheirClaim(steps: seq<Step>, step: Step, n: PodName)
    ensures LabelMove(Exec(steps), step, n)
  {
    InvExec(steps);
    if step.PatchLabel? {
      LabelMovePatch(Exec(steps), step, n);
    } else if step.Rollback? {
      LabelMoveRollback(Exec(steps), step, n);
    } else if n in Exec(steps).current {
      LabelStays(Exec(steps), step, n);
    }
  }

  function Then(st: State, later: seq<Step>): State {
    if later == [] then st else Apply(Then(st, later[..|later| - 1]), later[|later| - 1])
  }

  lemma {:induction false} ExecThen(steps: seq<Step>, later: seq<Step>)
    ensures Exec(steps + later) == Then(Exec(steps), later)
  {
    if later == [] {
      assert steps + later == steps;
    } else {
      ExecThen(steps, later[..|later| - 1]);
      assert (steps + later)[..|steps + later| - 1] == steps + later[..|later| - 1];
    }
  }

  /** The pod was deleted by the pool, or is already gone for good. */
  ghost predicate Doomed(st: State, n: PodName) {
    && n.Pool? && n.id < st.nextPod
    && (n in st.current ==> st.current[n].poolDeleted)
  }

  lemma DoomedClaimStep(st: State, step: Step, n: PodName)
    requires Doomed(st, n) && OfClaim(step) && AtStage(st, step)
    ensures Doomed(ClaimStep(st, step), n)
  {
  }

  lemma DoomedOtherStep(st: State, step: Step, n: PodName)
    requires Doomed(st, n) && !OfClaim(step) && AtStage(st, step)
    ensures Doomed(OtherStep(st, step), n)
  {
  }

  lemma DoomedStep(st: State, step: Step, n: PodName)
    requires Doomed(st, n)
    ensures Doomed(Apply(st, step), n)
  {
    if AtStage(st, step) {
      if OfClaim(step) {
        DoomedClaimStep(st, step, n);
      } else {
        DoomedOtherStep(st, step, n);
      }
    }
  }

  lemma {:induction false} DoomedForever(st: State, later: seq<Step>, n: PodName)
    requires Doomed(st, n)
    ensures Doomed(Then(st, later), n)
  {
    if later != [] {
      DoomedForever(st, later[..|later| - 1], n);
      DoomedStep(Then(st, later[..|later| - 1]), later[|later| - 1], n);
    }
  }

  /**
   However old the operator's read, a pool delete that takes effect hits a pod without a
   session label, and no session label ever appears on that pod afterwards.
   */
  lemma PoolDeleteSparesSessions(steps: seq<Step>, i: Intent, later: seq<Step>)
    requires Apply(Exec(steps), PoolDelete(i)) != Exec(steps)
    ensures i.name in Exec(steps).current && Unassigned(Exec(steps).current[i.name])
    ensures var end := Exec(steps + [PoolDelete(i)] + later);
            i.name in end.current ==> Unassigned(end.current[i.name]) && end.current[i.name].deleting
  {
    var st, all := Exec(steps), steps + [PoolDelete(i)];
    InvExec(steps);
    assert VersionOk(st.versions[i.rv], st.nextPod);
    ExecThen(steps, [PoolDelete(i)]);
    assert [PoolDelete(i)][..0] == [];
    assert Exec(all) == Apply(st, PoolDelete(i));
    DoomedForever(Exec(all), later, i.name);
    ExecThen(all, later);
    InvExec(all + later);
    var end := Exec(all + later);
    if i.name in end.current {
      assert VersionOk(end.versions[end.current[i.name].rv], end.nextPod);
    }
  }

  /** Attempts of one session past Secret creation: the younger one's Secret was created after the older one's was gone. */
  lemma HoldersFollow(v: Vault, a: AttemptId, ta: Attempt, b: AttemptId, tb: Attempt)
    requires VaultOk(v) && SecretHeld(v, a, ta) && SecretHeld(v, b, tb) && Holds(ta) && Holds(tb)
    requires a != b && ta.session == tb.session
    ensures Before(v, Own(a, ta), Own(b, tb)) || Before(v, Own(b, tb), Own(a, ta))
  {
    if Own(a, ta) in v.gone && Own(b, tb) in v.gone {
      assert Own(a, ta) != Own(b, tb);
    }
  }

  /**
   The session Secret is a lock. If two attempts of one session are past its creation, then the Secret of
   the one that came first had been deleted before the other created its own, and not by the first one.
   */
  lemma SecretIsALock(steps: seq<Step>, a: AttemptId, b: AttemptId)
    requires a in Exec(steps).attempts && b in Exec(steps).attempts && a != b
    requires Holds(Exec(steps).attempts[a]) && Holds(Exec(steps).attempts[b])
    requires Exec(steps).attempts[a].session == Exec(steps).attempts[b].session
    ensures var st := Exec(steps);
            var x, y := Own(a, st.attempts[a]), Own(b, st.attempts[b]);
            || (Before(st.vault, x, y) && st.vault.gone[x].who != ByRollback(a))
            || (Before(st.vault, y, x) && st.vault.gone[y].who != ByRollback(b))
  {
    InvExec(steps);
    var st := Exec(steps);
    assert AttemptOk(st, a, st.attempts[a]) && AttemptOk(st, b, st.attempts[b]);
    HoldersFollow(st.vault, a, st.attempts[a], b, st.attempts[b]);
  }

  /** So while no Secret of the session was ever deleted by anyone but its creator, at most one attempt is past creation. */
  lemma UntouchedSecretIsExclusive(steps: seq<Step>, a: AttemptId, b: AttemptId)
    requires a in Exec(steps).attempts && b in Exec(steps).attempts
    requires Holds(Exec(steps).attempts[a]) && Holds(Exec(steps).attempts[b])
    requires Exec(steps).attempts[a].session == Exec(steps).attempts[b].session
    requires Own(a, Exec(steps).attempts[a]) !in Exec(steps).vault.gone
    requires Own(b, Exec(steps).attempts[b]) !in Exec(steps).vault.gone
    ensures a == b
  {
    if a != b {
      SecretIsALock(steps, a, b);
    }
  }

  /** A Secret taken by the rollback of another attempt goes back to a cleanup that took an earlier one of the session. */
  lemma {:induction false} TakenGoesBackToACleanup(v: Vault, x: Secret) returns (z: Secret)
    requires VaultOk(v) && x in v.gone
    requires v.gone[x].who.ByRollback? ==> x.writer != ByClaim(v.gone[x].who.attempt)
    ensures z in v.gone && v.gone[z].who == ByCleanup && z.session == x.session && z.id <= x.id
    decreases x.id
  {
    if v.gone[x].who.ByCleanup? {
      z := x;
    } else {
      var y :| y in v.gone && TakenFrom(v, y, x);
      z := TakenGoesBackToACleanup(v, y);
    }
  }

  /** Two attempts of one session past Secret creation mean that a cleanup has deleted a Secret of that session. */
  lemma NoLockFailsWithoutACleanup(steps: seq<Step>, a: AttemptId, b: AttemptId) returns (z: Secret)
    requires a in Exec(steps).attempts && b in Exec(steps).attempts && a != b
    requires Holds(Exec(steps).attempts[a]) && Holds(Exec(steps).attempts[b])
    requires Exec(steps).attempts[a].session == Exec(steps).attempts[b].session
    ensures var st := Exec(steps);
            && z in st.vault.gone && st.vault.gone[z].who == ByCleanup && z.session == st.attempts[a].session
            && z.id <= Max(st.attempts[a].made, st.attempts[b].made)
  {
    InvExec(steps);
    SecretIsALock(steps, a, b);
    var st := Exec(steps);
    var x, y := Own(a, st.attempts[a]), Own(b, st.attempts[b]);
    z := TakenGoesBackToACleanup(st.vault, if Before(st.vault, x, y) && st.vault.gone[x].who != ByRollback(a) then x else y);
  }

  /**
   How a Secret that is in place can end in a step: by its creator's rollback, by a cleanup, or by the
   rollback of an attempt that lost its own Secret before. It is never replaced while it is in place.
   */
  ghost predicate SecretMove(st: State, step: Step, v': Vault, s: Session) {
    var v := st.vault;
    s in v.inPlace ==>
      if s in v'.inPlace then v'.inPlace[s] == v.inPlace[s]
      else
        || step == CleanupSecret(s)
        || (step.DropSecret? && step.a in st.attempts && st.attempts[step.a].session == s
            && (v.inPlace[s].writer == ByClaim(step.a)
                || (Own(step.a, st.attempts[step.a]) in v.gone && v.gone[Own(step.a, st.attempts[step.a])].who != ByRollback(step.a))))
  }

  lemma SecretsEndOnlyByTheirCreator(steps: seq<Step>, step: Step, s: Session)
    ensures SecretMove(Exec(steps), step, Apply(Exec(steps), step).vault, s)
  {
    InvExec(steps);
    SecretStep(Exec(steps), step, s);
  }

  lemma SecretStep(st: State, step: Step, s: Session)
    requires Inv(st)
    ensures SecretMove(st, step, Apply(st, step).vault, s)
  {
    if AtStage(st, step) {
      if OfClaim(step) {
        SecretClaimStep(st, step, s);
      } else {
        SecretOtherStep(st, step, s);
      }
    }
  }

  lemma SecretClaimStep(st: State, step: Step, s: Session)
    requires Inv(st) && OfClaim(step) && AtStage(st, step)
    ensures SecretMove(st, step, ClaimStep(st, step).vault, s)
  {
    if step.DropSecret? {
      DropMove(st, step.a, step.reply, s);
    } else if step.CreateSecret? {
      CreateSecretOutcome(st, step.a, step.reply);
    } else {
      ClaimStepsKeepSecrets(st, step);
    }
  }

  lemma SecretOtherStep(st: State, step: Step, s: Session)
    requires !OfClaim(step) && AtStage(st, step)
    ensures SecretMove(st, step, OtherStep(st, step).vault, s)
  {
    if !step.OnDemandSecret? && !step.CleanupSecret? {
      OtherStepsKeepSecrets(st, step);
    }
  }

  lemma DropMove(st: State, a: AttemptId, reply: Reply, s: Session)
    requires Inv(st) && a in st.attempts && st.attempts[a].at.DroppingSecret?
    ensures SecretMove(st, DropSecret(a, reply), StepDropSecret(st, a, reply).vault, s)
  {
    var t := st.attempts[a];
    assert AttemptOk(st, a, t);
    if t.session == s && s in st.vault.inPlace && st.vault.inPlace[s] != Own(a, t) {
      OwnLostBefore(st.vault, a, t);
    }
  }

  /** A rollback that is served deletes somebody else's Secret exactly when its own is gone and another one is in place. */
  lemma RollbackTakesAnothersIffOwnIsGone(steps: seq<Step>, a: AttemptId, reply: Reply)
    requires a in Exec(steps).attempts && Exec(steps).attempts[a].at.DroppingSecret? && !reply.Refused?
    ensures var st, st' := Exec(steps), Apply(Exec(steps), DropSecret(a, reply));
            var s, own := st.attempts[a].session, Own(a, st.attempts[a]);
            && s !in st'.vault.inPlace
            && ((s in st.vault.inPlace && st.vault.inPlace[s] != own) <==> (own in st.vault.gone && s in st.vault.inPlace))
  {
    InvExec(steps);
    var st := Exec(steps);
    assert AttemptOk(st, a, st.attempts[a]);
  }

  lemma ClaimStepsKeepSecrets(st: State, step: Step)
    requires OfClaim(step) && AtStage(st, step) && !step.CreateSecret? && !step.DropSecret?
    ensures ClaimStep(st, step).vault == st.vault
  {
  }

  lemma OtherStepsKeepSecrets(st: State, step: Step)
    requires !OfClaim(step) && AtStage(st, step) && !step.OnDemandSecret? && !step.CleanupSecret?
    ensures OtherStep(st, step).vault == st.vault
  {
  }

  /** A claim that is not in the middle of a pod, and whose rollbacks went through, has left no label behind. */
  lemma FailedClaimLeavesNoLabel(steps: seq<Step>, a: AttemptId, n: PodName)
    requires a in Exec(steps).attempts && Exec(steps).attempts[a].clean
    requires Exec(steps).attempts[a].at.Failed? || Exec(steps).attempts[a].at.Choosing?
    ensures n in Exec(steps).current ==> !LabelledBy(Exec(steps).current[n], a)
  {
    InvExec(steps);
    assert AttemptOk(Exec(steps), a, Exec(steps).attempts[a]);
  }

  /** Whoever owns a pod after a step owned it before, or has just labelled it unlabelled. */
  ghost predicate OwnerKept(st: State, after: map<AttemptId, Attempt>, step: Step, b: AttemptId, n: PodName) {
    b in after && Owns(after[b], n) ==>
      || (b in st.attempts && Owns(st.attempts[b], n))
      || (step.PatchLabel? && step.a == b && n in st.current && Unassigned(st.current[n]))
  }

  lemma OwnerKeptByPatch(st: State, a: AttemptId, reply: Reply, b: AttemptId, n: PodName)
    requires Inv(st) && a in st.attempts && st.attempts[a].at.Patching?
    ensures OwnerKept(st, StepPatch(st, a, reply).attempts, PatchLabel(a, reply), b, n)
  {
    StoreCallsMoveOne(st, a, reply);
    assert AttemptOk(st, a, st.attempts[a]);
    PatchOutcome(st, a, reply);
  }

  lemma RollbackOwnsNothing(st: State, a: AttemptId, reply: Reply)
    requires a in st.attempts && st.attempts[a].at.RollingBack?
    ensures a in StepRollback(st, a, reply).attempts
    ensures !Owns(StepRollback(st, a, reply).attempts[a], st.attempts[a].at.pod)
    ensures forall n :: !Owns(StepRollback(st, a, reply).attempts[a], n)
  {
    RollbackOutcome(st, a, reply);
  }

  lemma CreateSecretOwnsItsPod(st: State, a: AttemptId, reply: Reply, n: PodName)
    requires a in st.attempts && st.attempts[a].at.CreatingSecret?
    ensures a in StepCreateSecret(st, a, reply).attempts
    ensures Owns(StepCreateSecret(st, a, reply).attempts[a], n) ==> Owns(st.attempts[a], n)
  {
    CreateSecretOutcome(st, a, reply);
  }

  lemma AssignOwnsItsPod(st: State, a: AttemptId, reply: Reply, n: PodName)
    requires a in st.attempts && st.attempts[a].at.Assigning?
    ensures a in StepAssign(st, a, reply).attempts
    ensures Owns(StepAssign(st, a, reply).attempts[a], n) ==> Owns(st.attempts[a], n)
  {
  }

  lemma OwnerKeptByCalls(st: State, step: Step, b: AttemptId, n: PodName)
    requires AtStage(st, step) && (step.Rollback? || step.CreateSecret? || step.Assign? || step.DropSecret?)
    ensures OwnerKept(st, ClaimStep(st, step).attempts, step, b, n)
  {
    match step
    case Rollback(a, reply) =>
      StoreCallsMoveOne(st, a, reply);
      RollbackOwnsNothing(st, a, reply);
    case CreateSecret(a, reply) =>
      OtherCallsMoveOne(st, a, reply);
      CreateSecretOwnsItsPod(st, a, reply, n);
    case Assign(a, reply) =>
      OtherCallsMoveOne(st, a, reply);
      AssignOwnsItsPod(st, a, reply, n);
    case DropSecret(a, reply) => OtherCallsMoveOne(st, a, reply);
  }

  lemma OwnerKeptStep(st: State, step: Step, b: AttemptId, n: PodName)
    requires Inv(st)
    ensures OwnerKept(st, Apply(st, step).attempts, step, b, n)
  {
    if AtStage(st, step) {
      if !OfClaim(step) {
        OtherStepsKeepAttempts(st, step);
      } else if step.PatchLabel? {
        OwnerKeptByPatch(st, step.a, step.reply, b, n);
      } else if step.Rollback? || step.CreateSecret? || step.Assign? || step.DropSecret? {
        OwnerKeptByCalls(st, step, b, n);
      }
    }
  }

  /** No two attempts ever own one pod, even after it has vanished: names are not used again. */
  lemma {:induction false} OwnersAreDistinct(steps: seq<Step>, a: AttemptId, b: AttemptId, n: PodName)
    requires a in Exec(steps).attempts && Owns(Exec(steps).attempts[a], n)
    requires b in Exec(steps).attempts && Owns(Exec(steps).attempts[b], n)
    ensures a == b
  {
    if steps != [] {
      var front, step := steps[..|steps| - 1], steps[|steps| - 1];
      var st := Exec(front);
      InvExec(front);
      OwnerKeptStep(st, step, a, n);
      OwnerKeptStep(st, step, b, n);
      if a in st.attempts && Owns(st.attempts[a], n) && b in st.attempts && Owns(st.attempts[b], n) {
        OwnersAreDistinct(front, a, b, n);
      } else {
        assert a in st.attempts ==> AttemptOk(st, a, st.attempts[a]);
        assert b in st.attempts ==> AttemptOk(st, b, st.attempts[b]);
      }
    }
  }

  /** A completed claim keeps its pod for its session, and shares neither pod nor agent process with another claim. */
  lemma CompletedClaimsAreExclusive(steps: seq<Step>, a: AttemptId, b: AttemptId)
    requires a in Exec(steps).attempts && Exec(steps).attempts[a].at.Claimed?
    requires b in Exec(steps).attempts && Exec(steps).attempts[b].at.Claimed?
    ensures var st := Exec(steps);
            && (st.attempts[a].at.pod in st.current ==>
                  st.current[st.attempts[a].at.pod].tag == Some(Label(st.attempts[a].session, ByClaim(a))))
            && (st.attempts[a].at.pod == st.attempts[b].at.pod ==> a == b)
            && (st.attempts[a].at.process == st.attempts[b].at.process ==> a == b)
  {
    InvExec(steps);
    var st := Exec(steps);
    assert AttemptOk(st, a, st.attempts[a]) && Owns(st.attempts[a], st.attempts[a].at.pod);
    assert AttemptOk(st, b, st.attempts[b]) && Owns(st.attempts[b], st.attempts[b].at.pod);
    if st.attempts[a].at.pod == st.attempts[b].at.pod {
      OwnersAreDistinct(steps, a, b, st.attempts[a].at.pod);
    }
  }

  ghost predicate TokenStays(st: State, st': State, process: nat) {
    process in st.tokens ==> process in st'.tokens && st'.tokens[process] == st.tokens[process]
  }

  lemma TokenClaimStep(st: State, step: Step, process: nat)
    requires OfClaim(step) && AtStage(st, step)
    ensures TokenStays(st, ClaimStep(st, step), process)
  {
  }

  lemma TokenOtherStep(st: State, step: Step, process: nat)
    requires !OfClaim(step) && AtStage(st, step) && ProcessesOk(st.processes, st.nextProcess, st.tokens)
    ensures TokenStays(st, OtherStep(st, step), process)
  {
  }

  lemma TokenStep(st: State, step: Step, process: nat)
    requires ProcessesOk(st.processes, st.nextProcess, st.tokens)
    ensures TokenStays(st, Apply(st, step), process)
  {
    if AtStage(st, step) {
      if OfClaim(step) {
        TokenClaimStep(st, step, process);
      } else {
        TokenOtherStep(st, step, process);
      }
    }
  }

  /** Once an agent process has a token, the token never changes. */
  lemma {:induction false} TokensAreForever(steps: seq<Step>, later: seq<Step>, process: nat)
    requires process in Exec(steps).tokens
    ensures process in Exec(steps + later).tokens
    ensures Exec(steps + later).tokens[process] == Exec(steps).tokens[process]
  {
    if later == [] {
      assert steps + later == steps;
    } else {
      var before := steps + later[..|later| - 1];
      TokensAreForever(steps, later[..|later| - 1], process);
      assert (steps + later)[..|steps + later| - 1] == before;
      InvExec(before);
      TokenStep(Exec(before), later[|later| - 1], process);
    }
  }

  lemma Extend(steps: seq<Step>, step: Step) returns (longer: seq<Step>)
    ensures longer == steps + [step] && Exec(longer) == Apply(Exec(steps), step)
  {
    longer := steps + [step];
    assert longer[..|longer| - 1] == steps;
  }

  /** Three pool pods and three attempts of one session, about to choose. */
  lemma ThreeClaims(s: Session) returns (steps: seq<Step>)
    ensures var st := Exec(steps);
            && |st.versions| == 3 && st.vault == INITIAL.vault
            && (forall k: nat :: k < 3 ==>
                  && st.versions[k] == Version(Pool(k), Pod(k, k, None, false, false, false, false))
                  && Pool(k) in st.current && st.current[Pool(k)] == st.versions[k].pod
                  && k in st.attempts && st.attempts[k] == Attempt(s, Choosing, true, 0))
  {
    steps := Extend([], PoolCreate);
    steps := Extend(steps, PoolCreate);
    steps := Extend(steps, PoolCreate);
    steps := Extend(steps, Begin(0, s));
    steps := Extend(steps, Begin(1, s));
    steps := Extend(steps, Begin(2, s));
  }

  /** Attempt `b` may choose version `rv`, which is stored, unlabelled and claimable. */
  ghost predicate MayClaim(st: State, b: AttemptId, s: Session, rv: nat) {
    && b in st.attempts && st.attempts[b].at.Choosing? && st.attempts[b].session == s
    && rv < |st.versions| && Unassigned(st.versions[rv].pod) && Claimable(st.versions[rv].pod)
    && st.versions[rv].name in st.current && st.current[st.versions[rv].name].rv == rv
  }

  /** Left alone, a claim aimed at the stored version of a claimable pod gets past Secret creation. */
  lemma UndisturbedClaim(steps: seq<Step>, a: AttemptId, rv: nat) returns (longer: seq<Step>)
    requires a in Exec(steps).attempts && MayClaim(Exec(steps), a, Exec(steps).attempts[a].session, rv)
    requires Exec(steps).attempts[a].session !in Exec(steps).vault.inPlace
    ensures var st, st' := Exec(steps), Exec(longer);
            && st'.attempts == st.attempts[a := st.attempts[a].(at := Assigning(st.versions[rv].name), made := st.vault.next)]
            && st'.vault == Make(st.vault, st.attempts[a].session, ByClaim(a))
            && st.versions <= st'.versions && st'.processes == st.processes && st'.tokens == st.tokens
            && longer == steps + [Choose(a, rv), PatchLabel(a, Answered), CreateSecret(a, Answered)]
            && (forall n :: n in st.current && n != st.versions[rv].name ==> n in st'.current && st'.current[n] == st.current[n])
  {
    longer := Extend(steps, Choose(a, rv));
    longer := Extend(longer, PatchLabel(a, Answered));
    longer := Extend(longer, CreateSecret(a, Answered));
  }

  /** The version is stored, unlabelled and claimable, and the pod's agent has no token yet. */
  ghost predicate Suitable(st: State, rv: nat) {
    && rv < |st.versions| && Unassigned(st.versions[rv].pod) && Claimable(st.versions[rv].pod)
    && Fits(st, st.versions[rv].name, rv) && FreeAgent(st, st.versions[rv].name)
  }

  predicate Fits(st: State, n: PodName, rv: nat) { n in st.current && st.current[n].rv == rv }

  predicate FreeAgent(st: State, n: PodName) { n in st.processes && st.processes[n] !in st.tokens }

  /** A claim left alone with a suitable version completes: the pod's own agent process has the session's token. */
  lemma UndisturbedClaimCompletes(steps: seq<Step>, a: AttemptId, rv: nat) returns (longer: seq<Step>)
    requires a in Exec(steps).attempts && Exec(steps).attempts[a].at.Choosing? && Suitable(Exec(steps), rv)
    requires Exec(steps).attempts[a].session !in Exec(steps).vault.inPlace
    ensures longer == steps + [Choose(a, rv), PatchLabel(a, Answered), CreateSecret(a, Answered), Assign(a, Answered)]
    ensures var st, st' := Exec(steps), Exec(longer);
            var n, s := st.versions[rv].name, st.attempts[a].session;
            && a in st'.attempts && st'.attempts[a].at == Claimed(n, st.processes[n]) && st'.attempts[a].session == s
            && st'.tokens == st.tokens[st.processes[n] := Assignment(s, ByClaim(a))]
            && s in st'.vault.inPlace && st'.vault.inPlace[s].writer == ByClaim(a)
  {
    var made := UndisturbedClaim(steps, a, rv);
    longer := Extend(made, Assign(a, Answered));
  }

  /** A version is taken for a try exactly if it shows no session label, deletion, final phase or crash loop. */
  lemma ChosenExactlyWhen(steps: seq<Step>, a: AttemptId, rv: nat)
    requires a in Exec(steps).attempts && Exec(steps).attempts[a].at.Choosing? && rv < |Exec(steps).versions|
    ensures var v, t := Exec(steps).versions[rv], Exec(steps + [Choose(a, rv)]).attempts[a];
            && (t.at == Patching(v.name, rv) <==> v.pod.tag.None? && !v.pod.deleting && !v.pod.terminal && !v.pod.backoff)
            && (t.at.Patching? || t == Exec(steps).attempts[a])
  {
    var longer := Extend(steps, Choose(a, rv));
  }

  /**
   An assign whose reply is lost spoils the agent: the process keeps the token although the claim is rolled back, and
   only a new process on that pod is free again.
   */
  lemma LostAssignSpoilsTheAgent(steps: seq<Step>, a: AttemptId) returns (lost: seq<Step>, restarted: seq<Step>)
    requires a in Exec(steps).attempts && Exec(steps).attempts[a].at.Assigning?
    requires FreeAgent(Exec(steps), Exec(steps).attempts[a].at.pod)
    ensures var n := Exec(steps).attempts[a].at.pod;
            && lost == steps + [Assign(a, Lost)] && restarted == lost + [Restart(n)]
            && Exec(lost).attempts[a].at == RollingBack(n, true)
            && n in Exec(lost).processes && Exec(lost).processes[n] in Exec(lost).tokens
            && !FreeAgent(Exec(lost), n) && FreeAgent(Exec(restarted), n)
  {
    lost := Extend(steps, Assign(a, Lost));
    InvExec(lost);
    restarted := Extend(lost, Restart(Exec(steps).attempts[a].at.pod));
  }

  /** A pod made on demand is labelled for its session, and a new process on it holds the session's token. */
  lemma OnDemandPodServesItsSession(steps: seq<Step>, s: Session)
    requires OnDemand(s) !in Exec(steps).current
    ensures var st, st', n := Exec(steps), Exec(steps + [OnDemandPod(s)]), OnDemand(s);
            && n in st'.current && st'.current[n].tag == Some(Label(s, ByOther)) && !st'.current[n].deleting
            && st'.processes == st.processes[n := st.nextProcess]
            && st'.tokens == st.tokens[st.nextProcess := Assignment(s, ByOther)]
  {
    InvExec(steps);
    var made := Extend(steps, OnDemandPod(s));
  }

  /** A deleted pod goes, and its process with it; every other pod and every token stays. */
  lemma DeletedPodGoes(steps: seq<Step>, n: PodName)
    requires n in Exec(steps).current
    ensures var st, st' := Exec(steps), Exec(steps + [MarkDeleted(n), Vanish(n)]);
            && st'.current == st.current - {n} && st'.processes == st.processes - {n} && st'.tokens == st.tokens
  {
    var marked := Extend(steps, MarkDeleted(n));
    var gone := Extend(marked, Vanish(n));
    assert gone == steps + [MarkDeleted(n), Vanish(n)];
  }

  lemma {:induction false} IntentsStay(st: State, later: seq<Step>)
    ensures st.intents <= Then(st, later).intents
  {
    if later != [] {
      IntentsStay(st, later[..|later| - 1]);
    }
  }

  /** After a read that showed no label, and anything in between, the delete takes effect exactly if the pod is still stored as read. */
  lemma PoolDeleteIffStillAsRead(steps: seq<Step>, rv: nat, between: seq<Step>)
    requires rv < |Exec(steps).versions| && Unassigned(Exec(steps).versions[rv].pod)
    ensures var v := Exec(steps).versions[rv];
            var read := steps + [PoolRead(rv)] + between;
            var st, st' := Exec(read), Exec(read + [PoolDelete(Intent(v.name, v.pod.uid, rv))]);
            if Fits(st, v.name, rv) then v.name in st'.current && st'.current[v.name].deleting && st'.current[v.name].poolDeleted
            else st' == st
  {
    var v := Exec(steps).versions[rv];
    var read := Extend(steps, PoolRead(rv));
    var i := Intent(v.name, v.pod.uid, rv);
    ExecThen(read, between);
    IntentsStay(Exec(read), between);
    VersionsKept(Exec(read), between);
    InvExec(read + between);
    var done := Extend(read + between, PoolDelete(i));
    assert Exec(read + between).versions[rv] == v;
  }

  lemma {:induction false} VersionsKept(st: State, later: seq<Step>)
    ensures st.versions <= Then(st, later).versions
  {
    if later != [] {
      VersionsKept(st, later[..|later| - 1]);
      VersionsGrow(Then(st, later[..|later| - 1]), later[|later| - 1]);
    }
  }

  // ----- A trial that nobody disturbs -----

  /** Nothing but pod `n` has changed, and if it has, then by a new version. */
  ghost predicate Elsewhere(st: State, st': State, n: PodName) {
    && st.versions <= st'.versions && st'.processes == st.processes && st'.current.Keys == st.current.Keys
    && (forall m :: m in st.current && m != n ==> st'.current[m] == st.current[m])
    && (n in st.current ==> st'.current[n] == st.current[n] || |st.versions| <= st'.current[n].rv)
  }

  /** What an answered call of an undisturbed trial leads to, in terms of the states before and after it. */
  ghost predicate CalmOutcome(st: State, step: Step, a: AttemptId, st': State)
    requires a in st.attempts && a in st'.attempts
  {
    var at, at', s := st.attempts[a].at, st'.attempts[a].at, st.attempts[a].session;
    match step
    case PatchLabel(_, Answered) =>
      at.Patching? ==>
        && st'.vault == st.vault && st'.tokens == st.tokens && Elsewhere(st, st', at.pod)
        && (if Fits(st, at.pod, at.rv) then at' == CreatingSecret(at.pod) else at' == Choosing && st'.current == st.current)
    case CreateSecret(_, Answered) =>
      at.CreatingSecret? && s !in st.vault.inPlace ==>
        && st'.vault == Make(st.vault, s, ByClaim(a)) && st'.tokens == st.tokens && SamePods(st, st') && at' == Assigning(at.pod)
    case Assign(_, Answered) =>
      at.Assigning? ==>
        && st'.vault == st.vault && SamePods(st, st')
        && (if FreeAgent(st, at.pod)
            then at' == Claimed(at.pod, st.processes[at.pod])
                 && st'.tokens == st.tokens[st.processes[at.pod] := Assignment(s, ByClaim(a))]
            else at' == RollingBack(at.pod, true) && st'.tokens == st.tokens)
    case Rollback(_, Answered) =>
      at.RollingBack? ==> st'.vault == st.vault && st'.tokens == st.tokens && Elsewhere(st, st', at.pod)
    case DropSecret(_, Answered) =>
      at.DroppingSecret? ==>
        st'.vault.inPlace == st.vault.inPlace - {s} && st'.tokens == st.tokens && SamePods(st, st')
    case _ => true
  }

  predicate SamePods(st: State, st': State) {
    st'.versions == st.versions && st'.processes == st.processes && st'.current == st.current
  }

  predicate AnsweredCall(a: AttemptId, step: Step) {
    step in {PatchLabel(a, Answered), CreateSecret(a, Answered), Assign(a, Answered), Rollback(a, Answered), DropSecret(a, Answered)}
  }

  lemma CalmStoreCall(st: State, a: AttemptId)
    requires a in st.attempts
    ensures st.attempts[a].at.Patching? ==>
              CalmOutcome(st, PatchLabel(a, Answered), a, StepPatch(st, a, Answered))
    ensures st.attempts[a].at.RollingBack? ==>
              CalmOutcome(st, Rollback(a, Answered), a, StepRollback(st, a, Answered))
  {
    if st.attempts[a].at.Patching? {
      PatchOutcome(st, a, Answered);
    } else if st.attempts[a].at.RollingBack? {
      RollbackOutcome(st, a, Answered);
    }
  }

  lemma CalmOtherCall(st: State, a: AttemptId)
    requires a in st.attempts
    ensures st.attempts[a].at.CreatingSecret? ==>
              CalmOutcome(st, CreateSecret(a, Answered), a, StepCreateSecret(st, a, Answered))
    ensures st.attempts[a].at.Assigning? ==>
              CalmOutcome(st, Assign(a, Answered), a, StepAssign(st, a, Answered))
    ensures st.attempts[a].at.DroppingSecret? ==>
              CalmOutcome(st, DropSecret(a, Answered), a, StepDropSecret(st, a, Answered))
  {
    if st.attempts[a].at.CreatingSecret? {
      CreateSecretOutcome(st, a, Answered);
    }
  }

  lemma CalmCall(st: State, step: Step, a: AttemptId)
    requires a in st.attempts && AnsweredCall(a, step) && AtStage(st, step)
    ensures a in Apply(st, step).attempts && CalmOutcome(st, step, a, Apply(st, step))
  {
    CalmStoreCall(st, a);
    CalmOtherCall(st, a);
  }

  /** A failed trial of an unsuitable version leaves every version as suitable as it was. */
  lemma SuitableStays(st: State, st': State, rv: nat, k: nat)
    requires rv < |st.versions| && k < |st.versions| && !Suitable(st, rv)
    requires Unassigned(st.versions[rv].pod) && Claimable(st.versions[rv].pod)
    requires Elsewhere(st, st', st.versions[rv].name) && st'.tokens == st.tokens
    requires !Fits(st, st.versions[rv].name, rv) ==> st'.current == st.current
    ensures Suitable(st', k) <==> Suitable(st, k)
  {
    assert st'.versions[k] == st.versions[k];
  }

  /**
   From every reachable state with an attempt past Secret creation, a second one of the session about to
   choose and a claimable pod: one cleanup, and the second one is past creation too.
   */
  lemma CleanupLetsASecondIn(steps: seq<Step>, a: AttemptId, b: AttemptId, rv: nat) returns (longer: seq<Step>)
    requires var st := Exec(steps);
             a in st.attempts && Holds(st.attempts[a]) && MayClaim(st, b, st.attempts[a].session, rv)
    ensures var st, end := Exec(steps), Exec(longer);
            && a in end.attempts && end.attempts[a] == st.attempts[a]
            && b in end.attempts && Holds(end.attempts[b]) && end.attempts[b].session == st.attempts[a].session
  {
    longer := Extend(steps, CleanupSecret(Exec(steps).attempts[a].session));
    longer := UndisturbedClaim(longer, b, rv);
  }

  /**
   After that the first attempt's rollback takes the second one's Secret for its own and deletes it, and a
   third attempt gets in without any further cleanup.
   */
  lemma RollbackLetsAThirdIn(steps: seq<Step>, a: AttemptId, b: AttemptId, c: AttemptId, rv: nat) returns (longer: seq<Step>)
    requires var st := Exec(steps);
             && a in st.attempts && st.attempts[a].at.DroppingSecret? && Own(a, st.attempts[a]) in st.vault.gone
             && a != b && b in st.attempts && Holds(st.attempts[b])
             && st.attempts[b].session in st.vault.inPlace && st.vault.inPlace[st.attempts[b].session] == Own(b, st.attempts[b])
             && st.attempts[a].session == st.attempts[b].session && MayClaim(st, c, st.attempts[a].session, rv)
    ensures var st, end := Exec(steps), Exec(longer);
            && Exec(steps + [DropSecret(a, Answered)]).vault.gone
               == st.vault.gone[Own(b, st.attempts[b]) := Gone(ByRollback(a), st.vault.next)]
            && b in end.attempts && end.attempts[b] == st.attempts[b]
            && c in end.attempts && Holds(end.attempts[c]) && end.attempts[c].session == st.attempts[b].session
    ensures longer == steps + [DropSecret(a, Answered), Choose(c, rv), PatchLabel(c, Answered), CreateSecret(c, Answered)]
  {
    var dropped := Extend(steps, DropSecret(a, Answered));
    longer := UndisturbedClaim(dropped, c, rv);
  }

  /** Such states exist: of three attempts of one session the first is past Secret creation, the others may claim. */
  lemma OneHolderTwoWaiting(s: Session) returns (steps: seq<Step>)
    ensures var st := Exec(steps);
            && 0 in st.attempts && st.attempts[0] == Attempt(s, Assigning(Pool(0)), true, 0)
            && st.vault == Make(INITIAL.vault, s, ByClaim(0))
            && MayClaim(st, 1, s, 1) && MayClaim(st, 2, s, 2)
            && st.versions[1].name == Pool(1) && st.versions[2].name == Pool(2)
  {
    steps := ThreeClaims(s);
    var all := Exec(steps);
    assert all.versions[0].name == Pool(0) && all.versions[1].name == Pool(1) && all.versions[2].name == Pool(2);
    steps := UndisturbedClaim(steps, 0, 0);
    assert Exec(steps).versions[1] == all.versions[1] && Exec(steps).versions[2] == all.versions[2];
  }

  lemma TwoHoldersOneWaiting(s: Session) returns (steps: seq<Step>)
    ensures var st := Exec(steps);
            && 0 in st.attempts && st.attempts[0].at == Assigning(Pool(0)) && st.attempts[0].session == s
            && Own(0, st.attempts[0]) in st.vault.gone
            && 1 in st.attempts && Holds(st.attempts[1]) && st.attempts[1].session == s
            && st.vault.inPlace == map[s := Own(1, st.attempts[1])]
            && MayClaim(st, 2, s, 2) && st.versions[2].name == Pool(2)
  {
    steps := OneHolderTwoWaiting(s);
    var one := Exec(steps);
    steps := Extend(steps, CleanupSecret(s));
    steps := UndisturbedClaim(steps, 1, 1);
    assert Exec(steps).versions[2] == one.versions[2];
  }

  /** And then the first one's assign fails and its label is rolled back. */
  lemma ThirdWaiting(s: Session) returns (steps: seq<Step>)
    ensures var st := Exec(steps);
            && 0 in st.attempts && st.attempts[0].at.DroppingSecret? && st.attempts[0].session == s
            && Own(0, st.attempts[0]) in st.vault.gone
            && 1 in st.attempts && Holds(st.attempts[1]) && st.attempts[1].session == s
            && st.vault.inPlace == map[s := Own(1, st.attempts[1])]
            && MayClaim(st, 2, s, 2)
  {
    steps := TwoHoldersOneWaiting(s);
    var before := Exec(steps);
    steps := Extend(steps, Assign(0, Refused));
    steps := Extend(steps, Rollback(0, Answered));
    assert Exec(steps).versions[2] == before.versions[2];
  }

  // ----- What an attempt finds in place and what it makes -----

  /** The number an attempt holds was there already, or is at least `next`. */
  predicate MadeKept(before: map<AttemptId, Attempt>, next: nat, after: map<AttemptId, Attempt>, c: AttemptId) {
    c in after && Holds(after[c]) ==>
      (c in before && Holds(before[c]) && after[c].made == before[c].made) || next <= after[c].made
  }

  lemma MadeKeptByStoreCalls(st: State, a: AttemptId, reply: Reply, c: AttemptId)
    requires a in st.attempts
    ensures st.attempts[a].at.Patching? ==> MadeKept(st.attempts, st.vault.next, StepPatch(st, a, reply).attempts, c)
    ensures st.attempts[a].at.RollingBack? ==> MadeKept(st.attempts, st.vault.next, StepRollback(st, a, reply).attempts, c)
  {
  }

  lemma MadeKeptByOtherCalls(st: State, a: AttemptId, reply: Reply, c: AttemptId)
    requires a in st.attempts
    ensures st.attempts[a].at.CreatingSecret? ==>
              MadeKept(st.attempts, st.vault.next, StepCreateSecret(st, a, reply).attempts, c)
    ensures st.attempts[a].at.Assigning? ==> MadeKept(st.attempts, st.vault.next, StepAssign(st, a, reply).attempts, c)
    ensures st.attempts[a].at.DroppingSecret? ==>
              MadeKept(st.attempts, st.vault.next, StepDropSecret(st, a, reply).attempts, c)
  {
  }

  lemma MadeKeptClaim(st: State, step: Step, c: AttemptId)
    requires OfClaim(step) && AtStage(st, step)
    ensures MadeKept(st.attempts, st.vault.next, ClaimStep(st, step).attempts, c)
  {
    match step
    case Begin(_, _) =>
    case Choose(_, _) =>
    case GiveUp(_) =>
    case PatchLabel(a, reply) => MadeKeptByStoreCalls(st, a, reply, c);
    case Rollback(a, reply) => MadeKeptByStoreCalls(st, a, reply, c);
    case CreateSecret(a, reply) => MadeKeptByOtherCalls(st, a, reply, c);
    case Assign(a, reply) => MadeKeptByOtherCalls(st, a, reply, c);
    case DropSecret(a, reply) => MadeKeptByOtherCalls(st, a, reply, c);
  }

  lemma ClaimsMakeOnly(st: State, step: Step)
    requires OfClaim(step) && AtStage(st, step)
    ensures st.vault.next <= ClaimStep(st, step).vault.next
  {
    if !step.CreateSecret? && !step.DropSecret? {
      ClaimStepsKeepSecrets(st, step);
    }
  }

  lemma OthersMakeOnly(st: State, step: Step)
    requires !OfClaim(step) && AtStage(st, step)
    ensures st.vault.next <= OtherStep(st, step).vault.next
  {
  }

  lemma MadeKeptStep(st: State, step: Step, c: AttemptId)
    ensures MadeKept(st.attempts, st.vault.next, Apply(st, step).attempts, c)
    ensures st.vault.next <= Apply(st, step).vault.next
  {
    if AtStage(st, step) {
      if OfClaim(step) {
        MadeKeptClaim(st, step, c);
        ClaimsMakeOnly(st, step);
      } else {
        OtherStepsKeepAttempts(st, step);
        OthersMakeOnly(st, step);
      }
    }
  }

  lemma {:induction false} MadeKeptThen(st: State, later: seq<Step>, c: AttemptId)
    ensures MadeKept(st.attempts, st.vault.next, Then(st, later).attempts, c)
    ensures st.vault.next <= Then(st, later).vault.next
  {
    if later != [] {
      MadeKeptThen(st, later[..|later| - 1], c);
      MadeKeptStep(Then(st, later[..|later| - 1]), later[|later| - 1], c);
    }
  }

  /**
   An attempt whose Secret is in place shares its lock with a newcomer only after a Secret of theirs was
   deleted, since then, by somebody other than its creator.
   */
  lemma SecondGetsInOnlyByALoss(steps: seq<Step>, later: seq<Step>, a: AttemptId, b: AttemptId) returns (x: Secret)
    requires var st, end := Exec(steps), Exec(steps + later);
             && a in st.attempts && Holds(st.attempts[a]) && Own(a, st.attempts[a]) !in st.vault.gone
             && (b in st.attempts ==> !Holds(st.attempts[b]))
             && a in end.attempts && b in end.attempts && a != b && Holds(end.attempts[a]) && Holds(end.attempts[b])
             && st.attempts[a].session == end.attempts[a].session == end.attempts[b].session
    ensures var st, end := Exec(steps), Exec(steps + later);
            && x in end.vault.gone && x !in st.vault.gone && x.session == st.attempts[a].session
            && forall c :: x.writer == ByClaim(c) ==> end.vault.gone[x].who != ByRollback(c)
  {
    var st, end := Exec(steps), Exec(steps + later);
    InvExec(steps);
    ExecThen(steps, later);
    MadeKeptThen(st, later, a);
    MadeKeptThen(st, later, b);
    SecretIsALock(steps + later, a, b);
    var p, q := Own(a, end.attempts[a]), Own(b, end.attempts[b]);
    x := if Before(end.vault, p, q) && end.vault.gone[p].who != ByRollback(a) then p else q;
  }

  ghost predicate StaysInPlace(v: Vault, v': Vault, s: Session) {
    s in v.inPlace ==> s in v'.inPlace && v'.inPlace[s] == v.inPlace[s]
  }

  /** No step of an attempt deletes a Secret that was in place before the attempt began. */
  lemma OwnStepsSparePriorSecrets(steps: seq<Step>, later: seq<Step>, step: Step, a: AttemptId, s: Session)
    requires a !in Exec(steps).attempts && !Foreign(a, step)
    requires s in Exec(steps).vault.inPlace && StaysInPlace(Exec(steps).vault, Exec(steps + later).vault, s)
    ensures StaysInPlace(Exec(steps).vault, Apply(Exec(steps + later), step).vault, s)
  {
    var mid := Exec(steps + later);
    InvExec(steps);
    InvExec(steps + later);
    ExecThen(steps, later);
    MadeKeptThen(Exec(steps), later, a);
    SecretStep(mid, step, s);
    if a in mid.attempts {
      assert AttemptOk(mid, a, mid.attempts[a]);
    }
  }

  /** Somewhere after its first `from` steps the run has a step of another party that deletes the Secret in place. */
  ghost predicate EndedByOthers(run: seq<Step>, from: nat, a: AttemptId, s: Session) {
    exists k :: from <= k < |run| && Foreign(a, run[k]) && Ends(run[..k], run[k], s)
  }

  /** This step, taken after this run, deletes the Secret in place. */
  ghost predicate Ends(run: seq<Step>, step: Step, s: Session) {
    !StaysInPlace(Exec(run).vault, Apply(Exec(run), step).vault, s)
  }

  lemma EndedByOthersLater(run: seq<Step>, step: Step, from: nat, a: AttemptId, s: Session)
    requires EndedByOthers(run, from, a, s)
    ensures EndedByOthers(run + [step], from, a, s)
  {
    var longer := run + [step];
    var k :| from <= k < |run| && Foreign(a, run[k]) && Ends(run[..k], run[k], s);
    assert longer[..k] == run[..k] && longer[k] == run[k];
  }

  lemma EndedByThisOne(run: seq<Step>, step: Step, from: nat, a: AttemptId, s: Session)
    requires from <= |run| && Foreign(a, step) && Ends(run, step, s)
    ensures EndedByOthers(run + [step], from, a, s)
  {
    var longer := run + [step];
    assert longer[..|run|] == run && longer[|run|] == step;
  }

  /** A Secret that was in place before an attempt began ends, if at all, by a step of another party. */
  lemma {:induction false} PriorSecretsEndByOthers(before: seq<Step>, later: seq<Step>, a: AttemptId, s: Session)
    requires a !in Exec(before).attempts
    ensures StaysInPlace(Exec(before).vault, Exec(before + later).vault, s) || EndedByOthers(before + later, |before|, a, s)
    decreases |later|
  {
    if later == [] {
      assert before + later == before;
    } else {
      var front, step := later[..|later| - 1], later[|later| - 1];
      var run := before + front;
      assert before + later == run + [step];
      PriorSecretsEndByOthers(before, front, a, s);
      if EndedByOthers(run, |before|, a, s) {
        EndedByOthersLater(run, step, |before|, a, s);
      } else if s in Exec(before).vault.inPlace {
        var longer := Extend(run, step);
        if !Foreign(a, step) {
          OwnStepsSparePriorSecrets(before, front, step, a, s);
        } else if Ends(run, step, s) {
          EndedByThisOne(run, step, |before|, a, s);
        }
      }
    }
  }

  lemma SecretsOutliveTheClaim(before: seq<Step>, run: seq<Step>, a: AttemptId)
    requires before <= run && a !in Exec(before).attempts
    ensures forall s :: StaysInPlace(Exec(before).vault, Exec(run).vault, s) || EndedByOthers(run, |before|, a, s)
  {
    assert run == before + run[|before|..];
    forall s ensures StaysInPlace(Exec(before).vault, Exec(run).vault, s) || EndedByOthers(run, |before|, a, s) {
      PriorSecretsEndByOthers(before, run[|before|..], a, s);
    }
  }

  // ----- ClaimPod as a program running among others -----

  /** Steps that are not part of attempt `a`'s own call. */
  predicate Foreign(a: AttemptId, step: Step) {
    match step
    case Begin(b, _) => b != a
    case Choose(b, _) => b != a
    case GiveUp(b) => b != a
    case PatchLabel(b, _) => b != a
    case CreateSecret(b, _) => b != a
    case Assign(b, _) => b != a
    case Rollback(b, _) => b != a
    case DropSecret(b, _) => b != a
    case _ => true
  }

  predicate OnlyMoves(before: map<AttemptId, Attempt>, after: map<AttemptId, Attempt>, a: AttemptId) {
    after.Keys == before.Keys && forall b <- before :: b != a ==> after[b] == before[b]
  }

  lemma StoreCallsMoveOne(st: State, a: AttemptId, reply: Reply)
    requires a in st.attempts
    ensures st.attempts[a].at.Patching? ==> OnlyMoves(st.attempts, StepPatch(st, a, reply).attempts, a)
    ensures st.attempts[a].at.RollingBack? ==> OnlyMoves(st.attempts, StepRollback(st, a, reply).attempts, a)
  {
  }

  lemma OtherCallsMoveOne(st: State, a: AttemptId, reply: Reply)
    requires a in st.attempts
    ensures st.attempts[a].at.CreatingSecret? ==> OnlyMoves(st.attempts, StepCreateSecret(st, a, reply).attempts, a)
    ensures st.attempts[a].at.Assigning? ==> OnlyMoves(st.attempts, StepAssign(st, a, reply).attempts, a)
    ensures st.attempts[a].at.DroppingSecret? ==> OnlyMoves(st.attempts, StepDropSecret(st, a, reply).attempts, a)
  {
  }

  lemma ForeignClaimStep(st: State, a: AttemptId, step: Step)
    requires a in st.attempts && Foreign(a, step) && OfClaim(step) && AtStage(st, step)
    ensures a in ClaimStep(st, step).attempts && ClaimStep(st, step).attempts[a] == st.attempts[a]
  {
    match step
    case Begin(_, _) =>
    case Choose(_, _) =>
    case GiveUp(_) =>
    case PatchLabel(b, reply) => StoreCallsMoveOne(st, b, reply);
    case Rollback(b, reply) => StoreCallsMoveOne(st, b, reply);
    case CreateSecret(b, reply) => OtherCallsMoveOne(st, b, reply);
    case Assign(b, reply) => OtherCallsMoveOne(st, b, reply);
    case DropSecret(b, reply) => OtherCallsMoveOne(st, b, reply);
  }

  lemma OtherStepsKeepAttempts(st: State, step: Step)
    requires !OfClaim(step) && AtStage(st, step)
    ensures OtherStep(st, step).attempts == st.attempts
  {
  }

  lemma ForeignStep(st: State, a: AttemptId, step: Step)
    requires a in st.attempts && Foreign(a, step)
    ensures a in Apply(st, step).attempts && Apply(st, step).attempts[a] == st.attempts[a]
  {
    if AtStage(st, step) {
      if OfClaim(step) {
        ForeignClaimStep(st, a, step);
      } else {
        OtherStepsKeepAttempts(st, step);
      }
    }
  }

  lemma VersionsGrowByClaims(st: State, step: Step)
    requires OfClaim(step) && AtStage(st, step)
    ensures st.versions <= ClaimStep(st, step).versions
  {
  }

  lemma VersionsGrowByOthers(st: State, step: Step)
    requires !OfClaim(step) && AtStage(st, step)
    ensures st.versions <= OtherStep(st, step).versions
  {
  }

  /** Stored versions are never rewritten. */
  lemma VersionsGrow(st: State, step: Step)
    ensures st.versions <= Apply(st, step).versions
  {
    if AtStage(st, step) {
      if OfClaim(step) {
        VersionsGrowByClaims(st, step);
      } else {
        VersionsGrowByOthers(st, step);
      }
    }
  }

  /** The order of the calls inside `tryClaimPod`. */
  predicate Follows(t: Attempt, step: Step, t': Attempt) {
    && t'.session == t.session
    && match step
       case GiveUp(_) => t'.at.Failed?
       case PatchLabel(_, _) => t'.at.Choosing? || t'.at.CreatingSecret?
       case CreateSecret(_, _) => t'.at.Assigning? || (t'.at.RollingBack? && !t'.at.dropSecret)
       case Assign(_, _) => t'.at.Claimed? || (t'.at.RollingBack? && t'.at.dropSecret)
       case Rollback(_, _) => t.at.RollingBack? && t'.at == if t.at.dropSecret then DroppingSecret else Choosing
       case DropSecret(_, _) => t'.at.Choosing?
       case _ => false
  }

  lemma OwnStoreCall(st: State, a: AttemptId, reply: Reply)
    requires a in st.attempts
    ensures st.attempts[a].at.Patching? ==>
              Follows(st.attempts[a], PatchLabel(a, reply), StepPatch(st, a, reply).attempts[a])
    ensures st.attempts[a].at.RollingBack? ==>
              Follows(st.attempts[a], Rollback(a, reply), StepRollback(st, a, reply).attempts[a])
  {
  }

  lemma OwnOtherCall(st: State, a: AttemptId, reply: Reply)
    requires a in st.attempts
    ensures st.attempts[a].at.CreatingSecret? ==>
              Follows(st.attempts[a], CreateSecret(a, reply), StepCreateSecret(st, a, reply).attempts[a])
    ensures st.attempts[a].at.Assigning? ==>
              Follows(st.attempts[a], Assign(a, reply), StepAssign(st, a, reply).attempts[a])
  {
  }

  lemma OwnStep(st: State, a: AttemptId, step: Step)
    requires a in st.attempts && AtStage(st, step) && !Foreign(a, step) && !step.Choose? && !step.Begin?
    ensures a in Apply(st, step).attempts && Follows(st.attempts[a], step, Apply(st, step).attempts[a])
  {
    match step
    case GiveUp(_) =>
    case DropSecret(_, _) =>
    case PatchLabel(_, reply) =>
      StoreCallsMoveOne(st, a, reply);
      OwnStoreCall(st, a, reply);
    case Rollback(_, reply) =>
      StoreCallsMoveOne(st, a, reply);
      OwnStoreCall(st, a, reply);
    case CreateSecret(_, reply) =>
      OtherCallsMoveOne(st, a, reply);
      OwnOtherCall(st, a, reply);
    case Assign(_, reply) =>
      OtherCallsMoveOne(st, a, reply);
      OwnOtherCall(st, a, reply);
  }

  lemma {:induction false} ForeignSteps(st: State, a: AttemptId, later: seq<Step>)
    requires a in st.attempts && forall x :: x in later ==> Foreign(a, x)
    ensures a in Then(st, later).attempts && Then(st, later).attempts[a] == st.attempts[a]
    ensures st.versions <= Then(st, later).versions
  {
    if later != [] {
      ForeignSteps(st, a, later[..|later| - 1]);
      ForeignStep(Then(st, later[..|later| - 1]), a, later[|later| - 1]);
      VersionsGrow(Then(st, later[..|later| - 1]), later[|later| - 1]);
    }
  }

  /** Every call is served and answered, and nobody else takes a step. */
  ghost predicate Calm(reply: int -> Reply, others: int -> seq<Step>) {
    (forall k :: reply(k).Answered?) && forall k :: others(k) == []
  }

  ghost predicate CalmAll(reply: (int, int) -> Reply, others: (int, int) -> seq<Step>) {
    (forall i, k :: reply(i, k).Answered?) && forall i, k :: others(i, k) == []
  }

  /** The attempt holds the pod, and the one new token is that of the session on the pod's agent. */
  ghost predicate ClaimedOn(st: State, n: PodName, st': State, a: AttemptId) {
    && n in st.processes && a in st'.attempts
    && st'.attempts[a].at == Claimed(n, st.processes[n])
    && st'.tokens == st.tokens[st.processes[n] := Assignment(st'.attempts[a].session, ByClaim(a))]
  }

  /** The rest of an undisturbed trial on pod `n`: it ends by claiming a free agent, or by undoing itself. */
  ghost predicate CalmEnd(st: State, n: PodName, st': State, a: AttemptId, ok: bool) {
    && (ok <==> FreeAgent(st, n))
    && if ok then ClaimedOn(st, n, st', a)
       else st'.tokens == st.tokens && st'.vault.inPlace == st.vault.inPlace && Elsewhere(st, st', n)
  }

  /** What a trial does when nobody disturbs it: it claims exactly a stored version with a free agent, or undoes itself. */
  ghost predicate CalmTrial(st: State, st': State, a: AttemptId, ok: bool)
    requires a in st.attempts && st.attempts[a].at.Patching?
  {
    var Patching(n, rv) := st.attempts[a].at;
    if Fits(st, n, rv) then CalmEnd(st, n, st', a, ok)
    else !ok && st'.tokens == st.tokens && st'.vault.inPlace == st.vault.inPlace && st'.current == st.current
         && Elsewhere(st, st', n)
  }

  /** The session has no Secret, and the first state's versions are still as suitable as they were. */
  ghost predicate Untried(st: State, st': State, s: Session) {
    && st.versions <= st'.versions && s !in st'.vault.inPlace
    && st'.processes == st.processes && st'.tokens == st.tokens
    && forall k | 0 <= k < |st.versions| :: Suitable(st', k) <==> Suitable(st, k)
  }

  /** The pod of the first suitable version in the list, claimed on its own process; None if there is no such version. */
  ghost predicate ClaimsFirstSuitable(st: State, listed: seq<nat>, pod: Option<PodName>, st': State, a: AttemptId) {
    if pod.None? then forall rv <- listed :: !Suitable(st, rv)
    else exists i :: 0 <= i < |listed| && Suitable(st, listed[i]) && (forall j :: 0 <= j < i ==> !Suitable(st, listed[j]))
           && pod.value == st.versions[listed[i]].name && ClaimedOn(st, pod.value, st', a)
  }

  /** One undisturbed trial: it succeeds exactly if the version is suitable, and otherwise changes nothing a later one needs. */
  lemma TrialOfSuitable(start: State, st: State, chosen: State, st': State, a: AttemptId, rv: nat, ok: bool)
    requires a in st.attempts && a in chosen.attempts && a in st'.attempts && Untried(start, st, st.attempts[a].session)
    requires rv < |start.versions| && Unassigned(start.versions[rv].pod) && Claimable(start.versions[rv].pod)
    requires chosen == st.(attempts := chosen.attempts) && chosen.attempts[a].session == st.attempts[a].session
    requires st'.attempts[a].session == st.attempts[a].session
    requires chosen.attempts[a].at == Patching(start.versions[rv].name, rv) && CalmTrial(chosen, st', a, ok)
    ensures ok <==> Suitable(start, rv)
    ensures ok ==> ClaimedOn(start, start.versions[rv].name, st', a)
    ensures !ok ==> Untried(start, st', st.attempts[a].session)
  {
    assert st.versions[rv] == start.versions[rv];
    assert Suitable(st, rv) <==> Suitable(start, rv);
    if !ok {
      forall k: nat | k < |start.versions| ensures Suitable(st', k) <==> Suitable(start, k) {
        assert st.versions[k] == start.versions[k];
        SuitableStays(st, st', rv, k);
      }
    }
  }

  /** One MCP replica's view of the cluster: the shared state, and ghost evidence that it is a run. */
  class Replica {
    var cluster: State
    ghost var run: seq<Step>

    ghost predicate Valid() reads this { cluster == Exec(run) }

    constructor (steps: seq<Step>)
      ensures Valid() && run == steps
    {
      cluster := Exec(steps);
      run := steps;
    }

    /** One API call of attempt `a`; the other parties take any number of steps before it is served. */
    method Call(a: AttemptId, step: Step, others: seq<Step>)
      requires Valid() && a in cluster.attempts && AtStage(cluster, step)
      requires !Foreign(a, step) && !step.Choose? && !step.Begin?
      requires forall x :: x in others ==> Foreign(a, x)
      modifies this
      ensures Valid() && run == old(run) + others + [step]
      ensures a in cluster.attempts && Follows(old(cluster).attempts[a], step, cluster.attempts[a])
      ensures old(cluster).versions <= cluster.versions
      ensures others == [] ==> CalmOutcome(old(cluster), step, a, cluster)
    {
      ForeignSteps(cluster, a, others);
      ExecThen(run, others);
      OwnStep(Then(cluster, others), a, step);
      VersionsGrow(Then(cluster, others), step);
      if others == [] && AnsweredCall(a, step) {
        CalmCall(cluster, step, a);
      }
      cluster := Apply(Then(cluster, others), step);
      run := Extend(run + others, step);
    }

    /** The entry of `ClaimPod`. */
    method Start(a: AttemptId, s: Session)
      requires Valid() && a !in cluster.attempts
      modifies this
      ensures Valid() && run == old(run) + [Begin(a, s)] && cluster == old(cluster).(attempts := cluster.attempts)
      ensures a in cluster.attempts && cluster.attempts[a].session == s && cluster.attempts[a].at.Choosing?
    {
      cluster := Apply(cluster, Begin(a, s));
      run := Extend(run, Begin(a, s));
    }

    /** The listed version is the next one to try. */
    method Pick(a: AttemptId, rv: nat)
      requires Valid() && a in cluster.attempts && cluster.attempts[a].at.Choosing? && rv < |cluster.versions|
      requires Unassigned(cluster.versions[rv].pod) && Claimable(cluster.versions[rv].pod)
      modifies this
      ensures Valid() && run == old(run) + [Choose(a, rv)] && cluster == old(cluster).(attempts := cluster.attempts)
      ensures a in cluster.attempts && cluster.attempts[a].session == old(cluster).attempts[a].session
      ensures cluster.attempts[a].at == Patching(cluster.versions[rv].name, rv)
    {
      cluster := Apply(cluster, Choose(a, rv));
      run := Extend(run, Choose(a, rv));
    }

    /** Undo a label, and the Secret if this attempt made it. */
    method RollBack(a: AttemptId, reply: int -> Reply, others: int -> seq<Step>)
      requires Valid() && a in cluster.attempts && cluster.attempts[a].at.RollingBack?
      requires forall k, x :: x in others(k) ==> Foreign(a, x)
      modifies this
      ensures Valid() && old(run) <= run && old(cluster).versions <= cluster.versions
      ensures a in cluster.attempts && cluster.attempts[a].session == old(cluster).attempts[a].session
      ensures cluster.attempts[a].at.Choosing?
      ensures Calm(reply, others) ==>
                && Elsewhere(old(cluster), cluster, old(cluster).attempts[a].at.pod) && cluster.tokens == old(cluster).tokens
                && cluster.vault.inPlace == if old(cluster).attempts[a].at.dropSecret
                                            then old(cluster).vault.inPlace - {cluster.attempts[a].session}
                                            else old(cluster).vault.inPlace
    {
      Call(a, Rollback(a, reply(3)), others(3));
      if cluster.attempts[a].at.DroppingSecret? {
        Call(a, DropSecret(a, reply(4)), others(4));
      }
    }

    /** `tryClaimPod` once the pod is labelled: Secret, assign, and on failure the rollback of what was done. */
    method ClaimLabelled(a: AttemptId, reply: int -> Reply, others: int -> seq<Step>) returns (ok: bool)
      requires Valid() && a in cluster.attempts && cluster.attempts[a].at.CreatingSecret?
      requires forall k, x :: x in others(k) ==> Foreign(a, x)
      modifies this
      ensures Valid() && old(run) <= run && old(cluster).versions <= cluster.versions
      ensures a in cluster.attempts && cluster.attempts[a].session == old(cluster).attempts[a].session
      ensures if ok then cluster.attempts[a].at.Claimed? else cluster.attempts[a].at.Choosing?
      ensures Calm(reply, others) && old(cluster).attempts[a].session !in old(cluster).vault.inPlace ==>
                CalmEnd(old(cluster), old(cluster).attempts[a].at.pod, cluster, a, ok)
    {
      Call(a, CreateSecret(a, reply(1)), others(1));
      if cluster.attempts[a].at.Assigning? {
        Call(a, Assign(a, reply(2)), others(2));
        if cluster.attempts[a].at.Claimed? {
          return true;
        }
      }
      RollBack(a, reply, others);
      return false;
    }

    /**
     `tryClaimPod` on the pod in hand: label patch, Secret, assign, and on failure the rollback
     of what was done. `reply` and `others` give each call's fate and the interference before it. Left
     alone, it succeeds exactly when the version is still stored and the pod's agent has no token.
     */
    method TryClaimPod(a: AttemptId, reply: int -> Reply, others: int -> seq<Step>) returns (ok: bool)
      requires Valid() && a in cluster.attempts && cluster.attempts[a].at.Patching?
      requires forall k, x :: x in others(k) ==> Foreign(a, x)
      modifies this
      ensures Valid() && old(run) <= run && old(cluster).versions <= cluster.versions
      ensures a in cluster.attempts && cluster.attempts[a].session == old(cluster).attempts[a].session
      ensures if ok then cluster.attempts[a].at.Claimed? else cluster.attempts[a].at.Choosing?
      ensures Calm(reply, others) && old(cluster).attempts[a].session !in old(cluster).vault.inPlace ==>
                CalmTrial(old(cluster), cluster, a, ok)
    {
      Call(a, PatchLabel(a, reply(0)), others(0));
      if cluster.attempts[a].at.Choosing? {
        return false;
      }
      ok := ClaimLabelled(a, reply, others);
    }

    /** One turn of the loop in `ClaimPod`; `start` is any earlier state whose suitable versions are still so. */
    method TryVersion(a: AttemptId, rv: nat, reply: int -> Reply, others: int -> seq<Step>, ghost start: State) returns (ok: bool)
      requires Valid() && a in cluster.attempts && cluster.attempts[a].at.Choosing?
      requires rv < |start.versions| && start.versions <= cluster.versions
      requires Unassigned(start.versions[rv].pod) && Claimable(start.versions[rv].pod)
      requires forall k, x :: x in others(k) ==> Foreign(a, x)
      modifies this
      ensures Valid() && old(run) <= run && old(cluster).versions <= cluster.versions
      ensures a in cluster.attempts && cluster.attempts[a].session == old(cluster).attempts[a].session
      ensures if ok then cluster.attempts[a].at.Claimed? else cluster.attempts[a].at.Choosing?
      ensures Calm(reply, others) && Untried(start, old(cluster), old(cluster).attempts[a].session) ==>
                && (ok <==> Suitable(start, rv))
                && if ok then ClaimedOn(start, start.versions[rv].name, cluster, a)
                   else Untried(start, cluster, cluster.attempts[a].session)
    {
      ghost var st := cluster;
      Pick(a, rv);
      ghost var chosen := cluster;
      ok := TryClaimPod(a, reply, others);
      if Calm(reply, others) && Untried(start, st, st.attempts[a].session) {
        TrialOfSuitable(start, st, chosen, cluster, a, rv, ok);
      }
    }

    /** The loop of `ClaimPod`: the listed versions in order, until one of them is claimed. */
    method TryListed(a: AttemptId, listed: seq<nat>, reply: (int, int) -> Reply, others: (int, int) -> seq<Step>,
                     ghost start: State) returns (ok: bool)
      requires Valid() && a in cluster.attempts && cluster.attempts[a].at.Choosing? && start.versions <= cluster.versions
      requires forall i :: 0 <= i < |listed| ==> listed[i] < |start.versions| && Unassigned(start.versions[listed[i]].pod)
      requires forall i, k, x :: x in others(i, k) ==> Foreign(a, x)
      modifies this
      ensures Valid() && old(run) <= run
      ensures a in cluster.attempts && cluster.attempts[a].session == old(cluster).attempts[a].session
      ensures if ok then cluster.attempts[a].at.Claimed? else cluster.attempts[a].at.Choosing?
      ensures CalmAll(reply, others) && Untried(start, old(cluster), old(cluster).attempts[a].session) ==>
                ClaimsFirstSuitable(start, listed, if ok then Some(cluster.attempts[a].at.pod) else None, cluster, a)
    {
      ghost var calm := CalmAll(reply, others) && Untried(start, cluster, cluster.attempts[a].session);
      var i := 0;
      while i < |listed|
        invariant Valid() && old(run) <= run && start.versions <= cluster.versions
        invariant 0 <= i <= |listed|
        invariant a in cluster.attempts && cluster.attempts[a].session == old(cluster).attempts[a].session
        invariant cluster.attempts[a].at.Choosing?
        invariant calm ==>
                    Untried(start, cluster, cluster.attempts[a].session) && forall j :: 0 <= j < i ==> !Suitable(start, listed[j])
      {
        assert cluster.versions[listed[i]] == start.versions[listed[i]];
        if Claimable(cluster.versions[listed[i]].pod) {
          ok := TryVersion(a, listed[i], k => reply(i, k), k => others(i, k), start);
          if ok {
            return;
          }
        }
        i := i + 1;
      }
      return false;
    }

    /**
     `ClaimPod`: try the listed versions in order. Either some pod ends up claimed for the
     session, or the call fails and, if its writes were acknowledged, leaves no label. Left alone, and
     without a Secret of the session in place, it claims the pod of the first suitable version listed,
     and fails only if there is none.
     */
    method ClaimPod(a: AttemptId, s: Session, listed: seq<nat>,
                    reply: (int, int) -> Reply, others: (int, int) -> seq<Step>) returns (pod: Option<PodName>)
      requires Valid() && a !in cluster.attempts
      requires forall i :: 0 <= i < |listed| ==> listed[i] < |cluster.versions| && Unassigned(cluster.versions[listed[i]].pod)
      requires forall i, k, x :: x in others(i, k) ==> Foreign(a, x)
      modifies this
      ensures Valid() && old(run) <= run && a in cluster.attempts && cluster.attempts[a].session == s
      ensures pod.Some? ==>
                && cluster.attempts[a].at.Claimed? && cluster.attempts[a].at.pod == pod.value
                && (pod.value in cluster.current ==> cluster.current[pod.value].tag == Some(Label(s, ByClaim(a))))
      ensures forall x :: StaysInPlace(old(cluster).vault, cluster.vault, x) || EndedByOthers(run, |old(run)|, a, x)
      ensures pod.None? ==>
                && cluster.attempts[a].at.Failed?
                && (cluster.attempts[a].clean ==>
                      forall n :: n in cluster.current ==> !LabelledBy(cluster.current[n], a))
      ensures CalmAll(reply, others) && s !in old(cluster).vault.inPlace ==>
                ClaimsFirstSuitable(old(cluster), listed, pod, cluster, a)
    {
      Start(a, s);
      var ok := TryListed(a, listed, reply, others, old(cluster));
      if ok {
        CompletedClaimsAreExclusive(run, a, a);
        SecretsOutliveTheClaim(old(run), run, a);
        return Some(cluster.attempts[a].at.pod);
      }
      Call(a, GiveUp(a), []);
      forall n | n in cluster.current && cluster.attempts[a].clean ensures !LabelledBy(cluster.current[n], a) {
        FailedClaimLeavesNoLabel(run, a, n);
      }
      SecretsOutliveTheClaim(old(run), run, a);
      return None;
    }
  }
}
