# A Dafny model of cli-mcp-operator

The system hands out sandbox pods to MCP sessions. Any number of server replicas claim warm pods
through the Kubernetes API, an operator keeps the pool filled and collects idle pods, an agent inside
each pod takes one token and then executes commands on a shared bash process, and a proxy in front of
the sandboxes adds the credentials that the sandboxes themselves never see.

The modules follow the program's parts:

| file | part |
|---|---|
| `ClaimProtocol.dfy` | claims, pool deletes, session Secrets and agents over an optimistic-concurrency store |
| `AgentProcess.dfy` | one agent process: `/assign` once, `/exec` with the token |
| `WarmPool.dfy` | one pool pass of the operator, and repeated passes |
| `ReadyHistory.dfy` | Ready and WarmPoolReady over any history of passes |
| `Finalizer.dfy` | deleting an instance |
| `IdleTiming.dfy` | collecting idle sessions |
| `ProxyGate.dfy` | the cached single-flight gate before a claim or create |
| `CommandRecovery.dfy` | one `ExecuteCommand` call with its recovery |
| `PodCache.dfy` | the session cache |
| `TunnelDrain.dfy` | shutting down hijacked tunnels |
| `BashFraming.dfy` | telling one command's output from the next |
| `HostPort.dfy`, `Kubeconfig.dfy`, `Routes.dfy`, `ProxyTable.dfy`, `Proxy.dfy` | kubeconfig and allowlist, through validated routes, to the header a request leaves with |
| `KubePath.dfy` | the verdict on Kubernetes request paths |
| `Text.dfy`, `Prelude.dfy` | strings and shared types |

Concurrent parts are state machines. A run is any sequence of steps, a step that is not enabled
changes nothing, and the theorems are about every run. Where the program has a loop or an object that
changes in place, the model has a method or a class with the same shape. Iteration over a Go map takes
the keys in any order. Answers from the cluster, the clock and the network are arbitrary values.

## What the model found

- A background activity patch read before a re-claim can land on the newly labelled pod and make the new
  session expire early. A fresh session is safe exactly when no such patch lands
  (`IdleTiming.FreshSessionsAreSafeIffNoStalePatch`). The ten-second timeout of that patch bounds the
  damage: no session expires more than ten seconds early (`IdleTiming.StalePatchesCostTenSeconds`), and
  each whole number of seconds below that is lost in some history
  (`IdleTiming.DelayedActivityPatchExpiresAFreshSession`).
- The two clock readings of one status pass can fall on either side of the shortfall deadline. Then
  Ready is kept and no pool wake-up is asked for; this happens exactly then
  (`ReadyHistory.KeptWithoutAWakeUpIffStraddled`, with a history in `ReadyHistory.StraddlingHistory`). The
  next pass makes it up, a resync later at most when no session is waiting to be collected
  (`ReadyHistory.MissedDeadlineIsMadeUp`).
- `docs/architecture.md` says that a later claim does not clear Ready. The code clears it five minutes
  after WarmPoolReady turned False, and the model follows the code.
- The session Secret is a lock only while nobody but its creator deletes it. Two claims of one session are
  past its creation only if the older one's Secret was deleted before by somebody else, and that goes back
  to a cleanup (`ClaimProtocol.SecretIsALock`, `ClaimProtocol.NoLockFailsWithoutACleanup`). One cleanup is
  enough from every state with a holder and a waiting claim (`ClaimProtocol.CleanupLetsASecondIn`). After
  it the older claim's rollback deletes the newer one's Secret by name, and a third claim gets in without
  another cleanup (`ClaimProtocol.RollbackLetsAThirdIn`).
- The gate's time to live counts from the store, not from the end of the lookup. From every state whose
  cache serves a positive entry, a caller can be let in a whole time to live after the lookup if and only
  if the store was delayed (`ProxyGate.CanBeLateIffStoreDelayed`). A flight hands its own lookup out at
  whatever age it has reached (`ProxyGate.FlightAnswersAtAnyAge`).
- A command whose output does not end in a newline hides its end marker. The frame is read back exactly
  when the output is empty or ends in a newline (`BashFraming.StdoutTextReadsBackIffTerminated`). Output of an
  earlier command left over in front of the start marker is skipped if it ends in a newline; otherwise it hides
  the start marker and the command's output is lost (`BashFraming.StdoutTextReadsBackAfterLeftovers`).
- `drain` returns once the tunnels have finished, unless a tracked connection had been closed before it was
  tracked; such a one holds it up until its context ends (`TunnelDrain.DrainWaitsForTheTunnels`,
  `TunnelDrain.StuckTunnelHoldsTheDrain`).
- An assign whose reply is lost spoils the agent for every later claim until a new process runs
  (`ClaimProtocol.LostAssignSpoilsTheAgent`).
- Some well-formed API requests have a layout that the segment grammar reads differently, such as a
  subresource of a namespace (`KubePath.AmbiguousLayout`). Parsing gives back what was rendered exactly
  for the others (`KubePath.ParseRecoversIffUnambiguous`).
- If the reply to an accepted `/assign` is lost and the repeated call answers 409, the response carries no
  reset notice (`CommandRecovery.LostReplyLeavesNoNotice`). The notice is missing after an assign that took
  effect exactly when every such reply was lost and the pod was not replaced
  (`CommandRecovery.NoticeMissingIffOnlyLostAssigns`).

## Model

| member | source | states |
|---|---|---|
| `ClaimProtocol.LabelsMoveOnlyByTheirClaim` | pkg/session/pool.go:187-227 | in every run a label appears only on an unlabelled claimable pod, by the patch of the attempt it names, and disappears only by that attempt's rollback; never from one session to another |
| `ClaimProtocol.PoolDeleteSparesSessions` | internal/controller/pool.go:258-289 | however old the operator's read, a pool delete that takes effect hits an unlabelled pod, and no session label appears on it in any later state |
| `ClaimProtocol.SecretIsALock` | pkg/session/pool.go:200-227 | of two attempts of one session past Secret creation, the older one's Secret was gone before the younger one's was created, and not by its own rollback |
| `ClaimProtocol.UntouchedSecretIsExclusive` | pkg/session/pool.go:200-227 | while their Secrets are in place, at most one attempt of a session is past Secret creation |
| `ClaimProtocol.NoLockFailsWithoutACleanup` | pkg/session/manager.go:829-852 | two attempts of one session past Secret creation mean that a cleanup has deleted a Secret of that session no younger than theirs |
| `ClaimProtocol.TakenGoesBackToACleanup` | pkg/session/pool.go:213-227 | a Secret deleted by somebody else than its creator goes back, through rollbacks that each lost their own, to one deleted by a cleanup |
| `ClaimProtocol.SecondGetsInOnlyByALoss` | pkg/session/pool.go:200-227 | in every continuation of a state with a Secret in place, a newcomer gets past creation beside its holder only after a Secret of theirs was deleted by somebody else since |
| `ClaimProtocol.CleanupLetsASecondIn` | pkg/session/manager.go:829-852 | from every reachable state with a holder, a waiting claim and a claimable pod, one cleanup lets the second one in |
| `ClaimProtocol.RollbackLetsAThirdIn` | pkg/session/pool.go:213-227 | from every reachable state in which a rollback is due after its Secret was taken, it deletes the newer Secret and a third claim gets in without a cleanup |
| `ClaimProtocol.RollbackTakesAnothersIffOwnIsGone` | pkg/session/pool.go:213-227 | a served rollback deletes somebody else's Secret exactly when its own is gone and another one is in place |
| `ClaimProtocol.ThirdWaiting` | pkg/session/pool.go:113-140 | such a state is reachable |
| `ClaimProtocol.SecretsEndOnlyByTheirCreator` | pkg/session/pool.go:200-227 | a Secret in place is never replaced, and ends only by its creator's rollback, by a cleanup, or by the rollback of an attempt whose own Secret somebody else had deleted |
| `ClaimProtocol.OwnStepsSparePriorSecrets` | pkg/session/pool.go:200-227 | no step of an attempt deletes a Secret that was in place before the attempt began |
| `ClaimProtocol.PriorSecretsEndByOthers` | pkg/session/pool.go:113-140 | over any run such a Secret ends, if at all, by a step of another party |
| `ClaimProtocol.FailedClaimLeavesNoLabel` | pkg/session/pool.go:113-140 | an attempt that is between pods or has failed, and whose rollbacks were served, has its label on no pod |
| `ClaimProtocol.CompletedClaimsAreExclusive` | pkg/session/pool.go:113-140 | a completed claim keeps its label on its pod, and two completed claims never share a pod, even one that is gone, nor an agent process |
| `ClaimProtocol.OwnersAreDistinct` | pkg/session/pool.go:187-198 | no two attempts ever own one pod, before or after it has vanished |
| `ClaimProtocol.TokensAreForever` | pkg/session/pool.go:229-239 | once an agent process has a token, no later step changes it |
| `ClaimProtocol.UndisturbedClaim` | pkg/session/pool.go:187-227 | an attempt left alone with the stored version of a claimable pod does get past Secret creation, making one new Secret and changing no other pod, attempt, process or token |
| `ClaimProtocol.UndisturbedClaimCompletes` | pkg/session/pool.go:187-239 | from every reachable state, an attempt left alone with the stored version of an unlabelled claimable pod whose agent has no token, and no Secret of its session in place, ends with that pod claimed, and its agent process holds the token of the session and no other changes |
| `ClaimProtocol.ChosenExactlyWhen` | pkg/session/pool.go:92-100 | a listed version is taken for a try exactly if it shows no session label, no deletion, no final phase and no crash loop |
| `ClaimProtocol.LostAssignSpoilsTheAgent` | pkg/session/pool.go:220-239 | an assign whose reply is lost leaves the token with the process while the claim is rolled back, so that no claim is accepted there until a new process runs |
| `ClaimProtocol.PoolDeleteIffStillAsRead` | internal/controller/pool.go:258-289 | after a read that showed no label, and any steps in between, the pool delete takes effect if and only if the pod is still stored as it was read |
| `ClaimProtocol.OnDemandPodServesItsSession` | pkg/session/manager.go:527-570 | a pod made on demand carries the label of its session, and its new agent process holds the token of that session and no other process's token changes |
| `ClaimProtocol.TrialOfSuitable` | pkg/session/pool.go:187-227 | one undisturbed trial succeeds exactly if the version is suitable, and otherwise leaves every version as suitable as it was |
| `ClaimProtocol.SuitableStays` | pkg/session/pool.go:200-227 | the undoing of a failed trial changes no pod but its own, and that one only by a new version |
| `ClaimProtocol.InvStep` | pkg/session/pool.go:187-227 | every step of every party keeps the protocol invariant |
| `ClaimProtocol.InvExec` | pkg/session/pool.go:113-140 | every reachable state satisfies the protocol invariant |
| `ClaimProtocol.Replica.Call` | pkg/session/pool.go:187-227 | one API call of a claim, with any interference before it, follows the order of calls in `tryClaimPod` |
| `ClaimProtocol.Replica.RollBack` | pkg/session/pool.go:281-289 | after the rollback the attempt is free to try the next pod; left alone, it changes no other pod, no token and no Secret but the one it is to delete |
| `ClaimProtocol.Replica.TryClaimPod` | pkg/session/pool.go:187-227 | ends with the pod claimed for the session, or rolled back and choosing again, under any interference; left alone, it succeeds exactly if the version is still stored and the agent has no token, with the token then on that agent, and otherwise undoes its label and Secret |
| `ClaimProtocol.Replica.ClaimLabelled` | pkg/session/pool.go:200-227 | the same of the part after the label patch |
| `ClaimProtocol.Replica.TryListed` | pkg/session/pool.go:122-138 | left alone, the loop stops at the first suitable version of the list and claims its pod, and ends without a claim exactly if there is none |
| `ClaimProtocol.Replica.ClaimPod` | pkg/session/pool.go:113-140 | returns a pod that carries this session's label, or fails and, if its writes were acknowledged, leaves no label on any pod; a Secret that was in place before is still there unless another party deleted it; left alone and without a Secret of the session in place, it claims the pod of the first suitable version listed, with the session's token on that pod's process, and fails exactly if none is suitable |
| `AgentProcess.OneTokenPerProcess` | pkg/sandbox/handler.go:123-156 | all commands one process executes carry one and the same non-empty token, although `/exec` reads "assigned" and "token" in two critical sections |
| `AgentProcess.AssignedAtMostOnce` | pkg/sandbox/handler.go:174-191 | at most one `/assign` is accepted in a process's life, none if it started with a token |
| `AgentProcess.AssignAnswered` | pkg/sandbox/handler.go:174-191 | in every state `/assign` answers 400 to a missing or empty token, 200 to the first other one of a process started without a token, which then is the token, and 409 to any later one |
| `AgentProcess.RequestAnswered` | pkg/sandbox/handler.go:123-172 | in every state a request served in one go is answered 503 without an assigned token, 401 unless it bears exactly that token, 400 without a command, and else executed, with 200 or 500 |
| `AgentProcess.RightTokenIsServed` | pkg/sandbox/handler.go:123-172 | a well-formed request bearing the token of an assigned agent is never turned away, however steps interleave |
| `AgentProcess.InvExec` | pkg/sandbox/handler.go:123-191 | in every state the accepted tokens are the current one, and requests past a check still satisfy it |
| `AgentProcess.AgentState.constructor` | pkg/sandbox/handler.go:40-45 | starts assigned exactly when given a token |
| `AgentProcess.AgentState.Assign` | pkg/sandbox/handler.go:63-72 | accepted exactly when nothing was assigned before, and a refused call changes nothing |
| `WarmPool.TwoPassesConverge` | internal/controller/pool.go:143-206 | from any pod population, one pass whose deletes went through, then terminating pods vanishing, then a second pass leaves exactly the wanted number of good current pods; a further pass changes nothing, however readiness moves between the passes; sessions are untouched |
| `WarmPool.NeverTrimsAndCreates` | internal/controller/pool.go:143-206 | no pass both deletes a good pod and creates one, whatever deletes were skipped |
| `WarmPool.PassFills` | internal/controller/pool.go:183-204 | after any successful pass the unassigned pods present, those going away included, number at least the wanted size, and exactly that if a pod was made |
| `WarmPool.PassTrims` | internal/controller/pool.go:179-197 | after a successful pass without skipped deletes, good pods are kept only in slots that are wanted and not occupied by pods going away or bad ones still present; if some but not all good pods go the size is met exactly, and all go only if no slot is free |
| `WarmPool.SettledMeans` | internal/controller/pool.go:150-177 | a settled pool is one with exactly the wanted number of unassigned pods, each of the current overlay and none deleted, failed or backing off |
| `WarmPool.CreatedNothingOrTrimmedNothing` | internal/controller/pool.go:183-204 | the third loop has something to create only if the second had nothing to trim |
| `WarmPool.OnePassLeavesRoom` | internal/controller/pool.go:143-206 | after one pass and the end of what it deleted, only good pods remain and not too many |
| `WarmPool.PassTopsUp` | internal/controller/pool.go:197-206 | a pass over good pods only keeps every one of them and tops them up to the wanted number |
| `WarmPool.SettledStays` | internal/controller/pool.go:143-206 | a pass over a settled pool changes nothing |
| `WarmPool.PassSparesSessions` | internal/controller/pool.go:143-206 | a pass leaves every assigned pod as it was |
| `WarmPool.Operator.ObservePool` | internal/controller/pool.go:86-102 | counts exactly the ready unassigned pods and notices an unhealthy one |
| `WarmPool.Operator.DeleteIfStillUnassigned` | internal/controller/pool.go:258-289 | marks or removes the pod unless it is gone, assigned or changed concurrently, and changes nothing when the call fails |
| `WarmPool.Operator.SweepBad` | internal/controller/pool.go:150-177 | the first loop deletes exactly the stale and unhealthy unassigned pods and counts the slots still taken |
| `WarmPool.Operator.TrimOldest` | internal/controller/pool.go:179-197 | the second loop deletes exactly the surplus, the oldest of the good pods |
| `WarmPool.Operator.CreatePods` | internal/controller/pool.go:199-204 | the third loop adds exactly the missing pods under new names, and fails exactly if the API refuses one of them |
| `WarmPool.Operator.AdjustPool` | internal/controller/pool.go:143-206 | the three loops together make one pass in the sense of the convergence theorem, with the counts of `PassFills` and `PassTrims` on the pods before and after; even a failed one never trims and creates, and it fails only if a delete or a create does |
| `WarmPool.Operator.ReconcileZeroPool` | internal/controller/pool.go:212-233 | size zero deletes every live unassigned pod and is a pass for every overlay |
| `WarmPool.Operator.ObserveAfterMutate` | internal/controller/pool.go:237-256 | reports the pods as they are now plus what was wrong before, or nothing and an error when they cannot be listed again |
| `WarmPool.Operator.ReconcilePool` | internal/controller/pool.go:104-207 | nothing changes while pods cannot be listed or the gate is closed or unreadable; otherwise a successful call is one pass with those counts; no call trims and creates, sessions are spared even on errors, and it fails only if a list, delete or create does or the gate or overlay inputs are missing |
| `ReadyHistory.ReadyRestsOnAFullPool` | internal/controller/pool.go:324-344 | over any history of written statuses, Ready at a positive size goes back without a break to a pass that saw a full healthy pool of at least that size |
| `ReadyHistory.ReadyExactlyWhen` | internal/controller/pool.go:324-352 | after any history a written pass leaves Ready True if and only if the other checks passed and the pool has size zero, or is healthy and full, or is healthy and short with no rebuild, no larger size, Ready held before and the five minutes since WarmPoolReady turned False not over |
| `ReadyHistory.WakeUpAskedExactlyWhen` | internal/controller/pool.go:354-374 | after any history the pool asks to be looked at again exactly if the gate is closed, and then in two seconds, or while Ready is kept through a shortfall whose deadline is ahead |
| `ReadyHistory.ShortfallClearsReadyExactlyAtTheDeadline` | internal/controller/pool.go:346-352 | a pass that finds only a shortfall clears Ready if and only if five minutes have passed since WarmPoolReady turned False |
| `ReadyHistory.ConditionTimeIsTheTurn` | internal/controller/climcpinstance_controller.go:217-255 | the stored condition time is the second of the pass at which the value last turned |
| `ReadyHistory.RequeueLandsOnTheDeadline` | internal/controller/pool.go:354-374 | after any history, the wake-up is the deadline counted from the second of the pass that turned WarmPoolReady, if still ahead; a shortfall pass clears Ready from exactly that instant on |
| `ReadyHistory.FirstShortfallRequeue` | internal/controller/pool.go:354-374 | the pass that turns WarmPoolReady asks for a wake-up no earlier than the deadline that counts from it and less than a second plus its own duration late |
| `ReadyHistory.KeptWithoutAWakeUpIffStraddled` | internal/controller/climcpinstance_controller.go:217-255 | after any history Ready is kept without a pool wake-up exactly when the deadline falls between the two clock readings of the pass |
| `ReadyHistory.StraddlingHistory` | internal/controller/climcpinstance_controller.go:217-255 | a concrete history that ends so |
| `ReadyHistory.MissedDeadlineIsMadeUp` | internal/controller/pool.go:387-397 | the pass at the next wake-up clears Ready if the shortfall lasts, and without an idle wake-up that comes within a resync |
| `ReadyHistory.ScheduledRequeueAfter` | internal/controller/pool.go:376-397 | the sooner of the two wishes, and a resync only if there is none |
| `ReadyHistory.InstanceStatus.SyncStatus` | internal/controller/climcpinstance_controller.go:217-255 | the pass leaves the status that the history theorems are about; `ReadyExactlyWhen` says when that is Ready |
| `Finalizer.NothingOutlivesTheInstance` | internal/controller/climcpinstance_controller.go:132-207 | once the finalizer is removed no sandbox pod, session Secret or server of the instance exists, or appears in any later state |
| `Finalizer.NothingWithoutTheFinalizer` | internal/controller/climcpinstance_controller.go:79-88 | nothing of the instance exists in any state in which the finalizer is not set |
| `Finalizer.FinalizerCanAlwaysBeRemoved` | internal/controller/climcpinstance_controller.go:132-177 | from every reachable state of a deleted instance some continuation removes the finalizer |
| `Finalizer.AnyPopulationCanBeDeleted` | internal/controller/climcpinstance_controller.go:79-88 | any servers, pool and on-demand pods, marked or not, and Secrets are there in some run when an instance with the finalizer is deleted |
| `Finalizer.InvStep` | internal/controller/climcpinstance_controller.go:132-207 | every step of reconciler, servers and cluster keeps the invariant, and a removed instance stays removed |
| `Finalizer.Reconciler.Call` | internal/controller/climcpinstance_controller.go:132-207 | one call of `finalize`, with any interference before it, follows the order of the source |
| `Finalizer.Reconciler.Finalize` | internal/controller/climcpinstance_controller.go:132-177 | removes the finalizer only in a state with nothing left, and otherwise keeps it; left alone, it scales the servers to zero, deletes pods and Secrets only once no server is listed, and removes the finalizer exactly if no server and no pod was there and no Secret lingers |
| `Finalizer.Reconciler.CheckAndRemove` | internal/controller/climcpinstance_controller.go:155-177 | the second half: the final checks stand when the finalizer goes; left alone, it goes exactly if no pod and no Secret is listed |
| `IdleTiming.FreshSessionsAreSafeIffNoStalePatch` | pkg/session/pool.go:187-195 | over any history of patches, every stored version of a labelled pod is unexpired before its label second plus the timeout, if and only if no older activity patch lands on it |
| `IdleTiming.StalePatchesCostTenSeconds` | pkg/session/manager.go:813-826 | in every history with patches given up after ten seconds, no labelled version expires before its label second plus the timeout less ten seconds |
| `IdleTiming.ChangeKeepsSafetyIffNotStale` | pkg/session/manager.go:813-826 | one patch keeps a safe version safe exactly when it is not a stale activity patch |
| `IdleTiming.SafeIffRecent` | internal/controller/idle.go:51-63 | a version is safe exactly when its activity second is not before its label second |
| `IdleTiming.ExpiredExactlyWhen` | internal/controller/idle.go:36-63 | an assigned pod expires the timeout after its last activity, after its creation only where no activity was ever recorded, and never with an unreadable stamp |
| `IdleTiming.DelayedActivityPatchExpiresAFreshSession` | pkg/session/manager.go:813-826 | for every whole number of seconds under ten, a timed history in which a patch read that long before a re-claim makes the new session expire exactly that early |
| `IdleTiming.SoonestIdleRequeue` | internal/controller/idle.go:65-91 | the wake-up belongs to the earliest pending expiry, is never early and less than a second late, and is zero exactly when nothing is pending |
| `IdleTiming.EveryWatchedPodIsDeletedOrScheduled` | internal/controller/idle.go:93-128 | after a pass every assigned pod with a readable time is expired and so deleted, or covered by the wake-up |
| `IdleTiming.Cluster.GcIdleAssigned` | internal/controller/idle.go:93-128 | a successful pass deletes exactly the expired pods of the listing and their Secrets; even a failed one deletes nothing else, and it fails exactly if one of those deletes does |
| `IdleTiming.TimeoutOrDefault` | internal/controller/overlay.go:178-183 | always a positive timeout, the given one if positive |
| `ProxyGate.NobodyActsWithoutAFreshLookup` | pkg/session/manager.go:176-206 | whoever claims or creates was let in on a finished lookup that saw a ready endpoint and the egress policy; out of the cache it was younger than one TTL plus the delay of its store, from a flight as old as the flight took to hand it out |
| `ProxyGate.CacheHoldsNoCancellation` | pkg/session/manager.go:217-227 | a cancelled lookup is never in the cache, and at most one lookup is in progress |
| `ProxyGate.NoWaiterIsStranded` | pkg/session/manager.go:183-206 | a waiting caller waits on the flight in progress |
| `ProxyGate.CallerMayLeave` | pkg/session/manager.go:183-206 | a waiting caller whose context ends is refused at once, and nobody else is affected |
| `ProxyGate.CanBeLateIffStoreDelayed` | pkg/session/manager.go:208-223 | from every reachable state whose cache serves a positive entry, some continuation lets a caller in a whole TTL after its lookup if and only if the store was delayed |
| `ProxyGate.FlightAnswersAtAnyAge` | pkg/session/manager.go:183-206 | from every reachable state in which a positive flight is about to answer, some continuation hands its lookup out at any age of one TTL or more |
| `ProxyGate.EveryStoreDelayHappens` | pkg/session/manager.go:183-223 | for every delay, states just before and just after a store that late are reachable |
| `ProxyGate.InvExec` | pkg/session/manager.go:176-249 | every reachable gate state rests its cache, flight and callers on finished lookups |
| `ProxyGate.EndpointSlicesReady` | pkg/session/manager.go:253-265 | true exactly when some slice has an endpoint with an address that is not known to be unready |
| `ProxyGate.GateCache.CachedProxyGate` | pkg/session/manager.go:208-215 | answers exactly while something is stored and less than one TTL old |
| `ProxyGate.GateCache.StoreProxyGate` | pkg/session/manager.go:217-223 | what is served next is the result just stored |
| `CommandRecovery.Call.ExecuteCommand` | pkg/session/manager.go:598-641 | the command may have run at most twice, and twice only after a transport error; the response is the agent's last reply, with the reset notice exactly when this call's assign was seen accepted or the pod was replaced, so the notice is missing after an assign that took effect exactly when only such replies were lost; claims and creates follow an open gate; it recovers once, and exactly after a first attempt that ended unassigned or in a transport error of its own; activity is marked last, and only after success |
| `CommandRecovery.NoticeMissingIffOnlyLostAssigns` | pkg/session/manager.go:695-751 | a delivered response lacks the notice although this call's assign took effect exactly when every applied assign lost its reply and the pod was not replaced |
| `CommandRecovery.LostReplyLeavesNoNotice` | pkg/session/manager.go:695-751 | a concrete log that ends so: not assigned, lost reply, pod ready, 409, answered |
| `CommandRecovery.Call.AttemptAndRecover` | pkg/session/manager.go:598-641 | the same of the first attempt and its one recovery |
| `CommandRecovery.Call.FirstAttempt` | pkg/session/manager.go:598-622 | resolves the pod and may run the command once, without assigning or replacing anything |
| `CommandRecovery.Call.ExecuteWhenAssigned` | pkg/session/manager.go:645-664 | only the last of the polled attempts can have run the command, and its reply is the result; an unassigned agent is given up only after the whole wait, and polls come at intervals and none is begun after it |
| `CommandRecovery.Call.RecoverSession` | pkg/session/manager.go:695-721 | at most one more run; a named pod is replaced only after it was seen abandoned; it runs only for a cause that allows recovery |
| `CommandRecovery.Call.Conclude` | pkg/session/manager.go:610-641 | what follows the first reply: an answer is returned, a recovery is made exactly for an unassigned agent or a transport error of its own, and any other failure is final |
| `CommandRecovery.Call.Reassign` | pkg/session/manager.go:723-732 | a 409 counts as assigned by somebody else |
| `CommandRecovery.Call.RecoverOnNewPod` | pkg/session/manager.go:734-751 | one run on the recovered pod, with the notice exactly on a reset |
| `CommandRecovery.Call.PodForRecovery` | pkg/session/manager.go:753-769 | reports a replacement exactly when one happened |
| `CommandRecovery.Call.WaitRecoveredPod` | pkg/session/manager.go:771-804 | gives a pod up exactly when its last sighting was missing or dying, or the only one without an address, and keeps it exactly when the first sighting stood or became ready |
| `CommandRecovery.Call.GetOrCreatePod` | pkg/session/manager.go:269-326 | claims and creates only after an open gate, and sends no command; for every combination of answers it says whether a pod is resolved, and exactly which of gate, claim and create are called |
| `CommandRecovery.Joined` | pkg/session/manager.go:598-641 | runs add up over consecutive stretches of a call, and gating, resets and sightings carry over |
| `PodCache.Cache.Get` | pkg/session/cache.go:38-51 | answers exactly as the plain log of calls does |
| `PodCache.Cache.Set` | pkg/session/cache.go:54-63 | keeps the cache in agreement with the log |
| `PodCache.Cache.Delete` | pkg/session/cache.go:66-70 | keeps the cache in agreement with the log |
| `PodCache.Cache.Invalidate` | pkg/session/cache.go:74-81 | keeps the cache in agreement with the log |
| `PodCache.Cache.EvictExpired` | pkg/session/cache.go:84-97 | drops exactly the expired entries, counts them, and stays in agreement with the log |
| `PodCache.Cache.constructor` | pkg/session/cache.go:26-34 | starts empty with a positive time to live |
| `PodCache.LookupsAreUnobservable` | pkg/session/cache.go:38-97 | taking every lookup and eviction out of any history changes no later answer |
| `PodCache.AnswerIffSetStands` | pkg/session/cache.go:38-51 | a lookup finds a pod exactly when some `Set` of it stands, with no later `Set`, `Delete` or IP-matching `Invalidate`, and is within its time to live |
| `TunnelDrain.DrainLeavesNothingOpen` | cmd/proxy/main.go:156-183 | in every run, when drain has returned every connection ever added is closed or is being closed by an add in flight |
| `TunnelDrain.NoWakeUpIsMissed` | cmd/proxy/main.go:156-183 | drain sleeps only while something is open, and if the context has ended the broadcast is still to come |
| `TunnelDrain.ContextEndWakesDrain` | cmd/proxy/main.go:156-183 | after the context ends the watcher's next two steps wake the sleeper |
| `TunnelDrain.LastRemoveWakesDrain` | cmd/proxy/main.go:145-152 | removing the last tunnel wakes the sleeper in that step |
| `TunnelDrain.DrainReturnsAfterContextEnds` | cmd/proxy/main.go:156-183 | once the context has ended, drain can return by steps of its own and of its watcher alone |
| `TunnelDrain.DrainWaitsForTheTunnels` | cmd/proxy/main.go:154-183 | from every reachable state in which drain waits and every tracked tunnel can still be removed, the tunnels finishing by themselves let it return, without the context ending and without closing one by force |
| `TunnelDrain.StuckTunnelHoldsTheDrain` | cmd/proxy/main.go:156-183 | a tunnel that was closed before it was tracked keeps drain waiting in every continuation in which the context does not end |
| `TunnelDrain.DrainClosesOnlyAfterContextEnds` | cmd/proxy/main.go:178-182 | drain closes no tunnel before the context has ended |
| `TunnelDrain.TunnelIsTrackedOrClosed` | cmd/proxy/main.go:134-143 | in every state a tunnel that arrives before draining is tracked, and one that arrives later is closed by the call itself |
| `TunnelDrain.InvStep` | cmd/proxy/main.go:134-183 | every step keeps the tracker invariant |
| `TunnelDrain.MitmTracker.Add` | cmd/proxy/main.go:134-143 | tracks the connection unless draining, and then says that it must be closed |
| `TunnelDrain.MitmTracker.Remove` | cmd/proxy/main.go:145-152 | forgets the connection and broadcasts exactly when none is left |
| `TunnelDrain.MitmTracker.Leftover` | cmd/proxy/main.go:173-177 | copies exactly what is still tracked |
| `BashFraming.SessionReadsBack` | pkg/sandbox/bash.go:203-250 | for any sequence of commands whose output texts, and whatever earlier ones left over in front of each start marker, are empty or newline-terminated without marker lines, reading the text bash writes frame by frame returns each command's trimmed stdout and stderr and its exit code, none of the leftovers, and leaves both streams exactly at the text that follows |
| `BashFraming.StdoutTextReadsBackIffTerminated` | pkg/sandbox/bash.go:203-222 | for every output text without a marker line, the framed text is read back and the stream left at the next text if and only if the output is empty or ends in a newline |
| `BashFraming.StdoutTextReadsBackAfterLeftovers` | pkg/sandbox/bash.go:203-222 | with any text without a marker line left over in front of the start marker, the framed output is read back and the stream left at the next text if and only if the output is empty or ends in a newline and so does the leftover, or there is nothing but newlines to read |
| `BashFraming.StdoutReadsBackAfterLeftovers` | pkg/sandbox/bash.go:203-222 | the same on lists of lines |
| `BashFraming.StderrTextReadsBackIffTerminated` | pkg/sandbox/bash.go:224-250 | the same for stderr with the exit code |
| `BashFraming.StdoutReadsBackIffTerminated` | pkg/sandbox/bash.go:203-222 | the same on lists of lines: a frame is read back if and only if the output has no partial last line |
| `BashFraming.StderrReadsBackIffTerminated` | pkg/sandbox/bash.go:224-250 | the same for stderr with the exit code |
| `BashFraming.FrameText` | pkg/sandbox/bash.go:160-171 | the frames are, character for character, the echoed markers around the output |
| `BashFraming.LinesSpellTheText` | pkg/sandbox/bash.go:207-208 | the lines of a text spell it, and its partial line is empty exactly when it is empty or newline-terminated |
| `BashFraming.TextDeterminesLines` | pkg/sandbox/bash.go:207-208 | a text has only one splitting into lines |
| `BashFraming.FramedLines` | pkg/sandbox/bash.go:160-171 | the lines of a framed text are the frame of its lines |
| `BashFraming.Stream.ReadString` | pkg/sandbox/bash.go:207-208 | takes one line with its newline, or everything and the end of the stream |
| `BashFraming.StdoutLoop` | pkg/sandbox/bash.go:203-222 | the loop returns what the frame theorems are about, and leaves the stream there |
| `BashFraming.StderrLoop` | pkg/sandbox/bash.go:224-250 | the same for stderr and the exit code |
| `BashFraming.BashSession.Execute` | pkg/sandbox/bash.go:252-328 | whichever reader ends first, the result is both outputs and the code, and the session is dead exactly when there is none |
| `HostPort.SplitUndoesJoinIffPlain` | pkg/kubeconfig/host.go:15-33 | splitting undoes joining exactly for hosts and ports without brackets and ports without colons, bracketed form included |
| `HostPort.CanonicalIdempotent` | pkg/kubeconfig/host.go:14-34 | the canonical form of an accepted text is its own canonical form |
| `HostPort.CanonicalForms` | pkg/kubeconfig/host.go:14-34 | the fixed points are exactly the joins of a canonical host and a port number |
| `HostPort.CanonicalHostHasNoCapitals` | pkg/kubeconfig/host.go:14-34 | no character of a canonical host is a capital letter |
| `HostPort.SameCanonicalForm` | pkg/kubeconfig/host.go:14-34 | two accepted texts agree exactly when their hosts agree up to case and outer space and their ports as numbers |
| `HostPort.ZeroPaddedPort` | pkg/kubeconfig/host.go:29-33 | zeros in front of a port do not change the canonical form |
| `HostPort.DnsName` | pkg/kubeconfig/host.go:134-154 | the nested loops decide exactly the DNS names |
| `HostPort.DnsNamesAreJoinedLabels` | pkg/kubeconfig/host.go:134-154 | those are exactly the texts of at most 253 characters that labels joined by dots spell |
| `HostPort.AllowlistRoutesAreFixedPoints` | pkg/kubeconfig/host.go:77-117 | every result of `ParseAllowlistDomain` parses to itself |
| `HostPort.AllowlistRouteShape` | pkg/kubeconfig/host.go:77-117 | every result is the join of a port number and a canonical host that is an IP address or a DNS name |
| `HostPort.ServerRouteIsCanonical` | pkg/kubeconfig/host.go:40-71 | every server URL result has that same shape and is its own canonical form |
| `HostPort.ServerRouteExactlyWhen` | pkg/kubeconfig/host.go:40-71 | a server URL is accepted exactly if it is https without user information, its host an IP address or DNS name up to case and outer space, and its port a port number, 443 if missing; the result is that host and port |
| `HostPort.EveryDnsNameIsAServer` | pkg/kubeconfig/host.go:40-71 | every DNS name is accepted as a server as it stands, with port 443 or any given port |
| `HostPort.EveryDnsNameIsAccepted` | pkg/kubeconfig/host.go:77-117 | every DNS name is accepted bare, meaning port 443, and with any port |
| `Text.LowerLetters` | pkg/kubeconfig/host.go:19-19 | each capital becomes the small letter in its place, and no other character changes |
| `Kubeconfig.Validate` | pkg/kubeconfig/validate.go:21-40 | accepts exactly the files that meet the declarative rule, in any iteration order, and reports a fault the file has |
| `Kubeconfig.LoadTokens` | pkg/kubeconfig/validate.go:42-60 | succeeds exactly on those files, with a map of every server to the token of the contexts on it |
| `Kubeconfig.TokenMapIsUnique` | pkg/kubeconfig/validate.go:42-60 | there is only one such map, so the iteration order does not matter |
| `Kubeconfig.TokenComesFromAContext` | pkg/kubeconfig/validate.go:130-164 | every token in the map is non-empty and given by a context on that host |
| `Kubeconfig.FaultsBreakTheRule` | pkg/kubeconfig/validate.go:62-164 | a file with a reported fault does not meet the rule |
| `Kubeconfig.ValidateAuthInfos` | pkg/kubeconfig/validate.go:62-92 | passes exactly when every user authenticates by a token alone |
| `Kubeconfig.Hosts.IndexOne` | pkg/kubeconfig/validate.go:96-113 | one cluster is indexed or its fault reported |
| `Kubeconfig.Hosts.IndexClusters` | pkg/kubeconfig/validate.go:94-115 | passes exactly when every cluster is usable and servers have one CA, and then indexes exactly their servers |
| `Kubeconfig.Hosts.AssignOne` | pkg/kubeconfig/validate.go:132-152 | one context's token is taken, confirmed, or its fault reported |
| `Kubeconfig.Hosts.AssignContextTokens` | pkg/kubeconfig/validate.go:130-164 | passes exactly when contexts resolve, servers have one token and every cluster is covered |
| `Kubeconfig.Hosts.CheckTokens` | pkg/kubeconfig/validate.go:158-162 | the last check never finds a server without a token |
| `Kubeconfig.CheckCovered` | pkg/kubeconfig/validate.go:153-157 | passes exactly when every cluster has a context |
| `Routes.RoutesFromClusters` | pkg/kubeconfig/routes.go:31-61 | one kubernetes route for each distinct server, each with the CA of a cluster on it |
| `Routes.BuildProxyRoutes` | pkg/kubeconfig/routes.go:15-29 | succeeds exactly with a path and an acceptable file, with those routes strictly sorted |
| `Routes.SortRoutes` | pkg/kubeconfig/routes.go:89-93 | the same routes, with repetitions, in order of domain, and strictly so if the domains are distinct |
| `Routes.AllowlistRoutes` | internal/controller/proxy.go:665-685 | one none route for each host the entries parse to, and one problem for each entry that does not parse, in order |
| `Routes.MergeRoutes` | internal/controller/proxy.go:714-755 | keeps the first route of exactly the hosts whose routes agree on the injector, sorted, and reports every other host once |
| `Routes.ClashIffInjectorsDiffer` | internal/controller/proxy.go:721-731 | a host counts as a conflict exactly when two of its routes have different injectors |
| `Routes.FirstIsFirst` | internal/controller/proxy.go:721-731 | the route kept for a host stands before every other one |
| `Routes.CollectProxyRoutes` | internal/controller/proxy.go:649-663 | what is kept of a host is its first kubeconfig route, or the none route if only the allowlist has it, exactly when everyone agrees on its injector; the others are reported once each, before the bad entries of all targets in order |
| `Routes.EveryEntryIsAccountedFor` | internal/controller/proxy.go:649-685 | every allowlist entry ends as a kept host, a reported conflict or a reported bad entry, and in only one of these ways |
| `Routes.ConflictIffBothClaim` | internal/controller/proxy.go:714-755 | with kubernetes routes only, a host is a conflict exactly when the allowlist has it too |
| `ProxyTable.ProxyConfig.Index` | pkg/proxy/config.go:62-79 | accepts exactly a non-empty list of usable routes without two of one canonical domain, and then finds each under its domain |
| `ProxyTable.MatchIffSameForm` | pkg/proxy/config.go:50-60 | a request host matches exactly when it has the canonical form of some route, and then that route |
| `ProxyTable.Injectors.Cached` | pkg/proxy/server.go:104-114 | the path cache gives the tokens of the file at that path |
| `ProxyTable.Injectors.AddRoute` | pkg/proxy/server.go:84-100 | one route gets its injection exactly when its file is acceptable and has its host |
| `ProxyTable.Injectors.AddRoutes` | pkg/proxy/server.go:81-102 | succeeds exactly when every route can be injected, with a fitting injection for each |
| `ProxyTable.Request.StripAuthHeaders` | pkg/proxy/strip.go:22-34 | removes exactly the credential and impersonation headers |
| `ProxyTable.StrippedHeaders` | pkg/proxy/strip.go:10-34 | exactly the named credential and impersonation headers, and those with the extra-identity prefix, are taken away; the others keep their values |
| `ProxyTable.InjectAndForward` | pkg/proxy/server.go:162-173 | the request goes on with the injected headers less Via and X-Forwarded-For, or fails |
| `ProxyTable.Handle` | pkg/proxy/server.go:147-174 | each refusal exactly under its condition; on a sound table injection never fails, and what goes on carries exactly the bearer token of the matched host, or no credential header on a none route |
| `ProxyTable.KubeRouteCarriesItsToken` | pkg/proxy/injector.go:36-47 | the injected token is the one the route's kubeconfig gives for the matched host |
| `ProxyTable.NoneRouteCarriesNoCredential` | pkg/proxy/strip.go:10-34 | a none route forwards no credential header |
| `ProxyTable.OneTokenPerHost` | pkg/kubeconfig/validate.go:130-164 | an acceptable file gives a host only one token |
| `ProxyTable.KubernetesRoutes` | internal/controller/proxy.go:342-393 | fails exactly on an unknown target or a kubernetes target whose file cannot be read or sanitised; otherwise the routes of an acceptable file, covering each of its clusters, or nothing |
| `ProxyTable.RoutesOfFile` | internal/controller/proxy.go:367-393 | the same of one kubernetes target |
| `ProxyTable.NewHostTransport` | pkg/proxy/transport.go:25-55 | succeeds exactly when every route's roots load, pinning a kubernetes route to its own CA and every other to the public roots |
| `ProxyTable.Load` | pkg/proxy/server.go:68-79 | a list the operator emits is indexed unchanged, every kubernetes route finds a token and every host its roots; it fails exactly when public roots are needed and missing |
| `ProxyTable.BuildTable` | internal/controller/proxy.go:342-365 | for every spec and kubeconfig whose CAs are absent or PEM, a non-empty route list becomes a sound table over exactly the surviving routes, unless public roots are missing |
| `ProxyTable.ParsersAgree` | pkg/kubeconfig/host.go:77-117 | what the allowlist parser emits is what the proxy's lookup computes |
| `ProxyTable.ServersFromURLsAgree` | pkg/kubeconfig/host.go:40-71 | the same for server URLs |
| `ProxyTable.ProxyFor` | internal/controller/proxy.go:342-393 | the pipeline theorem with the program's own parsers and mount path |
| `Proxy.Serve` | pkg/proxy/server.go:147-174 | on the table of any spec, a request that goes on to a Kubernetes API came over https, names no streaming subresource as it stands or decoded once, and carries exactly its host's token; any other that goes on carries no credential header |
| `Proxy.StreamingIsDenied` | pkg/proxy/strip.go:43-71 | a path that, cleaned and decoded at most once, is an API request that proxies or streams is denied |
| `KubePath.ParseRecoversIffUnambiguous` | pkg/proxy/strip.go:77-108 | parsing a rendered request gives back its subresource and verb exactly when its layout is unambiguous |
| `KubePath.AmbiguousLayout` | pkg/proxy/strip.go:101-107 | a well-formed request of which the subresource is not given back |
| `KubePath.DeniedIffStreaming` | pkg/proxy/strip.go:56-71 | the text of an unambiguous request is denied exactly when it proxies or names a streaming subresource |
| `KubePath.NoiseKeepsTheVerdict` | pkg/proxy/strip.go:56-60 | redundant slashes, "." segments and a segment taken back by ".." do not change the verdict, anywhere in a path |
| `KubePath.TrailingNoiseKeepsTheVerdict` | pkg/proxy/strip.go:56-60 | the same at the end of a path: a trailing slash, a final "/." or a final segment taken back |
| `KubePath.DeniedBySegments` | pkg/proxy/strip.go:56-71 | the verdict depends on the cleaned segments alone |
| `KubePath.UnescapeUndoesEncoding` | pkg/proxy/strip.go:47-53 | unescaping gives a plain text exactly when the text is what the independent encoder makes of it (section 2.1 of RFC 3986) with some choice of escaped characters and hexadecimal case |
| `KubePath.EncodingIsUndone` | pkg/proxy/strip.go:47-53 | for every text, every choice of escaped characters that includes the percent signs and every case of the digits, unescaping the encoding gives the text back |
| `KubePath.UndoneIsEncoding` | pkg/proxy/strip.go:47-53 | what can be unescaped is such an encoding of the result |
| `KubePath.EncodingsOfDeniedAreDenied` | pkg/proxy/strip.go:43-54 | however the characters of a denied path are escaped, the result is denied |
| `KubePath.PodSubresourceDenied` | pkg/proxy/strip.go:56-71 | on a pod of a namespace exactly exec, attach, portforward, proxy and ephemeralcontainers are denied |
| `KubePath.DeniedThroughOneEncoding` | pkg/proxy/strip.go:43-54 | a path is denied exactly when it, or a path of which it is an encoding in that sense, is denied |

## Left out

- Kubernetes client plumbing, child objects, RBAC and defaulting: they copy fields and would only add easy members.
- TLS handshakes, certificate parsing, tunnel interception and dialling: whether bytes are a certificate, and whether the public roots load, are parameters.
- `url.Parse` and `net.ParseIP`: a server URL enters as its parts, and whether a host is an IP address is a parameter.
- JSON and YAML decoding: kubeconfigs and route lists enter as values.
- Upper- and lower-casing beyond ASCII letters: `Text.Lower` leaves other characters alone.
- Bash itself, signals, timeouts and respawning: a stream is what will still arrive on it, and a reader that never meets its marker reads to the end of the stream instead of to the timeout.
- Numbers outside a machine word: `Text.Atoi` reads any digits, where Go fails past 64 bits; ports are bounded anyway.
- Reuse of pod IP addresses and the wait for an address: a claim that fails there is a refused assign.
- `keepOldestAssigned`: its deletes appear only as deletion marks on any pod, and one live pod per session is not claimed.
- The order of listings and of sorting by age: `ClaimPod` takes any list, the pool pass takes an oldest pod each time, and clusters are taken in any order.
- `BuildAllowlistRoutes`: the operator uses `allowlistRoutes` instead.
- The texts of error messages, of the unhealthy-pod report and of skipped domains: errors are values.
- `proxyPoolOpen` and the overlay hash: parameters of `WarmPool.Operator.ReconcilePool`.
- An activity patch that the API server applies after its sender gave up: `IdleTiming` takes the ten-second timeout for its end.
- Re-creating an instance under the same name, and anyone but the reconciler scaling the servers: not modelled in `Finalizer`.
- Header spelling: names are lower-cased, standing for the canonical keys net/http keeps.
- BashFraming.BashSession.Execute: the timeout, respawning and the reset notice are not modelled, being process handling around the framing.
- WarmPool.Operator.ReconcilePool: reads are fresh, while `ClaimProtocol` covers stale reads of the delete itself.
- ClaimProtocol.Replica.ClaimPod: the pod it names is the one before `keepOldestAssigned` looks for an older one of the session.
- CommandRecovery.Call.GetOrCreatePod: which pod is found, claimed or made is not followed, only whether.
- TunnelDrain.DrainWaitsForTheTunnels: says that drain can return, not that a fair scheduler makes it return.
- TunnelDrain.DrainReturnsAfterContextEnds: says that drain can return, not that a fair scheduler makes it return.
- Finalizer.FinalizerCanAlwaysBeRemoved: says that a continuation exists, not that the cluster takes it.
