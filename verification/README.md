# LarkFlow: the reopen-capable workflow engine and its driver, verified

LarkFlow runs an acyclic graph of nodes in super-steps. Tool and model nodes answer by themselves; a human node parks
on an interrupt until a person presses a button or completes a task. A gate that is not passed *sends work back*: its
targets, everything downstream of them, and the gate itself are reset to pending and enter a new round. A gate has a
budget of send-backs; when it is used up the gate is *blocked* until a person lifts it with a bounded credit. Around
the engine a driver pushes branches past the super-step barrier, carries people's old interrupt ids over to new ones,
sends cards and tasks at most once a round, edits the graph of a running instance behind a freeze line, and files
requests when a send-back would drag in other people's work. A separate token-bucket limiter guards the console.

## How the model is laid out

| file | what it holds |
|---|---|
| Graph, Template | nodes and dags; the closure worklists; the three-colour cycle search and the template's guardrails |
| State, Gates, Engine | channels and reducers; the reset rules of `dispatch`; the engine as a transition relation |
| Termination, Accounting | the rank that every state-changing step lowers; grants, refunds and capped send-backs |
| Permissions, Deliverables, LiveGraph | who may send back what; what a node sees upstream; the op loop of a live edit |
| Driver, Rounds, Safety, Progress, Rebound | the driver as a state machine, its invariant, and what follows over whole histories |
| Stranded, Cards | whom a write leaves behind, and when a card still reaches its holder |
| Stories, Signed, Fork | concrete histories, from the start of an instance, in which a card is lost |
| Overrun | a family of instances on which the pump's estimate of rounds is too small |
| Correlations, WriteBack, DispatchKeys | the routing tables; the value-preserving write through the reducers; the flat key strings |
| Service | the service object: its loops and calls, each proved to be a history of the driver machine |
| Escalations, Approvals | the request and verdict logs of a gate as a machine, and the service's calls that write them |
| RateLimiter | the two token buckets debited together, with eviction |

The engine is given twice where the source loops: a method with the loop (`ComputeReopenResets`, `UpstreamHandles`,
`EditGraph`, `Pump`, ...) and the function or predicate it is proved to compute; the properties are proved of the latter.

The class `LarkFlowService` carries a ghost history. Everything one of its methods does is appended to that history as
an action of the machine in `Driver`, so each theorem about histories (`RoundSafety`, `SentOnce`, `ClosedStaysStale`)
holds of every sequence of calls. What comes from outside is arbitrary: what a tool, a model or a person answers, which
calls fail, and when a super-step is cut off by an exception. `World.failures` counts failed calls to the outside, so that
contracts can say that an exception or a recorded error was not the service's own doing.

Many functions have a lemma beside them whose name ends in `Rule`: it says what the function decides in terms of the graph,
the records and the people alone, if and only if, so that a theorem stated through the function can be read without it.

Two things a reader should know before trusting intuition:

- When several gates send back or block in one dispatch, the last write in dag order wins. A blocked gate may so have
  a pending dependency, and a gate's count may exceed its budget. The invariants here are the ones that hold anyway.
- The source's `recursion_limit` and the pump's `rounds` are estimates. The bound proved here,
  `b * (2n + 1) + 2n` state-changing steps for n nodes and b send-backs still in the budgets, is the model's own. Every
  unquiet round of the pump lowers the same rank, so the pump can only give up if its `2n + 2b + 5` rounds do not exceed
  the rank; that covers every instance with no send-back left (`Service.EstimateSuffices`), not every instance.
  `Overrun.EstimateFallsShort` gives a family of instances on which the pump does give up.

A task and a card find their way back differently. A task's completion is looked up in its correlation row, which each
dispatch sets anew. A card's buttons carry the interrupt id it was created with, for good (`larkflow/service.py:1576-1587`),
so a card lives by the migration chain alone. `Safety.Address` makes that difference, and so do the theorems.

## Where the code does not do what is said of it

- *A write re-binds every interrupt whose holder stays in the same round* (`larkflow/service.py:1318-1333`,
  `larkflow/service.py:1497-1510`). Not if a call fails on the way, since re-binding comes last: then nobody is re-bound.
  And not if the prediction, which is made on the state before the update, is wrong. For pushes and edits it never is.
  For a refund it is wrong about somebody exactly if everyone who would send his work back is the refunded gate, with a
  count its budget allows only thanks to the refunded grant; for an unblock, exactly if everyone who would send his work
  back is itself pulled back by the unblock, and he is not. `Stranded.WhoIsLeftBehind` is the equivalence over whole
  writes, `Stranded.Mispredicted` the condition on the state before. `Signed.CrashLosesCard`, `Signed.RefundLosesCard` and
  `Fork.UnblockLosesCard` tell a history from the start of an instance for each of the three cases.
- *After a reconcile without errors everyone waiting is reached.* A task reaches, a card need not: the key of its round is
  used, so no new card is sent, and the chain may be cut. `Cards.CardReachesIff` says exactly when it still reaches: no
  write has crashed since it was sent, and none was mispredicted about its holder. `Signed.DeadCard` is a history in
  which a push and a dispatch have gone through without an error and the holder is still not reached.
- *An unblock whose retry fails on the spot gives the credit back.* The refund covers a failure of the push
  (`larkflow/service.py:543-559`); a failure inside the write just before it (`larkflow/service.py:536-542`) propagates and
  the credit stays spent. That can happen exactly if, after the unblock and its dispatch, something that is ready can fail:
  a tool or model node, or a person's node whose document is still to be created. `Service.LarkFlowService.Unblock` has one
  direction, `Service.CrashSpends` the other, `Signed.CrashLosesCard` an instance.
- *The number of rounds is computed from the send-back budget* (`larkflow/engine/gates.py:243-245`,
  `larkflow/service.py:1393-1394`), so that pushing on is only given up when nothing moves any more. It allows two rounds
  for a send-back. While a person waits, a round is one super-step, so a send-back takes as many rounds as the path it
  resets is long. With a chain of l automatic steps, a check behind it with budget b, and a person waiting beside them, the
  pump gives up on an instance that still moves whenever `2l + 2b + 9 < (b + 1)(l + 1)`: `Overrun.EstimateFallsShort`;
  nine nodes and the default budget of three are enough, `Overrun.NineNodesFallShort`.
- *Dispatch keys* are flat strings. Within an instance they never collide; across instances they do when ids contain the
  separator (`DispatchKeys.SameKey` is the exact condition, `DispatchKeys.KeysMayCollide` an example).

## Model

| member | source | states |
|---|---|---|
| Graph.Closure | larkflow/engine/gates.py:57-65 | the worklist returns exactly the ids reachable by a non-empty path, and terminates on cyclic input too |
| Graph.DepsAncestors | larkflow/model/node.py:52-63 | the stack loop over a dag computes the true transitive closure of dependencies |
| Graph.StaleDownstream | larkflow/engine/gates.py:47-65 | the stack loop over reversed edges computes everything that transitively depends on the target |
| Graph.ReachabilityDuality | larkflow/model/node.py:52-63 | t is an ancestor of g exactly when g is stale downstream of t, for every dag with unique ids |
| Graph.FewerAncestors | larkflow/model/template.py:259-274 | in an acyclic graph a dependency has strictly fewer ancestors than its dependant |
| Template.AssertAcyclic | larkflow/model/template.py:259-274 | the recursive colour search terminates and accepts a shape-checked dag exactly when no node is its own ancestor; a refusal shows a trail that closes a cycle |
| Template.Visit | larkflow/model/template.py:263-271 | one call of the search: a cycle on the trail, or every node reachable from here finished and off every cycle |
| Template.ValidateTemplate | larkflow/model/template.py:82-89 | shape, acyclicity and the modelled guardrails together decide exactly the valid templates |
| Template.GateHasDeps | larkflow/model/template.py:135-157 | a gate of a valid template has somewhere to send back to by default |
| State.FoldCounts | larkflow/engine/state.py:21-26 | the key-by-key loop adds the two tables pointwise |
| State.FoldLists | larkflow/engine/state.py:29-38 | the key-by-key loop appends the two logs pointwise |
| State.ReturnRule | larkflow/engine/gates.py:115-129 | a node that returns is done, except a gate that was not passed, which has failed; its answer is on record and nothing else changes |
| State.FoldAt | larkflow/engine/gates.py:115-129 | however many workers returned, a node's status and output are the ones its own worker wrote |
| State.SuperStepConfluence | larkflow/engine/state.py:16-38 | folding the returns of a super-step in any order gives the same state |
| WriteBack.WriteIsUpdate | larkflow/service.py:1334-1343 | over a checkpoint that has not absorbed the returned work yet, the value-preserving write of any update loses none of it and counts nothing twice |
| WriteBack.BareWriteIff | larkflow/service.py:1309-1313 | for every update, the update alone, without the observed channels, is right exactly if each piece of returned work is committed already or its status is overwritten by the update, and its output is committed |
| WriteBack.CarryingIff | larkflow/service.py:1338-1341 | for every update, carrying the accumulating channels along is right exactly while nothing has been counted or granted |
| Gates.CollectReady | larkflow/engine/gates.py:22-30 | the loop returns, in dag order, the pending nodes whose dependencies are all done |
| Gates.IllegalReopen | larkflow/engine/gates.py:105-112 | the illegal targets are exactly the picked ones that are not ancestors of the gate |
| Gates.PullBack | larkflow/engine/gates.py:209-222 | the loop over targets marks the targets, all that is stale downstream of them, and the gate |
| Gates.ComputeReopenResets | larkflow/engine/gates.py:194-225 | the loop over failed gates computes the specified resets, last write in dag order winning |
| Gates.ResetsChar | larkflow/engine/gates.py:194-225 | a node is reset exactly when some gate sends it back or halts at it, and to pending exactly when no later gate of the dag halts at it |
| Gates.SendRule | larkflow/engine/gates.py:68-77 | a failed gate under budget sends back every picked ancestor (of its dependencies, if none was picked), all downstream of each, and itself, and nothing else; picked targets that are no ancestors are passed over, and if no other is left it stops |
| Gates.StopRule | larkflow/engine/gates.py:205-216 | a failed gate without budget left stops and sends nothing; a gate that has not failed does neither |
| Gates.BudgetRule | larkflow/engine/gates.py:132-168 | a gate may send back as often as its node says, at least once, three times if it says nothing, plus what it has been granted on balance if that is positive |
| Gates.ComputeUnblockResets | larkflow/engine/gates.py:180-191 | an unblock resets exactly the gate, the picked targets and everything downstream of them |
| Gates.RunDispatch | larkflow/engine/orchestrator.py:38-48 | the delta of one dispatch: resets merged, rounds and counts incremented for what went back to pending; which nodes those are is what SendRule, StopRule and ResetsChar say |
| Gates.SumGrants | larkflow/engine/gates.py:154-160 | the loop over a gate's log computes the granted budget net of refunds, never below zero |
| Engine.FreshIsValid | larkflow/engine/gates.py:22-30 | a new instance on a valid template satisfies the run invariant |
| Engine.StepKeepsValid | larkflow/engine/gates.py:180-225 | every step (dispatch with any number of failed gates, a completion, an unblock, a refund, an accepted edit) keeps: a done or failed node has all dependencies done, and only gates fail or block |
| Engine.RunKeepsValid | larkflow/engine/orchestrator.py:38-62 | so does every finite run |
| Engine.DispatchKeepsValid | larkflow/engine/gates.py:194-225 | several failed gates at once leave no done or failed node above a pending dependency |
| Engine.LiftRule | larkflow/engine/gates.py:171-191 | an unblock puts exactly the gate, the picked targets and all downstream of one into a new round, records one grant, and raises the granted budget by one to three |
| Engine.NoFailedAfterDispatch | larkflow/engine/gates.py:194-225 | after a dispatch no node is failed |
| Engine.SenderResets | larkflow/engine/gates.py:205-224 | a gate that sends work back is itself reset to pending, whatever other gates do in the same dispatch |
| Engine.StuckIsExplained | larkflow/engine/gates.py:22-34 | with nothing failed and nothing ready, every node is done, blocked, or below a blocked ancestor |
| Engine.NoSilentDeadlock | larkflow/engine/orchestrator.py:50-53 | if nothing is ready after a dispatch of a valid state, no node is failed and everything unfinished is explained by a blocked gate |
| Termination.StepLowersRank | larkflow/engine/orchestrator.py:38-62 | between human interventions every step that changes state lowers one number, and a dispatch that sends back also uses up a send-back |
| Termination.SendBackLowersRemaining | larkflow/engine/gates.py:205-231 | each dispatch that resets something to pending uses up at least one of the remaining send-backs |
| Termination.RunConsumes | larkflow/engine/gates.py:243-245 | over a run, steps taken and send-backs used are both paid for by the initial rank and remaining budget |
| Termination.RunsAreBounded | larkflow/engine/gates.py:243-245 | between interventions a run has at most b(2n+1)+2n state-changing steps, and at most the total budget of send-back dispatches |
| Accounting.GrantsStayBounded | larkflow/engine/gates.py:143-177 | over every run net grants stay in 0..3 and granted budget in 0..9 |
| Accounting.RefundCancels | larkflow/engine/gates.py:143-160 | a refund takes back exactly the count and amount of its own grant |
| Accounting.ReopensAreCapped | larkflow/engine/gates.py:194-231 | with its own budget unedited, a gate performs at most budget + 9 send-backs over a whole run with any unblocks and edits |
| Permissions.CollateralHumans | larkflow/engine/permissions.py:113-137 | the loop finds exactly other people's human nodes in the recompute set, outside the target, the gate and what is downstream of the gate |
| Permissions.AllowedTargets | larkflow/engine/permissions.py:153-166 | the owner may send back to any ancestor; an answerer of the gate to those that drag in nobody else; others to none |
| Permissions.ReopenVerdict | larkflow/engine/permissions.py:169-201 | the three lists are, in order of first occurrence, exactly the targets ruled allowed, escalating and denied, each escalation with its approvers and collateral |
| Permissions.VerdictPartitions | larkflow/engine/permissions.py:169-201 | allowed, escalating and denied partition the deduplicated targets |
| Permissions.AllowedIsMonotone | larkflow/engine/permissions.py:153-166 | more roles never take a target away |
| Permissions.JudgedIsExecuted | larkflow/engine/permissions.py:98-101 | for one failed gate under budget whose recorded pick (or, without one, whose dependencies) is legal, dispatch resets exactly the union of the recompute sets of what was picked |
| Permissions.NoSurpriseRework | larkflow/engine/permissions.py:113-137 | if every target is allowed to a non-owner, any other person's node that dispatch resets is a target, the gate, or downstream of the gate |
| Permissions.OwnerCanAnswer | larkflow/engine/permissions.py:67-95 | a node's primary owner can always answer it |
| Permissions.BlankRule | larkflow/service.py:409-411 | a signature or reason is blank exactly if it is white space throughout |
| Permissions.OwnerRule | larkflow/engine/permissions.py:48-57 | the person whose work a human node is: the primary of its vote, else its assignee |
| Permissions.AnswerRule | larkflow/engine/permissions.py:67-95 | a node may be answered exactly by the voters, the primary and the assignee of a human node; for a node that is not there by nobody |
| Permissions.SendBackRule | larkflow/engine/permissions.py:153-201 | allowed exactly if the target is upstream and the actor owns the project, or is the gate's own person and drags in nobody else; escalating exactly if he is that person and drags somebody in; denied otherwise |
| Permissions.ApproverRule | larkflow/engine/permissions.py:140-150 | approvers are exactly the owner and the person whose work the target is |
| Permissions.AnonymousNeverSendsBack | larkflow/service.py:356-369 | the channel without an identity is entitled to no answer that fails a gate |
| Permissions.SendsBackRule | larkflow/service.py:623-637 | an answer counts as sending back exactly if it leaves its gate failed, and what is judged is what dispatch will find asked for |
| Permissions.EntitledSendsOnlyAllowed | larkflow/service.py:658-690 | if an answer somebody is entitled to makes its gate send anything back, he has an identity and every target sent was ruled allowed for him |
| LiveGraph.EditGraph | larkflow/engine/livegraph.py:26-64 | the op loop over node records and index, updated in place, computes the ops one after another, with the same refusal on the same op, and never breaks uniqueness of ids |
| LiveGraph.OpRule | larkflow/engine/livegraph.py:26-81 | an operation is accepted exactly if what it adds is named and new, or what it removes or changes is in the graph and still pending and it sets something other than the id; then one node is appended, dropped, or changed in exactly the fields set |
| LiveGraph.FrontierRule | larkflow/service.py:423-425 | to an edit, a node is open exactly if its status is pending and nobody waits at it |
| LiveGraph.FreezeLineHolds | larkflow/engine/livegraph.py:26-81 | through any accepted op list, the nodes that have left pending are the same nodes in the same order |
| LiveGraph.OpsCompose | larkflow/engine/livegraph.py:26-64 | a concatenation of op lists gives what applying them in turn gives, refusals included |
| LiveGraph.AcceptedEditIsLegal | larkflow/service.py:423-427 | an edit accepted against the frontier keeps every non-pending and every waiting node unchanged, as the engine's edit step demands |
| LiveGraph.AncestorsFrozen | larkflow/engine/livegraph.py:26-81 | a node whose dependencies are all done keeps its whole ancestor set under an accepted edit |
| LiveGraph.HistoryUnchanged | larkflow/engine/livegraph.py:26-81 | so does every done or failed node |
| Deliverables.UpstreamHandles | larkflow/engine/deliverables.py:76-105 | the queue finds exactly the handle-bearing nodes reachable through nodes that carry no handle and declare no deliverable, each with its registered handle |
| Deliverables.VisibleRule | larkflow/engine/deliverables.py:76-105 | a node is visible exactly if some path of dependencies leads to it through nodes that have no handle and declare no deliverable, and it has a handle itself |
| Deliverables.GateInsertionIsTransparent | larkflow/engine/deliverables.py:76-105 | putting a fresh gate on one dependency edge changes no node's visible deliverables |
| Correlations.Correlations.ResolveInterrupt | larkflow/io/correlations.py:61-73 | the loop returns the first live id on the migration chain, or the id itself when no id on the chain is live, and terminates on cyclic chains |
| Correlations.ChainWithin | larkflow/io/correlations.py:61-73 | a set closed under migration holds the whole chain, which is why stopping at a seen id loses nothing |
| DispatchKeys.SameKey | larkflow/service.py:176-183 | two keys are one string exactly when round and purpose agree and instance and node read the same once joined |
| DispatchKeys.KeysOfOneInstance | larkflow/service.py:176-183 | within an instance a key string names one node, one round, one purpose |
| DispatchKeys.KeysOfTwoInstances | larkflow/service.py:176-183 | across instances too, if instance ids or node ids are free of the separator |
| DispatchKeys.KeysMayCollide | larkflow/service.py:176-183 | otherwise two instances may share one task key |
| Driver.WaiterNotReset | larkflow/service.py:1318-1333 | a ready waiter outside the predicted set is not reset by the write, even though the prediction uses the graph, statuses and grants before the update |
| Driver.KindRule | larkflow/service.py:1512-1552 | a person is sent a task exactly if the node is completed by task, a card exactly if by card |
| Driver.MayRaiseRule | larkflow/engine/deliverables.py:58-73 | running a node can end in an exception exactly if it calls a tool or a model, or is a person's whose document does not exist yet |
| Rounds.SurvivorKept | larkflow/service.py:1318-1345 | after update and dispatch a carried-over person is ready again, in the same round |
| Rounds.NobodyCarried | larkflow/service.py:1305-1345 | the barrier cannot lift under a write that carries somebody over, so for him it is exactly one dispatch |
| Rounds.StartedInv | larkflow/service.py:238-269 | an instance just started on a valid template satisfies the driver invariant |
| Rounds.ActionKeepsInv | larkflow/service.py:1305-1552 | every action of the driver, in any interleaving, keeps the invariant: remap edges link interrupts of one node and round, rows lead to the round of their object, keys and objects match one to one, closed tasks are of past rounds |
| Rounds.HistoryInv | larkflow/service.py:1305-1552 | so does every history |
| Safety.RoundSafety | larkflow/service.py:323-389 | an answer given at any time under an id issued earlier, let through by the chain, settles exactly the node the id was issued for, in the round it was issued for, and touches no other node's status |
| Safety.ObjectSafety | larkflow/service.py:1617-1674 | what a task's row or a card's own id leads to is the node and round the object was created for, or nothing live |
| Safety.SentOnce | larkflow/service.py:185-202 | over any history no node is sent twice for one round by one channel |
| Safety.ClosedStaysStale | larkflow/service.py:1442-1486 | a task the engine closed belongs, then and ever after, to a round its node has left |
| Safety.CurrentTaskIsThePersons | larkflow/service.py:1185-1229 | the task of a node's current round is never one the engine closed |
| Safety.RoutedResolves | larkflow/service.py:1650-1674 | for a routed interrupt the resolver returns exactly it, from the row of its task or the id on its card |
| Safety.LedIsFirst | larkflow/service.py:374-378 | an interrupt of the pending node an id was issued for is the first live one on the id's chain, if the chain leads to it at all |
| Progress.ChangedShows | larkflow/service.py:1347-1359 | a change that went forward in status or raised a round always shows in the fingerprint |
| Progress.DispatchForward | larkflow/service.py:1347-1373 | a dispatch is the identity when there is nothing to reset, and a visible change otherwise |
| Progress.UnchangedIsQuiet | larkflow/service.py:1390-1406 | if the fingerprint is the same after the write, the instance is not stalled, so returning early never stops short |
| Progress.QuietMeans | larkflow/service.py:1361-1373 | an instance that is not stalled has no failed gate, and whatever is unfinished in it is a blocked gate, waits for somebody who has been asked, or lies downstream of such |
| Stranded.MispredictedIff | larkflow/service.py:1318-1333 | for a waiter whose round goes on, the prediction covers him exactly under the stated condition on the state before the update, one for each kind of update |
| Stranded.WhoIsLeftBehind | larkflow/service.py:1305-1345 | among those whose round goes on over a whole write, the old id is led nowhere exactly if the write crashed or its prediction was wrong about him |
| Stranded.NobodyIsLeftBehind | larkflow/service.py:1305-1345 | a push or an edit that runs to its end leaves nobody behind |
| Cards.CardReachesIff | larkflow/service.py:1576-1587 | a waiting person's card leads to his live interrupt exactly if, since it was sent, no write has crashed and none was mispredicted about him |
| Cards.CardsReach | larkflow/service.py:1497-1510 | as long as writes are pushes and edits and run to their end, whoever was sent his card or task is reached by it |
| Cards.StaysLinked | larkflow/service.py:1305-1345 | whoever an id led to while he waited is led to by it as long as he waits in that round and writes are plain pushes that run to their end |
| Cards.AnsweredIsOver | larkflow/service.py:374-389 | a node once answered is never pending in that round again |
| Cards.CrashIsForGood | larkflow/service.py:1341-1345 | once a write has crashed under a card, it reaches nobody for the rest of the round, whatever follows |
| Cards.ProvisionRoutes | larkflow/service.py:1512-1552 | after one dispatch a task leads to its person, and a card does exactly if it is new or led to him before |
| Signed.CrashLosesCard | larkflow/service.py:536-542 | a history from the start: an unblock whose write crashes spends the credit and cuts off a person whose card reached him |
| Signed.DeadCard | larkflow/service.py:1171-1183 | its continuation: the next push and dispatch go through, and he has been sent what is due but is not reached |
| Signed.RefundLosesCard | larkflow/service.py:550-554 | a history from the start: a refund without any crash in it cuts off a person whose card has just gone out |
| Fork.UnblockLosesCard | larkflow/service.py:1318-1333 | a history from the start: an unblock that runs to its end pulls back the gate that was about to send a person's work back, and cuts him off |
| Service.LarkFlowService.Start | larkflow/service.py:264-269 | the first dispatch and everything up to the first people; a quiet end means not stalled, and with no recorded error everyone waiting has been sent what is due, and is reached exactly if his chain is uncut |
| Service.LarkFlowService.WriteState | larkflow/service.py:1305-1345 | the write is one write action and its run; everyone re-bound waits for the same node and round; an unchanged fingerprint means not stalled, a changed one a lower rank; it raises only if something ready at once can fail |
| Service.LarkFlowService.Predict | larkflow/service.py:1326-1330 | the set the driver predicts will enter a new round: what the coming dispatch resets to pending, with what the unblock resets |
| Service.LarkFlowService.PutRemaps | larkflow/service.py:1497-1510 | the loop records a chain edge for exactly the carried people found again under a new id |
| Service.LarkFlowService.Provision | larkflow/service.py:1512-1552 | creates at most once per key, with the interrupt id it is created under, reuses otherwise, always sets the row; a failed creation leaves no trace |
| Service.LarkFlowService.Handle | larkflow/service.py:1427-1440 | with no new recorded error, everyone waiting outside the skip set has his card or task, and each task leads to its person; nobody loses what he was sent |
| Service.LarkFlowService.Pump | larkflow/service.py:1390-1412 | a quiet return means not stalled; with no recorded error everyone has been sent what is due; running out of rounds is recorded, and impossible while the rank is below their number |
| Service.EstimateSuffices | larkflow/service.py:1393-1394 | the estimated number of rounds suffices when no gate has a send-back left |
| Service.EstimateCoversSendBacks | larkflow/service.py:1393-1394 | over any run the estimate leaves two rounds for each dispatch that sends back, and two for each node |
| Overrun.EstimateFallsShort | larkflow/service.py:1390-1412 | on every chain long enough for its budget there is a history, from the start, in which the driver pushes as often as it allows itself, every push moves something, nobody answers, no call fails, and the instance is still stalled |
| Overrun.NineNodesFallShort | larkflow/service.py:1393-1394 | an instance of nine nodes with the default budget on which 29 moving pushes do not suffice |
| Overrun.PushesGoOn | larkflow/service.py:1395-1405 | on such a chain each push is one step of it, up to the last send-back |
| Service.LarkFlowService.Proceed | larkflow/engine/orchestrator.py:38-62 | super-steps run one after another and stop: only people remain out, nothing is ready, or a call failed |
| Service.LarkFlowService.CloseStaleTasks | larkflow/service.py:1442-1482 | with no new error every task of a round its node has left has been completed by the engine, and no other; a round is only marked once its task has been; Advance, Start, Resume, EditInstance, Unblock and Reconcile promise the same of their end |
| Service.LarkFlowService.Resume | larkflow/service.py:300-389 | exactly which reply an answer gets, on the state before: it is taken exactly if the id leads first to a live interrupt, the claimed node is not done, every picked target is upstream and the sender is entitled; each refusal has its own exact condition and changes nothing; what is taken is the only answer taken, for the node and round the id was issued for, and makes its gate send back only what was allowed; after a quiet push a send-back has landed |
| Service.LarkFlowService.Screen | larkflow/service.py:336-355 | the mechanical layer lets through exactly legal picks to a live interrupt whose claimed node is not done; each refusal has its exact condition, and names exactly the picked targets that are not upstream |
| Service.LarkFlowService.Judge | larkflow/service.py:356-369 | the permission layer refuses exactly those not entitled: a send-back with a denied target, one that has to be asked for, or a plain answer by somebody who is no answerer |
| Service.LarkFlowService.TaskEvent | larkflow/service.py:1650-1674 | a reported completion counts exactly for a task of a node that is no gate; whoever waits by that task and is reached by it is answered for; it gets the reply an answer without identity gets, for the very node and round the task was sent for |
| Service.LarkFlowService.EditInstance | larkflow/service.py:391-458 | exactly which reply an edit gets: unsigned, not by an owner, past the freeze line, to an invalid graph, or applied, and then the graph is the one the operations give; otherwise nothing changes |
| Service.LarkFlowService.Unblock | larkflow/service.py:467-569 | accepted exactly for a blocked gate with a grant left, legal targets and a signed reason, and otherwise refused for the first reason that applies; one net grant is used, none after a refund, and the write can raise only if something ready right after it can fail |
| Service.CrashSpends | larkflow/service.py:536-542 | wherever something ready right after the unblock can fail, the write can crash with the grant on the books |
| Service.LarkFlowService.SweepTasks | larkflow/service.py:1185-1229 | every answer taken completes a task, of the very node and round it answers, that a person finished and the engine did not close; and unless the sweep raises or fails to read a task, nobody whose finished task of the present round was sent still waits in that round |
| Service.LarkFlowService.Reconcile | larkflow/service.py:1171-1183 | the same of what was waiting at entry; and with no recorded error, nothing is stalled, everyone waiting has been sent what is due, a task reaches, a card reaches exactly if its chain is uncut, and no task of a past round is open |
| Service.CarriedOver | larkflow/service.py:1497-1510 | everyone re-bound by a write was waiting before it for the same node, in the same round, on the same channel |
| Service.PersonDidIt | larkflow/service.py:1208-1226 | a task that reads as completed and whose interrupt id still leads somewhere was finished by a person, and belongs to the node and round that are answered |
| Service.TaskTaken | larkflow/service.py:1650-1674 | who waits by a task that leads to him gets its completion counted |
| Service.TakenUp | larkflow/service.py:1206-1229 | a completion whose chain leads to somebody still waiting in that round is accepted, and he waits no more |
| Escalations.LiveIsWaiting | larkflow/service.py:69-103 | the quota's list and the derived standing are one yardstick |
| Escalations.StandingRule | larkflow/service.py:63-79 | a request waits exactly if no record settles it, its gate is in the round it was filed in and is not answered; approved or declined it is what a record says |
| Escalations.AskRule | larkflow/service.py:722-757 | a request is a duplicate exactly if the same person has one waiting for the same set of targets, one too many exactly if five requests wait already, and otherwise filed under the next number |
| Escalations.AskingTwiceFilesOnce | larkflow/service.py:722-740 | the same person asking for the same set of targets in any order or with repeats files one request |
| Escalations.ProceedMeansWaiting | larkflow/service.py:944-981 | a verdict goes through only on a request still waiting, by someone entitled who did not ask for it himself |
| Escalations.PickRule | larkflow/service.py:1013-1030 | a verdict is on the request of the given number, or without one on the only one that waits; several waiting ones are ambiguous |
| Escalations.CheckRule | larkflow/service.py:944-981 | a verdict goes through exactly on a waiting request, signed by somebody else than its author who holds an approver's token or was notified; each refusal has its exact condition |
| Rebound.BackToWaitingIsNewRound | larkflow/service.py:1148-1158 | whichever way a node comes back from done, failed or blocked to pending, or leaves blocked, its round has gone up |
| Escalations.MoveKeepsDesk | larkflow/service.py:692-1045 | every request, verdict or engine step keeps requests numbered in order, one verdict each, at most five live |
| Escalations.DeskStaysInOrder | larkflow/service.py:692-1045 | so does every history |
| Escalations.NeverWaitsAgain | larkflow/service.py:69-79 | once a request has left pending it never returns to pending |
| Rebound.ActionMeansNewRound | larkflow/service.py:1148-1158 | the same law for every action of the driver, with its combined update and dispatch |
| Rebound.HistoryMeansNewRound | larkflow/service.py:1148-1158 | and over every history, so nothing within a round ever reopens an answer |
| Rebound.SendBackLands | larkflow/service.py:1361-1373 | once nothing is left to reset, every gate that had failed at any earlier time is in a later round or blocked |
| Approvals.ApprovalDesk.Answer | larkflow/service.py:658-782 | gets exactly the reply Resume gives; an answer that crosses a border executes nothing and files at most one request, with the approvers of exactly the targets that cross; every log stays in order and no request is revived |
| Approvals.ApprovalDesk.Settle | larkflow/service.py:929-1011 | refused exactly if no request is meant that this person may settle; a declining verdict goes on record and nothing else is done; an approving one is void exactly if a recorded target is no longer upstream, or nobody waits at the gate, and otherwise answers that gate, and nobody else, with exactly the recorded targets before it goes on record; with no recorded error that send-back has landed; an exception means a call failed |
| RateLimiter.Limiter.MakeSpace | larkflow/workflow/console_rate_limit.py:154-156 | the loop drops exactly the least recently seen keys down to one below the cap |
| RateLimiter.Limiter.Check | larkflow/workflow/console_rate_limit.py:75-126 | one check on the mutable object is one step of the specified limiter, and keeps its bounds; a bad clock changes nothing |
| RateLimiter.DecisionRule | larkflow/workflow/console_rate_limit.py:75-126 | allowed exactly if both buckets hold a whole token after what has flowed in, at the price of one from each; otherwise neither pays, and the global limit is named first; no other client's bucket changes |
| RateLimiter.CheckKeepsSound | larkflow/workflow/console_rate_limit.py:75-126 | tokens stay between 0 and capacity, at most the configured number of distinct keys is kept |
| RateLimiter.DenialIsFree | larkflow/workflow/console_rate_limit.py:103-120 | a denial leaves both buckets at their refilled amount |
| RateLimiter.WaitingHelps | larkflow/workflow/console_rate_limit.py:167-169 | after waiting the announced seconds without other traffic, the bucket that denied does not deny |
| RateLimiter.RetryIsTight | larkflow/workflow/console_rate_limit.py:167-169 | one second less would not be enough, unless the answer is the minimum of one second |
| RateLimiter.GlobalRateBound | larkflow/workflow/console_rate_limit.py:75-126 | over any run with a non-decreasing clock, any keys and any evictions, at most G + G*elapsed/window requests are allowed |
| RateLimiter.ClientRateBound | larkflow/workflow/console_rate_limit.py:75-126 | the same for one client key from its first request on, while it is not evicted |
| RateLimiter.BackwardClockOvercredits | larkflow/workflow/console_rate_limit.py:158-165 | a clock that steps back and forward again refills the same seconds twice, so the bounds need a non-decreasing clock |

## Left out

- Several instances in one database: all tables are one instance's slice; the per-thread locks are represented by one call running at a time.
- Template.ValidateTemplate: checks on labels, prompts, tool specifications, regions, threshold texts and when-guards are not modelled.
- Service.LarkFlowService.EditInstance: the checks for unimplemented semantics, tool handlers and role coverage that follow validation (`larkflow/service.py:428-431`) are not modelled.
- Driver.MayRaise: a container declared in the template, which spares a person's node the creation of its document, is not modelled; such a node counts as one that can fail.
- LangGraph and its checkpointer: a super-step is a relation, an interrupt id is fresh for each super-step, an answered interrupt that lingers takes nothing more, and any call may end in an exception. A failure to persist an update before it runs is not part of this model.
- A crash between a successful external call and the recording of its key (`larkflow/service.py:192-195`): outside the source's guarantee as well.
- Tool, model and search calls: their results are arbitrary; feedback texts, prompts and document contents are not modelled.
- Card contents, notices to people, and the settling of a pressed card: a notice either goes out or not. That an approver's card carries the request's number is taken for granted.
- White space in signatures and reasons is space, tab, newline and carriage return only.
- The audit fields of grants, edits and verdicts (who, when, why), and the edit log: only what later decisions read is kept.
- Vote tallies, `when` guards and section regions: rejected before the engine runs (`larkflow/engine/support.py:20-36`).
- Lists the source sorts before returning (approvers, allowed targets, blocked nodes) are sets.
- Approvals.ApprovalDesk: the escalation logs sit in an object beside the service rather than in the same state channel; each of its writes goes through the service's value-preserving write.
- Approvals.ApprovalDesk.Settle: an approved send-back ends with the gate in a new round or blocked; which of the two, the budget decides, and the source's wording of the reply is not modelled.
- Service.LarkFlowService.Pump: the number of rounds is the source's estimate, so running out of rounds remains a possible, recorded outcome. Which instances can run out of rounds is shown from both sides, but not settled exactly: none whose rank is below the number of rounds, and every one of the family in `Overrun`. Of all reads of the checkpoint only the one after sending (`larkflow/service.py:1392`) may fail here, which is what lets a push end in an exception outside a write.
- RateLimiter.Limiter.Check: tokens and times are reals, not floats; the policy of a path and the hash of an address are parameters.
- PostgreSQL repositories, console transport objects, settings, sessions, knowledge governance, attachment quotas and the installer: per-field checks that would only add easy members.
