# Verified model of the KernelGYM coordination protocols

KernelGYM schedules GPU work through Redis. Three protocols in it have to hold under any
interleaving of processes that may stop between any two steps. This project models them in
Dafny and proves what they are for.

**Task claims and parent workflows.** `Coordination`, `Guard`, `TaskScripts` and
`WorkflowScripts` give the keyspace and one function per Lua script. `Store` is the same
keyspace as one mutable object, with a method per script proved equal to its function.
`Protocol` puts workers, monitors, cancellers and workflow owners on top as one transition
system: 29 kinds of event, tokens and generations that are fresh, keys that may expire, a
clock that does not go back. `Valid` is its inductive invariant (`Fences`, `Conservation`,
`Bookkeeping`). `Phases` proves that every event refines a machine of seven phases per task;
`Replies` gives the converse, when each call succeeds. `Runs`, `Tokens`, `Fencing` and
`Workflows` are the theorems about whole runs; `Admission` tells from the history of a run
alone which requests join and how long a generation and its tasks are admitted; `Records`
proves that submitted work is never rewritten, `Order` that queues are first come, first
served. `Stranding` says exactly which tasks the guard does not protect, `CpuRaces` runs into
the one collision of claims with the CPU path.
`Recovery`, `Dequeue`, `Monitor`, `Loose` and `Scoping` treat
the Python code around the scripts.

**The quarantine latch.** `Quarantine` has the records, their identity and the merge of four
sources. `Latch` is the protocol: one lock per GPU, sections that read and then write one key
at a time, sections of other GPUs in between, crashes, and a Redis that may lose everything.
Among *aimed* sections, in which no outcome update falls back on a worker record of another
GPU, `Clearing` proves that a clear is final, `Delivery` that a page of a physical latch recorded
as sent stays sent, `WorkerDelivery` the same for worker latches under the further condition they
need, and `Paging` the other half: a page that a quarantine write made due stays due until it is
delivered. `Origins` proves that all sections are aimed when quarantine writes draw new event ids and
outcomes are reported under the GPU their event was issued for, and the results again on that
footing. `Repair` proves that reading converges and that a write closes the GPU. `LatchStore` is
the same operations as methods on one object, uninterrupted.

**Worker sessions and slots.** `Sessions` has a process table whose processes fork, exit,
change group and leave the session while the freeze, kill and drain loops run against it.
`Slots` has the registration scripts and proves that one generation at a time can execute
under a worker id, that a worker that can be authenticated is stopped, and that a pid which
cannot is left alone.

Where the code does not do what its design says in every case, the model keeps the code, shows
a run or an input for which it fails, and proves the condition under which it holds:

- an abandoned task has a closed guard exactly if it is anchored (`Stranding.StrandedIffUnanchored`);
- a CPU dequeue loses a task exactly if its guard is open, a claimless completion is harmless exactly for ids nobody waits for or holds (`Loose`), and a CPU dispatch excludes others if nobody holds the task (`Tokens.CpuExclusiveExecution`, `Tokens.HeldTaskCanRunTwice`, `CpuRaces.HeldTaskDoesRunTwice`);
- a sent mark is reported exactly if the first sent source is of the chosen generation (`Quarantine.SentIsReportedIff`, `Quarantine.SentCanBeMasked`);
- a worker page stays sent if all sections that name the worker share one GPU's lock, and for every two locks there is a run that forgets it (`WorkerDelivery`);
- a clear is final exactly if it overlooks no alias (`Clearing.ClearCleansIffLegible`, `Clearing.OverlookedIsRevived`);
- an outcome update stays within its GPU exactly if it is aimed, that is, does not fall back on an alias of another GPU (`Latch.UpdateFitsIffAimed`); one that is not revives that GPU's cleared latch (`Clearing.UnaimedUpdateRevives`), or forgets that its page was sent (`Delivery.UnaimedUpdateForgetsTheDelivery`).

A task id is *loose* once it went through one of the two paths without a claim token: a CPU
dequeue or a completion without a claim. The strong invariants speak of all other ids.

## Model

| member | source | states |
|---|---|---|
| Runs.EveryTaskInOnePlace | kernelgym/server/task_manager.py:71-529 | in every reachable world a stored task is queued once in its home queue with no token, or held by one token with one matching entry across all inflight lists and no queue copy, or ended with neither, or abandoned with neither; an abandoned one was shut out at the step that abandoned it, and its guard is closed now if it is anchored (names no base it is not scoped by) |
| Runs.AbandonedWasShut | kernelgym/server/task_manager.py:271-444 | every task, anchored or not, is abandoned only at a step at which its guard or a cancel marker was closed or its holder had seen it cancelled, in every run |
| Stranding.StrandedIffUnanchored | kernelgym/server/task_manager.py:378-389 | the exact condition: a task of this id and submission can be left pending, unqueued, unclaimed, uncancelled and admitted, in some reachable world, if and only if it names a base it is not scoped by and can be admitted at all |
| Stranding.RipeIsForsaken | kernelgym/server/workflow_lifecycle.py:80-111 | from any world in which such a task waits while its base is free, five events strand it: the base runs and ends, the task meets its marker, a new accept removes the marker |
| Conservation.EveryEventConserves | kernelgym/server/task_manager.py:71-529 | each of the 29 events, by whichever process, keeps every task that is not loose in exactly one place; the place of an abandoned task has a closed guard if the task is anchored |
| Bookkeeping.ValidStays | kernelgym/server/workflow_lifecycle.py:80-242 | every event keeps the whole invariant: lifecycle bookkeeping, children sets, token ownership and conservation |
| Bookkeeping.StartIsValid | kernelgym/server/task_manager.py:593-631 | the empty keyspace satisfies the invariant |
| Phases.EveryEventMoves | kernelgym/server/task_manager.py:71-529 | refinement: whatever happens, a task's phase stays or changes only along the permitted arrows, each with the event and the release authority it needs, and every arrow into Abandoned with a guard or marker that is closed, or a cancellation that was seen, at that step |
| Phases.WithdrawAllMoves | kernelgym/server/workflow_lifecycle.py:210-234 | withdrawing a list of children ends exactly its pending, unfenced members, wherever and however often they stand in it, and leaves every other phase alone |
| Conservation.SubmitSlot | kernelgym/server/task_manager.py:114-139 | a submission either changes nothing or stores the task with exactly one copy, in its home queue |
| Conservation.RefreshSlot | kernelgym/server/task_manager.py:142-191 | a force-refresh either changes nothing or replaces the record and leaves exactly one copy in the new home queue, whatever old queues the caller knew |
| Conservation.MarkSlot | kernelgym/server/task_manager.py:351-402 | marking a live attempt either installs the execution fence and keeps the entry, or, exactly when the guard or a marker is closed, clears claim and entry |
| Conservation.RequeueSlot | kernelgym/server/task_manager.py:271-348 | a requeue is refused exactly without authority over the fence; otherwise the entry goes, and the task is queued once and last in line at the destination, with its new note and assignment, or abandoned behind a closed guard or marker |
| Conservation.ClaimConserves | kernelgym/server/task_manager.py:71-111 | popping through debris and claiming the first live id keeps every task in one place |
| Conservation.WithdrawConserves | kernelgym/server/workflow_lifecycle.py:135-153 | failing a pending, unfenced task takes away its queue copies and its entry and keeps every task in one place |
| Fences.FenceStaysShut | kernelgym/server/workflow_lifecycle.py:36-66 | no event reopens the fence of a generation once it is shut |
| Fences.GuardStaysShut | kernelgym/server/workflow_lifecycle.py:36-66 | no event makes a false admission guard true again |
| Runs.GuardShutForGood | kernelgym/server/workflow_lifecycle.py:36-66 | an admission guard that is false once is false for the rest of every run |
| Runs.OpenNowOpenBefore | kernelgym/server/workflow_lifecycle.py:156-167 | a fence open now was open at every earlier moment since its generation was issued |
| Runs.CompletedIffFenceOpen | kernelgym/server/workflow_lifecycle.py:174-195 | a finish publishes completed exactly if the controller reports it and the fence is open |
| Runs.CompletedWasOpenThroughout | kernelgym/server/workflow_lifecycle.py:169-209 | a parent that commits completed had its fence open throughout the run: no cancellation, lost lease or passed deadline at any earlier time |
| Runs.FinishSettlesEveryChild | kernelgym/server/workflow_lifecycle.py:210-234 | a finish fails every stored pending, unfenced child of its generation and publishes the parent's end as its result; every other child's record, result and entries stay untouched |
| Runs.EndedGenerationsStayStill | kernelgym/server/workflow_lifecycle.py:169-242 | after a generation has finished, no event of any run submits, claims, dispatches, returns, requeues or moves a child of it |
| Runs.ShutFenceAdvancesNothing | kernelgym/server/task_manager.py:71-139 | behind a shut fence no script moves a child of the generation towards execution |
| Tokens.ExclusiveExecution | kernelgym/server/task_manager.py:351-402 | between two dispatches of one incarnation of a task lies a successful requeue by the first attempt's own token with authority over its fence, or a new incarnation |
| Tokens.CpuExclusiveExecution | kernelgym/server/task_manager.py:404-414 | a task that nobody held when a CPU worker dispatched it is not dispatched again, on a CPU or a GPU, before a new incarnation of the id |
| Tokens.HeldTaskCanRunTwice | kernelgym/server/task_manager.py:404-414 | why nobody may hold it: the CPU gate ignores claims, and a holder that had not started can requeue the task for a second dispatch |
| CpuRaces.HeldTaskDoesRunTwice | kernelgym/server/task_manager.py:404-414 | and it does happen: for every id and token a run from the empty keyspace (CPU pop, claimless completion, refresh as a GPU task, claim, CPU mark, requeue) reaches such a second dispatch |
| Fencing.FrozenHolds | kernelgym/server/task_manager.py:480-529 | a frozen claim, of any task, survives every event except a requeue with full authority or a completion with the explicit permission, both under its own token, and a completion without a claim |
| Fencing.FrozenUntilThawed | kernelgym/server/task_manager.py:480-529 | the same over every run |
| Fencing.ReachableFences | kernelgym/server/task_manager.py:351-402 | in every reachable world a claimed task has not ended and a fenced claim belongs to a dispatched token, for all ids |
| Tokens.SupersededForGood | kernelgym/server/task_manager.py:71-111 | a token that was replaced or cleared never becomes current again |
| Tokens.SupersededIsPowerless | kernelgym/server/task_manager.py:351-362 | mark, return, ack, freeze, requeue and finalize with a superseded token change at most that token's own inflight entry |
| Tokens.OneCommitPerToken | kernelgym/server/task_manager.py:498-529 | at most one completion succeeds per claim token, in every run |
| Tokens.OneCommitPerGeneration | kernelgym/server/workflow_lifecycle.py:169-174 | once a parent generation is finished, every later finish of it, in every run, changes nothing |
| Tokens.TerminalTaskIsFixed | kernelgym/server/task_manager.py:142-191 | no event but expiry, discard, force-refresh or a claimless completion of that id changes a terminal task's record or result |
| Tokens.TerminalForGood | kernelgym/server/task_manager.py:142-191 | the same over every run: late completions, cancels and reconciliations are no-ops |
| Tokens.TerminalParentIsFixed | kernelgym/server/workflow_lifecycle.py:80-111 | a terminal parent's record and result change only by a new accept, expiry or discard |
| Records.EventKeepsWork | kernelgym/server/task_manager.py:271-348 | whatever happens, an id that is not replaced, discarded or expired keeps its work, and its note and assignment too unless it is requeued or moved |
| Records.SubmittedWorkIsKept | kernelgym/server/task_manager.py:114-139 | what was submitted is what runs: in every later world the task names the resource, base, node and host of its submission, is cancellable under exactly its names, belongs to its generation, and waits for its assigned worker or for any |
| Order.EveryEventKeepsLine | kernelgym/server/task_manager.py:71-139 | every event takes ids out of a queue without changing the order of the rest, and adds at most one, behind all others |
| Order.NobodyOvertakes | kernelgym/server/task_manager.py:71-139 | of two ids that wait in one queue throughout a run the older stays the older |
| Order.FirstComeFirstServed | kernelgym/server/task_manager.py:85-109 | when the younger of two ids that waited in one queue is claimed from it, the older could not be claimed at all |
| Replies.DispatchSucceedsIff | kernelgym/server/task_manager.py:351-402 | the execution gate opens exactly for the current token of an admitted, unmarked task, and changes status and fence only |
| Replies.RequeueSucceedsIff | kernelgym/server/task_manager.py:271-348 | a requeue succeeds exactly for the current token with authority, of an admitted, unmarked task, and puts it last in line in the right queue |
| Replies.CompletionIsFinal | kernelgym/server/task_manager.py:498-529 | after a successful completion the id keeps that very status and result, whatever any process does, until they expire, are discarded or are replaced |
| Replies.ClaimlessCompletionIsFinal | kernelgym/server/task_manager.py:1741-1748 | the same for a completion without a claim: this very status and result, in every later world until they expire, are discarded or are replaced |
| Replies.ReturnSucceedsIff | kernelgym/server/task_manager.py:417-444 | a return succeeds exactly for the current token, and puts the task last in line at its source if it may still run, else abandons it; nothing but the claim is taken off its record |
| Replies.SubmissionSucceedsIff | kernelgym/server/task_manager.py:114-139 | a submission creates the task exactly if it is admitted and the id unused, and puts it last in line |
| Replies.CancelSettlesTask | kernelgym/server/workflow_lifecycle.py:113-154 | cancelling a pending task that is not a parent ends it at once with the cancellation result; a running one stays with its holder |
| Replies.FreezeSucceedsIff | kernelgym/server/task_manager.py:480-495 | a freeze succeeds exactly for the current token, which then holds a contained task |
| Replies.AckLetsGoIff | kernelgym/server/task_manager.py:447-477 | an acknowledgement leaves a fenced or frozen attempt as it is, and takes an unstarted one, seen cancelled, out of all hands |
| Replies.CpuMarkSucceedsIff | kernelgym/server/task_manager.py:404-414 | a CPU dispatch succeeds exactly for a pending, admitted, unmarked task and changes nothing but its status |
| Replies.RefreshShutsOutOldAttempts | kernelgym/server/task_manager.py:142-191 | a successful force-refresh starts the id over: in every later run each token issued for it before is superseded, and its holder's calls remove at most its own inflight entry |
| Workflows.FinishPublishes | kernelgym/server/workflow_lifecycle.py:169-209 | a finish publishes, in record and result alike, the controller's own result text under the generation and request it was accepted for; late, cancelled and unleased work gets the status and the message that say so; the controller's status and verdict stand exactly behind an open fence; lease, active entry and admission go with it |
| Workflows.PublishedForGood | kernelgym/server/workflow_lifecycle.py:174-209 | and that is final: in every later world of every run, until a new accept, an expiry or a discard of the parent, readers find this very text, status and request |
| Workflows.CancelReachesEveryStage | kernelgym/server/workflow_lifecycle.py:113-134 | after a cancel no task that is cancellable through the id, a stage alias or a recorded child is ever admitted again, in any run |
| Workflows.EveryParentIsBookkept | kernelgym/server/workflow_lifecycle.py:80-111 | in every reachable world the active index is exactly the parents that have not ended, leases name current generations, and two generations of a parent are never both open |
| Workflows.AcceptJoinsOrRefuses | kernelgym/server/workflow_lifecycle.py:80-111 | an active parent is joined by the same request hash and refuses any other; a new generation, pending with this request's hash and time limit, starts exactly for an id that is not cancelled and is unused, or ended and explicitly replaced |
| Admission.AcceptStarts | kernelgym/server/workflow_lifecycle.py:99-111 | a new generation carries the request, deadline and three stage ids it was accepted with, has the lease and no result, and nothing else changes |
| Admission.OnlyTheSameRequestJoins | kernelgym/server/workflow_lifecycle.py:85-98 | idempotence over runs: in every later world in which the generation is the recorded one, a request joins exactly if it is the very request that was accepted; after the end it is answered from the result exactly if it is the same and the result is still there; only an explicit replacement starts anew |
| Admission.OpenExactlyUntil | kernelgym/server/workflow_lifecycle.py:36-66 | through every run an open fence stays open exactly until the id is cancelled, the lease runs out, the generation is finished, or the time to its deadline has elapsed |
| Admission.AdmittedExactlyUntil | kernelgym/server/workflow_lifecycle.py:36-66 | through every run an admitted task stays admitted exactly until something that cancels it happens, its generation closes, or its parent's or its own deadline passes |
| Admission.CancelReachesExactly | kernelgym/server/workflow_lifecycle.py:113-134 | a cancellation tombstones exactly the id, its stage aliases and its recorded children, and no other event tombstones anything |
| Admission.RenewalSucceedsIff | kernelgym/server/workflow_lifecycle.py:156-167 | a renewal succeeds exactly behind an open fence, leaves it open and makes the parent a running one |
| Admission.FreshWorkIsAdmitted | kernelgym/server/workflow_lifecycle.py:36-66 | the guard refuses nobody else: right after an accept with a positive time limit, every uncancelled task of that generation with time left is admitted, and every uncancelled standalone one |
| Admission.CancelOnlyFencesParents | kernelgym/server/workflow_lifecycle.py:125-134 | cancelling a parent changes no record, lease, result or task, so that its controller can still finish it |
| Replies.DiscardSucceedsIff | kernelgym/server/workflow_lifecycle.py:25-31 | a discard removes exactly an ended, unheld child record of the named generation, with its result and marker |
| Replies.DiscardParentSucceedsIff | kernelgym/server/workflow_lifecycle.py:25-31 | and exactly an ended parent record of the named generation, with its result, lease, marker and children set |
| Workflows.TombstonesAreForever | kernelgym/server/workflow_lifecycle.py:113-124 | no run removes a tombstone |
| Workflows.CancelledForGood | kernelgym/server/workflow_lifecycle.py:113-134 | a cancelled id is never accepted again, and no task of that id or with that base is ever admitted again |
| Loose.ClaimlessCommitIsSafeIff | kernelgym/server/task_manager.py:1684-1749 | a completion without a claim leaves the id in one place exactly if the id is then absent, ended or abandoned; the record it makes up for an absent id can no longer be cancelled |
| Loose.QueuedOnceWhateverWas | kernelgym/server/task_manager.py:142-191 | whatever copies an id has left behind, loose or not, the script that queues it leaves one in that queue, a refresh none in the other queues it knows, a withdrawal none in the pools and its worker's queue |
| Loose.CpuDequeueIsSafeIff | kernelgym/server/task_manager.py:1604-1643 | a CPU dequeue loses the task to a crash before it is marked exactly if its guard is open, anchored or not; otherwise the task is still in one place |
| Recovery.RecoverInflight | kernelgym/server/task_manager.py:1406-1507 | the scan loop on the store does what the recovery function says for the scan window |
| Recovery.PassSettles | kernelgym/server/task_manager.py:1389-1513 | one pass over any list leaves fenced claims (without release authority) and its own claims exactly as they were; every other current claim in the window is failed if it is cancelled, queued once in its recorded source queue under the recovery note if its guard is open, and abandoned if not, anchored or not |
| Recovery.CrashedPassesLoseNothing | kernelgym/server/task_manager.py:1389-1513 | passes that crash anywhere and are rerun in new processes, each with its own instance id, window and authority, leave every claim settled or as it was, and as it was while every process had to leave it alone |
| Recovery.RecoveryIsARun | kernelgym/server/task_manager.py:1426-1502 | the treatment of each entry of a reachable world is what one enabled protocol event does, so recovery may interleave with everything |
| Recovery.UnmentionedIsUntouched | kernelgym/server/task_manager.py:1406-1426 | a pass changes nothing about an id its scan does not mention |
| Dequeue.DequeuePass | kernelgym/server/task_manager.py:1593-1654 | an uninterrupted pass dispatches the oldest dispatchable id in reach, or requeues it when admission has closed; the queue keeps exactly its other live ids, the wrong-node ones in their old order behind the unseen ones; nothing else changes; in plain terms of the records: the id it returns asks for this worker's node and host or for none, and of the live ids it saw every one that does is the one returned or requeued, every other is back in the queue |
| Dequeue.DispatchableMeans | kernelgym/server/task_manager.py:680-687 | a pass may dispatch an id exactly if it is stored, pending, unclaimed, admitted and neither it nor its base is cancelled, and the node and the host it asks for are each the worker's under one of its two names; with only the node wrong it is thrown back |
| Dequeue.ScanPool | kernelgym/server/task_manager.py:1598-1648 | the claim loop: what is in hand, what was settled, and what remains of the queue when it ends; an id it returns asks for this worker's node and host or for none |
| Dequeue.ReturnDeferred | kernelgym/server/task_manager.py:1649-1654 | returning the deferred claims restores their queue order and leaves no trace of the claims |
| Dequeue.ClaimNextTakesOldest | kernelgym/server/task_manager.py:85-109 | the claim script takes the rightmost claimable id in its reach, drops exactly the debris to its right and touches no other list |
| Dequeue.PoolsAreOrderly | kernelgym/server/task_manager.py:71-139 | in every reachable world a pool of ids that are not loose holds each id once, stored, pending and unclaimed |
| Dequeue.MirrorOfPopOrder | kernelgym/server/task_manager.py:1649-1654 | pushing the deferred ids back in pop order restores queue order |
| Monitor.MovesExactlyTheWaiting | kernelgym/server/task_manager.py:194-268 | the move succeeds exactly on a task that still waits in this worker's queue and looks as it was read, and is then in its resource pool once; in every other case nothing changes |
| Monitor.RemovesExactlyStaleCopies | kernelgym/server/task_manager.py:194-268 | a copy in this worker's queue of a task assigned to another is taken out, exactly if there is one, and nothing else changes |
| Monitor.TheMonitorIsLinearizable | kernelgym/server/task_manager.py:973-1058 | after any events between the unlocked reads and the move, the move does nothing or what deciding and moving in one step would do then; the invariant holds after it |
| Scoping.ScopedIdsAreUnique | kernelgym/server/scheduler.py:42-48 | for generations of one length a scoped id determines its generation and the id it was built from |
| Scoping.PlannedIdsAreScopedIds | kernelgym/server/workflow_lifecycle.py:267-269 | the scoped ids of the controllers' compile, kernel and reference stages are the ones accept recorded |
| Scoping.OtherGenerationsAreOutOfReach | kernelgym/server/scheduler.py:40-57 | no task event, cancel, discard or finish about a child of one generation changes record, result, copies or entries of another generation's child |
| Scoping.ReplacedForGood | kernelgym/server/workflow_lifecycle.py:169-171 | once a parent's record is gone or of another generation, the old generation never comes back: in every later run its finish, renewal, discard and submissions do nothing |
| Scoping.ScopedTasksAreAnchored | kernelgym/server/scheduler.py:45-57 | what the scheduler submits is scoped by its own base and can be cancelled by id, alias and parent |
| Scoping.ReasonToStop | kernelgym/server/workflow_lifecycle.py:393-441 | reconciliation finds no reason exactly if the fence is open and no child stops the parent; else its reason is the first that applies of deadline, lease, cancellation, or that of a child |
| Scoping.StopsMeans | kernelgym/server/workflow_lifecycle.py:413-440 | a child stops its parent exactly if it can be found cancelled, is frozen, or has not ended and its holder, or its assigned worker while it has none, is quarantined |
| Scoping.CancelledChildStops | kernelgym/server/workflow_lifecycle.py:413-422 | a cancelled child stops its parent at every later look |
| Scoping.FrozenChildStops | kernelgym/server/workflow_lifecycle.py:423-427 | a frozen child does at every look of every run until it is thawed |
| Scoping.Reconcile | kernelgym/server/workflow_lifecycle.py:393-444 | an active parent that may not go on is finished with a reason, on whatever keyspace the finish then meets; any other is left alone; a record that comes back active stood behind an open fence or is of a later generation |
| Scoping.SubmitChild | kernelgym/server/scheduler.py:29-65 | the script runs with the scoped id and fence, on whatever keyspace it then meets, and never for a generation that was recorded behind a shut fence; if nothing was wrong with the recorded workflow it runs exactly if the fence was open |
| Scoping.ReconcileMayBeLate | kernelgym/server/workflow_lifecycle.py:393-444 | with any events between reading and finishing, a fence found shut is still shut when the finish comes, and the finish changes nothing if the generation has ended or been replaced |
| Scoping.SubmissionIsGuardedThroughout | kernelgym/server/scheduler.py:29-65 | with any events between the check and the script, the script creates the child only if the fence is open then, and so was open at the check and ever since |
| Store.Store.SubmitTask | kernelgym/server/task_manager.py:114-139 | the in-place script produces the keyspace and reply of its specification |
| Store.Store.ForceRefreshTask | kernelgym/server/task_manager.py:142-191 | the same, with the loop over the cleanup queues |
| Store.Store.ClaimGpuTask | kernelgym/server/task_manager.py:71-111 | the same, with the loop over queued ids |
| Store.Store.MarkProcessing | kernelgym/server/task_manager.py:351-402 | the same for the execution gate |
| Store.Store.ReturnClaim | kernelgym/server/task_manager.py:417-444 | the same for a returned claim |
| Store.Store.AckClaim | kernelgym/server/task_manager.py:447-477 | the same for an acknowledgement |
| Store.Store.FreezeClaim | kernelgym/server/task_manager.py:480-495 | the same for a freeze |
| Store.Store.RequeueClaim | kernelgym/server/task_manager.py:271-348 | the same for a requeue |
| Store.Store.QueueWaitMove | kernelgym/server/task_manager.py:194-268 | the same for the monitor's move |
| Store.Store.FinalizeClaim | kernelgym/server/task_manager.py:498-529 | the same for a completion |
| Store.Store.MarkCpuProcessing | kernelgym/server/task_manager.py:404-414 | the same for the CPU gate |
| Store.Store.PopQueue | kernelgym/server/task_manager.py:1604-1608 | a CPU dequeue takes the rightmost id and nothing else |
| Store.Store.CommitClaimless | kernelgym/server/task_manager.py:1741-1748 | the same for the pipeline of a claimless completion |
| Store.Store.WithdrawTask | kernelgym/server/workflow_lifecycle.py:135-153 | the same for the part cancel and finish share |
| Store.Store.AcceptParent | kernelgym/server/workflow_lifecycle.py:80-111 | the same for accept |
| Store.Store.RenewLease | kernelgym/server/workflow_lifecycle.py:156-167 | the same for a renewal |
| Store.Store.FinishParent | kernelgym/server/workflow_lifecycle.py:169-242 | the same for finish, with the loop over the children |
| Store.Store.CancelTask | kernelgym/server/workflow_lifecycle.py:113-154 | the same for cancel |
| Store.Store.DiscardChild | kernelgym/server/workflow_lifecycle.py:25-31 | the same for discarding a child record |
| Store.Store.DiscardFinished | kernelgym/server/workflow_lifecycle.py:25-31 | the same for discarding a parent record |
| Quarantine.PhysicalIffSomeSourceIs | kernelgym/utils/gpu_quarantine.py:408-447 | the merge is physical exactly if a device record exists or an alias does not name another GPU; then it names the queried GPU; it is canonical, and absent only if all sources are |
| Quarantine.DurableDeviceRules | kernelgym/utils/gpu_quarantine.py:408-447 | a durable device record supplies the identity, and its sent mark survives every other source |
| Quarantine.SentOnlyFromSameGeneration | kernelgym/utils/gpu_quarantine.py:432-446 | the merge says sent only if a source of the same generation does |
| Quarantine.GenerationTellsApart | kernelgym/utils/gpu_quarantine.py:235-260 | two records are one latch exactly if they share the event id, or without any the creation time, or without both all legacy fields, for a GPU's latch not the worker |
| Quarantine.SentIsReportedIff | kernelgym/utils/gpu_quarantine.py:432-446 | with a physical source marked sent, the merge says sent exactly if the first such source is of the generation of the first physical source, which is the generation of the merge |
| Quarantine.SentCanBeMasked | kernelgym/utils/gpu_quarantine.py:432-446 | so a sent source of the merge's own generation can go unreported |
| Quarantine.RepairedAlias | kernelgym/utils/gpu_quarantine.py:280-348 | after completion and constraint an alias is physical exactly if it names no other GPU, and then for the queried one; one that names another is read as a worker record without a page of its own |
| Latch.ReadPlanFits | kernelgym/utils/gpu_quarantine.py:601-713 | a read under a GPU's lock writes physical records for that GPU only |
| Latch.WritePlanFits | kernelgym/utils/gpu_quarantine.py:743-812 | so does a quarantine write |
| Latch.UpdateFitsIffAimed | kernelgym/utils/gpu_quarantine.py:939-977 | an outcome update does exactly if the alias it falls back on does not name another GPU |
| Latch.ClaimFits | kernelgym/utils/gpu_quarantine.py:1076-1153 | so does a notification claim |
| Clearing.SteadyStays | kernelgym/utils/gpu_quarantine.py:601-713 | every aimed step (no outcome update that falls back on another GPU's alias) keeps all pending writes of every section within the GPU whose lock it holds |
| Clearing.CleanStays | kernelgym/utils/gpu_quarantine.py:601-713 | no aimed step but a quarantine write, on any GPU, makes a clean GPU closed again |
| Clearing.NeverRevived | kernelgym/utils/gpu_quarantine.py:1255-1307 | a clean GPU stays clean through every run of aimed steps without a new quarantine write for it |
| Clearing.ClearCleansIffLegible | kernelgym/utils/gpu_quarantine.py:1189-1252 | an uninterrupted clear leaves the GPU clean exactly if no alias it overlooks would close it |
| Clearing.ClearSparesOthers | kernelgym/utils/gpu_quarantine.py:1189-1252 | a clear removes no record of another GPU, on disk of the worker records only its own and the GPU's physical aliases, in Redis exactly those it has found by name or content |
| Clearing.OverlookedIsRevived | kernelgym/utils/gpu_quarantine.py:280-317 | such an overlooked alias does become a physical device latch at its worker's next read |
| Clearing.ClosingStays | kernelgym/utils/gpu_quarantine.py:1255-1307 | while a clear works, aimed steps of the other sections add nothing it will not remove |
| Clearing.ClearIsFinal | kernelgym/utils/gpu_quarantine.py:1255-1307 | a legible clear among any other aimed sections, once done, leaves the GPU clean, and clean it stays through aimed steps until a quarantine write is started for it |
| Clearing.UnaimedUpdateRevives | kernelgym/utils/gpu_quarantine.py:939-977 | an update that fell back on another GPU's alias revives that GPU's cleared latch with its first write |
| Delivery.NobodyIsTold | kernelgym/utils/gpu_quarantine.py:1097-1139 | while the GPU's durable record says sent, every claim on the GPU is told not to send |
| Delivery.SettledStays | kernelgym/utils/gpu_quarantine.py:939-977 | no aimed step of any section but a clear changes the generation or the sent mark of the GPU's record |
| Delivery.SentForGood | kernelgym/utils/page_user_notifier.py:553-640 | physical latches: recorded as sent, sent for good; through every run of aimed steps without a clear, with senders crashing anywhere, nobody is told to send again |
| Delivery.UnaimedUpdateUnsends | kernelgym/utils/gpu_quarantine.py:939-977 | why the updates have to be aimed: one that fell back, before the page was sent, on an alias of another GPU takes the mark off that GPU's record with its first write, and the next claimant is told to send |
| Delivery.UnaimedUpdateForgetsTheDelivery | kernelgym/utils/gpu_quarantine.py:939-977 | for every worker and every two GPUs there is a run without a clear in which such an update, begun before the page was sent, forgets the delivery |
| Delivery.FinishRecords | kernelgym/utils/gpu_quarantine.py:1156-1180 | physical latches: a sender that reports success reaches that state with its first write |
| Delivery.OlderOutcomesAreIgnored | kernelgym/utils/gpu_quarantine.py:950-963 | an outcome or claim, of either scope, for another generation than the deciding durable record, or without one, writes nothing |
| Delivery.OutcomesKeepTheLatch | kernelgym/utils/gpu_quarantine.py:964-977 | an outcome that applies changes page fields only: to what is reported, except that sent is never turned into anything else |
| Delivery.OutcomesAreRecorded | kernelgym/utils/gpu_quarantine.py:964-977 | an outcome for the generation of the deciding record is recorded, on disk and in Redis, for the worker and for a physical latch's GPU |
| WorkerDelivery.WorkerSentForGood | kernelgym/utils/page_user_notifier.py:553-640 | worker latches: recorded as sent, sent for good through every run of aimed steps whose sections that name the worker run under its GPU's lock, without a clear of either; a physical latch of the GPU supersedes the page |
| WorkerDelivery.TwoLocksForgetTheDelivery | kernelgym/utils/gpu_quarantine.py:939-977 | without that proviso not: for every worker and every two GPUs there is a run without a clear after which a durably sent worker page is forgotten and the next claimant is told to send |
| WorkerDelivery.NobodyIsToldForWorker | kernelgym/utils/gpu_quarantine.py:1106-1139 | while the worker's record says sent, or its GPU is latched, every worker-latch claim is told not to send |
| WorkerDelivery.PageSettledStays | kernelgym/utils/gpu_quarantine.py:939-977 | no such aimed step takes the worker's record back to unsent, except by latching the GPU first |
| WorkerDelivery.WorkerFinishRecords | kernelgym/utils/gpu_quarantine.py:1156-1180 | worker latches: a sender that reports success reaches that state with its first write |
| Paging.UnsentStays | kernelgym/utils/gpu_quarantine.py:939-977 | only a report of its delivery, by the sender or as an outcome for its generation, marks a page as sent |
| Paging.WriteIsDue | kernelgym/utils/gpu_quarantine.py:743-812 | the first record of a quarantine write for a GPU without a latch is the new latch field by field, and its page is due |
| Paging.DueUntilReported | kernelgym/utils/gpu_quarantine.py:1076-1153 | physical latches: through every run of aimed steps without a clear in which nobody reports the page as sent, with senders failing or crashing anywhere and Redis lost, every claim for it is told to send |
| Paging.WorkerWriteIsDue | kernelgym/utils/gpu_quarantine.py:743-812 | the same beginning for a worker latch |
| Paging.WorkerDueUntilReported | kernelgym/utils/gpu_quarantine.py:1106-1139 | worker latches: due through every run whose sections that name the worker run under its GPU's lock, until reported or until the GPU is latched |
| Paging.HonestWriteIsPaged | kernelgym/utils/page_user_notifier.py:553-640 | from an empty store, among callers as in Origins: a new latch of a GPU makes its page due, in every later world until it is reported as sent or a clear of the GPU starts |
| Origins.TracedStays | kernelgym/utils/gpu_quarantine.py:716-740 | if quarantine writes draw new event ids, then in every run all records of one event, stored or about to be written, name the one GPU it was issued for |
| Origins.OwnGpuIsAimed | kernelgym/utils/gpu_quarantine.py:939-977 | then an outcome reported under the GPU of its event is aimed |
| Origins.HonestClearIsFinal | kernelgym/utils/gpu_quarantine.py:1255-1307 | from an empty store, with no proviso but such callers: a clear of any GPU, after any run and among any sections, leaves the GPU clean until a quarantine write is started for it |
| Origins.HonestSentForGood | kernelgym/utils/page_user_notifier.py:553-640 | from an empty store, with no proviso but such callers: a physical page recorded as sent is sent for good until a clear |
| Repair.ReadingTwiceIsReadingOnce | kernelgym/utils/gpu_quarantine.py:601-713 | after a read a second one finds nothing to repair on disk or in Redis |
| Repair.ReadMends | kernelgym/utils/gpu_quarantine.py:546-598 | the four records a read leaves behind |
| Repair.ReadLeavesWhole | kernelgym/utils/gpu_quarantine.py:601-713 | a read that finds a latch leaves a complete durable record that decides, and a mirror of it |
| Repair.WriteCloses | kernelgym/utils/gpu_quarantine.py:743-812 | a quarantine write keeps a latch that is there already, with its event, cause and page (pending if it has no state), and stores the new one field by field otherwise, on disk and in Redis alike; a physical one closes the GPU, a worker one touches no GPU's record |
| LatchStore.LatchStore.ReadQuarantine | kernelgym/utils/gpu_quarantine.py:601-713 | the in-place read returns the merge and performs the read's writes |
| LatchStore.LatchStore.WriteQuarantine | kernelgym/utils/gpu_quarantine.py:860-936 | the in-place write stores the record it returns on disk and in Redis: the new latch where there is none, an existing device record with its page where there is one |
| LatchStore.LatchStore.UpdateNotification | kernelgym/utils/gpu_quarantine.py:1029-1073 | the in-place outcome update applies exactly to its expected generation |
| LatchStore.LatchStore.AcquireClaim | kernelgym/utils/gpu_quarantine.py:1076-1153 | the in-place claim durably marks the record it is told to send as sending, under its generation, and leaves Redis alone |
| LatchStore.LatchStore.SendClaimed | kernelgym/utils/page_user_notifier.py:553-640 | wrong scope and duplicates change nothing; else the worker's record durably says sent or failed as the transport did, and a delivered physical page is durably recorded as sent under its own generation |
| LatchStore.LatchStore.ClearQuarantine | kernelgym/utils/gpu_quarantine.py:1255-1307 | the in-place clear removes what the clear plan names |
| Sessions.MembersComeByFork | kernelgym/cli/service.py:807-835 | a process enters a session only as the child of an executable member |
| Sessions.FrozenForGood | kernelgym/cli/service.py:877-962 | a session without executable members stays so for ever and only shrinks, members keeping their start time and group |
| Sessions.DrainedIsStable | kernelgym/cli/service.py:838-852 | a drain proof stays true whatever any process does later |
| Sessions.SessionDrained | kernelgym/cli/service.py:838-852 | a positive look is a drain proof; on a host left to itself a look at living members says exactly whether they are all dead |
| Sessions.WaitForDrain | kernelgym/cli/service.py:855-874 | the wait returns true only with a drain proof, and on a host left to itself whenever there is one |
| Sessions.Freeze | kernelgym/cli/service.py:877-962 | true means that no member can execute, all their groups are known and the leader is the expected one, after two looks at least; a session left to itself is frozen within two rounds, and one with another leader or a member in a system group is not touched |
| Sessions.ForceKill | kernelgym/cli/service.py:965-1003 | true is a drain proof; a session left to itself gets one, and one with another leader or a member in a system group is not touched |
| Slots.StopWorker | kernelgym/cli/service.py:1006-1119 | true is a drain proof of the session that the registered process leads; on a host left to itself a worker that can be authenticated, or a leaderless session of known start, is stopped; and whatever else runs, nothing is done to a pid whose first look shows another start, group or session, whose first two show another program, or whose later two show a change |
| Slots.Registry.RegisterIfEmpty | kernelgym/cli/service.py:74-101 | registers exactly into an empty slot, and marks the worker as expected |
| Slots.Registry.DeleteIfCurrent | kernelgym/cli/service.py:104-143 | deletes exactly the registration whose pid, start, group and session are the ones that were read, absent fields included, and nothing else |
| Slots.Registry.DrainRegistered | kernelgym/cli/service.py:1232-1283 | with others using the registry between drain and deletion: on success the generation that held the slot can execute nothing and its registration is gone; on failure this process has changed nothing; left to itself it frees the slot of a worker that can be authenticated and keeps that of a reused pid |
| Slots.ExclusiveStays | kernelgym/cli/service.py:74-143 | registration, proof, deletion and every process move keep all generations but the registered one drained |
| Slots.OneGenerationPerSlot | kernelgym/cli/service.py:1368-1446 | in every run of launchers, drainers and processes, a generation of a worker id that can still execute is the registered one |
| Slots.DrainIsARun | kernelgym/cli/service.py:1232-1283 | what the drain does, with any process moves before its proof and any acts of others before its deletion, is one run of the site, a proof followed by a deletion, with the slots the drain leaves |

## Left out

- Legacy key prefixes and pre-generation markers: only one key prefix is modelled.
- Parent ids and task ids are kept in separate namespaces; the code relies on callers for that, since both live under one key pattern.
- The claim fields of a task hash are written and cleared together, and so are its workflow fields, so replies for a half-written hash (a claim without a status, a generation without keys) do not occur.
- Replies -3 to -6 of the queue-wait script are one reply, since all four mean that the snapshot no longer holds.
- Key lifetimes appear as events that may happen whenever the code sets a lifetime; the lifetime of a finished generation's children set is not modelled, since nothing reads the set afterwards.
- Result hashes are one text; that a second write merges fields into an older result is not modelled. Redis quarantine records are replaced, not merged field by field.
- Deadlines and the clock are real numbers; the rounding of the stored deadline text is not modelled.
- Loose ids: after a CPU dequeue or a claimless completion the strong invariants no longer speak of the id; `Loose` says exactly when such a step is harmless.
- A requeue of a running task whose guard has closed clears the claim and leaves the status processing; the phase of such a task is Abandoned, as in the code.
- Recovery reads an entry's task and acts on it in one step; that each action is an enabled protocol event covers actions on a stale read.
- Dequeue treats the resource pool of a GPU worker; the worker's own queue and the CPU branch differ only by the scripts they call. Two dequeues of one process at the same time are not modelled.
- Scoping.ReasonToStop: the recovery reason that the message about a frozen child quotes is not modelled.
- The published result is the controller's text and the error message; that a message also forces its compiled and correct flags to false is stated in words only.
- Scoping.Reconcile: its reads are one look at the keyspace; anything may happen before its finish, nothing between the finish and the record it returns.
- A worker id stands for one device kind: `Worker` carries the CUDA flag beside the name, so two workers of one name with different flags would have two queues and two inflight lists in the model, where the code has one Redis key each.
- What quarantine callers pass (kernelgym/worker/gpu_worker.py:660-672, kernelgym/worker/worker_monitor.py:386-396) is not derived from their code: that they report an outcome under their record's own GPU is the condition `Honest` on a run in `Origins`, like the freshness of event ids.
- Raw deletion of the records of a task without a workflow generation (kernelgym/server/task_manager.py:2000-2014) looks at neither claim nor queue; that such ids have finished is the caller's duty and no event of the model.
- Monitor treats one listed id; the loop over queues and ids, its timeouts and its counters are not modelled.
- Workflow heartbeats, waits and the watch loop are polling around events that are modelled.
- Clearing.ClearIsFinal: quarantine sections without hostname or device take no lock and may write a stale record; only sections with both are modelled, and only among these is a clear final.
- Storage failures and unlatched best-effort pages: a failed write is a section that stops early.
- The origin_worker_id field, the page attempt counter and owner, and path sanitising of names.
- Clearing.ClearPlan: unlinking the aliases of a GPU is one step, and so is deleting the Redis keys; the scan before the lock is a set of further names.
- Process snapshots of /proc are atomic, nobody continues a stopped process and pids are not reused; the second identical snapshot of the freeze loop guards against torn scans and adds nothing under this assumption.
- Sessions.Freeze: timeouts are numbers of rounds, and a process in uninterruptible sleep counts as executable.
- Slots.StopWorker: which groups get a signal is not part of its contract; the effect of SIGTERM is whatever the processes then do.
- GPU workers, subprocess pools, HTTP, JSON, logging, timing metadata, node selection, profiling and benchmarks.
