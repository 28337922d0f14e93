# Agent host: verified protocols and algorithms

A Dafny 4 model of the hardest parts of a Go host for an LLM agent, with proofs of what those
parts are for.  `dafny verify dfyconfig.toml` checks all of it.

The host keeps every session as an append-only log of events.  A *surface* (the messages the model
sees) is the fold of the log's append and replace operations.  Around that log the model covers:

- **ToolCalls**: the scheduler of one step's tool calls: a bounded rolling pool with exclusive
  barriers, starts and commits in model order, aborts at any moment.  Settlement order, modes,
  prepare outcomes, aborts and refused appends are chosen by the environment.
- **TurnBrackets**, **WakeProtocol**: the agent driver.  The first is the turn and step loop and the
  readers of its boundaries; the second the wake-up protocol between senders, maintenance and a
  retiring driver, as a machine with one step per mutex section and as the code of these sections.
- **Surface**, **ToolPairing**, **Region**, **CompactionLock**, **Compaction**: replacing a span of the surface
  by a summary without splitting tool-call/result pairs: the incremental balance cache, range
  selection and validation, the durable lock, and the transaction under arbitrary other writers.
- **Inbox**: pending messages as a projection of logged splices.
- **Reconcile**, **ReconcilePass**: instruction files against what the model was last told, with a
  version cache and per-directory rollback.  **Render**: their text within a byte budget.
- **Expr**, **ExprParser**, **ExprGrammar**, **ExprForms**: the expression evaluator of the configuration
  language: the code, the meaning of its trees, that it accepts exactly its grammar, and what the
  forms the bundles use evaluate to.
- **TextStream**, **GuardedWrites**: UTF-8 chunk streaming, and writes guarded by observations.
- **GlobSample** (with **Grouping**): round-robin sampling.  **Projection**: image dimensions.

Code that updates state step by step is a class or a method with loops, proved against functions
and predicates on values; what those values promise is proved by lemmas.  Everything the code asks
of its surroundings (tool bodies, summarizers, reads, cancellation, refused appends, other
goroutines) is an arbitrary choice.

## Where the code differs from its comments or from the promise

- A panic inside the scheduler (a refused append, a failing finalizer) is recovered at the top of
  `executeToolCalls` without draining the calls in flight; only a lost dispatch drains them.  Calls
  are abandoned exactly in setups where two can be in flight together: more than one call and
  `maxParallel` above 1 (`ToolCalls.ToolScheduler.AbandonsACall`); in every other setup nothing is in
  flight on any exit (`ToolCalls.ToolScheduler.ExecuteToolCalls`).
- A refused Send erases the wake of its id, whoever registered it, and so does the pruning after a
  claim.  A waking message can therefore be stranded when its id is sent while it is in the inbox,
  while another Send of it is before its splice or about to erase its wake, or while it is claimed
  but not yet pruned; and when a Send that does not wake uses an id whose wake is pending.  There is
  a run for each of these, and none otherwise (`WakeProtocol.NoRunStrands`).
- Nothing keeps the lock between the scan for an open compaction and the start that follows; two
  starts stay separated iff no other start lands in between (`CompactionLock.StartSeparatesIffInactive`,
  `CompactionLock.RacingStartsCollide`).
- `Claim` for a new turn makes two splices.  When the second is refused, the messages of the first
  are gone from the inbox but never published (`Inbox.Inbox.Claim`, the `unclaimed` part).
- After a failed `synchronize` the running count stays short.  The cache's answers are right even
  so: a short count can only fail again on the same surface (`ToolPairing.FailureStaysSound`).
- `priorVersions` never holds nil, so a rollback restores the cache entries a directory had and
  keeps entries it gained; those are sound, too.
- The version cache changes what a pass emits only for a file it vouches for that has become
  unreadable under the same stamp (`Reconcile.StepIgnoresTheCache`, `ReconcilePass.UnreadableFilesMatter`).
- `WriteText` and `EditText` may report an I/O error although the file was replaced.
- `StreamText` does not reject invalid UTF-8 as `ReadText` does: it delivers an invalid chunk, or
  drops a trailing part, exactly on invalid files (`TextStream.DeliveredExactlyIffValid`).
- `strictEqual` compares two maps or two slices with Go's `==`, which panics; the model reports
  `Uncomparable`.
- The `undefined` keyword is matched as a prefix, so a chain whose root begins with it is no chain
  (`Expr.LongerRootIsUndefined`).

## Model

| member | source | states |
|---|---|---|
| `ToolCalls.ToolScheduler.ExecuteToolCalls` | agentloop/tool-calls.go:73-124 | for every settlement order, abort instant, mode answer, prepare outcome and refused append: the log past the start holds exactly the calls and results of the planned calls in model order, each result citing its own call's seq; without a failure there is one of each per planned call: a started call's result is its settled raw result through every post-execute stage, or through the last stage alone if it was final already, and a skipped call's is a synthetic error; every call starts in the mode the registry last gave for it, and none starts in a step that begins cancelled; contexts are handed over in model order and the turn concludes iff some result does; a lost dispatch leaves nothing in flight and nothing is logged after it; a panic drains nothing, and leaves nothing in flight when no two calls can be in flight together; it panics only if something outside did |
| `ToolCalls.ToolScheduler.AbandonsACall` | agentloop/tool-calls.go:73-124 | in every setup in which two calls can be in flight together there is a run of the scheduler that abandons one: the first is dispatched, the append of the second is refused, and the panic leaves the first in flight |
| `ToolCalls.ToolScheduler.NextGroup` | agentloop/tool-calls.go:101-115 | classifies the next call and runs its group, which consumes at least one call, so the outer loop terminates |
| `ToolCalls.ToolScheduler.StartGroup` | agentloop/tool-calls.go:101-115 | the next group begins where the last one ended, with nothing concluded yet |
| `ToolCalls.ToolScheduler.RunGroup` | agentloop/tool-calls.go:146-281 | one group consumes at least one call, drains its pool, and on abort records a synthetic pair for every call it did not start; a panic abandons exactly the calls in flight |
| `ToolCalls.ToolScheduler.OpenGroup` | agentloop/tool-calls.go:154-245 | the group's first look at the signal and its first filling of the pool |
| `ToolCalls.ToolScheduler.DrainPool` | agentloop/tool-calls.go:246-266 | settles, commits and refills until nothing is in flight and every started call is committed |
| `ToolCalls.ToolScheduler.FillPool` | agentloop/tool-calls.go:213-230 | starts calls in model order while the pool has room, stops at a call that is no longer parallel, and starts nothing once an abort was noticed |
| `ToolCalls.ToolScheduler.FillOne` | agentloop/tool-calls.go:215-228 | starts the next call, or leaves it as the next barrier when it is no longer parallel; the registry may panic |
| `ToolCalls.ToolScheduler.AskMode` | agentloop/tool-calls.go:101-104 | every answer about the next call is recorded, whatever the registry said before |
| `ToolCalls.AnswerKeepsObeyed` | agentloop/tool-calls.go:213-222 | an answer about a call that was not started yet leaves every started call in the mode given for it |
| `ToolCalls.ToolScheduler.StartCall` | agentloop/tool-calls.go:182-211 | logs the call, then a dispatch goes in flight or a staged result fills the slot, as the registry answers; it panics iff the append is refused or preparing panics |
| `ToolCalls.ToolScheduler.LogCall` | agentloop/tool-calls.go:182-186 | the call is logged and its seq recorded, while other components append |
| `ToolCalls.ToolScheduler.Prepare` | agentloop/tool-calls.go:186-210 | the three prepared outcomes: in flight with the slot left empty, or the slot filled with exactly the staged result |
| `ToolCalls.ToolScheduler.CommitReady` | agentloop/tool-calls.go:163-180 | commits exactly the contiguous settled slots, in model order |
| `ToolCalls.ToolScheduler.CommitOne` | agentloop/tool-calls.go:164-180 | one commit: finalized result logged with its call's seq, contexts handed over, conclusion remembered |
| `ToolCalls.ToolScheduler.LogResult` | agentloop/tool-calls.go:165-176 | a result that needs post-processing is logged as the whole finalization of its raw result, a final one as the last stage of it alone |
| `ToolCalls.ToolScheduler.DrainFailure` | agentloop/tool-calls.go:235-242 | after a lost dispatch every in-flight call is awaited and nothing is logged |
| `ToolCalls.ToolScheduler.AwaitSettlement` | agentloop/tool-calls.go:246-257 | while other components append, any in-flight dispatch may settle next: its slot and no other is filled with what it delivered; a lost one is reported |
| `ToolCalls.ToolScheduler.Deliver` | agentloop/tool-calls.go:246-257 | one delivery fills one slot and empties one place in the pool, or is the loss after which only drains follow |
| `ToolCalls.ToolScheduler.CommitAndCheck` | agentloop/tool-calls.go:255-262 | what is ready is committed before the signal is looked at |
| `ToolCalls.ToolScheduler.SettleAndRefill` | agentloop/tool-calls.go:246-268 | one round: settle, commit, look for an abort, refill |
| `ToolCalls.ToolScheduler.SkipCalls` | agentloop/tool-calls.go:268-276 | every remaining call gets an ordered call/result pair |
| `ToolCalls.ToolScheduler.SkipRest` | agentloop/tool-calls.go:268-276 | after an abort the group's unstarted calls are skipped and change neither contexts nor the conclusion |
| `ToolCalls.ToolScheduler.SkipTail` | agentloop/tool-calls.go:116-121 | after an abort the calls of later groups are skipped as well |
| `ToolCalls.ToolScheduler.AppendSkippedToolCall` | agentloop/tool-calls.go:285-295 | a skipped call logs its pair; the synthetic result cites the call, is an error, adds no context and does not conclude the turn |
| `ToolCalls.ToolScheduler.AppendToolCall` | agentloop/tool-calls.go:299-311 | the call event and the seq its result must cite |
| `ToolCalls.ToolScheduler.AppendToolResult` | agentloop/tool-calls.go:314-337 | the result event cites exactly its call's seq |
| `ToolCalls.ToolScheduler.AcceptContexts` | agentloop/tool-calls.go:173-175 | contexts reach the driver in the order of the result |
| `ToolCalls.JournalOther` | agentloop/tool-calls.go:73-124 | events of other components never disturb the call/result journal |
| `ToolCalls.SafeKeepsPool` | agentloop/tool-calls.go:213-268 | in every safe schedule in-flight calls lie between the last commit and the last start, and never exceed maxParallel |
| `ToolCalls.EveryInstantIsSafe` | agentloop/tool-calls.go:101-122 | at every instant the pool is bounded and an exclusive call in flight is alone, with every earlier call already committed |
| `ToolCalls.ExclusiveRaisesBarrier` | agentloop/tool-calls.go:101-108 | once an exclusive call has started nothing starts before it is committed |
| `ToolCalls.OnlyDrainsFollowALoss` | agentloop/tool-calls.go:235-259 | after a lost dispatch nothing starts, settles into the log or commits |
| `ToolCalls.SafePrefix` | agentloop/tool-calls.go:146-281 | safety of a schedule is safety of each of its prefixes |
| `ToolCalls.CommitKeepsInv` | agentloop/tool-calls.go:163-180 | a commit keeps slots, seqs, results and the schedule in agreement |
| `ToolCalls.BeginKeepsInv` | agentloop/tool-calls.go:182-211 | a start keeps them in agreement |
| `ToolCalls.SettleKeepsInv` | agentloop/tool-calls.go:246-257 | a settlement keeps them in agreement |
| `ToolCalls.DrainedMeansCommitted` | agentloop/tool-calls.go:246-281 | an empty pool without an unsettled slot means every started call is committed, so the uncommitted-calls error is unreachable |
| `ToolCalls.RoomMeansCommitted` | agentloop/tool-calls.go:213-230 | when no two calls can be in flight together, a call starts only with all earlier ones committed and nothing in flight |
| `TurnBrackets.Driver.Turn` | agentloop/driver.go:368-505 | a turn that opens is numbered one above the last, its first event is turn/start and its last turn/end with the ending the driver acts on, on every path, max-tokens iff some step hit the ceiling; one whose start is refused or cancelled logs nothing; it does not open only if its start is refused or the signal is cancelled |
| `TurnBrackets.Driver.RunSteps` | agentloop/driver.go:421-505 | steps are numbered 1, 2, 3 and each closed; a turn that is neither failed nor blocked ends as max-tokens iff some completed step hit the token ceiling, else as completed; it is blocked exactly by a rejection, and a failed decision or step fails it; aborted only under a cancelled signal |
| `TurnBrackets.Driver.Step` | agentloop/driver.go:526-548 | a step logs its claimed messages in order up to the first refused one, fails iff one is refused or its body fails, and is closed in any case |
| `TurnBrackets.Driver.OpenStep` | agentloop/driver.go:487-548 | a step's start and end enclose it and leave the turn open |
| `TurnBrackets.Driver.Kick` | agentloop/driver.go:354-364 | a driver run extends a balanced log to a balanced log, and without a failure opens at least one turn |
| `TurnBrackets.Driver.constructor` | agentloop/driver.go:79-100 | a restarted driver continues the numbering of the log it finds |
| `TurnBrackets.RecoverLastTurn` | agentloop/driver.go:82-94 | the backward scan finds the bracket's last turn number |
| `TurnBrackets.OthersKeepBrackets` | agentloop/driver.go:368-505 | events that are no boundaries leave the bracket alone |
| `TurnBrackets.BracketedIffEachMayFollow` | agentloop/driver.go:368-505 | a log is well-bracketed iff each boundary may follow the one before it: turn t + 1 the end of turn t, a first step its turn's start, step k + 1 the end of step k, a step's end its start, a turn's end its start or a step's end |
| `TurnBrackets.BracketStep` | agentloop/driver.go:368-505 | one boundary: accepted iff it may follow the last one |
| `TurnBrackets.OpenTurnIsTheBrackets` | compactionbasic/region.go:263-300 | the compaction scan's open turn is exactly the bracket's |
| `TurnBrackets.ProjectionReportsTheBracket` | agentloop/turnboundary.go:49-70 | the projection names the open turn, its start, the open step and the last turn number of every well-bracketed log |
| `WakeProtocol.NoRunStrands` | agentloop/driver.go:131-156 | in every cancellation-free interleaving in which a waking Send uses an id that is in no inbox, with no Send of it before its splice, no unpruned claim and no refused Send about to erase its wake, and a Send that does not wake, accepted or refused, uses no id whose wake is pending: no quiescent state holds a waking message whose wake no rejection or failure consumed |
| `WakeProtocol.RunsKeepWakes` | agentloop/driver.go:267-336 | in every state such a run reaches without a running driver, a pending waking id that is still in the inbox has its Send or a restart on its way to wakeDriver, or a latched maintenance wake |
| `WakeProtocol.RunsKeepBrackets` | agentloop/driver.go:225-250 | across restarts and maintenance the log stays well bracketed and the phase knows its last turn |
| `WakeProtocol.NextKeepsInv` | agentloop/driver.go:267-336 | every atomic step keeps phase, driver and log in agreement |
| `WakeProtocol.NextKeepsWakeInv` | agentloop/driver.go:303-335 | every atomic step with carefully chosen ids keeps the promise that a wake is coming |
| `WakeProtocol.NextKeepsAccounted` | agentloop/driver.go:131-156 | the wake of every waking message in the inbox, and of every Send before its splice, is pending and safe from pruning, or was consumed by a rejection or failure |
| `WakeProtocol.NextKeepsApart` | agentloop/driver.go:131-156 | with carefully chosen ids a Send before its splice is the only one of its id and its message is not in the inbox, and what a refused Send is about to erase is no pending wake |
| `WakeProtocol.RunsKeepConsumed` | agentloop/driver.go:324-329 | in every run, careful or not, no wake that a rejection or a failure consumed is pending |
| `WakeProtocol.NextKeepsConsumed` | agentloop/driver.go:324-329 | one step, with any ids: a consumed wake is pending again only after a new Send |
| `WakeProtocol.FailureIsNotRetried` | agentloop/driver.go:315-335 | a driver that fails without a latched wake stays down, whatever is in the inbox and whatever happens, until the next waking Send |
| `WakeProtocol.RejectionIsNotRetried` | agentloop/driver.go:430-437 | after a rejection with no waking Send since, a retiring driver is restarted only by a latched wake |
| `WakeProtocol.AsleepUntilSent` | agentloop/driver.go:267-336 | an agent without a driver and without anybody on the way to start one stays so until a waking Send |
| `WakeProtocol.NoWakeAppears` | agentloop/driver.go:131-144 | only a waking Send makes a wake pending |
| `WakeProtocol.LatchIsLate` | agentloop/driver.go:267-302 | a running driver's latch is set exactly by a Send that found an ended task, and cleared exactly by going on to another turn |
| `WakeProtocol.StartsUnlatched` | agentloop/driver.go:267-302 | a driver is started only on an idle agent, by a Send or a restart, and with nothing latched |
| `WakeProtocol.PendingIdStrands` | agentloop/driver.go:145-156 | an id that is in the inbox: a run in which the refused second Send erases the wake of the first |
| `WakeProtocol.RegisteredIdStrands` | agentloop/driver.go:145-156 | an id with another Send before its splice: a run in which the refused one erases the wake of the other |
| `WakeProtocol.UnprunedIdStrands` | agentloop/driver.go:559-571 | an id that was claimed but not yet pruned: a run in which the pruning erases the wake of the new Send |
| `WakeProtocol.InjectedIdStrands` | agentloop/driver.go:559-571 | input that takes the id of a registered Send: a run in which claiming it erases that Send's wake |
| `WakeProtocol.RefusedInputStrands` | agentloop/driver.go:145-152 | a Send that does not wake, refused while a wake of its id is pending: a run in which its cleanup erases that wake |
| `WakeProtocol.ErasedIdStrands` | agentloop/driver.go:145-152 | an id whose earlier refused Send has not cleaned up yet: a run in which that cleanup erases the wake of the new Send |
| `WakeProtocol.LeftoverWakeIsNotComing` | agentloop/driver.go:131-156 | the guard on input that does not wake is needed: a run that leaves an idle driver with a pending wake in the inbox and nobody on the way |
| `WakeProtocol.ReactLoopAgent.Send` | agentloop/driver.go:131-156 | the sections of a Send, waking or not, are exactly the machine's steps |
| `WakeProtocol.ReactLoopAgent.RegisterWake` | agentloop/driver.go:135-144 | the locked section registers the wake before the splice and notices a task whose context has ended |
| `WakeProtocol.ReactLoopAgent.SpliceMessage` | agentloop/driver.go:145-146 | the splice is refused iff the id is pending or the session refuses |
| `WakeProtocol.ReactLoopAgent.ForgetWake` | agentloop/driver.go:146-152 | after a refusal the id's wake is erased, whoever registered it |
| `WakeProtocol.ReactLoopAgent.SpliceInput` | agentloop/driver.go:145-146 | the splice of a Send that does not wake, refused for the same two reasons |
| `WakeProtocol.ReactLoopAgent.ForgetInput` | agentloop/driver.go:146-152 | its refusal erases the id's wake although it registered none |
| `WakeProtocol.ReactLoopAgent.WakeDriver` | agentloop/driver.go:267-302 | starts a driver when idle, latches behind maintenance and, for a Send that found an ended task, behind a running driver; otherwise does nothing |
| `WakeProtocol.ReactLoopAgent.RetireDriver` | agentloop/driver.go:315-335 | a retiring driver restarts iff the inbox is not empty and a wake is latched, or one is pending and it did not fail; a failure consumes every pending wake |
| `WakeProtocol.ReactLoopAgent.ClaimInput` | agentloop/driver.go:559-571 | claimed ids leave the inbox and the pending wakes |
| `WakeProtocol.ReactLoopAgent.RejectInput` | agentloop/driver.go:430-437 | a rejection consumes the pending wakes and leaves the inbox |
| `WakeProtocol.ReactLoopAgent.BeginTask` | agentloop/driver.go:225-236 | maintenance starts only when idle |
| `WakeProtocol.ReactLoopAgent.CancelTask` | agentloop/driver.go:238-239 | the task's context ends before the second locked section |
| `WakeProtocol.ReactLoopAgent.EndTask` | agentloop/driver.go:238-250 | a latched wake restarts after maintenance iff the inbox is not empty |
| `Surface.NodesAreSurfaceEvents` | session/surface.go:204-261 | the folded surface lists distinct seqs of surface events |
| `Surface.SurfaceGrows` | session/surface.go:204-261 | between two replacements a surface only grows at its end |
| `Surface.PrefixIsValid` | session/surface.go:264-288 | every prefix of an accepted log is accepted |
| `Surface.AcceptedIff` | session/surface.go:89-261 | an event is accepted iff its citations are distinct earlier events and, if it replaces, it names two current nodes in order, cites everything between them and, as a tool result, rewrites one result of the same call, step and error mark; and what it then does to nodes and generation |
| `Surface.PlannedReplacement` | session/surface.go:126-261 | a replacement is planned iff so, as one node in place of the span |
| `Surface.RewrittenSlice` | session/surface.go:152-200 | a rewritten tool result stands for exactly one result of the same call |
| `Surface.SpanSurvivesUnchanged` | session/surface.go:126-148 | a span of old nodes on a later surface is exactly the span it was, whatever was appended or replaced in between |
| `Surface.Session.Append` | session/session.go:195-244 | an append passes every surface check or leaves the log alone |
| `ToolPairing.ToolPairingBalance.BalancedBefore` | compaction/tool-pairing.go:142-147 | the cache's answer, errors included, is the from-scratch one: as many results as calls before the node, for any mix of appends, rewrites and session switches before the call |
| `ToolPairing.ToolPairingBalance.BalancedAfter` | compaction/tool-pairing.go:151-156 | the same for the cut after a node |
| `ToolPairing.ToolPairingBalance.Synchronize` | compaction/tool-pairing.go:88-123 | succeeds iff every prefix count of the current surface is non-negative, and then describes all of it |
| `ToolPairing.ToolPairingBalance.FoldTail` | compaction/tool-pairing.go:104-123 | folds the unseen tail; a failure leaves a cache that keeps failing for the right reason |
| `ToolPairing.ToolPairingBalance.CountTail` | compaction/tool-pairing.go:104-116 | the running count, even one that starts short after an earlier failure |
| `ToolPairing.ToolPairingBalance.Rebase` | compaction/tool-pairing.go:89-103 | starts over iff the session or its surface generation changed |
| `ToolPairing.ToolPairingBalance.CutBalance` | compaction/tool-pairing.go:126-138 | reads the balance of the cut at a node's position |
| `ToolPairing.FailureStaysSound` | compaction/tool-pairing.go:106-114 | a failed fold proves the surface unmatched although the count it leaves behind is short |
| `ToolPairing.SuccessIsExact` | compaction/tool-pairing.go:106-122 | a fold that reaches the end started from the true count |
| `ToolPairing.UnmatchedPersists` | compaction/tool-pairing.go:106-114 | an unmatched result stays unmatched until the surface is rewritten |
| `ToolPairing.DescribesLater` | compaction/tool-pairing.go:88-103 | within one generation the cached part stays valid |
| `ToolPairing.CountOneMore` | compaction/tool-pairing.go:52-71 | what one event adds to the running count is the tool calls it carries less the result it is |
| `ToolPairing.BalancedCutKeepsAnswers` | compaction/tool-pairing.go:52-71 | no balanced cut of a matched surface separates an assistant message with n tool calls from the n-th result after it |
| `ToolPairing.BalancedCutKeepsCalls` | compaction/tool-pairing.go:104-123 | past a balanced cut no stretch holds more results than calls |
| `Region.SelectCompactableRange` | compactionbasic/region.go:155-198 | returns the longest head-anchored range whose retained tail is non-empty, prices at least retainTokens and starts at a balanced cut, or nothing iff none exists; whatever it returns passes validation |
| `Region.CheapestTail` | compactionbasic/region.go:170-178 | the shortest tail that reaches retainTokens |
| `Region.WalkToBalance` | compactionbasic/region.go:182-191 | the largest balanced cut at or before a position; a positive one proves the surface matched |
| `Region.ValidateSurfaceRegion` | compactionbasic/region.go:202-241 | succeeds iff both ends are on a matched surface in order and both cuts are balanced; each refusal is reported by its cause |
| `Region.CheckCuts` | compactionbasic/region.go:220-240 | an unmatched surface, then the cut before the first node, then the cut after the last |
| `Region.ReplaceableSpanPairs` | compactionbasic/region.go:202-241 | a validated span holds as many results as calls; every assistant message in it is followed inside it by a result for each of its calls, and no result in it runs ahead of the calls in it |
| `Region.CutSplitsNoPair` | compactionbasic/region.go:182-191 | a selected cut leaves no call before it unanswered and no result after it without its call |
| `Region.SplicePreservesCounts` | compactionbasic/region.go:668-707 | replacing a span by an event that opens and answers as many calls as the span keeps the count of every cut outside it, and no prefix count becomes negative |
| `Region.SplicePrice` | compactionbasic/region.go:551-581 | a replacement changes the surface total by exactly the two prices |
| `CompactionLock.InspectEntryState` | compactionbasic/region.go:263-300 | one backward scan finds the open turn, the unmatched start and the latest seed boundary |
| `CompactionLock.StartKeepsSeparated` | compactionbasic/region.go:305-314 | a start that passed the lock check keeps any two starts separated by an end or a seed boundary |
| `CompactionLock.StartSeparatesIffInactive` | compactionbasic/region.go:305-314 | a start keeps all starts separated iff the lock is inactive where it lands |
| `CompactionLock.RacingStartsCollide` | compactionbasic/region.go:358-376 | two transactions that both saw the lock inactive on one log: after both starts the log is not separated |
| `CompactionLock.OthersKeepInactive` | compactionbasic/region.go:305-314 | nothing but a start takes the lock, so only another start between the check and the start can break separation |
| `CompactionLock.SeedReleasesTheLock` | compactionbasic/region.go:305-314 | a seed boundary releases an abandoned start |
| `CompactionLock.LastMarker` | compactionbasic/region.go:274-281 | without an unmatched start every start is followed by an end or seed |
| `Compaction.CompactSurfaceRegion` | compactionbasic/region.go:328-476 | under any activity of other writers: a refused compaction appends nothing; a started one was validated, found the lock free and attempts exactly one end, as its last append; success means start, summary, replacement and end are there in that order, adjacent when no other writer interposes; starts stay separated; the lock is released iff the end was appended; a committed replacement replaced exactly the validated span, kept every count outside it and lowered the surface total at prices the token meter measured during the call, the current ones when no other writer interposes; cancelling a manual run wins over every other outcome; every failure has its cause: a refused append, a panic, a failing meter or summarizer, a cancelled signal, a failed flush, a changed surface or a summary that is not smaller |
| `Compaction.Transact` | compactionbasic/region.go:384-446 | the guarded body and the failure end it may owe: one end attempt on every path; the recorded prices are the token meter's |
| `Compaction.Carry` | compactionbasic/region.go:380-476 | a started compaction from its guarded attempt to its report |
| `Compaction.Attempt` | compactionbasic/region.go:384-430 | a failure in the summary stage has committed nothing; the recorded prices are the token meter's |
| `Compaction.CommitAndEnd` | compactionbasic/region.go:410-430 | summary, replacement and end in order at the prices given; a failure here is a commit failure |
| `Compaction.CommitBody` | compactionbasic/region.go:668-719 | summary then replacement, adjacent when undisturbed; an accepted replacement has the promised effect |
| `Compaction.EndCommitted` | compactionbasic/region.go:416-430 | the closing attempt of a committed transaction |
| `Compaction.EndFailed` | compactionbasic/region.go:432-446 | the single closing attempt of a failed transaction |
| `Compaction.Begin` | compactionbasic/region.go:338-376 | refuses exactly for an invalid region, a held lock, an open turn (manual), a missing turn (automatic) or a refused append; other writers may append between validation, scan and start, anything but a start after the scan |
| `Compaction.Bystanders` | compactionbasic/region.go:338-376 | other writers that respect the lock keep starts separated, and without a start keep the lock free |
| `Compaction.Prepare` | compactionbasic/region.go:515-547 | snapshots the measured nodes of the selection; fails iff the meter fails or the selected positions hold other nodes by now |
| `Compaction.Summarize` | compactionbasic/region.go:551-581 | the summary becomes the checkpoint iff it is cheaper than the span's route price; a missing summary and one that is not smaller are told apart |
| `Compaction.AssertStable` | compactionbasic/region.go:594-637 | passes iff the meter works and the span is still valid at the prices that were summarized or, for the whole surface, nothing changed; then the selected nodes still carry those prices |
| `Compaction.AssertSpan` | compactionbasic/region.go:617-637 | the rule for the selected span alone, both directions |
| `Compaction.SummarizeStable` | compactionbasic/region.go:390-409 | a summary that comes through is for a validated span at its current prices |
| `Compaction.Recheck` | compactionbasic/region.go:400-409 | the last looks before the commit: a manual run at its signal, every run at the span; each failure has its cause |
| `Compaction.Report` | compactionbasic/region.go:448-511 | cancellation of a manual run wins over failure, failure over a failed flush; a manual failure is told by its stage and, before the commit, by a changed surface or another cause |
| `Compaction.CheckpointReplaces` | compactionbasic/region.go:668-707 | whatever happened since validation, an accepted checkpoint replaces exactly the validated span, keeps every count outside it and lowers the total |
| `Compaction.CitedSpanIsValidated` | compactionbasic/region.go:696-706 | the citations of an accepted checkpoint pin the span it replaced |
| `Compaction.StableCheckpointIsAccepted` | compactionbasic/region.go:696-706 | no surface check refuses the checkpoint of a span that is still there |
| `Compaction.SmallestCompaction` | compactionbasic/region.go:668-707 | a one-message session is compacted: the promise is not empty |
| `Compaction.ReplaceableSpanCancels` | compactionbasic/region.go:202-241 | the calls and results inside a validated span cancel |
| `Compaction.MeasuredTokens` | compactionbasic/region.go:533-538 | summing measured nodes gives the price of their events |
| `Compaction.HeldLockIsActive` | compactionbasic/region.go:305-314 | an open transaction blocks every other start |
| `Compaction.ForeignKeepsTheLock` | compactionbasic/region.go:305-314 | nobody else can start while the lock is held |
| `Compaction.SettledLock` | compactionbasic/region.go:432-446 | a failed close leaves the unmatched start detectable |
| `Inbox.SoundInboxConserves` | agent/inbox.go:291-420 | in every sound state no id is pending twice and inserted = pending + claimed + discarded + removed by a claim that failed halfway, as multisets |
| `Inbox.BooksBalance` | agent/inbox.go:356-371 | the logged splices alone balance: inserted = pending + claimed + discarded |
| `Inbox.ReplayedIdsAreUnique` | agent/inbox.go:375-420 | no replayable log has an id pending twice |
| `Inbox.AfterIsSound` | agent/inbox.go:322-352 | a committed splice keeps the live lists equal to the replay and the notifications equal to the log |
| `Inbox.OthersKeepSound` | agent/inbox.go:81-101 | other session events leave the inbox sound |
| `Inbox.DeletionIsAccepted` | agent/inbox.go:375-420 | a pure deletion is never refused for a duplicate id |
| `Inbox.Normalize` | agent/inbox.go:292-309 | start and delete count clamped as section 23.1.3.31 of ECMA-262 clamps them |
| `Inbox.NormalizedIsInRange` | agent/inbox.go:291-324 | a normalized splice is always in range |
| `Inbox.NegativeStartCountsFromTheEnd` | agent/inbox.go:292-300 | start -k addresses the k-th message from the end: that message alone is removed, the others keep their order |
| `Inbox.ClampedCases` | agent/inbox.go:292-309 | the clamping case by case: inside the list as given, from the end for a negative start, at the nearer end outside; as much deleted as asked for, up to the end |
| `Inbox.EffectOnLists` | agent/inbox.go:240-249 | what precedes and what follows the removed messages keeps its order, and the other list does not change |
| `Inbox.Inbox.MutateLocked` | agent/inbox.go:291-352 | a splice without effect is not logged; any other is logged, applied and returned whole, or refused without a trace, as a duplicate iff it is one; it reports a refusal iff the session refused the append |
| `Inbox.Inbox.Commit` | agent/inbox.go:322-352 | validate, log, apply |
| `Inbox.Inbox.Apply` | agent/inbox.go:335-351 | the new list, the removed messages and the queued notifications |
| `Inbox.Inbox.Validate` | agent/inbox.go:375-420 | accepts iff in range and no id would be pending twice across both lists |
| `Inbox.Inbox.CheckIds` | agent/inbox.go:389-396 | the id set grows until the first repetition |
| `Inbox.Inbox.NewInbox` | agent/inbox.go:81-101 | rebuilds exactly the replay of the owned log, or fails iff some splice is malformed |
| `Inbox.Inbox.ReplayOwned` | agent/inbox.go:88-99 | the replay loop |
| `Inbox.Inbox.Splice` | agent/inbox.go:240-249 | standard splice semantics: the addressed messages are returned and replaced, the rest keeps its order, the other list is left alone; removals are published as discarded before insertions |
| `Inbox.Inbox.Append` | agent/inbox.go:169-178 | the message is last in its list, or nothing changed |
| `Inbox.Inbox.Prepend` | agent/inbox.go:182-185 | the message is first in its list, or nothing changed |
| `Inbox.Inbox.Locate` | agent/inbox.go:277-286 | finds a pending id iff there is one |
| `Inbox.Inbox.Replace` | agent/inbox.go:193-210 | replaces the one message with the id in place, or reports that it is not pending |
| `Inbox.Inbox.Remove` | agent/inbox.go:216-233 | removes it; only the session can refuse |
| `Inbox.Inbox.Clear` | agent/inbox.go:126-139 | clears next-step then next-turn; a refused second splice leaves the first in force |
| `Inbox.Inbox.Claim` | agent/inbox.go:145-165 | returns and publishes the whole batch; when the second splice is refused the first stays in force and its messages are never published |
| `Inbox.Inbox.TakeBatch` | agent/inbox.go:145-158 | the deletions of a claim |
| `Inbox.Inbox.Drain` | agent/inbox.go:253-257 | notifications are published in order after the lock is released |
| `Inbox.Inbox.constructor` | agent/inbox.go:81-83 | a replayed inbox starts sound |
| `Reconcile.PassIgnoresTheCache` | agentinstructions/state.go:356-514 | with any sound version cache, the empty one included, a pass emits the transitions read straight from the files, unreadable and oversized ones included, and its cache stays sound |
| `Reconcile.StepIgnoresTheCache` | agentinstructions/state.go:444-512 | one scope: the pass does what reading the file would do iff it does not trust the cache for a file that cannot be read |
| `Reconcile.StepKeepsSound` | agentinstructions/state.go:444-512 | one scope: a sound cache stays sound and is never trusted for an unreadable file |
| `Reconcile.FoldIgnoresTheCache` | agentinstructions/state.go:409-513 | one directory: a blocked one is rolled back as a whole |
| `Reconcile.SecondPass` | agentinstructions/state.go:356-514 | a second pass over unchanged files emits exactly the transitions that were not applied |
| `Reconcile.EmittedAgain` | agentinstructions/state.go:444-512 | one scope: applied transitions are not emitted again, the others are |
| `Reconcile.BlockedAgain` | agentinstructions/state.go:422-443 | a directory is blocked in both passes or in neither |
| `Reconcile.SecondCachedPass` | agentinstructions/state.go:356-514 | the same with the cache the first pass and its applied updates left behind |
| `Reconcile.NothingTwice` | agentinstructions/state.go:356-514 | when everything was applied the second pass emits none |
| `Reconcile.TransitionsAreTruthful` | agentinstructions/state.go:409-512 | every transition of a pass: a removal is of an active scope and names the path last told for it; anything else tells the probed file's path, content, digest and version, as a replacement iff the scope is active, and only if path or digest is news |
| `Reconcile.SilentIffSettled` | agentinstructions/state.go:356-514 | a pass emits nothing iff the model is up to date: no excluded scope active and, in every directory that is not blocked, nothing active for an absent file or a duplicate content, and path and digest told for every other readable file |
| `Reconcile.AppliedPassSettles` | agentinstructions/state.go:356-514 | once everything a pass emitted was applied, the model is up to date |
| `Reconcile.EmitsNothingIffSettled` | agentinstructions/state.go:444-512 | the same for one directory |
| `Reconcile.HiddenDirectoryLeavesNoTrace` | agentinstructions/state.go:409-443 | a directory in which something the model was told about cannot be observed leaves no trace: the pass goes on as if it had not been there |
| `Reconcile.BlockedIsHidden` | agentinstructions/state.go:422-443 | a directory is blocked iff one of its scopes is told and not removed, and cannot be observed |
| `Reconcile.MarksMean` | agentinstructions/state.go:452-489 | a pass remembers exactly the absolute paths it met and, per directory, the trimmed digests of the files it was the first to read |
| `Reconcile.HitReadsNothing` | agentinstructions/state.go:459-471 | a file the cache vouches for is handled without its content |
| `Reconcile.ReadOnce` | agentinstructions/state.go:490-500 | a file that was read and found unchanged is vouched for from then on |
| `Reconcile.UpdatedByTheLast` | agentinstructions/state.go:209-224 | the last applied update about a scope is its cache entry |
| `Reconcile.UpdatedStays` | agentinstructions/state.go:209-224 | a scope without an applied update keeps its entry |
| `Reconcile.UpdatedIsSound` | agentinstructions/state.go:209-224 | applying any of the updates keeps the cache sound |
| `Reconcile.StatesAreSound` | agentinstructions/state.go:490-511 | every emitted cache entry records the digests of its stamped content and stands for a readable file |
| `ReconcilePass.SecondPassRetries` | agentinstructions/state.go:515-529 | over the grouped scopes: the second pass emits exactly what the first could not render |
| `ReconcilePass.UnreadableFilesMatter` | agentinstructions/state.go:473-476 | the condition is needed: a host whose cached file has become unreadable, on which the passes with and without the cache differ |
| `ReconcilePass.VersionCache.ReconcileInstructionContext` | agentinstructions/state.go:356-529 | cache and transitions of a whole pass, and what is returned for rendering |
| `ReconcilePass.VersionCache.ReconcileDirectory` | agentinstructions/state.go:394-513 | one directory: excluded scopes removed, the rest probed |
| `ReconcilePass.VersionCache.ProbeScopes` | agentinstructions/state.go:409-513 | the probe loop with its rollback of items, cache entries and seen paths |
| `ReconcilePass.VersionCache.SeeFile` | agentinstructions/state.go:452-512 | cache hit, failed read, duplicate, unchanged file, set and replace |
| `ReconcilePass.VersionCache.RetainedInstructionVersionUpdates` | agentinstructions/state.go:194-205 | keeps exactly the updates whose change was rendered, in order |
| `ReconcilePass.VersionCache.ApplyInstructionVersionUpdates` | agentinstructions/state.go:209-224 | applies them in order |
| `ReconcilePass.RetainedUpdate` | agentinstructions/state.go:194-224 | retaining and applying is updating by the rendered changes |
| `ReconcilePass.GroupsAreDistinct` | agentinstructions/state.go:382-393 | grouping by directory keeps every scope exactly once |
| `ReconcilePass.BaselineInstructionState` | agentinstructions/state.go:155-177 | changes and cache entries of a baseline |
| `ReconcilePass.BaselineIsSound` | agentinstructions/state.go:155-177 | a baseline's cache records what its stamps name, and is sound iff none of its files has become unreadable under the same stamp |
| `ReconcilePass.BaselineIsUpToDate` | agentinstructions/state.go:155-177 | a pass right after a baseline has nothing to say about an unchanged file |
| `ReconcilePass.BaselineCachesVersions` | agentinstructions/state.go:155-177 | a baseline tells every loaded scope and caches exactly those loaded under a version |
| `Grouping.GroupBy` | agentinstructions/state.go:382-393 | keys in first-seen order and each group in list order |
| `Grouping.MembersInOrder` | agentinstructions/state.go:382-393 | groups keep list order and hold exactly the items of their key |
| `Grouping.KeysInOrder` | agentinstructions/state.go:382-393 | keys come in the order in which they are first seen |
| `Render.RenderInstructionContext` | agentinstructions/render.go:257-339 | a positive budget is never exceeded; the least drop of leading files that fits wins, otherwise the most specific file is cut to its longest fitting prefix under its own or the compact introduction, otherwise the budget notice is shown; the closing tag is only ever the final bytes; unless a file was cut, every represented file is shown whole, in order |
| `Render.TruncateToFit` | agentinstructions/render.go:232-253 | the longest character-boundary prefix that fits, or the empty one when none does |
| `Render.LongerCutsAreLonger` | agentinstructions/render.go:232-253 | fitting is monotone although the recorded length and the escapes change with the cut |
| `Render.TruncateUtf8` | agentinstructions/render.go:76-88 | cuts at the largest character boundary within the budget |
| `Render.LastBoundary` | agentinstructions/render.go:76-88 | is the largest boundary at or below the budget |
| `Render.FrameClosesOnce` | agentinstructions/render.go:218-222 | a frame contains the closing tag as its final bytes and nowhere else |
| `Render.EscapedHasNoTag` | agentinstructions/render.go:90-92 | escaped text never contains the closing tag, not even across a replacement |
| `Render.EscapedLength` | agentinstructions/render.go:90-92 | escaping adds one byte per occurrence |
| `Render.FirstTagIsReplaced` | agentinstructions/render.go:90-92 | the first closing tag becomes the escaped form, what precedes it is kept and what follows is escaped in turn |
| `Render.PlainIsUnchanged` | agentinstructions/render.go:90-92 | text without the closing tag is not changed |
| `Render.NumberSplits` | agentinstructions/render.go:181-201 | no tag occurrence spans a decimal number |
| `Render.BodyShape` | agentinstructions/render.go:181-222 | the body up to and from the recorded length |
| `Render.BuildInstructionText` | agentinstructions/render.go:204-222 | a frame around a body that shows the heading and whole content of every file, in order |
| `Render.BodyShowsFiles` | agentinstructions/render.go:204-222 | a body is its opening, then every file's heading and whole content at increasing positions, with nothing but a blank line between two files and nothing after the last |
| `Render.UncutShowsFiles` | agentinstructions/render.go:265-285 | so is the body of every rendering that cuts nothing, and the represented files are exactly those not omitted |
| `Render.CutShowsPrefix` | agentinstructions/render.go:286-311 | a rendering that cuts shows the heading and then the longest fitting prefix of the content, with which its body ends |
| `Render.SectionIsShown` | agentinstructions/render.go:94-165 | a section is its heading, followed by the whole content if it carries it |
| `Render.MarkerNamesOmitted` | agentinstructions/render.go:181-201 | the diagnostic names every omitted file, in order |
| `Render.MarkerShape` | agentinstructions/render.go:181-201 | the diagnostic of a cut spells out the omitted files, the path, the original and the included length |
| `Render.DecimalReadsBack` | agentinstructions/render.go:181-201 | a printed number reads back and has no leading zero |
| `Render.RenderUncut` | agentinstructions/render.go:265-285 | finds the least drop that fits, if any |
| `Render.CutMostSpecific` | agentinstructions/render.go:286-311 | succeeds iff the empty cut fits, and shows the longest prefix |
| `Render.RenderCut` | agentinstructions/render.go:286-339 | own introduction, then the compact one, then the notice |
| `Render.RenderNotice` | agentinstructions/render.go:312-338 | the notice with the heading if that fits, else cut to the budget |
| `Expr.EvaluatesToMeaning` | boot/expr.go:62-73 | for every tree of the grammar and any blanks, evaluating its printed text consumes all of it and gives the tree's eager meaning, errors included |
| `ExprGrammar.AcceptsExactlyTheGrammar` | boot/expr.go:62-313 | a text evaluates to a value iff it is the printed form of a tree of the grammar with that meaning: nothing else is accepted |
| `ExprGrammar.TernaryTree` | boot/expr.go:88-113 | whatever the conditional level reads is a tree with the value it computed, and the blanks before the rest |
| `ExprGrammar.NullishTree` | boot/expr.go:115-144 | likewise for the fallback level |
| `ExprGrammar.EqualityTree` | boot/expr.go:146-168 | likewise for the comparison level |
| `ExprGrammar.PrimaryTree` | boot/expr.go:170-187 | likewise for an operand |
| `ExprGrammar.WordTree` | boot/expr.go:188-219 | likewise for a literal, a number or a root |
| `ExprGrammar.ChainTree` | boot/expr.go:219-245 | likewise for a chain of members and a call |
| `ExprGrammar.ArgumentsTree` | boot/expr.go:247-270 | likewise for an argument list |
| `ExprForms.EnvOrFallback` | boot/expr.go:117-144 | `process.env.NAME ?? 'x'`, or with the logical or: for every name and literal the variable if it is set and not empty, else the literal |
| `ExprForms.EnvChoice` | boot/expr.go:88-113 | `(process.env.NAME ?? 'x') === 'y' ? 'a' : 'b'`: for every name and literals the choice by the variable or its fallback |
| `ExprForms.ServiceOrFallback` | boot/expr.go:378-395 | `ctx.service.field ?? 'x'`: the field, the fallback for an absent service or field, a refusal for a service without fields |
| `ExprForms.HomePath` | boot/expr.go:399-410 | `dshHomePath('p')`: the path below the home directory, for every literal |
| `ExprForms.SupportedChains` | boot/expr.go:322-395 | which roots and members have a value, and what every other chain is refused for |
| `ExprForms.SupportedCalls` | boot/expr.go:399-418 | exactly the two supported calls have a value, and each misuse has its error |
| `ExprForms.RouteEndsWalk` | boot/expr.go:378-395 | reading nested fields ends at the last value met on the way, missing fields being undefined |
| `ExprForms.WalkStopsAt` | boot/expr.go:378-395 | it is refused at the first field whose owner is no object |
| `ExprForms.WalkHasRoute` | boot/expr.go:378-395 | one of the two always applies |
| `Expr.Truthy` | boot/expr.go:430-443 | exactly undefined, false, the empty text and zero are not truthy |
| `Expr.StrictEqual` | boot/expr.go:422-427 | texts, numbers and booleans are compared by value, undefined equals itself alone, and two objects or two arrays cannot be compared |
| `Expr.RoundTernary` | boot/expr.go:88-113 | conditionals bind loosest; both branches are evaluated |
| `Expr.RoundNullish` | boot/expr.go:115-144 | the fallback operators are right-associative and looser than equality |
| `Expr.RoundEquality` | boot/expr.go:146-168 | equality binds tightest and does not chain |
| `Expr.RoundPrimary` | boot/expr.go:170-245 | literals, brackets, chains and calls |
| `Expr.RoundArguments` | boot/expr.go:247-270 | argument lists evaluate left to right |
| `Expr.ReadsMembers` | boot/expr.go:219-243 | the chain loop collects exactly the member names |
| `Expr.ReadsRoot` | boot/expr.go:198-218 | a root is read whole, bytes from 0x80 included, unless it begins with undefined |
| `Expr.LongerRootIsUndefined` | boot/expr.go:198-200 | every longer root that begins with the keyword is read as undefined, with the rest left over |
| `Expr.LongerRootIsRefused` | boot/expr.go:62-73 | so an expression that is such a chain is refused as trailing input |
| `Expr.TernarySkipped` | boot/expr.go:82-86 | leading blanks do not matter |
| `ExprParser.Parser.EvaluateExpression` | boot/expr.go:62-73 | the parser object computes the evaluation function |
| `ExprParser.Parser.ParseTernary` | boot/expr.go:88-113 | advances the position as the function of the remaining input says |
| `ExprParser.Parser.ParseNullish` | boot/expr.go:115-144 | likewise |
| `ExprParser.Parser.ParseEquality` | boot/expr.go:146-168 | likewise; two objects or two arrays cannot be compared |
| `ExprParser.Parser.ParsePrimary` | boot/expr.go:170-245 | likewise |
| `ExprParser.Parser.ParseWord` | boot/expr.go:188-219 | likewise |
| `ExprParser.Parser.ParseBare` | boot/expr.go:201-219 | a number, or else a chain and its root |
| `ExprParser.Parser.TakeQuote` | boot/expr.go:188-189 | the quote that opens a string literal, if there is one |
| `ExprParser.Parser.QuotedText` | boot/expr.go:190-197 | a string literal up to its own quote |
| `ExprParser.Parser.ParseChain` | boot/expr.go:219-245 | likewise |
| `ExprParser.Parser.ParseArguments` | boot/expr.go:247-270 | likewise |
| `ExprParser.Parser.Consume` | boot/expr.go:272-279 | takes a token after blanks; a miss still skips the blanks |
| `ExprParser.Parser.SkipSpace` | boot/expr.go:82-86 | skips exactly spaces and tabs |
| `ExprParser.Parser.ConsumeIdent` | boot/expr.go:281-294 | takes the longest member name |
| `ExprParser.Parser.TryNumber` | boot/expr.go:296-311 | takes the longest run of digits and dots, or gives it back when it is no number |
| `ExprParser.Parser.TakeRoot` | boot/expr.go:204-218 | the longest root |
| `TextStream.Stream.ReadAll` | fslocal/local.go:243-285 | however reads split the file: a file read to its end has no NUL and is delivered exactly, in valid chunks, iff it is valid UTF-8; unless it is interrupted or a read fails, every file without NUL is read to its end, and every other one ends as binary |
| `TextStream.Stream.Next` | fslocal/local.go:252-284 | one chunk: nothing lost or repeated, a split character of at most three bytes held back; no NUL gets past the check; each ending has its cause, and without one a chunk is delivered |
| `TextStream.TrailingPartialBytes` | fslocal/fsio.go:58-88 | on a text followed by part of a character, exactly that part |
| `TextStream.DeliveredExactlyIffValid` | fslocal/local.go:243-285 | a completely read file is delivered exactly in valid chunks iff it is valid |
| `TextStream.NothingHeldBack` | fslocal/local.go:243-285 | at the end of a valid file the carry is empty |
| `TextStream.DeliverKeepsFaithful` | fslocal/local.go:262-277 | delivered bytes plus carry are always what was read, and on valid files every chunk is valid |
| `TextStream.PrefixSplits` | fslocal/fsio.go:58-88 | any prefix of a text is a text followed by part of a character |
| `TextStream.Utf8Concat` | fslocal/local.go:270-275 | validity of a concatenation |
| `TextStream.CharacterIsEncoded` | fslocal/local.go:270-275 | every character is the encoding of one Unicode scalar value: no overlong form, no surrogate, nothing above 10FFFF |
| `TextStream.EncodedIsCharacter` | fslocal/local.go:270-275 | every scalar value is encoded as one character and read back |
| `GuardedWrites.NoLostUpdate` | fslocal/local.go:356-472 | in every interleaving of owners and outside writers with fresh versions, a committed replacement replaces exactly the version its owner had recorded when the guard was decided, that version was issued once, and nothing changed the file in between |
| `GuardedWrites.CommitWritesIff` | fslocal/local.go:356-472 | a decided operation takes effect iff its key still holds what its owner had recorded and, for an edit, the edit applies; otherwise nothing changes, and no other key ever does |
| `GuardedWrites.UndisturbedWriteHappens` | fslocal/local.go:356-418 | an owner whose record is up to date when it decides to write gets its write in, whatever else happens meanwhile, as long as nobody changes that key |
| `GuardedWrites.DecidedStays` | fsobservationpolicy/fsobservationpolicy.go:71-83 | a decided operation stays as decided until it is committed or given up, and the history only grows |
| `GuardedWrites.UntouchedKeepsLatest` | fslocal/local.go:356-472 | a key nobody changed since holds what it held |
| `GuardedWrites.RunsKeepInv` | fslocal/local.go:356-472 | every commit creates an absent file or replaces the recorded version, and an edit is applied to that version's content |
| `GuardedWrites.NextKeeps` | fsobservationpolicy/fsobservationpolicy.go:71-116 | every step keeps guards, files and history in agreement |
| `GuardedWrites.WrittenIsHonest` | fslocal/local.go:366-381 | what passes its guard has the recorded basis |
| `GuardedWrites.Gate.WriteIntent` | fsobservationpolicy/fsobservationpolicy.go:71-83 | unseen, absent and ownerless ask for a creation; seen asks for that version |
| `GuardedWrites.Gate.EditIntent` | fsobservationpolicy/fsobservationpolicy.go:88-104 | unseen or ownerless and absent are rejected; seen gives the version |
| `GuardedWrites.Gate.Observe` | fsobservationpolicy/fsobservationpolicy.go:108-116 | records for exactly one owner and file; ownerless observations are dropped |
| `GuardedWrites.Gate.Set` | fsobservationpolicy/fsobservationpolicy.go:51-58 | changes one record and no other |
| `GuardedWrites.Gate.Get` | fsobservationpolicy/fsobservationpolicy.go:42-49 | reads one record |
| `GuardedWrites.Gate.Clear` | fsobservationpolicy/fsobservationpolicy.go:62-66 | forgets everything |
| `GuardedWrites.Local.WriteText` | fslocal/local.go:356-418 | each refusal by its one cause: cancelled, no regular file, a guarded version that is gone or changed, a guarded creation of a file that is there; without a refusal the new content is published, even if only the look at it afterwards fails, and an unguarded or satisfied write succeeds when the system calls do |
| `GuardedWrites.Local.EditText` | fslocal/local.go:423-472 | each refusal by its one cause, the version guard before the match; without a refusal the edit of the current content is published, and the call succeeds when the system calls do |
| `GlobSample.SampleAcrossTopLevel` | fssearch/glob.go:137-191 | min(maxItems, n) paths: a prefix of each top-level group in first-seen order; shares differ by more than one only if the smaller group is exhausted, and earlier groups are served first |
| `GlobSample.TakeRounds` | fssearch/glob.go:163-185 | rounds go on until the cap is reached or every group is used up |
| `GlobSample.FlatSampleIsHead` | fssearch/glob.go:137-191 | a result with one path per group yields its head |
| `GlobSample.TakeRound` | fssearch/glob.go:166-185 | one round gives every active group one item while there is room |
| `GlobSample.TakeKeepsMid` | fssearch/glob.go:168-184 | one take keeps shares, shown keys and count in agreement |
| `GlobSample.SampleIsEven` | fssearch/glob.go:163-191 | where the rounds stop, the sample is even and complete |
| `GlobSample.GroupsHoldEveryPath` | fssearch/glob.go:145-162 | the groups together hold every path once |
| `GlobSample.EntriesAreGroups` | fssearch/glob.go:88-131 | every path under one entry of the search root is in that entry's group |
| `GlobSample.NamedRootGroups` | fssearch/glob.go:88-128 | below a named root, with any number of separators after it, an entry's paths are its group; the root itself has the group without a name |
| `GlobSample.DotRootGroups` | fssearch/glob.go:88-128 | below the working directory an entry's paths are its group, with or without the leading dot |
| `GlobSample.SeparatorRootGroups` | fssearch/glob.go:88-128 | below a root of separators only an entry's paths are its group, however many separators they start with |
| `GlobSample.TopLevelSegment` | fssearch/glob.go:122-128 | a group key never contains a separator |
| `Projection.RequestImageDimensions` | attachment/projection.go:8-29 | positive, never enlarged, at most maxPixels in all, unchanged iff the image fits, the derived side within half a pixel of the exact aspect unless clamped to 1; no larger side up to the exactly scaled one would fit |
| `Projection.Shrink` | attachment/projection.go:13-28 | terminates at the largest side, from the scaled one down, whose product fits |
| `Projection.ScaledDown` | attachment/projection.go:9-14 | the scaled side rounded down is the largest whose square fits |
| `Projection.DerivedFits` | attachment/projection.go:15-19 | the derived side never exceeds the original |
| `Projection.DerivedIsClose` | attachment/projection.go:15-19 | the derived side is the nearest integer, or clamped |
| `Projection.OneFits` | attachment/projection.go:16-19 | a side of 1 always fits, so the loop needs no further bound |

## Left out

- Cancellation and disposal in the wake protocol, and the published agent status: `wakeDriver` takes any cancel cause for disposal, and status is set after the phase it reports.
- TurnBrackets.Driver.RunSteps: the environment cancels after `patience` steps, an arbitrary bound; a turn that never ends is not described.
- TurnBrackets.Driver.Kick: likewise for the number of turns; step/end and turn/end appends succeed.
- TurnBrackets.Driver.Step: the model request and tool execution inside a step are events that are no boundaries.
- WakeProtocol keeps the inbox as a set of ids: order and list are those of module Inbox.
- Compaction: other writers append only accepted events that respect the lock, and no start between the scan and the start of this transaction; the summary payload beyond the shadowed seqs is not modelled.
- Surface: an absent citation list and an empty one are the same, and message payloads are texts.
- ToolCalls: argument parsing and result metadata; the settlement channel never overflows.
- Inbox: observers that call the inbox back while notifications are dispatched; JSON encoding (a stored splice decodes to what was appended).
- Reconcile: which scopes a pass looks at; the ordered scopes are given, each once.  Items and version updates grow together and are one list.
- Render: the file being cut ends with its content, as every section style of the source has it; numbers are not negative.
- Expr: positions in error messages, floating-point rounding, and reading fields in place (`Walk` recurses over them).
- TextStream: a read that returns no bytes and no error; invalid files beyond the equivalence.
- GuardedWrites: the literal match of an edit is an arbitrary partial function on the content, and a writer outside the program cannot slip between the guard and the rename of one operation.
- GlobSample: the text of the page around the sampled paths.
- Projection: floating-point rounding and 64-bit overflow; the scale is exact.
- Model streaming (agentloop/step.go), the summarizer's prompts, runtime-context follow, plugin wiring, gateways, commands, credentials and the registry are not part of this model.
