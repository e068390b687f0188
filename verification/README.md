# PaperMachine, verified

A Dafny model of the parts of PaperMachine that have to survive a crash, a long
conversation or an awkward provider, with proofs of what they promise.

- **Rollout store** (`crates/store`). `Protocol` holds the records and rows, `Rollout`
  the reconstruction of an Agent from its log, `Tables` every modelled transaction as a
  function of the tables. `StoreMachine` is the store as a state machine: durable logs,
  projection tables, the volatile sequence cache, and every place where a process can
  stop. `Lifecycle`, `Projection`, `TurnLog`, `Charges`, `StoreInvariant`, `StoreSteps`
  and `StoreRuns` build the invariant of all reachable worlds; `StoreTheorems`
  and `Attention` state what follows from it. `TurnOutcomes`, `Outcomes` and `Admission` say
  operation by operation, in terms of rows and logs, when it goes through and what it leaves;
  `Attachments` which Turn belongs to which attempt, `Deliveries` what becomes of an input, and
  `Integrity` who belongs to whom in every run. `Database` is the same store as
  the object it is in the program, each method proved to take the machine's step.
  `RolloutFile` and `FileRefinement` go down to the bytes of the rollout files, and
  `SampleCodec` shows that the laws asked of the encoding can be met.
- **Agent loop** (`crates/agent`, `crates/session`). `History` has token estimates,
  trimming, compaction and the context budget; `ToolTrace` the bookkeeping of tool calls
  and their repair after a crash; `AgentLoop` the loop, its checkpoints and its
  resumption; `AgentSafety` what every run of it keeps, `LoopEffects` what each of its steps
  says and stores; `ControlPlane` how the inputs a Turn has claimed reach it; `EventSink` the
  sink object.
- **Runtime** (`crates/session` on top of both). `Runtime` puts the store and the loops of
  all Agents into one machine, in which a checkpoint is an operation of the store that may
  be refused or cut off, and in which anybody may cancel a Turn at any time; `RuntimeSafety`
  proves that each of its runs is a run of the store and a run of every loop, and, with
  `ExactUsage` and `TurnCharges`, that what Sessions are charged is exactly what their Turns
  show. `Cancellation` is about processes whose Turn is cancelled under them.
- **Change feed** (`crates/store/src/project_changes.rs`). `ChangeFeed` and
  `ArtifactPaging`.
- **Patch engine** (`crates/tools/src/patch.rs`). `Text`, `Patch` and `PatchParser`, and
  `PatchGrammar` with the language the parser accepts.
- **Provider transport** (`crates/model`). `ChatStream`, `ChatRequest` and `Transport`.

`Wrappers` holds Option, Result and sums over maps.

How to read it: `StoreMachine.Run(START, steps)` is any history of the store, with
operations, crashes before, inside and after an append, and reopenings in any order;
`FileRefinement.DiskRun` is the same with crashes at any byte; `AgentLoop.Run(IDLE, steps)`
is any history of one Agent over any number of Turns and processes; `Runtime.Run(FRESH,
steps)` is any history of the store and all its Agents together. The main theorems quantify
over all of them.

Three properties the code is expected to have are false. A Session should ask for attention only
while a human request is open. `Attention.AttentionOutlivesRequests` gives a run that ends
with a terminal Session asking for attention without any open request: a request is answered
while the Session is Closing and another request is still open, which sets the flag again,
and finishing the closing cancels the requests without clearing it.
`Attention.StepAttention` says that exactly this step breaks the property: the finishing of
a Closing Session whose flag is set.

And what a running process believes to be stored should be stored. Cancelling a Turn looks for
its process first and asks the store afterwards, and a process may start in between
(`crates/session/src/lib.rs:302-323` and `:200-222`). `Cancellation.CancelledUnderProcess` gives
a run that ends with a process whose Turn is cancelled and, in the log, not active any more.
`Cancellation.StepBelief` says that exactly such a cancellation breaks the property, and
`Cancellation.StaleWritesNothing` that it does no harm to what is stored: the process can still
sample, but it writes nothing into any log or table and gives up when it first tries.

And what a Turn acknowledges it should have been told. The control plane acknowledges every
claimed input, but hands over only the newest interruption and the newest instruction to finish,
and an interruption ends the Turn without the guidance that came with it
(`crates/session/src/lib.rs:610-640`, `crates/agent/src/lib.rs:417-422`).
`ControlPlane.VoicedAll` says exactly when all of it is said, and `ControlPlane.GuidanceLost` gives
guidance that is applied and never reaches the model.

A fourth, harmless one: a rollout of 2^64 - 1 records can be written but not scanned, because
the scan increments its expected sequence once more after the last record.
`RolloutFile.CleanScan` says so, and `FileRefinement.DiskRefinesStore` that the refinement down
to bytes holds if and only if no log gets that long.

## Model

| member | source | states |
|---|---|---|
| TurnLog.LogExtends | crates/store/src/rollout.rs:195-275 | a record that fits the Turn rows of a good log extends it to a good log: numbered, reconstructible, and in agreement with its rows |
| TurnLog.CommittedContext | crates/store/src/rollout.rs:251-270 | the committed context of a log is that of the last Turn that completed or was interrupted: its checkpoints replayed over what was committed when it was created |
| TurnLog.ActiveTurnOpened | crates/store/src/rollout.rs:195-250 | the active Turn's context is its own checkpoints replayed over the context committed at its creation |
| TurnLog.NothingCommitted | crates/store/src/rollout.rs:251-270 | without a completed or interrupted Turn nothing is committed |
| Projection.AcknowledgeApplies | crates/store/src/database.rs:3962-4011 | acknowledging distinct claimed inputs one by one succeeds and applies exactly those |
| Projection.ProjectKeeps | crates/store/src/database.rs:4013-4175 | a record that was ready when appended always projects, keeps the cross-table invariant and changes nothing final |
| Projection.AcknowledgedAreApplied | crates/store/src/database.rs:3962-4011 | every acknowledged input was claimed before its record is projected and is applied after it |
| Projection.EndedTurnReleases | crates/store/src/database.rs:4150-4171 | when a Turn ends, each input is applied if acknowledged, pending again if the Turn still held it, and untouched otherwise |
| Lifecycle.TransitionSessionKeeps | crates/store/src/database.rs:1519-1566 | a Session transition keeps the invariant and what is final |
| Lifecycle.BeginClosingKeeps | crates/store/src/database.rs:1410-1473 | so does entering Closing, with its outcome fixed from then on |
| Lifecycle.FinishClosingKeeps | crates/store/src/database.rs:1475-1517 | so does leaving it; inputs are applied and requests cancelled in the same step |
| Lifecycle.CompleteSessionKeeps | crates/store/src/database.rs:1568-1602 | so does completing a running Session |
| Lifecycle.CreateHumanRequestKeeps | crates/store/src/database.rs:2500-2593 | so does opening a human request |
| Lifecycle.AnswerHumanRequestKeeps | crates/store/src/database.rs:2609-2691 | so does answering one |
| Lifecycle.InsertInputKeeps | crates/store/src/database.rs:4309-4430 | so does delivering an input, idempotently by id |
| Lifecycle.ClaimInputsKeeps | crates/store/src/database.rs:2745-2806 | so does claiming inputs: each then names an unfinished Turn of its own Agent |
| Lifecycle.StartAttemptKeeps | crates/store/src/database.rs:2241-2350 | so does starting an attempt: numbers stay 1..n and only the newest attempt runs |
| Lifecycle.FinishActionKeeps | crates/store/src/database.rs:2382-2498 | so does finishing an Action together with its attempt and its inputs |
| Lifecycle.CancelPendingKeeps | crates/store/src/database.rs:2185-2239 | so does cancelling a pending Action |
| Charges.ChargesBalance | crates/store/src/database.rs:3768-3799 | everything ever charged to a Session is what its Turns last checkpointed plus what checkpoints took back |
| Charges.ChargesAreExact | crates/store/src/database.rs:4060-4117 | charges equal the last checkpointed usages if and only if no checkpoint of the Session ever reported less than the one before |
| StoreInvariant.ProjectNextKeeps | crates/store/src/database.rs:3206-3248 | projecting the one record that is missing succeeds and keeps rows, journal, accounts and deliveries in agreement with the log |
| StoreSteps.ReplayKeeps | crates/store/src/database.rs:3206-3248 | a replay always succeeds and leaves nothing of that log unprojected; without a missing record it only fills the cache |
| StoreSteps.CommitKeeps | crates/store/src/database.rs:3099-3162 | once admitted, a planned record commits: it is the next record of its log and is never left unprojected |
| StoreSteps.DurableKeeps | crates/store/src/database.rs:3124-3140 | a process that stops between append and projection leaves a good world with exactly that record waiting |
| StoreSteps.PlanIsReady | crates/store/src/database.rs:432-536 | what a Turn operation plans is ready to be projected and fits the log |
| StoreRuns.TransactionKeeps | crates/store/src/database.rs:1410-2806 | every transaction keeps the tables' invariant and undoes nothing final |
| StoreRuns.SweepFindsNothing | crates/store/src/database.rs:3830-3846 | the sweep of terminal Sessions on opening finds nothing to do: it was all done when they ended |
| StoreRuns.NextKeeps | crates/store/src/handle.rs:51-59 | every step, also a crash inside an operation and every step of reopening, keeps the invariant, what is final, and every record of every log |
| StoreRuns.Reachable | crates/store/src/database.rs:87-103 | every world reachable from an empty store satisfies the invariant |
| StoreTheorems.ProjectionRefinesLog | crates/store/src/database.rs:3099-3248 | in an open store the Turn rows are the fold of each log, every record was projected exactly once and in order, and projected and cached sequence are the number of records |
| StoreTheorems.AtMostOneBehind | crates/store/src/database.rs:3124-3140 | at any time at most one record, of one Agent, is durable and not projected |
| StoreTheorems.CrashIsAtomic | crates/store/src/database.rs:3120-3162 | a crash before the append leaves a Turn operation undone, one after it leaves it done: the replay produces exactly the tables the operation would have produced |
| StoreTheorems.CommittedIsNeverLost | crates/store/src/database.rs:3120-3127 | a record whose operation returned is in the log of every later world |
| StoreTheorems.TurnsAgreeWithLog | crates/store/src/database.rs:589-738 | reconstruction never fails on a log the store wrote; the unfinished Turn row is the log's active Turn with the same counters, and a completed Turn's output is its last checkpoint message |
| StoreTheorems.OneLiveTurn | crates/store/src/database.rs:485-495 | an Agent never has two unfinished Turns, not even between a crash and the reopening |
| StoreTheorems.FinalStays | crates/store/src/database.rs:659-738 | from any reachable world to any later one, terminal Sessions and Turns, final Actions, applied inputs and resolved requests keep their outcome, Closing only leads where it was headed, and logs only grow |
| StoreTheorems.SessionLifecycle | crates/store/src/database.rs:1410-1602 | closing status exactly while Closing, output exactly when completed or closing to completed, and nothing open or waiting in a terminal Session |
| StoreTheorems.AcknowledgedAtMostOnce | crates/store/src/database.rs:3923-4010 | no input is acknowledged by two records, of whatever Agents and Turns, in any reachable world; in an open store every acknowledged one is applied |
| StoreTheorems.ClaimsAreLive | crates/store/src/database.rs:2745-2806 | a claimed input names an unfinished Turn of the Agent it was sent to |
| StoreTheorems.UsageConserved | crates/store/src/database.rs:4060-4117 | a Session's counter is, up to its width, external usage plus last checkpointed usage of its Turns plus what checkpoints took back; nothing is charged twice |
| StoreTheorems.LiveBalance | crates/store/src/database.rs:4072-4087 | what an unfinished Turn contributes is the usage its row shows |
| StoreTheorems.AttemptNumbers | crates/store/src/database.rs:2284-2289 | the attempt numbers of an Action are exactly 1..n, each used once |
| StoreTheorems.RunningAttempt | crates/store/src/database.rs:2241-2350 | a running attempt is the only one, has the greatest number, and its Action is running |
| StoreTheorems.RunningAction | crates/store/src/database.rs:2185-2498 | an Action is running if and only if one of its attempts is |
| Attachments.StepProjects | crates/store/src/database.rs:3099-3248 | a step of a reachable world, other than a transaction, projects exactly one record that was ready, or changes neither tables nor journal |
| Attachments.AttemptShowsTurn | crates/store/src/database.rs:4013-4058 | in an open store the attempt that a record created a Turn for shows this Turn, and belongs to the Action it belonged to then |
| Attachments.AttemptHasRecord | crates/store/src/database.rs:4013-4058 | and an attempt that shows a Turn has a record, in some log, that created this Turn for it |
| Attachments.AttachedAtMostOnce | crates/store/src/database.rs:467-484 | no two records of whatever logs create a Turn for the same attempt, in any reachable world, open or crashed |
| TurnOutcomes.CreateTurnIs | crates/store/src/database.rs:432-536 | in any open store a Turn is created exactly if its Agent may work on the attempt, the Session goes on, the attempt is unfinished and has no Turn, the Agent has no other unfinished one, and the text is the Action's own or the answer it waited for; it is queued with that text and nothing else, the attempt shows it, and the log has one record more |
| TurnOutcomes.CheckpointIs | crates/store/src/database.rs:684-712 | a checkpoint is taken exactly from an unfinished Turn that holds every input it acknowledges; its row shows usage, steps and message, and its log has the mutation as the next record; a refused one changes neither log nor table |
| TurnOutcomes.ChangeTurnIs | crates/store/src/database.rs:559-682 | a change of status goes through exactly from the statuses it may follow, leaves the status and the error it means, and writes nothing where the status is that already |
| TurnOutcomes.CompleteTurnIs | crates/store/src/database.rs:589-622 | a Turn completes exactly if it is running and its last checkpoint carries the output; its row shows the output, the given tokens with the searches it had, and no error |
| Outcomes.ChangeIs | crates/store/src/database.rs:1519-1566 | a change of a Session goes through exactly for the statuses it is for and leaves the status it means, an error only if it failed, and no attention if it ended |
| Outcomes.OpenIs | crates/store/src/database.rs:2500-2593 | a request is opened exactly for an Agent of a running or paused Session, which then waits, unless it is paused, and asks for attention |
| Outcomes.AnswerIs | crates/store/src/database.rs:2609-2691 | an answer goes to an open request and is written into it; a waiting Session runs again exactly when its last open request is answered, and asks for attention exactly as long as another one is open |
| Outcomes.ClosingLeads | crates/store/src/database.rs:1410-1517 | a Session that begins to close ends with the status, the output and the error it was given then |
| Outcomes.CompleteIs | crates/store/src/database.rs:1568-1602 | only a running Session completes, with the result it is given, and without closing target, error or attention |
| Outcomes.StartActionIs | crates/store/src/database.rs:2241-2350 | an Action starts exactly if it is scheduled or was interrupted, its Session takes Actions and no attempt of it runs; the new attempt counts one on and has no Turn |
| Outcomes.EndActionIs | crates/store/src/database.rs:2382-2498 | a running attempt ends together with its Action, which takes output and error; the same result again changes nothing, any other is refused |
| Outcomes.CancelActionIs | crates/store/src/database.rs:2185-2239 | exactly an Action that does not run can be cancelled from outside; it shows the reason and no output |
| Outcomes.ActionShowsAttempt | crates/store/src/database.rs:2382-2498 | in every run an Action that completed, failed or was interrupted shows status and error of its newest attempt |
| Admission.NewSessionIs | crates/store/src/database.rs:1021-1154 | a Session begins, once, without outcome, usage or attention |
| Admission.NewAgentIs | crates/store/src/database.rs:1664-1744 | an Agent joins exactly a running Session |
| Admission.ArchiveIs | crates/store/src/database.rs:337-368 | exactly a Session that is over can be archived, and nothing else about it changes |
| Admission.ClosingIs | crates/store/src/database.rs:1410-1473 | a Session can be told to close exactly while it is not over, once, with an output exactly if it is to complete; the same again changes nothing |
| Admission.ClosedIs | crates/store/src/database.rs:1475-1517 | a Closing Session ends as it was told to; one that is over stays as it is |
| Admission.SendIs | crates/store/src/database.rs:4309-4430 | an input is queued exactly if its Session goes on, its Agent belongs to it, its sender is in a live Session and the Action it is addressed to is the Agent's own; sending it again changes nothing, and with other content is refused |
| Admission.ScheduleIs | crates/store/src/database.rs:4478-4611 | an Action is scheduled exactly for an Agent of a Session that takes Actions, and from a request or an Agent that fits; again with the same task it changes nothing |
| Admission.TransactionRequests | crates/store/src/database.rs:1410-2691 | what every transaction does to every request: an answer is written into the one answered, the end of a Session cancels its open ones, all others stay as they are |
| Deliveries.TransactionInputs | crates/store/src/database.rs:2745-2806 | what every transaction does to every input: a claim takes the pending ones of its Agent that are addressed to no Action or to the named one, the end of a Session or Action applies what waits there, all others stay as they are |
| Deliveries.RecordInputs | crates/store/src/database.rs:3962-4011 | a record applies exactly what it acknowledges, all of it claimed by its own Turn; if it ends the Turn, whatever else the Turn held is pending again |
| Deliveries.OwnDeliveries | crates/store/src/database.rs:2781-2783 | in every run whose claims name the Turn's own Action, no record of a Turn acknowledges an input addressed to another Action than the one the Turn was created for |
| Integrity.RowsBelong | crates/store/src/database.rs:4309-4611 | in every run inputs, requests and Actions belong to an Agent of their own Session, an input's Action is its Agent's own, and the request an Action comes from was the same Agent's |
| Integrity.TurnsWorkOnTasks | crates/store/src/database.rs:467-484 | every Turn ever created, also one whose creation is still to be projected, was created for an Action of its Agent, and its input is that Action's text or the answer to the request it comes from, for ever |
| Attention.StepAttention | crates/store/src/database.rs:1475-1517 | for any step of any reachable world: attention stays justified if and only if the step is not the finishing of a Closing Session whose flag is set |
| Attention.AttentionOutlivesRequests | crates/store/src/database.rs:2609-2691 | a concrete run after which a terminal Session asks for attention without an open request |
| Database.ValidateRolloutItem | crates/store/src/database.rs:3923-3960 | accepts exactly records whose acknowledged inputs are distinct and claimed by the record's Turn |
| Database.ApplyAcknowledgements | crates/store/src/database.rs:3962-4011 | the row loop is the acknowledgement the projection lemmas speak about |
| Database.ApplyRolloutRecord | crates/store/src/database.rs:4013-4175 | writing rows one after the other is the projection of the record, or fails without effect; Attachments.StepProjects and the rows below it say what that does to attempts |
| Database.ProjectRecords | crates/store/src/database.rs:3233-3241 | projecting the missing records in one transaction, all or none |
| Database.ApplyTerminalActionInputs | crates/store/src/database.rs:4432-4476 | applies exactly the waiting inputs of the ended Action |
| Database.ClaimRows | crates/store/src/database.rs:2766-2802 | takes exactly the inputs of the Session and Agent that are pending or already held by the Turn and addressed to no Action or to the one named; the pending ones become claims of the Turn and every other row stays as it is |
| Database.Store.ReplayAgentRollout | crates/store/src/database.rs:3206-3248 | the new state is the machine's replay, or the old state when it fails |
| Database.Store.CommitAgentRolloutItem | crates/store/src/database.rs:3099-3162 | a record that commits leaves the machine's committed state, a refused one the replayed state, and an admitted one that cannot be projected stays durable and cached |
| Database.Store.CreateTurn | crates/store/src/database.rs:432-536 | creating a Turn is the machine's step and keeps the invariant; it succeeds exactly when there is nothing to commit or the record is admitted, as the next three do |
| Database.Store.TransitionTurn | crates/store/src/database.rs:659-682 | so are start, pause, resume, fail, interrupt and cancel |
| Database.Store.CheckpointTurnContext | crates/store/src/database.rs:684-712 | so is a checkpoint |
| Database.Store.CompleteTurn | crates/store/src/database.rs:589-622 | so is completing a Turn, which needs its matching checkpoint message in the log |
| Database.Store.CreateSession | crates/store/src/database.rs:1021-1154 | creating a Session is the machine's step; the method succeeds exactly when the transaction does, as all below |
| Database.Store.CreateAgent | crates/store/src/database.rs:1664-1744 | adding an Agent to a running Session is the machine's step |
| Database.Store.ArchiveSession | crates/store/src/database.rs:337-368 | archiving a terminal Session is the machine's step |
| Database.Store.TransitionSession | crates/store/src/database.rs:1519-1566 | the Session transitions are the machine's step |
| Database.Store.BeginSessionClosing | crates/store/src/database.rs:1410-1473 | entering Closing is the machine's step |
| Database.Store.FinishSessionClosing | crates/store/src/database.rs:1475-1517 | finishing it is the machine's step |
| Database.Store.CompleteSession | crates/store/src/database.rs:1568-1602 | completing a Session is the machine's step |
| Database.Store.CreateHumanRequest | crates/store/src/database.rs:2500-2593 | opening a request is the machine's step |
| Database.Store.AnswerHumanRequest | crates/store/src/database.rs:2609-2691 | answering a request is the machine's step |
| Database.Store.CreateAgentInput | crates/store/src/database.rs:4309-4430 | delivering an input is the machine's step |
| Database.Store.ClaimAgentInputs | crates/store/src/database.rs:2745-2806 | claiming is the machine's step; it returns exactly those inputs, all held by the Turn afterwards, and leaves the rows of all others alone |
| Database.Store.CreateActionInvocation | crates/store/src/database.rs:4478-4611 | scheduling an Action is the machine's step |
| Database.Store.StartActionAttempt | crates/store/src/database.rs:2241-2350 | starting an attempt is the machine's step |
| Database.Store.FinishAction | crates/store/src/database.rs:2382-2498 | finishing an Action is the machine's step |
| Database.Store.CancelPendingAction | crates/store/src/database.rs:2185-2239 | cancelling a pending Action is the machine's step |
| Database.Store.AddSessionUsage | crates/store/src/database.rs:1604-1637 | reporting usage is the machine's step |
| Database.Store.Reopen | crates/store/src/database.rs:87-103 | from whatever a crash left, opening succeeds: the store is valid, all logs are cached and unchanged, nothing final changed |
| RolloutFile.File.Scan | crates/store/src/rollout.rs:69-159 | the line loop returns the records and leaves the bytes that the recursive reading of the file prescribes, and touches nothing on an error |
| RolloutFile.File.Append | crates/store/src/rollout.rs:161-193 | a record appended to a file of complete lines is read back by a scan, behind exactly the records that were there |
| SampleCodec.LawfulExists | crates/store/src/rollout.rs:161-193 | there is an encoding of records that obeys the assumed laws: never empty, no newline, round trip, no decodable proper prefix |
| RolloutFile.CleanScan | crates/store/src/rollout.rs:69-159 | a file of complete lines is read back record by record and left alone, unless it holds 2^64 - 1 records |
| RolloutFile.TornAppend | crates/store/src/rollout.rs:115-158 | a crash after any byte of an append leaves the old records or those and the new one, and the scan leaves exactly their encodings |
| RolloutFile.ScanTwice | crates/store/src/rollout.rs:69-159 | whatever the bytes were, a second scan finds the same records and changes nothing |
| RolloutFile.ScanReads | crates/store/src/rollout.rs:69-159 | a scan that succeeds has read every line as a record of its Agent, numbered without a gap, and kept exactly those lines, without a tail that is no record |
| RolloutFile.ScanAccepts | crates/store/src/rollout.rs:69-159 | and lines that are such records are read, whatever follows them |
| FileRefinement.DiskRefinesStore | crates/store/src/rollout.rs:69-193 | whatever bytes crashes leave behind, repairs that are cut off before their projection included, scanning the files gives at all times the world the store machine reaches by a run of its own, in which torn appends happened or did not, if and only if no log ever has 2^64 - 1 records |
| FileRefinement.OpenFilesAreClean | crates/store/src/rollout.rs:69-193 | in an open store every file is exactly the encoding of its log |
| History.EstimateTextTokens | crates/agent/src/lib.rs:1113-1124 | the counting loop gives a quarter token per ASCII byte, rounded up, plus one per other character |
| History.TrimHistory | crates/agent/src/lib.rs:1140-1172 | the backwards loop keeps the first item and the tail the trimming lemmas describe, and counts what it removed |
| History.TrimReports | crates/agent/src/lib.rs:1140-1172 | trimming changes the history if and only if it reports removed items, and reports exactly how many |
| History.TrimKeepsLongestTail | crates/agent/src/lib.rs:1150-1171 | what is left is the first item and the longest tail that fits, at least one item, without the outputs it would start with |
| History.TrimmedWithinLimit | crates/agent/src/lib.rs:1140-1172 | a trimmed history of more than two items is within the limit |
| History.BuildCompactedHistory | crates/agent/src/lib.rs:1174-1204 | the newest-first loop selects the run of user messages the next row describes, and adds the summary |
| History.CompactionKeeps | crates/agent/src/lib.rs:1174-1204 | a compacted history is a run of the user's messages in order and a message of the user that ends in the summary; the run ends at the newest message that fits alone, is within the budget and could not begin earlier |
| History.UserMessagesAre | crates/agent/src/lib.rs:1174-1204 | the messages it chooses from are exactly the user's messages of the history, in order |
| History.ItemWeighs | crates/agent/src/lib.rs:1126-1138 | counting a quarter token per ASCII character and a whole one for any other, in every text of an item and eight tokens for the item, the estimate is never too low and less than a token per text too high |
| History.BudgetIs | crates/agent/src/lib.rs:1083-1111 | the budget of a history is what an eighth of the window (1024 to 16384), a twentieth (256 to 4096), the instructions and the tools leave, up to the rounding of their texts; there is none only if they leave nothing |
| History.WindowHolds | crates/agent/src/lib.rs:1083-1138 | what the estimates let through fits the window in characters: four times the window without its reserve is at least the weight of all texts shown, their number of characters if all is ASCII |
| History.SampleFits | crates/agent/src/lib.rs:1083-1111 | within the history budget the instructions, all names, descriptions and schemas of the tools, every text of every input item and both recovery messages leave the reserve for the answer, counted in characters |
| ToolTrace.TailBalanced | crates/agent/src/lib.rs:1161-1171 | cutting items between the first and a tail keeps every call with its later output |
| ToolTrace.RepairInterruptedToolCalls | crates/session/src/lib.rs:699-710 | the two loops append an aborted output for exactly the calls without one |
| ToolTrace.RepairBalances | crates/session/src/lib.rs:650-710 | repairing gives every open call an output and keeps the history as a prefix |
| ToolTrace.RepairAddsAborts | crates/session/src/lib.rs:699-710 | and what it adds is one output for each of these calls, in their order, saying that it was aborted, and nothing else |
| ToolTrace.BalancedIsRepaired | crates/session/src/lib.rs:699-710 | a balanced history is left alone |
| ToolTrace.ReserveToolCallIds | crates/agent/src/lib.rs:1241-1266 | succeeds if and only if all ids are valid, unused and distinct, and then reserves exactly those |
| AgentLoop.DeltaRoundTrip | crates/session/src/lib.rs:1227-1249 | a delta replayed over the old context gives the history; encoding fails exactly when a replacement was not announced |
| AgentSafety.EmitKeeps | crates/session/src/lib.rs:1227-1298 | a checkpoint can always be encoded, and once it is stored the context rebuilt from the log is the history in memory |
| AgentSafety.HeadKeeps | crates/agent/src/lib.rs:398-506 | a pass over the loop head, with guidance, compaction and trimming, keeps the invariant |
| LoopEffects.HeadStores | crates/agent/src/lib.rs:398-506 | what a pass over the head stores is the history, then the instruction to finish, then every message of the control plane as the user's, in order, then at most the prompt to finish, or a compaction or trim of exactly that; the record acknowledges exactly what was handed over |
| LoopEffects.HeadGoesOn | crates/agent/src/lib.rs:398-506 | the loop goes on to sample exactly if it is not interrupted, has a summary if it must compact, and what trimming leaves is within the budget; otherwise the Turn is about to end as interrupted or failed |
| LoopEffects.InterruptionEnds | crates/agent/src/lib.rs:417-422 | an interruption ends the Turn with its reason and acknowledges what came with it |
| LoopEffects.SampleStores | crates/agent/src/lib.rs:662-772 | a sample adds its items as the provider sent them, its message unless an item is it, and the calls that are no items, each once and in order; it counts one step and adds its usage; without calls it is the answer |
| LoopEffects.AnswerTaken | crates/agent/src/lib.rs:662-772 | a sample is taken exactly if its calls are complete, it says or calls something and all ids are new, not blank, at most 512 bytes and distinct; the loop then waits for exactly its calls |
| LoopEffects.StepUsageIs | crates/agent/src/lib.rs:679-689 | the usage of a step is, counter by counter and up to its width, that of the sample, of the attempts before it, and of the searches among its items |
| LoopEffects.ToolStores | crates/agent/src/lib.rs:791-823 | a tool outcome is stored with the id of its call and the text the tool gave, and only that call is not outstanding any more |
| LoopEffects.AnswerCompletes | crates/agent/src/lib.rs:735-772 | a Turn completes with the text of its last sample and the usage it checkpointed |
| LoopEffects.AbandonEnds | crates/session/src/lib.rs:485-535 | a Turn that is given up fails with its error, or is cancelled if there is none |
| LoopEffects.LaunchReads | crates/session/src/lib.rs:385-446 | a process that starts a Turn goes on behind the committed context with the Turn's input, one that resumes it with what was checkpointed and repaired; both carry on the counters, and a checkpointed answer only has to be completed |
| LoopEffects.RefusedGivesUp | crates/session/src/lib.rs:448-535 | a process that was refused a record is gone or can only give its Turn up |
| ControlPlane.Checkpoint | crates/session/src/lib.rs:546-640 | the loop over the claimed inputs hands over what the next row describes; a Session that is over interrupts and hands nothing over |
| ControlPlane.ControlIs | crates/session/src/lib.rs:610-640 | every claimed input is acknowledged, in order; messages and guidance are relayed one by one, each as a text that ends in its content; of interruptions and instructions to finish the newest counts |
| ControlPlane.HeadVoices | crates/agent/src/lib.rs:398-438 | the loop says the interruption and nothing else, or stores all the guidance; either record acknowledges everything |
| ControlPlane.VoicedAll | crates/session/src/lib.rs:610-640 | as many texts are said as inputs are acknowledged if and only if there is one input, or no interruption and at most one instruction to finish |
| ControlPlane.GuidanceLost | crates/session/src/lib.rs:610-640 | guidance that comes with an interruption is acknowledged by a record that does not say it |
| AgentSafety.SampledKeeps | crates/agent/src/lib.rs:662-772 | so does a sample with its calls, whichever way they arrive |
| AgentSafety.FinishedKeeps | crates/agent/src/lib.rs:791-823 | so does every tool outcome, in any order |
| AgentSafety.LaunchKeeps | crates/session/src/lib.rs:385-446 | so does a new process that starts or resumes a Turn |
| AgentSafety.LogIsMemory | crates/session/src/lib.rs:1227-1298 | in every run, through any number of refusals, crashes and cancellations, while a process runs the active Turn the log's context is the sink's, and the history in memory while sampling, running tools or ending; the sink never meets an unexplained replacement |
| AgentSafety.CallsStayBalanced | crates/agent/src/lib.rs:398-823 | every history a model sees starts with the user and is balanced; while tools run exactly the outstanding calls lack an output |
| AgentSafety.CommittedIsBalanced | crates/session/src/lib.rs:485-535 | every committed context is balanced and starts with the user |
| AgentSafety.UsageNeverDrops | crates/agent/src/lib.rs:679-689 | no checkpoint of a Turn reports less usage than the one before, also across crashes |
| AgentSafety.SamplesFitWindow | crates/agent/src/lib.rs:481-506 | whenever the loop goes on to sample, the characters of everything it may show the model with its retries are at most four times the window without the reserve of an eighth, between 1024 and 16384, other characters than ASCII counting four |
| RuntimeSafety.StepFollows | crates/session/src/lib.rs:366-535 | whatever a step of the runtime does, cancelling a Turn that a process runs included, in each Agent's loop it is a step of the loop, a refusal, a loss of the process, or nothing |
| RuntimeSafety.WorldIsRun | crates/store/src/handle.rs:51-59 | what the processes do to the store is a run of the store machine, so all its theorems hold with processes running |
| RuntimeSafety.ViewIsRun | crates/session/src/lib.rs:366-535 | what an Agent's log says and the process of its active Turn holds is what a run of its loop alone leads to, whatever was refused, cut off, cancelled, or done by other Agents |
| RuntimeSafety.StoredIsMemory | crates/session/src/lib.rs:1227-1298 | in every run, whoever cancels what and when: reconstructing the Agent's log gives a process its Turn, its sink's context and, outside the loop head, its history, if and only if the Turn's row is unfinished |
| Cancellation.StepBelief | crates/session/src/lib.rs:302-323 | for any step of any reachable state: what a process believes to be stored stays stored if and only if the step is not a cancellation by others of the Turn it runs, with room for one more record |
| Cancellation.CancelledUnderProcess | crates/session/src/lib.rs:200-222 | a concrete run: a Turn is created and started, a process launches on it and believes what is stored, and then the Turn is cancelled under it |
| Cancellation.StaleIsCancelled | crates/session/src/lib.rs:302-323 | in every run, a process whose Turn's row is final has a cancelled Turn; no other end leaves a process behind |
| Cancellation.StaleWritesNothing | crates/store/src/database.rs:649-712 | whatever a process does after its Turn has ended, and wherever it stops, no log and no table changes, it can claim no input, and asking the store for anything makes it give up |
| Cancellation.EndedIsSilent | crates/store/src/database.rs:659-738 | after a Turn has ended no later run adds a record about it to any log, changes its row, or starts a process for it |
| Cancellation.OneCurrent | crates/session/src/lib.rs:372-401 | an Agent may have several processes, but at most one whose Turn is unfinished |
| RuntimeSafety.ActiveRow | crates/session/src/lib.rs:372-401 | the active Turn of a log has an unfinished row of its Agent, with the input the Turn was created with |
| RuntimeSafety.UsageIsExact | crates/store/src/database.rs:4060-4117 | in every run of store and loops together a Session's counter is, up to its width, exactly the usage reported outside rollouts plus the sum of what the rows of its Turns show |
| ExactUsage.GrowingIsExact | crates/store/src/database.rs:4060-4117 | in the store alone it is enough that no log reports less usage for a Turn than before: then counters are external usage plus last checkpointed usages |
| TurnCharges.BalancesAreRows | crates/store/src/database.rs:4060-4175 | what a Session's Turns last checkpointed is what their rows show, if status updates repeat it |
| EventSink.TurnEventSink.HistoryCheckpoint | crates/session/src/lib.rs:1227-1298 | the stored delta replayed over the old context is the history; a refused one leaves the sink as it was |
| EventSink.AnnouncedReplacement | crates/session/src/lib.rs:1153-1218 | after any trims and compactions whatever the history has become can be checkpointed, and a replacement is put down to a compaction if and only if there was one since the last checkpoint |
| EventSink.LoopAnnounces | crates/agent/src/lib.rs:439-482 | the loop announces a compaction, and a trim exactly when it changed the history |
| ArtifactPaging.FitArtifactEnd | crates/store/src/project_changes.rs:477-518 | the search ends at the last character boundary whose page fits, and fails if and only if not even one character fits |
| ArtifactPaging.SizeGrows | crates/store/src/project_changes.rs:427-455 | a longer page never encodes smaller, although its flag gets shorter |
| ArtifactPaging.PagesAreContent | crates/store/src/project_changes.rs:196-236 | following the continuations gives non-empty pages that all fit and together are exactly the content |
| ArtifactPaging.EscapedIsRead | crates/store/src/project_changes.rs:427-455 | the escaped text of a slice, read back, is the slice |
| ArtifactPaging.CostIsLength | crates/store/src/project_changes.rs:427-455 | the cost of a slice is the number of bytes of its escaped text |
| ArtifactPaging.FitsIsSent | crates/store/src/project_changes.rs:477-518 | a page fits if and only if its fixed part, its flag and its escaped slice are at most 1,044,480 bytes |
| ArtifactPaging.PagesAreText | crates/store/src/project_changes.rs:520-526 | every page of a text is a text: no character is torn |
| ChangeFeed.ChangesAfter | crates/store/src/database.rs:370-429 | the next changes behind a cursor, at most the read limit, or an error exactly when the cursor is ahead |
| ChangeFeed.LatestEntityChanges | crates/store/src/project_changes.rs:402-425 | exactly the newest non-excluded change of every entity of the batch, in order |
| ChangeFeed.ArtifactPage | crates/store/src/project_changes.rs:196-236 | the page is the longest slice that fits; none is made if and only if the offset is not a place in the text, no character fits, or the text ends behind a cursor ahead of the log |
| ChangeFeed.PageOfBatch | crates/store/src/project_changes.rs:108-140 | a batch is refused if and only if its first change can neither be sent whole nor paged; it is passed over if and only if all of it is excluded |
| ChangeFeed.ProjectSnapshotChanges | crates/store/src/project_changes.rs:86-145 | every change a page's cursor passes is reported, superseded by a later one or part of the artifact being paged; a page with more to come advances; one without leaves nothing behind; slices begin and go on where the cursor says; there is no page exactly when the cursor is ahead, the continuation is refused, or so is the first batch with something to report |
| ChangeFeed.ContinueArtifact | crates/store/src/project_changes.rs:179-236 | a continued artifact advances its offset or is finished, by the longest slice that fits; it fails if and only if the artifact is gone, has another hash, or its next page cannot be made |
| ChangeFeed.ContinuationsAreContent | crates/store/src/project_changes.rs:179-236 | the slices a reader gets of one artifact, following the feed's own cursors from the page that starts it to the first without a continuation, are together exactly its content |
| ChangeFeed.PassedIsAccounted | crates/store/src/project_changes.rs:86-145 | along any reading of a growing log every change the cursor has passed is delivered, superseded or being paged |
| ChangeFeed.DrainedIsComplete | crates/store/src/project_changes.rs:86-145 | when a page says there is no more, every non-excluded entity changed so far was delivered in a state that reflects its last change |
| Patch.FindSequence | crates/tools/src/patch.rs:398-422 | the leftmost place from the start on in the strictest mode that matches anywhere, or nowhere in any mode |
| Patch.ApplyToLines | crates/tools/src/patch.rs:355-396 | splicing succeeds if and only if every chunk has a place behind the one before, and replaces exactly those regions of the source |
| Patch.ApplyChunks | crates/tools/src/patch.rs:355-396 | the same for whole files: they are read by their lines, without the carriage return before a line feed, and written with a line feed behind every line |
| Patch.BestIsUnique | crates/tools/src/patch.rs:398-422 | there is only one such place |
| Patch.ModeIs | crates/tools/src/patch.rs:398-422 | the three modes: equal lines, lines equal up to white space behind them, lines equal up to white space around them |
| Patch.RegionIs | crates/tools/src/patch.rs:355-396 | a chunk replaces lines that stand for its old ones, behind the regions before it and behind a line that stands for its context, and at the end of the file if it says so |
| Patch.SpliceInStep | crates/tools/src/patch.rs:364-390 | splicing a growing vector of lines agrees with one pass over the source |
| Patch.NothingToApply | crates/tools/src/patch.rs:355-396 | without chunks a file keeps its lines, each without the one carriage return before its line feed, and a last line without a line feed as it is |
| Text.NormalizeLines | crates/tools/src/patch.rs:109-111 | normalizing keeps every line and takes exactly one carriage return from the end of each but the last, if there is one |
| Text.TrimIs | crates/tools/src/patch.rs:231-238 | trimming takes white space from both ends until there is none |
| PatchParser.ParsePatch | crates/tools/src/patch.rs:109-209 | the index walk, which moves on in every round, parses what the grammar on the remaining lines prescribes |
| PatchParser.ParseUpdateBody | crates/tools/src/patch.rs:148-197 | the loop over an update hunk with its open chunk does too |
| PatchParser.ParseRender | crates/tools/src/patch.rs:109-209 | parsing the rendering of any list of well-formed hunks gives back that list |
| PatchParser.ParseRenderReturns | crates/tools/src/patch.rs:109-111 | so is parsing a rendering whose lines end in carriage return and line feed |
| PatchGrammar.ParseIsLanguage | crates/tools/src/patch.rs:109-238 | parsing gives some hunks if and only if the lines of the patch are its first line, parts of the patch language, and its last line, and the hunks are what these parts mean |
| ChatStream.ChatStreamState.Consume | crates/model/src/openai_chat.rs:588-671 | consuming a chunk adds its fragments to the state, or fails the stream |
| ChatStream.ChatStreamState.Finish | crates/model/src/openai_chat.rs:673-712 | finishing yields reasoning, message and the calls by ascending index, if and only if the stream ended properly and every call has an id and a name |
| ChatStream.StateIsConcatenation | crates/model/src/openai_chat.rs:588-671 | text, reasoning and every call's name and arguments are the concatenation of all fragments, and the text is the concatenation of the streamed deltas |
| ChatStream.EndsWhenSaid | crates/model/src/openai_chat.rs:588-671 | a stream is consumed if and only if every chunk is good, and is over if and only if some chunk gives a reason to finish |
| ChatStream.StreamsItsText | crates/model/src/openai_chat.rs:588-671 | a chunk streams on exactly the text it carries, if there is any |
| ChatStream.UsageIsLast | crates/model/src/openai_chat.rs:588-604 | the usage of a stream is that of its last chunk with a usage, and none if no chunk has one |
| ChatStream.FinishesWhen | crates/model/src/openai_chat.rs:588-712 | a stream can be read and finished exactly if all its chunks are good, one of them ends it, and every call in it has an id and a name that are not blank |
| ChatStream.FinishGives | crates/model/src/openai_chat.rs:673-712 | what it then gives is all its reasoning, all its text, and by ascending index every call it has a fragment of, with the last id and all pieces of name and arguments |
| ChatStream.CuttingIsInvisible | crates/model/src/openai_chat.rs:588-712 | of two streams with the same content one finishes if and only if the other does, and with the same items, wherever their fragments were cut |
| ChatRequest.ChatMessages | crates/model/src/openai_chat.rs:326-404 | the messages say what the history says, in order: every text, call and output exactly once; all reasoning is kept, in order, if and only if no call follows some although the message it joins has reasoning already; it fails exactly when a call misses a field |
| ChatRequest.LostIfDropped | crates/model/src/openai_chat.rs:416-462 | what reaches the messages or still waits for one is all the reasoning of the history if and only if no call dropped any |
| ChatRequest.Renderer.AppendToolCall | crates/model/src/openai_chat.rs:416-462 | a call is added behind everything said so far, whichever message it joins |
| Transport.ContinuationIs | crates/model/src/openai.rs:710-759 | a suffix is sent exactly when the saved transcript is a proper prefix of an input with the same properties, and the two together are the input |
| Transport.StoreWebsocketState | crates/model/src/openai.rs:947-963 | saving keeps the table bounded, drops only what expired or was used least recently, and changes no other session |
| Transport.IncrementMeansFullInput | crates/model/src/openai.rs:527-538 | along any interleaving of requests, the provider's own transcript of the previous response followed by what was sent is the full input item by item, save that the input repeats the provider's items without id and status |
| Transport.OnlyCompletionSaves | crates/model/src/openai.rs:902-924 | in any run, what is saved for a session was saved by a completed response with an id to a request on it, and no later request has used it up |
| Transport.FailedSavesNothing | crates/model/src/openai.rs:934-945 | a request that fails saves nothing, and whatever is read for it afterwards counts for nothing |

## Left out

- SQL text, schema, triggers, SQLite and its journal: tables are maps, a transaction is one step that happens or does not; a SQLite failure after an append is a crash.
- Timestamps, identifiers' generation, hashes and provenance snapshots: ids are numbers assumed fresh where the program generates them, and `updated_at` is ignored.
- JSON: an encoder known by its laws (not empty, no raw newline, round trip, no decodable proper prefix), which are assumed of it, not proved; `SampleCodec` is not JSON.
- Session event rows, Step rows, Session effects, Projects, access levels, prompts, tool sets: the checks on them are not part of the modelled operations.
- Usage counters other than the four token counters and the hosted-search count; an Action's attempt counter of 32 bits is not cut off.
- Spawning child Agents, interrupting descendants and changing access: these operations are not modelled.
- A checkpoint that adds no usage rewrites the Session row unchanged instead of not touching it.
- An append that returns an I/O error is a crash; in the program the process goes on without rescanning the file.
- `AgentRuntime::run` as one asynchronous method: the loop is a state machine, with tool outcomes in any order and a crash between any two steps. What a tool or a model does is a parameter of the step.
- Starting a process is a step of its own after its Turn was set running (the program does both in one store job), and what its control plane says is a parameter of the loop's step; the store refuses inputs the Turn did not claim. `ControlPlane` derives it from the claimed inputs for a Session that is not paused; waiting while it is paused, and how Agents are named in the texts, are parameters.
- The order in which a claim returns its messages, and the order of calls that come both as items and as events of one sample.
- `reconcile_step_projections` and `finish_pending`: they write Step rows only.
- The sampling attempts that fail before the last one: only their usage and the recovery messages they add are modelled.
- The byte arithmetic of `usize`: token estimates and lengths are unbounded numbers.
- A change whose Session is deleted between two pages: what is excluded from a feed is the same for all pages of a reading.
- The error texts of the patch parser and the file system around it: which files a patch touches is not modelled.
- FileRefinement.OpenFilesAreClean: stated for logs shorter than 2^64 - 1 records, because a scan refuses longer ones.
- ChangeFeed.ContinuationsAreContent: the hash of an artifact is taken to stand for one content.
- Transport.IncrementMeansFullInput: the provider is assumed to use every response id once and to keep its transcripts.
- HTTP server, web UI, workflow crate, process execution, sandboxing, skills and prompts: not part of this model.
