# Reliability core of the Skyflo engine

Skyflo is an agent that changes infrastructure on a user's behalf. This project models the
part of it that has to be right when many things happen at once or when something fails in
the middle: the write-ahead journal that decides whether a change may be sent and whether it
worked, the agent graph on top of that journal, the verifier, what the user is shown, the
resumable event stream, the process registry of the tool server, and four smaller algorithms
(history repair, history windowing, memory version chains, usage metrics).

| module | what it covers |
|---|---|
| `Journal` | one journal row: the effect of every journal call, the row invariant, fencing, bounds |
| `JournalStore` | the journal service as a class over the table of rows |
| `Protocol` | every interleaving of executors, verifiers, recovery, Stop and crashes |
| `ToolExecutor` | one tool execution against the journal |
| `AgentGraph` | entry, gate, verification, model and final nodes over many turns |
| `JsonTree`, `Match`, `Manifest`, `Verifier`, `Polling` | manifests, the structural comparison, workload health, the Kubernetes check, the polling loop |
| `Recovery` | `verify` as a caller of the journal, and the background recovery worker |
| `Presentation` | the chat projection and the reliability badge |
| `EventStream`, `SseWire` | publish, replay, resume; the text form of events |
| `ProcessRegistry` | registration, cancellation tombstones, bounded retries |
| `History` | repair and windowing of chat history |
| `MemoryChain` | memory documents and their versions |
| `Analytics` | usage buckets and rows |

Conventions. HMAC and SHA-256 are datatype constructors: injective and otherwise opaque. JSON
and YAML are trees (`Json`); parsing and dumping are parameters. Times are parameters: real
seconds in the protocol, integer microseconds in the metrics. Each journal call is one atomic
step, as a row-locked transaction or a single UPDATE is; the lookup and the insert of
`prepare` are two steps, and so are the two UPDATEs of stop convergence. A model call may
return any tool calls, an external call may end in any way, and a crash may hit an executor
at any step.

## What the proofs found

Where the code does not do what its documentation or its name promises, the model follows the
code, shows the failing case, and proves when the promise does hold.

- A lease owner string that is used for two claims defeats fencing, whatever the string is
  (`Journal.ReusedOwnerDefeatsFencing`); the foreground verifier builds its string from the run id (graph.py), so a
  re-claim within one run can do this. With strings distinct per claim, fencing holds in every run
  (`Journal.StaleOwnerIsFenced`).
- The budget check comes before the lease check, so a claim can end a verification whose lease is live;
  the former owner is then fenced like any other (`Journal.LeaseLosers`).
- `prepare` looks rows up by operation id or key. An id that is presented under two keys is answered with the row of
  the other key, and the mutation can then be sent twice (`Protocol.TwoKeysForOneIdSendTwice`, for any two keys).
  Unless a lookup is answered that way, no mutation is sent twice (`Protocol.AtMostOneCallPerIntent`); and after any
  call, one more such lookup can send it again (`Protocol.OneAliasedLookupSendsAgain`).
- A recovery pass does not verify the rows it has just freed, because its own update makes them too recent for its
  selection (`Recovery.FreedRowWaits`). A later pass settles every overdue row if it does not fill its batch, and enough
  passes settle them in any case (`Recovery.ReconcileRepeatedly`).
- A live subscriber is not sent an event whose text does not decode, which it does if and only if its JSON is free of
  U+0085, U+2028 and U+2029 (`SseWire.DecodesExactlyWithoutUnicodeBreaks`), nor one that was overtaken
  (`EventStream.DeliveredExactlyInOrder`). An event that was skipped is received after all by the next resume, unless a
  later event was received before (`EventStream.SkippedEventIsRecovered`); then it is lost without notice and for good
  (`EventStream.PassedEventIsLost`). Publishes may overlap: as long as they are stored in the order of their ids, every
  decodable event arrives, once and in order (`EventStream.DecodableEventsArrive`), and if all decode, resume is lossless
  (`EventStream.LosslessResume`).
- A gap notice does not always mean a loss: a number that is taken and not stored can cause one
  (`EventStream.GapWithoutLoss`; `EventStream.GapExactly` says when).
- Delivered ids can go back: a resume re-sends the buffer's last event if it is terminal, even if it was overtaken
  when it was stored (`EventStream.StaleResendHappens`). They never decrease if and only if this does not happen
  (`EventStream.DeliveredIdsAscend`).
- The structural comparison is not reflexive. A tree matches itself, or an extension of itself, if and only if no item of
  a fully named list is shadowed by a later item of the same name that it does not match
  (`Match.MatchesItselfExactly`, `Match.ExtensionMatchesExactly`); one volume mounted twice is shadowed
  (`Match.DuplicateNameHidesItem`). So an applied manifest passes the check if and only if its workloads are healthy,
  its live specs are mappings, and nothing in them is shadowed (`Verifier.CheckAppliedManifest`).
- Windowing can drop the newest message. With room for a tail, it is kept if and only if no user message lies before
  the newest messages that fit and these are not all tool replies (`History.WindowKeepsNewestIff`). In the first case the
  oldest user message takes its place (`History.PrependingDropsNewest`), in the second the window can be empty
  (`History.ToolRepliesEmptyTheWindow`). A window of size zero keeps everything.
- `agent_remember` and `delete_document` read the document outside any lock, and `delete_document` writes its version
  and its row in two statements without a transaction. The history stays complete if and only if no version was written
  from an overtaken read and the last write left the row at the newest version, so no delete stopped half-way
  (`MemoryChain.HistoryCompleteIff`, `MemoryChain.HalfDeleteHidesVersion`); what is cut out is lost for good.
- A command that raises after its process was started unregisters the process and leaves it running. Such a process is
  the only one of a cancelled run that can outlive the cancellation unnoticed (`ProcessRegistry.NoProcessEscapes`,
  `ProcessRegistry.DroppedProcessEscapes`).
- Metrics rows lose messages exactly when the period ends before the start of its own bucket, which truncation toward
  zero makes possible before 1970 (`Analytics.ConservedExactly`, `Analytics.LostBefore1970`).

## Model

| member | source | states |
|---|---|---|
| `Journal.ApplyKeepsInv` | engine/src/api/services/mutation_journal.py:114-363 | every journal call keeps the row invariant (leases exactly while EXECUTING or VERIFYING; a verification begun only after a sent outcome with exactly one attempt; counters and version within what the statuses allow) and moves the row forward only |
| `Journal.EveryRunIsSound` | engine/src/api/services/mutation_journal.py:114-363 | over any sequence of calls from a new row, in any prefix and any continuation: the invariant, no step back in execution, settled verifications frozen, attempts at most MAX, version at most 2*MAX + 4 |
| `Journal.VersionBoundIsReached` | engine/src/api/services/mutation_journal.py:172-234 | the version bound is exact: for every supported row and every setting a run exists that reaches it and ends in NEEDS_REVIEW |
| `Journal.RecoveryPassSettles` | engine/src/api/services/mutation_journal.py:172-328 | from any sound sent row past the age limit without a live execution lease, one recovery pass and one claim by anyone settle the verification |
| `Journal.HolderIsLatestClaimant` | engine/src/api/services/mutation_journal.py:172-234 | while a row is being verified, its owner is whoever made the latest granted claim of the run |
| `Journal.OnlyLatestClaimantWrites` | engine/src/api/services/mutation_journal.py:172-293 | an outcome or release changes the row if and only if it is being verified and the writer is the latest granted claimant; under a live lease with budget left, a claim changes the row if and only if it repeats that owner |
| `Journal.StaleOwnerIsFenced` | engine/src/api/services/mutation_journal.py:236-293 | once an owner has lost its lease and makes no later claim, its late verdict or release never changes the row, whatever happened in between |
| `Journal.LeaseLosers` | engine/src/api/services/mutation_journal.py:172-363 | of all accepted calls on a row under verification, exactly a re-claim by the same owner within budget leaves the lease with it |
| `Journal.ReusedOwnerDefeatsFencing` | engine/src/api/services/mutation_journal.py:210-216 | distinct owner strings are needed: for every owner string, from every new row that calls for verification, a run leads to its lease, the lease is lost and claimed again under the same string, and the first claimant's late PASSED is written |
| `Journal.ExecutionLeaseLasts` | engine/src/api/services/mutation_journal.py:114-310 | after marking at `t`, a stale-execution recovery at `t'` changes the row if and only if `t' > t + MUTATION_LEASE_SECONDS` |
| `Journal.ExecutionLeaseProtects` | engine/src/api/services/mutation_journal.py:114-363 | over any calls up to the end of the lease, only an outcome or Stop takes a marked row out of EXECUTING; otherwise the row stays as it is |
| `Journal.VerificationLeaseLasts` | engine/src/api/services/mutation_journal.py:209-328 | a granted claim is recovered if and only if its lease has passed, and with budget left another owner can claim if and only if its end is reached |
| `Journal.VerdictWithinLeaseIsWritten` | engine/src/api/services/mutation_journal.py:172-328 | after a granted claim, whatever calls others make within the lease and the budget, the holder's verdict is written with its evidence |
| `Journal.WhatIsWritten` | engine/src/api/services/mutation_journal.py:114-363 | every accepted call writes its time, one version more, the statuses and the reason that belong to it, spelled out call by call |
| `Journal.ReviewMeansBudget` | engine/src/api/services/mutation_journal.py:172-234 | in every run, a row that needs review says that its verification budget ran out |
| `JournalStore.MutationJournal.Prepare` | engine/src/api/services/mutation_journal.py:40-112 | a new row is inserted exactly if no row has the id or the key, PREPARED, without attempts, pending if the plan is supported, with the ids, tool, digest of the arguments and key of the request; an error is returned only for a looked-up row of another intent, and always if all of them are; otherwise a looked-up row of the same intent is returned; keys stay unique and nothing else changes |
| `JournalStore.KeysAgree` | engine/src/api/services/mutation_journal.py:53-62 | two requests share a key if and only if both give the same one, or both give none and conversation, call, tool and arguments are the same |
| `JournalStore.IntentsAgree` | engine/src/api/services/mutation_journal.py:63-73 | a row and a request have the same intent if and only if tool and arguments are the same |
| `JournalStore.MutationJournal.MarkExecuting` | engine/src/api/services/mutation_journal.py:114-131 | only a PREPARED row starts executing, with its first attempt and a lease of the caller that ends the configured time from now; every other row is untouched and every other case is an error without effect |
| `JournalStore.MutationJournal.RecordExecution` | engine/src/api/services/mutation_journal.py:133-167 | an outcome is accepted only from EXECUTING and only if it is REPORTED_SUCCESS, FAILED, UNKNOWN or CANCELLED, and the row then says it; the lease is dropped and the table invariant kept |
| `JournalStore.MutationJournal.ClaimVerification` | engine/src/api/services/mutation_journal.py:172-234 | an error exactly unless the row was sent; the lease is granted if and only if the row is open, or verifying with a lease that is expired or the caller's own, and attempts and age are below their limits; it then runs from now for the larger of the configured time and timeout plus interval plus five, truncated |
| `JournalStore.MutationJournal.RecordVerification` | engine/src/api/services/mutation_journal.py:236-270 | a verdict is written if and only if it is PASSED, FAILED or INCONCLUSIVE, the row is being verified and the writer owns the lease; the row then has it with its evidence |
| `JournalStore.MutationJournal.AbandonVerification` | engine/src/api/services/mutation_journal.py:272-293 | the lease is released, and true returned, exactly if the row is being verified by the caller; otherwise nothing changes |
| `JournalStore.MutationJournal.RecoverStaleExecutions` | engine/src/api/services/mutation_journal.py:295-310 | afterwards every executing row is one that was left alone and whose lease has not run out |
| `JournalStore.MutationJournal.RecoverStaleVerifications` | engine/src/api/services/mutation_journal.py:312-328 | afterwards every verifying row is one that was left alone and whose lease has not run out |
| `JournalStore.MutationJournal.ConvergeStoppedRun` | engine/src/api/services/mutation_journal.py:330-363 | prepared rows of the run end cancelled, executing ones end unknown and pending, all others are unchanged |
| `Protocol.StepKeepsInv` | engine/src/api/services/tool_executor.py:545-701 | every step of any actor keeps the invariant that ties program counters, rows and the log of external calls together, and moves all rows forward |
| `Protocol.AtMostOneCallPerKey` | engine/src/api/services/tool_executor.py:545-701 | in every state of every interleaving each idempotency key has at most one row, every external call belongs to a row, and no two calls carry the same key |
| `Protocol.AtMostOneCallPerIntent` | engine/src/api/services/mutation_journal.py:52-112 | in every behaviour in which no lookup goes on with a row of another key, no two external calls were asked for under the same key, however often and from whichever checkpoint a tool call is replayed |
| `Protocol.TwoKeysForOneIdSendTwice` | engine/src/api/services/mutation_journal.py:64-73 | for any intents that present one operation id under two keys, a behaviour sends the second one's mutation twice |
| `Protocol.OneAliasedLookupSendsAgain` | engine/src/api/services/mutation_journal.py:64-73 | the condition is exact: every behaviour extends, by one lookup that is answered with the row of another key, to one that sends any wanted key's mutation once more, so a call already made is repeated |
| `Protocol.ReachableRowsAreSound` | engine/src/api/services/mutation_journal.py:114-363 | in every behaviour rows are never lost, only move forward, and satisfy the row invariant and bounds |
| `Protocol.StoppedBeforeSendIsNeverSent` | engine/src/api/services/mutation_journal.py:330-363 | an operation that is PREPARED when Stop converges on its run is cancelled and never sent, in every continuation |
| `Protocol.RowsAreRuns` | engine/src/api/services/mutation_journal.py:40-363 | every row of every reachable state is the result of a sequence of journal calls on a new row, so the single-row theorems hold for it |
| `Protocol.OnlyTheWantedIsSent` | engine/src/api/services/mutation_journal.py:64-107 | in every interleaving an executor that has a row to mark or send has one of its own tool and arguments |
| `Protocol.StepMakesItsCall` | engine/src/api/services/mutation_journal.py:40-363 | every step changes every existing row by exactly the journal call that it makes on it, if any |
| `ToolExecutor.Executor.SendMutation` | engine/src/api/services/tool_executor.py:626-878 | a prepared operation is sent once unless stamping fails, and only its own row changes; success leaves REPORTED_SUCCESS, a reported error and a cancellation in flight leave UNKNOWN, an exception and a failed stamp leave EXECUTING with its lease running; a block is handed back exactly after a success or a reported error, and asks for verification |
| `ToolExecutor.Executor.Proceed` | engine/src/api/services/tool_executor.py:570-640 | a prepared row is sent as above; any other is answered from the journal without a change, with a block exactly if it was sent, which asks for verification if and only if the row says PENDING, VERIFYING or INCONCLUSIVE |
| `ToolExecutor.Executor.Execute` | engine/src/api/services/tool_executor.py:495-701 | approval is asked for exactly when it is needed and undecided; nothing is journalled or sent unless permitted; a controlled call is refused only for a row of another intent, and otherwise ends as sending or answering the row that was found or newly made |
| `AgentGraph.RunPending` | engine/src/api/agent/graph.py:391-495 | the loop stops at the first call that needs a decision and has none; exactly the calls before it that are not refused, load no toolset and are approved if need be are run; for every operation id the newest block of a call that ran is recorded, or else exactly the entries there were; the flag is set if and only if it was required before or by such a block |
| `AgentGraph.GateNode` | engine/src/api/agent/graph.py:312-511 | the same for the node: the calls from the stop on stay pending, approval is awaited exactly if some do, the newest block of every id is recorded, and the flag is raised exactly by an operation or a block that requires verification |
| `AgentGraph.GateConservation` | engine/src/api/agent/graph.py:391-495 | over any chain of suspensions and resumes the pending calls are the end of the original batch and the replies are, in order, one per call before it |
| `AgentGraph.RunsAreApproved` | engine/src/api/services/tool_executor.py:495-543 | in every link of such a chain a call that needs approval runs only with a positive decision for its id, and is a call of the original batch |
| `AgentGraph.VerificationNode` | engine/src/api/agent/graph.py:513-687 | afterwards an operation that was checked requires verification if and only if the last result for its id is PENDING, VERIFYING or INCONCLUSIVE; the flag says whether any does; the run is blocked, with an error, if and only if some result is not PASSED; nothing else changes |
| `AgentGraph.AllPassedClears` | engine/src/api/agent/graph.py:525-645 | writing back all-passed results clears every operation that required verification, even with repeated operation ids |
| `AgentGraph.MoveKeepsInv` | engine/src/api/agent/graph.py:64-102 | every node, route and aborted run keeps the invariant of the whole graph |
| `AgentGraph.NoUnverifiedSuccess` | engine/src/api/agent/graph.py:64-102 | across any number of turns, resumes and aborts the model is never entered while a recorded operation requires verification, and a run that finishes without error and without awaiting approval leaves none |
| `AgentGraph.OpenUntilSettled` | engine/src/api/agent/graph.py:391-645 | over any trace, an operation that requires verification stops doing so only by a last result of PASSED, FAILED, NEEDS_REVIEW or NOT_REQUIRED for its id, or by a later block that names it |
| `AgentGraph.NextNode` | engine/src/api/agent/graph.py:64-102 | which node follows each node: pending calls go to the gate, a raised flag to verification, an unblocked verification to the model, and so on |
| `Match.MatchMeansCoverage` | engine/src/api/services/mutation_verifier.py:86-107 | the recursive comparison holds if and only if everything addressable in the desired tree (by key, by position, by name in named lists) is present and agrees in the live tree |
| `Match.MatchSurvivesAdditions` | engine/src/api/services/mutation_verifier.py:86-107 | a match stays a match when the live tree gains keys and items at any depth, if names stay distinct in the lists where the desired tree looks items up by name |
| `Match.MatchesItself` | engine/src/api/services/mutation_verifier.py:86-107 | the comparison is reflexive on trees whose fully named lists have distinct names; other lists may repeat names |
| `Match.MatchesItselfExactly` | engine/src/api/services/mutation_verifier.py:86-107 | a tree matches itself if and only if no named item in it is shadowed |
| `Match.ExtensionMatchesExactly` | engine/src/api/services/mutation_verifier.py:86-107 | a tree matches an extension of itself if and only if no item of its fully named lists is hidden there by a later item of the same name that it does not match |
| `Match.RepeatedNameMatches` | engine/src/api/services/mutation_verifier.py:94-104 | a list of two items with one name matches itself if and only if both items match the second |
| `Match.DuplicateNameHidesItem` | engine/src/api/services/mutation_verifier.py:94-104 | any volume mounted at two paths is such a list that does not match itself |
| `JsonTree.ScalarEqMeans` | engine/src/api/services/mutation_verifier.py:105-107 | scalars are compared as Python does: texts and nulls equal themselves alone, and true and false are one and zero |
| `Manifest.ParseManifestTargets` | engine/src/api/services/mutation_utils.py:72-95 | one target for each mapping document with a kind and a name, in order, with these, its metadata's namespace or else the default, and its spec as desired if and only if it is a mapping and the kind is not a secret in any case |
| `Manifest.AttachOperationMetadata` | engine/src/api/services/mutation_utils.py:102-130 | fails if and only if some document is a mapping that cannot carry the markers; otherwise every mapping document gains the two markers among its annotations and keeps all else, and the others are dropped |
| `Manifest.StampKeepsTargets` | engine/src/api/services/mutation_utils.py:72-130 | the targets of the stamped manifest are the targets of the manifest, so what is planned is what is stamped |
| `Verifier.HealthyMeansRolledOut` | engine/src/api/services/mutation_verifier.py:110-176 | the early exits and last-entry-wins condition lookup amount, for each workload kind, to the declarative statement that its rollout has finished |
| `Verifier.KindIgnoresCase` | engine/src/api/services/mutation_verifier.py:110-115 | workload kinds are told apart without regard to case |
| `Verifier.TerminalMeansHopeless` | engine/src/api/services/mutation_verifier.py:110-176 | waiting is pointless exactly for a deployment past its progress deadline, a failed pod and a failed job |
| `Verifier.CheckTarget` | engine/src/api/services/mutation_verifier.py:296-362 | one answer raises exactly when it is malformed; otherwise its finding says exactly whether the target passes, is committed, is missing, or makes waiting pointless |
| `Verifier.VerifyKubernetes` | engine/src/api/services/mutation_verifier.py:287-374 | the check passes if and only if there are targets and each carries both markers, covers the desired spec and is healthy; terminal and partial-commit are characterised the same way; a pass is never terminal or partial |
| `Verifier.StampedDocumentPasses` | engine/src/api/services/mutation_verifier.py:287-374 | a live object that extends the stamped document passes the target planned from the unstamped one if and only if it is healthy, its spec is a mapping, and nothing of the desired spec is shadowed in it |
| `Verifier.DefaultsAreComparable` | engine/src/api/services/mutation_verifier.py:336-340 | nothing is shadowed when the fully named lists of the desired spec have distinct names in the live one, whatever the rest of the object repeats |
| `Verifier.CheckAppliedManifest` | engine/src/api/services/mutation_verifier.py:287-374 | completeness: if the cluster holds the stamped manifest extended by additions, then plan, read and check end in a pass if and only if every target is healthy and comparable; and a pass means that for every document with kind and name the object at its place carries the markers, covers the document's own spec and is healthy |
| `Verifier.VerifyManifest` | engine/src/api/services/mutation_verifier.py:287-374 | soundness, for any cluster: plan, read and check end in a pass if and only if there is a document with kind and name, and for each of them the object at its place carries the markers, covers its spec and is healthy |
| `Verifier.NonMappingSpecNeverPasses` | engine/src/api/services/mutation_verifier.py:335-345 | a target whose live spec is not a mapping never passes |
| `Polling.LeaseOutlastsLoop` | engine/src/api/services/mutation_journal.py:221-231 | despite integer truncation the lease exceeds timeout plus interval plus four seconds, for every valid setting |
| `Polling.PollUntilVerdict` | engine/src/api/services/mutation_verifier.py:223-261 | the loop ends; it passes exactly if its last probe passed; it fails exactly if that probe was terminal or showed a partial commit; otherwise it is inconclusive; it gives up only after the deadline; the evidence is the probe's or says why it gave up; and if start delay plus one probe take at most four seconds it ends before its own lease does |
| `Recovery.VerifyOutcome` | engine/src/api/services/mutation_verifier.py:184-285 | claiming and recording writes the verdict exactly under a granted claim and never touches the execution status |
| `Recovery.Verify` | engine/src/api/services/mutation_verifier.py:184-285 | undisturbed, the whole call is one claim and, if it was granted, the verdict that polling came to, with its evidence, on one row; it reports the status the row then has, or nothing if the row is missing or was not sent |
| `Recovery.ReconcileOnce` | engine/src/api/services/mutation_verifier.py:579-626 | every row ends as the two bulk updates leave it or, if picked, verified from there with the verdict that its probes came to; only open, free, old enough rows are picked, at most a batch, and if fewer then no candidate is left |
| `Recovery.ReconcileRepeatedly` | engine/src/api/services/mutation_verifier.py:564-626 | over any number of passes after the grace period of the first, every sent row that was past the age limit without a live lease is settled as soon as one later pass does not fill its batch, and at the latest when (passes - 1) * batch exceeds rows * (MAX + 1) |
| `Recovery.FirstPass` | engine/src/api/services/mutation_verifier.py:579-626 | a pass settles an overdue row or leaves it open, free of leases and no newer than the pass's own updates |
| `Recovery.LaterPass` | engine/src/api/services/mutation_verifier.py:579-626 | a later pass leaves such a row alone or picks and settles it, and picks it if it gets through its candidates |
| `Recovery.PickingIsBounded` | engine/src/api/services/mutation_verifier.py:579-626 | being picked uses up one of at most MAX + 1 chances of a row, and no pass gives one back |
| `Recovery.FreedRowWaits` | engine/src/api/services/mutation_verifier.py:589-601 | a row freed by a pass within the grace period of its selection is not verified by that pass |
| `Presentation.ProjectMutationOperations` | engine/src/api/services/conversation_persistence.py:33-120 | every tool segment shows what the last operation of its call id says (status, tone of the result and note, for each pair of statuses), and nothing else changes |
| `Presentation.ProjectionIsIdempotent` | engine/src/api/services/conversation_persistence.py:33-120 | projecting twice is projecting once, for every history and journal |
| `Presentation.OverlayTellsTheTruth` | engine/src/api/services/conversation_persistence.py:33-120 | the chat status and note for every pair of execution and verification status, with the partial commit told apart |
| `Presentation.BadgeTellsTheTruth` | ui/src/lib/reliabilityPresentation.ts:29-110 | the badge for every pair of statuses and every evidence |
| `Presentation.ChatTellsTheTruth` | ui/src/lib/reliabilityPresentation.ts:29-110 | in every reachable protocol state, for an operation past PREPARED with a unique call id, chat and badge say what the journal says; completed and success exactly when it says PASSED |
| `EventStream.Channel.Publish` | engine/src/api/endpoints/agent.py:174-197 | publishes that do not overlap number events consecutively and keep the buffer the last thousand of them |
| `EventStream.Channel.Replay` | engine/src/api/endpoints/agent.py:226-290 | a resume sends exactly what was published after the client's last event, once each, in order; it reports a gap instead if and only if that is more than the thousand events of the buffer |
| `EventStream.NoGapMeansNoLoss` | engine/src/api/endpoints/agent.py:146-152 | whatever the client lacks and the buffer has dropped is reported as a gap |
| `EventStream.StepKeepsInv` | engine/src/api/endpoints/agent.py:174-346 | every step of any number of overlapping publishers that store in id order, of the server and of the client keeps the stream invariant, whether events decode or not; positions are passed by only by taking a live event, and never taken up again |
| `EventStream.DecodableEventsArrive` | engine/src/api/endpoints/agent.py:211-346 | over any interleaving and any number of disconnects the log's ids grow, what was received is the log up to some place without some undecodable events, only a terminal event is ever repeated, every decodable event before a received one was received, and on a live stream with nothing queued every decodable event was |
| `EventStream.LosslessResume` | engine/src/api/endpoints/agent.py:211-346 | if all stored events decode, the client has a prefix of the log, and on a live stream with nothing queued the whole log |
| `EventStream.SkippedEventIsRecovered` | engine/src/api/endpoints/agent.py:271-302 | the next resume that gets through its replay delivers every event, decodable or not, from the client's place on |
| `EventStream.PassedEventIsLost` | engine/src/api/endpoints/agent.py:333-337 | once a later event was received, an event that was skipped is never received |
| `EventStream.GapExactly` | engine/src/api/endpoints/agent.py:146-152 | a gap is reported if and only if something that the client lacks has left the buffer, or its place is where the buffer starts and the next number was taken but not stored there |
| `EventStream.GapWithoutLoss` | engine/src/api/endpoints/agent.py:146-152 | a run reports a gap although nothing was ever stored |
| `EventStream.ResumeExactly` | engine/src/api/endpoints/agent.py:226-302 | a resume that nothing disturbs reports a gap, exactly if what the client lacks goes back beyond the last thousand events or its next number is missing at their start; otherwise it delivers everything stored after the client's place, or a terminal event that it already has once more, and ends if the last stored event is terminal, else is live |
| `EventStream.DeliveredExactlyInOrder` | engine/src/api/endpoints/agent.py:326-339 | a live client with nothing queued gets the next stored event if and only if it decodes and its id exceeds those of all events up to the last one it received, and otherwise nothing, without a gap notice; the connection ends exactly by a terminal event so delivered |
| `EventStream.DeliveredIdsAscend` | engine/src/api/endpoints/agent.py:264-302 | whatever publishers do, delivered ids never decrease if and only if no resume re-sends an overtaken terminal event |
| `EventStream.StaleResendHappens` | engine/src/api/endpoints/agent.py:286-302 | such a re-send is reachable: a run delivers event 2 and then event 1 |
| `EventStream.InOrderIsNeverStale` | engine/src/api/endpoints/agent.py:286-302 | it does not happen when events are stored in id order |
| `EventStream.UndecodableEventIsLost` | engine/src/api/endpoints/agent.py:122-143 | a live client skips an event that does not decode and takes the next one, without a gap notice |
| `EventStream.OvertakingPublishIsLost` | engine/src/api/endpoints/agent.py:174-197 | a live client drops the earlier of two overtaking publishes, without a gap notice |
| `SseWire.DecodePublishedEvent` | engine/src/api/endpoints/agent.py:122-143 | a text decodes if and only if no id or data line is unreadable and it has an id line and a data line with an object; the last line of each kind counts, and the event name is "message" without one; `strip` and `int` are as Python has them |
| `SseWire.SplitLinesJoin` | engine/src/api/endpoints/agent.py:126 | lines hold no break, and with the breaks after them they are the text |
| `SseWire.StripIs` | engine/src/api/endpoints/agent.py:127-132 | stripping removes the blanks on both sides and no more |
| `SseWire.DecodesExactlyWithoutUnicodeBreaks` | engine/src/api/endpoints/agent.py:84-143 | a formatted event decodes to itself if its JSON text is free of U+0085, U+2028 and U+2029, and is given up otherwise |
| `ProcessRegistry.Registry.Register` | mcp/utils/commands.py:117-137 | the locked operation is the register step of the transition system: expired tombstones are pruned first, and a process is registered exactly if its run has no tombstone left |
| `ProcessRegistry.Registry.Unregister` | mcp/utils/commands.py:139-149 | the locked operation is the unregister step: exactly that process leaves the registry of its run |
| `ProcessRegistry.Registry.CancelRun` | mcp/utils/commands.py:180-187 | the locked part is the cancel step: the tombstone is planted and every process registered for the run is collected, with its termination owed |
| `ProcessRegistry.Registry.CancelRunProcesses` | mcp/utils/commands.py:178-201 | undisturbed, every process that was registered for the run is dead afterwards |
| `ProcessRegistry.NoProcessEscapes` | mcp/utils/commands.py:117-201 | in every interleaving, until the tombstone expires, what is registered for a cancelled run was collected by a cancellation, a later registration of the run is refused, and whatever is alive of the run is about to register, has its termination under way, or was dropped alive when its attempt raised |
| `ProcessRegistry.DroppedProcessEscapes` | mcp/utils/commands.py:327-332 | a run of the registry in which a process dropped alive outlives the cancellation with no termination owed |
| `ProcessRegistry.NothingSurvivesCancellation` | mcp/utils/commands.py:151-201 | in every interleaving, once no termination is outstanding, whatever was ever refused or collected is dead |
| `ProcessRegistry.TombstoneStays` | mcp/utils/commands.py:117-137 | a tombstone survives every step until its time is over |
| `ProcessRegistry.RefusedForGood` | mcp/utils/commands.py:128-137 | a refused process never becomes registered |
| `ProcessRegistry.TryCommand` | mcp/utils/commands.py:261-351 | the loop makes another attempt exactly after a retryable failure of a retry-safe command, up to the limit; it ends at once by success, refusal or interruption; spawned and left processes are counted exactly |
| `ProcessRegistry.RunCommand` | mcp/utils/commands.py:233-382 | attempts are bounded and go on exactly after retryable failures; the fallback is run exactly if there is one, the command is retry-safe, and the last attempt did not succeed, get refused or get interrupted; the processes spawned and those left running are counted exactly; success, stop and abort are characterised by the last attempt and the fallback; a command that is not retry-safe is spawned at most once, any other at most max plus one times |
| `History.SanitizeMessages` | engine/src/api/utils/sanitization.py:74-133 | the two passes compute the repaired history, which is sound and a fixed point of the repair |
| `History.SanitizeKeepsExactly` | engine/src/api/utils/sanitization.py:74-133 | the repair keeps, in order, exactly the messages that are no tool reply and the replies to a call that is made before them and answered in a run; each with its content or an empty one, and of an assistant's calls exactly the answered ones, in order |
| `History.CallIdsMean` | engine/src/api/utils/sanitization.py:74-100 | an id is called by a message exactly if the message is an assistant's, the id is not empty, and some call has it |
| `History.SanitizeIsIdempotent` | engine/src/api/utils/sanitization.py:74-133 | repairing twice is repairing once, for every message list |
| `History.SanitizeIsSound` | engine/src/api/utils/sanitization.py:74-133 | every kept reply refers to an earlier kept call and every kept call is answered in the run after an assistant message that makes it |
| `History.RepliesStayInTheirRun` | engine/src/api/utils/sanitization.py:74-133 | if no id is answered twice, every kept reply lies in the unbroken run after its own call |
| `History.RepairsExactlyTheBroken` | engine/src/api/utils/sanitization.py:74-133 | a history is left unchanged if and only if it has contents, no empty or unanswered calls, and no orphan replies |
| `History.WindowTail` | engine/src/api/utils/sanitization.py:227-245 | the tail is the newest messages that fit less leading tool replies, or, if the oldest user message is older, that message followed by them less the newest |
| `History.PickIsInOrder` | engine/src/api/utils/sanitization.py:207-213 | the system messages, and the others, are picked once each and in order |
| `History.WindowMessages` | engine/src/api/utils/sanitization.py:202-267 | short histories are unchanged; the result never exceeds a window of at least one; with room for a tail it is the system messages followed by that tail, otherwise a plain cut |
| `History.WindowIsSound` | engine/src/api/utils/sanitization.py:202-267 | with room for a tail, all system messages are kept in order, the oldest user message is kept, and the first other message is not a tool reply |
| `History.WindowKeepsNewestIff` | engine/src/api/utils/sanitization.py:227-245 | with room for a tail, the newest non-system message ends the window if no user message is cut off and some message that fits is no tool reply; otherwise only older messages are kept |
| `History.PlainCutKeepsNewest` | engine/src/api/utils/sanitization.py:224-225 | without room for a tail, the newest message ends the window |
| `History.PrependingDropsNewest` | engine/src/api/utils/sanitization.py:233-241 | a question, an answer and a new question, windowed to two, leave the first question alone |
| `History.ToolRepliesEmptyTheWindow` | engine/src/api/utils/sanitization.py:242-243 | a call and its two replies, windowed to two, leave nothing |
| `MemoryChain.MemoryService.CreateDocument` | engine/src/api/memory/service.py:100-145 | fails exactly if a live document is at the path, without a change; otherwise the document appears with its text and digest, and one create version without predecessor, and no other document changes |
| `MemoryChain.MemoryService.UpdateDocument` | engine/src/api/memory/service.py:151-213 | succeeds exactly if the document is live and its digest is the expected one, and reports a conflict exactly if it is live with another; it then has the new text, or the old one if none is given, its digest, and one more update version that links to the last; nothing else changes |
| `MemoryChain.MemoryService.PatchDocument` | engine/src/api/memory/service.py:219-272 | succeeds exactly if the document is live and its digest at commit is the expected one, and reports a conflict exactly if it is live with another; it then has the patched text, its digest, and one more patch version that links to the last; nothing else changes |
| `MemoryChain.MemoryService.AgentRemember` | engine/src/api/memory/service.py:418-522 | taken as one step: creates when nothing live is at the path, else rewrites the only document there, unless the expected digest is stale; one version with the text is appended and no other document changes |
| `MemoryChain.MemoryService.DeleteDocument` | engine/src/api/memory/service.py:278-302 | taken as one step: a live document keeps its text, is closed and gains a delete version without text that links to the last; any other is left alone |
| `MemoryChain.MemoryService.RedactVersion` | engine/src/api/memory/service.py:308-325 | the version loses its text and nothing else |
| `MemoryChain.WriteKeepsInv` | engine/src/api/memory/service.py:100-325 | every write keeps the chain of every document, the digests, and the uniqueness of live paths |
| `MemoryChain.LogIsAppendOnly` | engine/src/api/memory/service.py:100-325 | over any sequence of writes a version keeps its document, operation and link, and loses its text if and only if it was redacted |
| `MemoryChain.HistoryIsComplete` | engine/src/api/memory/repository.py:183-209 | under any sequence of atomic writes the links from the current version visit all versions of the document exactly once, newest first, ending at its only create version, and digest and current text are the document's |
| `MemoryChain.StaleCommitKeepsChainIff` | engine/src/api/memory/service.py:424-461 | a commit of agent_remember from an earlier read keeps the history complete if and only if no write moved the document in between |
| `MemoryChain.HistoryCompleteIff` | engine/src/api/memory/service.py:278-302 | over any sequence of unlocked commits and of the two statements of deletes, each from any earlier read, the history is complete at the end if and only if it was in one line before, no version came from an overtaken read, and the last write left the row at the newest version |
| `MemoryChain.HalfDeleteHidesVersion` | engine/src/api/memory/service.py:283-302 | from every sound state a delete that stops after its first statement makes the history incomplete, and its second statement completes it |
| `Analytics.ResolvePeriod` | engine/src/api/endpoints/analytics.py:172-213 | a resolved period does not end before it starts, and in date mode it starts at midnight |
| `Analytics.PeriodHolds` | engine/src/api/endpoints/analytics.py:172-213 | which moments a period holds: those between the times asked for, all those of the days asked for, or those up to now of the last days; it is refused exactly if it would start after its end |
| `Analytics.SelectBucketSize` | engine/src/api/endpoints/analytics.py:129-141 | the six widths with the span from which each is too small; up to 90 days, a span is at most 90 bucket widths |
| `Analytics.Accumulate` | engine/src/api/endpoints/analytics.py:228-317 | the totals are the sum of all counted messages and the map holds, for every time, the sum of its bucket's messages |
| `Analytics.RowsAddUp` | engine/src/api/endpoints/analytics.py:221-362 | summing all statistics over the rows gives the sum over the messages when the period's end does not fall before its own bucket |
| `Analytics.ConservedExactly` | engine/src/api/endpoints/analytics.py:144-153 | rows report exactly the totals for every set of messages if and only if the end of the period is not before the start of its bucket |
| `Analytics.ConservedSince1970` | engine/src/api/endpoints/analytics.py:144-153 | periods that end in 1970 or later always conserve |
| `Analytics.LostBefore1970` | engine/src/api/endpoints/analytics.py:144-153 | a concrete earlier period has no row at all and loses its messages |
| `Analytics.EmitByTime` | engine/src/api/endpoints/analytics.py:343-351 | one row per bucket from that of the start to the end, in order, each with its bucket's figures; at most 91 for at most 90 days |
| `Analytics.EmitByDate` | engine/src/api/endpoints/analytics.py:352-365 | one row per calendar day of the period, which are exactly its buckets |
| `Analytics.GetMetrics` | engine/src/api/endpoints/analytics.py:161-365 | rejects exactly reversed periods; the rows tile the period; every row, and the report, has the sum of each figure over the messages of its bucket, or of the period, and as averages the sums over the counts, if any; the rows add up to the reported figures, in date and datetime mode |
| `Analytics.ContributionIsMeasured` | engine/src/api/endpoints/analytics.py:260-317 | what one message adds to each of the nine statistics: unusable costs and times, and negative counts, add nothing, and the response time falls back to the thinking segments |

## Left out

- Model node, prompts, streaming, titles: foreign calls; the model node chooses pending tools arbitrarily.
- MCP, Redis and Postgres clients: atomic steps with arbitrary results, errors and delays.
- Helm verification: shares the comparison and health results and adds branches only.
- The tool wrappers, the Kubernetes controller, migrations, UI components other than the badge: plumbing.
- Secret scanning, redaction, authentication, roles, memory policy and safety checks, memory source references.
- The recovery worker's loop around its passes, its callback for reconciled operations, and an operation that disappears or fails while a pass runs: a pass is undisturbed in `Recovery`, and interleaved call by call in `Protocol`.
- Audit fields of a journal row (start and finish times, redacted arguments, results, approvals) and the counts that the bulk updates return.
- `public_summary` of the journal and the mapping of run and stream states in the UI: easy projections.
- Marking active chat segments cancelled and updating a single segment's status: easy relatives of the projection.
- Expiry of the stream's Redis keys: the stream theorems assume that keys do not expire.
- YAML, JSON and HMAC internals; `str(v or "").strip()` is the parameter `text`, and only ASCII letters are lower-cased.
- Numeric strings where a count is expected are taken as malformed, and floating point is exact: costs are reals, and `total_seconds` does not round.
- A named list item whose name is itself a list or mapping: Python raises, the model reports no match.
- The API version of a target and the read command are not part of a target's identity.
- `_is_retry_safe` and `_classify_error`: their verdicts are parameters of `RunCommand`.
- Sleeping longer than the interval in the polling loop counts into the next attempt.
- The gate's outer error path drops the pending calls without replies, also for a Stop raised inside it; it is a move of the graph (`FailGate`), outside gate conservation.
- Version ids of memory documents are positions in creation order instead of UUIDs; titles, tags, entities and confidence are not modelled.
- Approvals and rejections counted in the metrics, and the fallback that finds usage in the conversation text.
- `MemoryChain.MemoryService.AgentRemember`: one atomic step, although the source reads outside its transaction; `HistoryCompleteIff` says what that costs.
- `MemoryChain.MemoryService.DeleteDocument`: one atomic step, although the source takes no lock and uses two statements; `HistoryCompleteIff` has them apart.
- `EventStream.Channel.Publish`: one step here, although the source increments and stores in two; the interleaved model has both steps.
- `JournalStore.MutationJournal.Prepare`: one step here, two in `Protocol`.
- `SseWire.DecodesExactlyWithoutUnicodeBreaks`: event names are single lines without surrounding blanks, as all published ones are; a name with blanks around it comes back shortened.
- `ProcessRegistry.NoProcessEscapes`: that a termination under way ends the process is the meaning of the terminate step, not a property of signals; a `_terminate_process` that raises is not modelled.
