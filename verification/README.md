# Research loops, modelled in Dafny

A research controller keeps one durable state that several stations, operator calls and restarts change through atomic
transactions. This project models its core and proves what holds along every run of it:

- `ControlRecords`, `Scheduler`, `Compaction`, `Dealing`, `ControlStore`: the lease scheduler and the work ledger.
- `Checkpoints`, `Episodes`, `CheckpointService`: research accounting, the review machine and its delegate budget, operator decisions.
- `Effects`: what each transaction does, said about the states before and after; when it is refused.
- `Ledger`, `LedgerSteps`, `Reviews`, `ReviewSteps`, `EpisodeSteps`, `OperatorSteps`, `Runs`, `Safety`, `Answers`, `Reachability`, `Limits`:
  the invariants, one lemma for each transaction, whole runs, what follows from them, and what fails.
- `Controller`: the store object, any of whose transactions keeps the invariant of the run theorems.
- `Contracts`, `Publication`, `Bystanders`, `PublicationSafety`, `PublicationTheorems`, `Replacement`, `Overtaken`: publishing an
  operator's decision to the contract files, with callers that may die between any two steps; when one call of a request replaces
  the intent of another, and what that costs.
- `SemanticState`, `GuardedWrites`, `Ordering`: the completion gate, the projections behind the liveness signature and the completion
  lock, and the writes an agent is allowed.
- `Dependencies`, `Sync`, `Cascade`, `Saturation`: the queue's cycle search, manifest sync, the unmanaged claim, blockers and completion
  by saturation.
- `Elapsed`: the elapsed-time union of the throughput report. `Common`: options, lists, chains of states.

A transaction is one atomic step and an exception inside it leaves the state alone. Code that changes records in place is a class
(`ControlStore.Store`, `Contracts.TopicFiles`, `GuardedWrites.StateFile`, `Sync.QueueStore`, `Cascade.LegacyQueue`,
`Saturation.TopicRecord`, `Dependencies.CycleFinder`), whose methods are proved against functions on values; the theorems are about
those functions. Time, new ids and files are parameters. Hashes are injective, so a hash is
its content. `History` in the state records what was minted, counted, issued, concluded and replaced, only to state
whole-run properties.

A run (`Runs.Execution`) starts in an empty store and takes any transactions in any order, each as its callers keep to
(`Runs.Allowed`): claim times increase and new ids are fresh; a completion is reported for its own lease's topic and station; a
checkpoint is started, finished or failed by the lease that serves it, and started with the completed review it was offered; a failing
run that knows its review knows the topic's active one; and an orphan is parked while its lease still sits on its station. A publication
trace (`PublicationTheorems.Trace`) adds callers with any request id, payload and expected revision, crashes, the publication lock,
files, journals and agent writes.

`hide` in a proof, or as `requires hide ...; true` at the head of a contract, only keeps definitions that are not needed there from the
solver; it changes no meaning.

## Model

| member | source | states |
|---|---|---|
| `Runs.StepKeepsGood` | research_loops/control_store.py:236-258 | Every controller transaction, called as its callers keep to (`Allowed`), keeps every invariant of the work ledger and of the review machine, whatever the state it starts in. |
| `Runs.RunSafe` | research_loops/control_store.py:236-258 | Every state of every run of the controller, any transactions in any order, satisfies those invariants. |
| `Safety.LeaseExclusion` | research_loops/control_store.py:672-726 | Along every run no topic is current on two stations; a current lease carries its station's number and generation counter; a run on record is `started` only while its lease is current, and agrees with it on topic and generation. |
| `Safety.GenerationsIncrease` | research_loops/control_store.py:713-716 | Two leases minted at one station, with anything in between, have strictly increasing generations. |
| `Safety.CountedOnce` | research_loops/checkpoints/service.py:143-213 | Along every run each lease is counted at most once; a topic's completed count is the number of its accepted completions, their ordinals are exactly 1, 2, 3, ..., and the next ordinal is one more than the count. |
| `Safety.OrdinalsContiguous` | research_loops/checkpoints/service.py:165-177 | The ordinals handed out for a topic, in order, are 1 to the number of its completions. |
| `Safety.CountedReplays` | research_loops/checkpoints/service.py:143-163 | In every reachable state, replaying a completion that was counted changes nothing and returns its stored ordinal while its run is on record, and is refused once the run was pruned. |
| `Safety.CountedForGood` | research_loops/checkpoints/service.py:143-163 | The same at every later moment of the run: nothing that happens afterwards, compaction included, makes a counted completion count again. |
| `Safety.NothingLost` | research_loops/control_store.py:363-391 | Along every run, runs that a seat holds or an episode refers to are on record, and per topic live runs plus the tombstone count equals the number of leases ever minted. |
| `Safety.NoResearchDuringReview` | research_loops/control_store.py:633-669 | A claim made while a review of the topic is open mints a checkpoint lease and only for a review that is due, running or waiting; never a research lease. |
| `Safety.ProposalsCertified` | research_loops/checkpoints/service.py:623-657 | Every proposal ever issued belongs to a review of its topic with exactly one successful recorded counter; proposals issued since the last operator reset plus the remaining allowance is 2. |
| `Safety.CompletedReviewed` | research_loops/checkpoints/service.py:356-362 | A review that completed has exactly one successful counter of its own, or reuses a completed review of the same topic over the same material. |
| `Safety.BudgetConserved` | research_loops/checkpoints/service.py:332-383 | In every reachable review, invocations + launches left + refunds left = 6 and exchanges left + unrefunded responses = 1; at most one invocation is reserved; each role succeeds at most once; assessment implies response implies counter. |
| `Answers.RefundsBounded` | research_loops/checkpoints/service.py:390-429 | In every reachable review the refunded invocations are among those that ended with exit code 70 or 124; they number two, or all of those if fewer; and refunds left plus refunded invocations is two. |
| `Safety.TriggersCounted` | research_loops/checkpoints/service.py:178-208 | While the policy has not been changed, after n completions under an enabled policy a topic has n div `every` cadence triggers; at any time an inventory version deepens at most once and every trigger names a review of its topic that lists it. |
| `Answers.CompletionTrips` | research_loops/checkpoints/service.py:178-213 | Every step of a run that counts a completion adds a cadence trigger exactly when the new count ends a period, and a deepening trigger at that ordinal exactly when the policy is enabled with `onDeepening`, the completion has a deepening entry and the version is not yet marked; each is listed by the topic's open review, which there is when anything was added. |
| `Answers.DeepeningMarked` | research_loops/checkpoints/service.py:192-208 | Along every run a version is marked as deepened in a topic's record exactly when its deepening trigger is on record. |
| `Safety.ReplacedIsLost` | research_loops/checkpoints/service.py:691-735 | Along every run, a decision whose undecided intent was replaced is lost for good: its review stays held with its proposals pending, no intent is left that would decide it, and its request decides another review. |
| `Safety.StepMirrorsIff` | research_loops/runner.py:953-961 | A step keeps every topic's review state in agreement with its reviews exactly when it is not the parking of an orphaned checkpoint lease whose topic has no open review. |
| `Safety.ReviewStateExact` | research_loops/checkpoints/service.py:93-126 | As long as no such orphan was parked, a topic's review state is `checkpoint_due` exactly while its one open review is due, running or waiting, is the review's own hold otherwise, and is `eligible` when none is open. |
| `Controller.Perform` | research_loops/controller.py:136-222 | Any transaction on the store object, called as its callers keep to, is one step of a run and keeps the store `Valid`, which is the invariant of the run theorems on its contents. |
| `Controller.Open` | research_loops/control_store.py:180-222 | A new store is valid and in an initial state of a run. |
| `Dealing.DealsByRank` | research_loops/control_store.py:595-670 | When not paused, an active idle station that does not rest gets the candidate whose rank is the number of lower-numbered available stations, and nothing exactly when there is none; a station with a lease keeps its topic; any other gets nothing. |
| `Dealing.OrderRanks` | research_loops/control_store.py:633-652 | The dealing order lists each candidate once, at the position that counts the candidates before it: due reviews first, then queue order. |
| `Dealing.DealtIsRunnable` | research_loops/control_store.py:608-632 | Whatever an available station is dealt is executed by nobody, past its retry time, not held, has every dependency completed, and is a checkpoint exactly when its review is due. |
| `Dealing.DealsDistinct` | research_loops/control_store.py:653-669 | With unique queue ids no topic is dealt to two available stations. |
| `Dealing.ReconcileTwice` | research_loops/control_store.py:595-670 | Reconciling again at the same time changes nothing. |
| `Dealing.ReconcileFrame` | research_loops/control_store.py:595-670 | Reconciling writes assignments and blank topic records and nothing else. |
| `Compaction.CompactConserves` | research_loops/control_store.py:363-391 | Per topic, live runs plus the tombstone count is the same before and after compaction. |
| `Compaction.CompactKeeps` | research_loops/control_store.py:370-391 | A run survives compaction exactly when it is started, referenced by a review, or has fewer than 200 newer runs of its topic; survivors keep their record. |
| `Compaction.CompactBounds` | research_loops/control_store.py:370-391 | Afterwards a topic has at most 200 runs that are neither started nor referenced. |
| `Compaction.CompactTwice` | research_loops/control_store.py:349-418 | Compacting again changes nothing. |
| `Compaction.CompactInvisible` | research_loops/control_store.py:353-362 | Every token authenticates after compaction exactly when it did before, for every caller and topic. |
| `Compaction.IssuedAuthenticates` | research_loops/access.py:84-113 | A token issued under a current lease authenticates its own caller and topic and nobody else. |
| `Compaction.RevokedNeverAuthenticates` | research_loops/access.py:116-120 | After a lease is revoked none of its tokens authenticates. |
| `ControlStore.Store.ReconcileState` | research_loops/control_store.py:595-670 | The loops over items and stations, in place, leave exactly the state of the dealing specification. |
| `ControlStore.Store.Claim` | research_loops/control_store.py:672-726 | Resumes, refuses or mints a lease exactly as the scheduler's specification says; a refused claim changes nothing. |
| `ControlStore.Store.Finalize` | research_loops/control_store.py:728-779 | Releases the lease, closes its run, revokes its capabilities, compacts and deals again, as specified; a refused call changes nothing. |
| `ControlStore.Store.ConfirmLaunch` | research_loops/control_store.py:781-796 | Confirms only the station's own undrained lease. |
| `ControlStore.Store.CompactLedger` | research_loops/control_store.py:349-418 | The sort by age and the per-topic pruning loop drop exactly the runs the specification drops, and the dead capabilities. |
| `ControlStore.Store.UpdateStations` | research_loops/control_store.py:540-579 | Changes the active count and the checkpoint policy together, or refuses and changes nothing. |
| `ControlStore.Store.Reorder` | research_loops/control_store.py:581-593 | Puts the items in the given order exactly when the revision is the expected one and the order names every item once. |
| `ControlStore.Store.IssueCapability` | research_loops/access.py:84-97 | Records a capability bound to the lease's generation, or refuses. |
| `ControlStore.Store.RevokeLease` | research_loops/access.py:116-120 | Marks every capability of the lease revoked. |
| `ControlStore.Store.AuthenticateToken` | research_loops/access.py:100-113 | True exactly when the token is on record, unrevoked, for this caller and topic, and its lease is current in its generation. |
| `ControlStore.Store.SortRuns` | research_loops/control_store.py:376-386 | The ids of a topic's runs from oldest to newest, each once. |
| `CheckpointService.AcceptResearchCompletion` | research_loops/checkpoints/service.py:129-213 | Accounts for one completion in place: replays the stored result, refuses, rejects, or counts it and coalesces its triggers into a review. |
| `CheckpointService.Coalesce` | research_loops/checkpoints/service.py:93-126 | New triggers go to the topic's open episode, or open its one new episode. |
| `CheckpointService.TriggerStallCheckpoint` | research_loops/checkpoints/service.py:216-244 | Sends a stalled topic to review under the key of its present count. |
| `CheckpointService.BeginCheckpoint` | research_loops/checkpoints/service.py:275-312 | Starts a due review under a lease, offering a completed review of the topic over the same material. |
| `CheckpointService.ReserveLaunch` | research_loops/checkpoints/service.py:315-390 | Spends one delegate slot of a running review, once per invocation id, or refuses and changes nothing. |
| `CheckpointService.RecordResult` | research_loops/checkpoints/service.py:393-429 | Closes a reserved invocation; an infrastructure failure gives the slot back while refunds last. |
| `CheckpointService.FinishCheckpoint` | research_loops/checkpoints/service.py:606-657 | Persists a checkpoint report: every refusal in order, then the review's end state, its triggers, its proposals and the allowance. |
| `CheckpointService.RecordIntent` | research_loops/checkpoints/service.py:691-735 | Records the intent to publish a decision, over whatever undecided intent the request had, returns a committed one's result, or refuses and changes nothing. |
| `CheckpointService.CommitDecision` | research_loops/checkpoints/service.py:813-853 | Commits the decision of the intent on record once: proposals resolved, review and topic moved on, every queue item of the topic locked to the published inventory. |
| `Answers.DecisionAnswers` | research_loops/checkpoints/service.py:830-853 | Whenever a step of a run decides a request, the answer on record speaks of the state the step leaves: it lists exactly the review's proposals still pending there, which are none exactly when the review is complete and the topic has no active one; it names the topic's next ordinal and that state's revision; the chosen proposals are resolved as chosen and all others are as before. |
| `CheckpointService.ResetAllowance` | research_loops/controller.py:48-72 | The operator's reset restores the allowance of 2, once per request id. |
| `CheckpointService.RetryCheckpoint` | research_loops/controller.py:74-134 | The operator's retry returns a parked review to the queue, once per request id. |
| `CheckpointService.ParkFailed` | research_loops/runner.py:1867-1916 | A failed checkpoint run is parked, or scheduled for a retry while retries last. |
| `CheckpointService.ParkOrphan` | research_loops/runner.py:937-978 | After a restart an unobservable lease is parked: its item and review go to the operator, its station is freed and dealt again, its capabilities are revoked, its run is closed. |
| `Effects.ReconcileDrains` | research_loops/control_store.py:595-607 | Reconciling drains and hands off exactly the leases of stations that no longer count, clears every assignment while the queue is paused or stopping, and touches nothing else of a station. |
| `Effects.ClaimGives` | research_loops/control_store.py:672-712 | A claim mints a lease exactly when the station is free and is dealt a topic that neither waits for a retry nor runs elsewhere, and resumes one exactly when the station counts, does not rest, holds a lease, and the queue runs. |
| `Effects.ClaimMints` | research_loops/control_store.py:713-726 | The minted lease is of the topic and kind dealt, the station's next generation and the time of the claim; it is current on that station and its run is on record as started; other stations, items, capabilities and reviews stay. |
| `Effects.FinalizeDoes` | research_loops/control_store.py:728-779 | Finalizing frees the station, sets its rest and the topic's retry when given, lands the topic's item (a checkpoint asked to pause or stop lands on paused), closes the run and ends every token of the lease; other stations keep theirs. |
| `Effects.ReorderDoes` | research_loops/control_store.py:581-593 | After a reordering the items are the same ones in exactly the order asked for, at the next revision. |
| `Effects.AcceptIff` | research_loops/checkpoints/service.py:139-163 | A completion is accounted exactly when its inventory is known and its run is on record open or already accounted, or nowhere on record although nothing of the topic was pruned or its lease is current. |
| `Effects.AcceptAnswers` | research_loops/checkpoints/service.py:164-213 | The first accounting of a run: a rejected one records the inventory and nothing else; an accepted one adds one to the count and answers with the ordinal, the count, the next ordinal and the topic's active review. |
| `Effects.StallTrips` | research_loops/checkpoints/service.py:216-244 | A stalled topic's key of its present count is on record and listed by its open review, which the caller gets. |
| `Effects.StartDoes` | research_loops/checkpoints/service.py:275-312 | A review can be started exactly while it is due or waits for a retry, or again by its own run; it then belongs to that run. |
| `Episodes.ReserveIff` | research_loops/checkpoints/service.py:332-383 | A new slot is granted exactly when the review runs under that lease, none is reserved, a launch is left, the role has not succeeded, and what it builds on is there: for a response a successful counter, the exchange and a second launch; for an assessment a successful response and no assessment that was not refunded. |
| `Episodes.ReserveSpends` | research_loops/checkpoints/service.py:366-383 | A reservation spends one launch, and a response its exchange too. |
| `Episodes.RefundedIff` | research_loops/checkpoints/service.py:393-429 | Closing a reserved invocation gives its slot back exactly when it ended with exit code 70 or 124 and a refund is left: then launches rise by one, refunds drop by one and a response regains its exchange; otherwise all three stay. |
| `Episodes.AssessmentAgain` | research_loops/checkpoints/service.py:346-362 | A refunded assessment can be reserved again. |
| `Effects.FinishHolds` | research_loops/checkpoints/service.py:606-635 | A report that is not finished goes to the operator; a finished one without a counter's report and without reuse goes back to the queue; nothing else moves. |
| `Effects.FinishIff` | research_loops/checkpoints/service.py:623-657 | Any other report is taken exactly when what it reuses is the completed review offered over the same material, its proposals are new, its triggers on record and the allowance covers it; then the triggers are handled, and the review is complete or its proposals are pending and paid for. |
| `Effects.FailDoes` | research_loops/runner.py:1867-1916 | A failed run's review is due again in ten minutes at the first and second infrastructure failure on it, and goes to the operator at the third or at any other failure. |
| `Effects.OrphanDoes` | research_loops/runner.py:937-978 | Parking an orphan sends its item, and a checkpoint's review, to the operator; frees its station if it still sits there; revokes exactly its tokens; closes its run. |
| `Effects.RetryIff` | research_loops/controller.py:74-134 | The operator may return a review to the queue exactly when it is the topic's active one and parked or waiting, the revision is the present one, and nothing of it is pending, leased or still running. |
| `Effects.IntentIff` | research_loops/checkpoints/service.py:691-735 | An intent is recorded exactly when the review waits for the operator at the revision named, the choices can be taken, and a bundle was prepared if anything is approved; review and topic are then held. |
| `Episodes.OneOpenEpisode` | research_loops/checkpoints/service.py:118-126 | A topic has at most one open episode. |
| `Episodes.TripKeepsMachine` | research_loops/checkpoints/service.py:93-126 | Coalescing keeps the episode machine: the open episode is the topic's active one and its review state mirrors it. |
| `Episodes.RolesInOrder` | research_loops/checkpoints/service.py:346-362 | A successful assessment implies a successful response implies a successful counter, and there are at most six invocations. |
| `Episodes.StallMintsIff` | research_loops/checkpoints/service.py:216-244 | A stall trigger replayed at the same count opens a second episode exactly when the topic has no active one. |
| `Episodes.RepairSlotIff` | research_loops/checkpoints/service.py:332-383 | After a successful response, along every later sequence of reserve and record steps the first assessment finds a slot, exactly when preparation has already succeeded. |
| `Episodes.PreparationsExhaust` | research_loops/checkpoints/service.py:332-383 | Otherwise there is such a sequence, preparations failing one after the other, at whose end the assessment is refused for lack of budget. |
| `Episodes.RepairMayStarve` | research_loops/checkpoints/service.py:332-383 | With two slots left, a response and a preparation that both succeed leave the assessment none. |
| `Episodes.ParkReviewMirrorsIff` | research_loops/runner.py:953-961 | Parking a topic's review keeps the review-state mirror exactly when the topic has no record or still has an active episode. |
| `PublicationTheorems.TraceSafe` | research_loops/checkpoints/service.py:660-827 | Any mix of callers with any payloads and expected revisions, crashes at any point, other transactions and agent writes keeps the store's invariants and the publication protocol's. |
| `PublicationTheorems.CommitsOnce` | research_loops/checkpoints/service.py:797-827 | No request is committed twice, whoever calls it and however often callers die. |
| `PublicationTheorems.OneResult` | research_loops/checkpoints/service.py:664-680 | All callers of a request that return a result return the same one, which is on record; the payload decided is the caller's own exactly when no other payload replaced its intent. |
| `PublicationTheorems.DecidedForGood` | research_loops/checkpoints/service.py:830-853 | A decision on record stays on record with its result. |
| `PublicationTheorems.PublishedExactly` | research_loops/checkpoints/service.py:797-827 | At a commit TOPIC.md and the inventory on disk are those of the bundle prepared for the payload its publisher read, the whole state file too unless an agent wrote it since; the decided topic's items take that inventory as their lock; the payload decided is the one published exactly when its intent was not replaced. |
| `PublicationTheorems.ApprovalsPublished` | research_loops/checkpoints/service.py:802-820 | A publisher has a bundle exactly when the payload it read approves something; a commit decides approvals without publishing only when another payload replaced the intent its caller read. |
| `PublicationTheorems.PublishedWhole` | research_loops/contract_publication.py:98-114 | When agents write only while their own run is going, the contract files are exactly the bundle prepared for the payload the publisher read, at every commit. |
| `PublicationTheorems.CommittedNeverWrites` | research_loops/checkpoints/service.py:795-827 | No step of a caller whose request is committed writes a contract file. |
| `PublicationTheorems.JournalOwned` | research_loops/contract_publication.py:116-140 | A journal is removed only by a caller whose request is committed and whose receipt names that topic and that journal's identity, and the receipt is that of the decision on record or of a payload it replaced. |
| `PublicationTheorems.JournalsHeld` | research_loops/contract_publication.py:20-46 | While an intent with a bundle is undecided its journal is on disk and holds that bundle. |
| `PublicationTheorems.LocksAgree` | research_loops/checkpoints/service.py:838-844 | Whenever a topic is not between its first file write and its commit, the completion lock of its queue items is the inventory of its state file, or the lock its last commit took from the publication of another decision. |
| `PublicationTheorems.PublisherAlone` | research_loops/checkpoints/service.py:702-733 | While a decision of a topic is undecided, every lease a station still holds on it has already reported, so no agent whose run is going can write the topic's files. |
| `PublicationTheorems.RecoveryCompletes` | research_loops/checkpoints/service.py:739-827 | Wherever the callers of an undecided request died, one new call of the payload on record, alone, has it decided, leaves exactly its bundle on disk, locks the items to it, removes the journal and frees the lock. |
| `PublicationSafety.OneIntentPerTopic` | research_loops/checkpoints/service.py:702-733 | A topic has at most one undecided intent. |
| `PublicationSafety.IdentitiesDiffer` | research_loops/contract_publication.py:116-140 | The bundle of an undecided publication never has the identity that a commit's receipt names, so cleaning up after one cannot remove the other's journal. |
| `Replacement.ReplacesIff` | research_loops/checkpoints/service.py:673-735 | In every trace a step replaces an undecided intent exactly when it is that of a caller of the same request that saw no intent at its snapshot and whose own payload is accepted at the present revision; then the payloads differ and the caller's expected revision was still to come at its snapshot. |
| `Replacement.PunctualNeverReplaces` | research_loops/checkpoints/service.py:673-696 | When no call names a revision still to come at its snapshot, no intent is ever replaced. |
| `Replacement.PunctualDecidesOwn` | research_loops/checkpoints/service.py:664-680 | Then whoever returns a result returns that of its own payload, which is the one decided. |
| `Replacement.PunctualLocksAgree` | research_loops/checkpoints/service.py:838-844 | And every lock is the inventory on disk, outside a publication under way. |
| `Overtaken.ReturnsAnother` | research_loops/checkpoints/service.py:673-696 | A trace in which a call that rejects returns the result of another topic's approval, which is decided with nothing published. |
| `Overtaken.LocksAnother` | research_loops/checkpoints/service.py:804-844 | A trace after which a topic's queue item is locked to the inventory of another topic's contract, with no publication of its own under way. |
| `Contracts.PublishKeepsInStep` | research_loops/contract_publication.py:55-114 | Publishing keeps the two contract files in step: TOPIC.md lists the obligations in order and the state carries its hash. |
| `Contracts.PublishTouchesOnly` | research_loops/contract_publication.py:55-96 | A bundle appends one obligation per approved addition, rewrites only the obligations its amendments name, and leaves every other record of the state alone. |
| `Contracts.AdditionIff` | research_loops/contract_publication.py:55-80 | An approved addition is published exactly when its text and source say something, its new id is free and TOPIC.md has a place for it; it becomes an open obligation under that id, last in both files. |
| `Contracts.AmendmentIff` | research_loops/contract_publication.py:81-96 | An approved amendment is published on files in step exactly when it names an obligation in its present wording and proposes something; that obligation is open again with the new wording and nothing known about it. |
| `Contracts.PublishReopens` | research_loops/contract_publication.py:60-96 | A published state never passes the completion gate, whatever the files hold and whatever lock is approved: every publication reopens the topic. |
| `Contracts.TopicFiles.PublishOne` | research_loops/contract_publication.py:55-96 | Publishes one approval in place, or raises and leaves both files alone. |
| `Contracts.TopicFiles.Prepare` | research_loops/contract_publication.py:20-46 | Prepares a bundle in a copy and writes its journal; takes over a journal of the same identity, refuses one of another. |
| `Contracts.TopicFiles.PublishPrepared` | research_loops/contract_publication.py:98-114 | Leaves exactly the prepared bundle on disk and returns its inventory as the lock. |
| `Contracts.TopicFiles.Cleanup` | research_loops/contract_publication.py:116-140 | Removes the journal exactly when it carries this publication's identity. |
| `SemanticState.ValidityFactors` | research_loops/chassis/semantic-state.py:743-805 | Two states with equal semantic and inventory projections over the same files are complete together or not at all: the done gate reads nothing the liveness signature and the lock do not. |
| `SemanticState.ReorderingIsNotProgress` | research_loops/chassis/semantic-state.py:743-805 | Reordering obligations with distinct ids, or the pending references, changes neither projection. |
| `SemanticState.EvidenceOrderIsNotProgress` | research_loops/chassis/semantic-state.py:743-805 | Reordering one obligation's references changes neither projection. |
| `SemanticState.ObligationFlawsEmpty` | research_loops/chassis/semantic-state.py:507-606 | The rules of one obligation report nothing exactly when it meets them. |
| `GuardedWrites.CompletionFlawsEmpty` | research_loops/chassis/semantic-state.py:609-740 | The gate reports nothing exactly when the state is complete. |
| `GuardedWrites.ReportsFactor` | research_loops/chassis/semantic-state.py:609-740 | Two states with equal projections over the same files get an empty report together or not at all. |
| `GuardedWrites.ObligationErrors` | research_loops/chassis/semantic-state.py:507-606 | The loop over the rules of one obligation collects exactly their flaws; the list is empty exactly when the obligation meets them. |
| `GuardedWrites.CompletionErrors` | research_loops/chassis/semantic-state.py:609-740 | The gate's accumulating loops collect exactly the specified flaws, in order; the list is empty exactly when the state is complete. |
| `GuardedWrites.WriteKeepsInventory` | research_loops/chassis/semantic-state.py:1306-1388 | No guarded write changes the inventory projection, hence none moves the completion lock. |
| `GuardedWrites.TransitionLandsSound` | research_loops/chassis/semantic-state.py:941-1029 | A transition that goes through changes one obligation, the first of its id, keeps its identity, gives it the asked disposition and evidence, and leaves it meeting the gate's rules if terminal and adequately searched if ruled on. |
| `GuardedWrites.WritesKeepTerminalSound` | research_loops/chassis/semantic-state.py:941-1029 | If all terminal obligations meet the gate's rules, they still do after any guarded write. |
| `GuardedWrites.PendingRoundTrip` | research_loops/chassis/semantic-state.py:1306-1340 | Removing a pending reference just added restores the state exactly when it was not pending before. |
| `GuardedWrites.StateFile.ApplyTransition` | research_loops/chassis/semantic-state.py:941-1029 | The in-place transition, with its early refusals, does what the transition's specification does, or refuses and changes nothing. |
| `GuardedWrites.StateFile.ApplyWrite` | research_loops/chassis/semantic-state.py:1306-1388 | The same for the pending, deliverable and contradiction writes. |
| `Dependencies.CycleFinder.Visit` | research_loops/queue.py:139-152 | The depth-first visit finds an id on a cycle, or leaves the id explored, the path as it was, and the explored ids in dependency order. |
| `Dependencies.CycleFinder.FindCycle` | research_loops/queue.py:128-157 | Reports nothing exactly when the graph has no cycle, edges to absent ids included; a reported id lies on a cycle. |
| `Dependencies.FindDependencyCycle` | research_loops/queue.py:128-157 | The same for a fresh search over any key order. |
| `Dependencies.OrderedIsAcyclic` | research_loops/queue.py:139-152 | A list in dependency order has no cycle through its ids. |
| `Sync.QueueStore.Sync` | research_loops/queue.py:434-602 | In place: a refused sync changes nothing and names an entry at fault, it is refused exactly on a duplicate id, a missing dependency or a cycle of the checked graph, and one that passes leaves and reports exactly what is specified. |
| `Sync.SyncedOrder` | research_loops/queue.py:585-601 | Manifest items come first in manifest order; the rest keep their relative order. |
| `Sync.ArrangedSorted` | research_loops/queue.py:585-601 | The new order is a stable sort by place in the manifest: same items, places ascending, items outside it in the order they had. |
| `Sync.RestUntouched` | research_loops/queue.py:570-583 | Items the manifest does not name are kept or pruned whole, in order. |
| `Sync.SyncKeepsHistory` | research_loops/queue.py:505-583 | The queue holds exactly the updated survivors and the new items; a survivor keeps its id, status and run history; an item is pruned only when asked, unnamed and not running. |
| `Sync.SyncDefines` | research_loops/queue.py:504-545 | An item the manifest does not name is unchanged. A named one takes lane, the default when none is given, and other settings from its entry, and command, dependencies and lock from its entry too unless it is running: then it keeps its own. Only a changed definition changes the update time. |
| `Sync.SyncAdds` | research_loops/queue.py:546-569 | An entry whose id the queue did not hold becomes a fresh queued item. |
| `Sync.ReportIff` | research_loops/queue.py:528-583 | An id is reported held exactly when its item runs and its entry asks for another command, dependencies or lock; added exactly when the queue did not hold it; pruned exactly when it is gone. |
| `Sync.UpdatedIff` | research_loops/queue.py:521-545 | An id is reported updated exactly when its item's definition is another one afterwards. |
| `Sync.SyncTwice` | research_loops/queue.py:434-602 | An identical second sync, at any time, updates, adds, prunes and reorders nothing. |
| `Sync.SecondReport` | research_loops/queue.py:488-494 | Its report is empty but for what stays skipped. |
| `Sync.SyncAgainIff` | research_loops/queue.py:497-503 | The second sync passes the dependency check exactly when no manifest entry depends on an item the first one pruned. |
| `Sync.GraphCheckedIff` | research_loops/queue.py:504-541 | Every item ends with the dependencies that were checked exactly when no running item was asked for other ones. |
| `Sync.SyncedGraph` | research_loops/queue.py:504-583 | The dependency graph of the synced queue is the held graph, which can be read off the queue and the manifest beforehand. |
| `Sync.SyncAcyclicIff` | research_loops/queue.py:504-541 | The synced queue is acyclic exactly when the held graph is. |
| `Sync.SyncKeepsAcyclic` | research_loops/queue.py:504-541 | If no running item was asked for other dependencies, a sync that passed its check leaves an acyclic queue. |
| `Sync.SyncMayCycle` | research_loops/queue.py:528-541 | A queue and a manifest whose sync passes its check and leaves a cycle. |
| `Sync.SyncClosedIff` | research_loops/queue.py:504-583 | After a sync every dependency is present, as the unmanaged claim wants it, exactly when no item that stays keeps or gets a dependency on an id that goes or never was. |
| `Sync.SyncMayDangle` | research_loops/queue.py:570-583 | A queue whose dependencies are all present, and a sync that passes its check, prunes a finished item and leaves a running one depending on it. |
| `Cascade.NoLeapfrog` | research_loops/queue.py:1206-1306 | If no running item is unclaimed, a worker that holds nothing and is given the item at k finds every earlier runnable item of its lanes held by another station at least as fast. |
| `Cascade.WalkPasses` | research_loops/queue.py:1206-1306 | The walk stops at a runnable item that nobody or a slower station holds, reserving a running one and taking over a waiting one, and has passed only items held by the worker itself or by a station at least as fast. |
| `Cascade.WalkMeets` | research_loops/queue.py:1206-1306 | Where the walk meets a slower station's item it reserves a running one and takes over a waiting one if the lane has room. |
| `Cascade.ClaimMeetsSlower` | research_loops/queue.py:1239-1315 | A claim that meets a slower station's running item leaves it running there, reserved for the claimant, who gets nothing; a waiting one it takes over and starts, or leaves alone while its lane is full. |
| `Cascade.ClaimTakesNext` | research_loops/queue.py:1259-1315 | A claim that comes past everything else gets the first unheld item of its lanes when the lane has room, the item is due and the worker may start new work, which then counts against its limit; else nothing. |
| `Cascade.ClaimResumes` | research_loops/queue.py:1101-1123 | A worker that runs an item resumes the first one it runs. |
| `Cascade.ClaimStartsOwn` | research_loops/queue.py:1179-1191 | A worker that runs nothing first gets the item it holds, or waits for it: until the lane has room, its dependencies are complete and it is due. |
| `Cascade.ClaimKeeps` | research_loops/queue.py:1067-1315 | A claim, whatever the worker, its lanes and its branch, keeps every bound on running items that held before. |
| `Cascade.OneRunningEach` | research_loops/queue.py:1067-1315 | Along every run of the queue, syncs, resumes and restarts included, each worker has at most one running item. |
| `Cascade.SyncKeepsCapIff` | research_loops/queue.py:504-545 | A sync leaves a capped lane within its cap exactly when the running items the manifest leaves in it or moves into it are at most the cap. |
| `Cascade.CapHoldsIff` | research_loops/queue.py:1073-1093 | Along a run a lane never runs more than its fixed cap exactly when no sync on the way leaves it more running items than that. |
| `Cascade.SyncMayOverfill` | research_loops/queue.py:504-545 | A run of the queue, two claims of research items and a sync that moves both to the intake lane, after which two items run in a lane capped at one. |
| `Cascade.LegacyQueue.Claim` | research_loops/queue.py:1067-1315 | The branches of the unmanaged claim, in place, have the specified effect; a claim that raises changes nothing. |
| `Saturation.Summarize` | research_loops/chassis/research_activity.py:28-63 | The one pass over the activity lines returns exactly the requests whose last state is degraded, with that state, those whose last state clears them, and each source's last state. |
| `Saturation.BlockerIff` | research_loops/queue.py:877-940 | After any history a request is a blocker exactly when the last run, release or clearing that said anything about it left it blocking. |
| `Saturation.BlockerSince` | research_loops/queue.py:877-917 | A blocker tells its first observation: the run that blocked it when nothing did, with nothing clearing it since. |
| `Saturation.StreakIsCounted` | research_loops/runner.py:108-128 | The streak never exceeds the supporting runs since the gate last saw a change or an invalid state. |
| `Saturation.StreakIsExact` | research_loops/runner.py:108-128 | Until the gate decides for completion, the streak is exactly the number of supporting runs since the gate last saw a change or an invalid state: blocked runs neither add to it nor take from it. |
| `Saturation.CompletesOnCounted` | research_loops/runner.py:1608-1651 | The gate completes a topic only on a valid, unchanged, unblocked run that the lock-pinned validation accepts, with at least the limit of such runs since it last saw a change or an invalid state. |
| `Saturation.CompletesAtGateIff` | research_loops/runner.py:1608-1651 | A run completes its topic at the gate exactly when it supports completion, nothing is left blocking, the streak with it reaches the limit, the lock-pinned validation accepts, and no due review and no control prevents it. |
| `Saturation.CompletesOnCountedIff` | research_loops/runner.py:1608-1651 | The same on the number of supporting runs counted, until the gate decides for completion. |
| `Saturation.BoundedCompletesIff` | research_loops/runner.py:1530-1607 | An item that is no contract completes exactly when its run succeeded undisturbed and nothing is left blocking; on its own word only if the validation accepts too. |
| `Saturation.AttentionIff` | research_loops/runner.py:1502-1677 | A run stops its topic for the operator exactly when no control overruled it and it asked for it, or meant to complete while something blocks or the validation refuses. |
| `Saturation.CompletesOnEvidenceIff` | research_loops/runner.py:1502-1677 | At a completion the limit of supporting runs has gone by since the last change or invalid state, seen by the gate or not, exactly when every run that changed or invalidated the state without reaching the gate has that many supporting runs after it. |
| `Saturation.CompletesOnOneQuietRun` | research_loops/runner.py:1551-1580 | Two quiet runs, a run that changes the state and stops for the operator or crashes, a resume, and one more quiet run complete a topic whose limit is 3. |
| `Saturation.BlockedNeverCompletes` | research_loops/runner.py:1551-1664 | No branch completes a topic while any request is left blocking: not a declared done, not a bounded item's end, not the gate. |
| `Saturation.ContractCompletesAtGate` | research_loops/runner.py:1511-1528 | A contract topic completes only at the gate, never on its own word. |
| `Saturation.TopicRecord.RecordPass` | research_loops/runner.py:1502-1716 | The branches of one run's accounting, in place, give the topic the specified streak, blockers and outcome. |
| `Saturation.TopicRecord.UpdateBlockers` | research_loops/queue.py:877-917 | Clears what succeeded, then adds what blocks, keeping a blocker's first observation. |
| `Elapsed.UnionTicks` | research_loops/throughput_report.py:180-195 | The sort and sweep return the number of ticks at which some call is under way, for any order, overlaps, and zero or negative lengths. |
| `Limits.PrunedRecountsIff` | research_loops/checkpoints/service.py:143-163 | A pruned run reported accepted for any topic is counted again exactly when that topic has no pruned runs; its own always has some. |
| `Limits.RecountedElsewhere` | research_loops/checkpoints/service.py:143-163 | A reachable state in which one lease's completion is counted for a second topic. |
| `Limits.IntentReplacedIff` | research_loops/checkpoints/service.py:691-735 | The intent transaction replaces an undecided intent by another payload under the same request id exactly when that payload would be accepted under a new one; the first review then has no intent left to decide it. |
| `Limits.IntentReplaced` | research_loops/checkpoints/service.py:691-735 | A reachable state with such an intent, and a payload that replaces it. |
| `Limits.OrphanPartsMirror` | research_loops/runner.py:953-961 | A reachable state in which parking an orphaned checkpoint lease leaves its topic needing attention with no open review. |

## Findings

Where the code does not do what its own text promises, or what one would expect, the project shows an input and the exact condition.

- **Completion by saturation.** Only the gate resets the streak (research_loops/runner.py:1622-1674). A run that changes or invalidates
  the state and never reaches the gate, because it stopped for the operator, failed, was interrupted or was a checkpoint, leaves the
  streak standing. `Saturation.CompletesOnOneQuietRun` completes a topic with limit 3 one quiet run after a change;
  `Saturation.CompletesOnEvidenceIff` says when completion rests on the promised evidence.
- **Lane caps.** A sync may change a running item's lane (research_loops/queue.py:521-543), which no cap check sees:
  `Cascade.SyncMayOverfill`; exact conditions `Cascade.SyncKeepsCapIff` for one sync and `Cascade.CapHoldsIff` for a run.
- **Cycles.** A sync checks the manifest's graph, but a running item keeps its own dependencies (research_loops/queue.py:528-541):
  `Sync.SyncMayCycle`; the queue is acyclic exactly when the held graph is, `Sync.SyncAcyclicIff`.
- **A second sync may be refused.** After pruning, a manifest entry may depend on an item that is gone: `Sync.SyncAgainIff`. Applied as
  a transformation, the second sync still changes nothing, `Sync.SyncTwice`.
- **Repair slot.** Room for a response and an assessment is checked, but a preparation that has not succeeded may take the assessment's
  slot: `Episodes.RepairMayStarve`, `Episodes.PreparationsExhaust`; exact condition `Episodes.RepairSlotIff`.
- **Stall triggers** are idempotent only while their episode is open, against the docstring at
  research_loops/checkpoints/service.py:216-222: `Episodes.StallMintsIff`.
- **Pruned runs.** A replay of a pruned run under a topic without pruned runs is counted again: `Limits.PrunedRecountsIff`,
  `Limits.RecountedElsewhere`. Under its own topic it never is, `Safety.CountedForGood`.
- **Dangling dependencies.** Pruning may remove an item that one outside the manifest still depends on, or that a running one keeps
  depending on; the unmanaged claim then raises (research_loops/queue.py:1136-1140): `Sync.SyncMayDangle`; exact condition
  `Sync.SyncClosedIff`.
- **Intents.** The intent transaction looks at decisions, not at intents (research_loops/checkpoints/service.py:691-696), so another
  payload can replace an undecided intent of the same request id: `Limits.IntentReplacedIff`, `Limits.IntentReplaced`. `apply_decision`
  looks for an intent only in its snapshot, so a call that names a revision still to come, and finds it when its transaction starts,
  replaces the intent recorded in between; `Replacement.ReplacesIff` is the exact condition. The first decision is lost for good
  (`Safety.ReplacedIsLost`); its caller returns the other one, and may commit an approval with nothing published
  (`Overtaken.ReturnsAnother`) or lock another topic's items to the inventory of its own contract (`Overtaken.LocksAnother`).
  `PublicationTheorems` says what holds all the same. None of this happens when no call names a revision above the one its snapshot
  shows: `Replacement.PunctualNeverReplaces`, `Replacement.PunctualDecidesOwn`, `Replacement.PunctualLocksAgree`.
- **Orphans.** Parking an orphaned checkpoint lease after its report but before its finalization parts the topic's review state from its
  reviews: `Limits.OrphanPartsMirror`; it is the only such step, `Safety.StepMirrorsIff`.
- **Agent authority.** An agent write is authorised by any current lease, also that of a checkpoint that already reported while its
  decision is being published. The inventory and TOPIC.md are safe (`PublicationTheorems.PublishedExactly`); the whole state file is when
  agents write only while their run is going (`PublicationTheorems.PublishedWhole`).
- **Publishing reopens.** Every publication leaves an obligation open, so the gate refuses the published state: `Contracts.PublishReopens`.
- `finalize` leaves `accepted` as it was minted, since `setdefault` meets an existing key (research_loops/control_store.py:721, 768).
- `start_checkpoint` leaves the topic `checkpoint_due` while the review runs, which is what `Safety.ReviewStateExact` states.
- A takeover in the cascade counts as continuing and spends nothing of `claim_limit` (research_loops/queue.py:1289-1306).

## Left out

- Cascade.LegacyQueue.Claim: malformed worker policies, which make the code raise before any branch, are not modelled.
- Cascade.CapHoldsIff: for caps and station intervals that stay fixed along the run; `set_lane_limit` below the present load breaks a cap at once.
- Safety.TriggersCounted: the cadence count is for a policy that was not changed since the start; everything else it states holds through policy changes.
- Runs.RunSafe: for the caller rules named above; `CheckpointService.ParkOrphan` also has the branch for a lease that no longer sits on its station, which no run takes.
- Replacement.PunctualDecidesOwn: for traces in which no call names a revision still to come at its snapshot, as is `Replacement.PunctualLocksAgree`; without that, `PublicationTheorems.OneResult` and `PublicationTheorems.LocksAgree` hold.
- PublicationTheorems.RecoveryCompletes: safety of recovery, for a caller that runs alone and finds the lock free; that such a caller ever comes, or that an orphan journal is ever taken over, is not promised by the code.
- PublicationTheorems.LocksAgree: other queue transactions are assumed to bring in only items whose lock matches the file on disk; relock, rehash and light refreshes change scope on purpose and are not part of this model.
- PublicationTheorems.PublishedWhole: for traces in which agents write only while their own run is going; a write is one atomic step, although the tool reads and writes the file separately.
- Sync.SyncTwice: for manifests whose entries name a lane, as the manifest reader fills in.
- Elapsed.UnionTicks: instants are integer ticks; the original uses floating-point seconds.
- SemanticState.ValidityFactors: for well-typed states with all keys present; blank text is judged by ASCII whitespace and the separators 0x1C-0x1F, and citation and heading checks read an abstract view of the files.
- Contracts.PublishKeepsInStep: TOPIC.md is a list of bullets with ids and texts; the markdown editing is not part of this model.
- ControlStore.Store.UpdateStations: agent profiles, station pairs and intervals are not part of this model.
- ControlStore.Store.CompactLedger: the retention of operation records and audit events is not part of this model.
- CheckpointService.BeginCheckpoint: the delegate ids, agents and deadlines that the call returns are not part of this model.
- Intake leases are read (they authorise, and keep capabilities alive) but their submission and approval are not modelled.
- Timestamps kept only for display, process ids, launch details, the mirror of the allowance under a second name, stall guards and progress signatures, adopted runs, and coverage stamps.
- Gap promotion, which overwrites review states with its own hold; topic refreshes; legacy migration; JSON shape validation; failure classification; dashboards; the gateway.
- Sockets, SQLite, file locks and permissions: a transaction is atomic and the publication lock is a mutex that its holder's death frees.
- Liveness: a reserved delegate that never reports or a decision that nobody calls again stays as it is.
- Two insertion sorts and three item lists: `Ordering` sorts strings by key and `Elapsed` intervals by start, and the scheduler, the sync and the cascade each have their own item record with only the fields they use.
