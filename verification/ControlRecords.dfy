/** The controller's records: configuration, queue, and the work ledger. */
module ControlRecords {
  import opened Common
  import SemanticState

  // Identifiers are opaque; only equality is used, and order among run ids breaks ties.
  type TopicId = nat
  type RunId = nat       // a claim's run id is its lease id
  type EpisodeId = nat
  type ProposalId = nat
  type InvocationId = nat
  type RequestId = nat
  type Token = nat       // digest of a capability token
  type Digest = nat      // digest of a topic's material context
  type Time = int

  const MAX_STATIONS: nat := 5
  const RUNS_RETAINED_PER_TOPIC: nat := 200

  /** An inventory hash is taken as injective, so the lock of an inventory is the inventory. */
  type Lock = SemanticState.Inventory
  datatype Version = Unset | Unknown | Pinned(lock: Lock)

  // ---------- Queue ----------

  datatype Status = Queued | Backoff | Running | Completed | Paused | Attention
  datatype Wanted = WantRunning | WantPaused | WantStopping
  datatype Item = Item(id: TopicId, research: bool, status: Status, wanted: Wanted,
                       dependsOn: seq<TopicId>, lock: Version, claimedBy: Option<nat>)

  // ---------- Stations and leases ----------

  datatype Kind = Research | Checkpoint
  datatype Lease = Lease(topic: TopicId, kind: Kind, station: nat, id: RunId, generation: nat,
                         startedAt: Time, confirmed: bool)
  datatype Dealt = Dealt(topic: TopicId, kind: Kind)
  /** One station's assignment record; a record not yet written is `BlankSeat`. */
  datatype Seat = Seat(current: Option<Lease>, desired: Option<Dealt>, generation: nat,
                       restUntil: Option<Time>, draining: bool, handoff: bool)
  const BlankSeat := Seat(None, None, 0, None, false, false)

  datatype Capability = Capability(topic: TopicId, lease: RunId, uid: nat, generation: nat, kind: Kind, revoked: bool)

  // ---------- Run ledger ----------

  datatype RunState = Started | Finished
  datatype Accounting = Accounting(topic: TopicId, run: RunId, accepted: bool, ordinal: Option<nat>,
                                   completed: nat, next: nat, episode: Option<EpisodeId>)
  datatype Run = Run(topic: TopicId, station: nat, generation: Option<nat>, kind: Option<Kind>, state: RunState,
                     startedAt: Option<Time>, endedAt: Option<Time>, accepted: Option<bool>, ordinal: Option<nat>,
                     accounted: bool, result: Option<Accounting>, withoutAccounting: bool)

  // ---------- Topics, triggers, episodes ----------

  datatype Review = Eligible | CheckpointDue | CheckpointRunning | RetryWaiting
                  | AwaitingOperator | PublishingDecision | NeedsAttention
  datatype Topic = Topic(completed: nat, next: nat, inventory: Version, review: Review, active: Option<EpisodeId>,
                         lastAccepted: Option<RunId>, deepening: map<Version, bool>, allowance: nat,
                         retryAt: Option<Time>, rowRevision: nat)

  datatype TriggerKind = Cadence | Deepening | Stall
  /** The trigger id is a hash of these four values, taken as injective. */
  datatype TriggerKey = TriggerKey(topic: TopicId, kind: TriggerKind, ordinal: nat, inventory: Version)
  datatype Trigger = Trigger(episode: Option<EpisodeId>, handled: bool)

  datatype Role = Preparation | Counter | Response | Assessment
  datatype Invocation = Invocation(role: Role, lease: RunId, finished: bool, exit: int,
                                   output: bool, complete: bool, refunded: bool)
  datatype Phase = NoPhase | ResponseReserved | ResponseFinished | ResponseFailed
                 | AssessmentReserved | AssessmentFinished | AssessmentFailed
  datatype EpisodeState = Due | InReview | RetryWait | Awaiting | Publishing | Parked
                        | CompleteWithoutProposals | CompleteWithDecisions
  datatype Episode = Episode(
    topic: TopicId, after: nat, triggers: seq<TriggerKey>, inventory: Version, state: EpisodeState,
    run: Option<RunId>, attempts: seq<RunId>, results: set<RunId>, resultOf: Option<RunId>,
    launches: nat, refunds: nat, exchanges: nat, phase: Phase, invocations: map<InvocationId, Invocation>,
    prior: Option<EpisodeId>, reused: Option<EpisodeId>,
    digest: Option<Digest>, infraFailures: nat)

  // ---------- Proposals and decisions ----------

  datatype Content = Addition(text: string, source: string)
                              | Amendment(target: string, current: string, proposed: string)
                   | ScopeRequest
  datatype Action = Approve | ApproveWithEdits(edits: Content) | Reject
  datatype Proposal = Proposal(episode: EpisodeId, topic: TopicId, version: nat, content: Content,
                               pending: bool, decision: Option<Action>)
  datatype Choice = Choice(proposal: ProposalId, version: nat, action: Action)
  datatype Payload = Payload(expected: nat, topic: TopicId, episode: EpisodeId, choices: seq<Choice>)
  datatype DecisionResult = DecisionResult(topic: TopicId, episode: EpisodeId, remaining: set<ProposalId>, next: nat,
                                           revision: nat)
  datatype Decision = Decision(payload: Payload, result: DecisionResult)

  /** The contract files of a topic: SEMANTIC-STATE.json and TOPIC.md. */
  datatype Contract = Contract(state: SemanticState.State, text: SemanticState.Document)
  /** A bundle's identity is a hash of the approved proposals with their edits, taken as injective. */
  type Identity = seq<(ProposalId, Action)>
  datatype Bundle = Bundle(identity: Identity, contract: Contract)
  /** What a publication returns: the lock of what it left on disk, and the topic and identity of the journal it worked
      from. */
  datatype Receipt = Receipt(lock: Lock, topic: TopicId, identity: Identity)
  datatype Intent = Intent(payload: Payload, prepared: Option<Bundle>, published: bool, receipt: Option<Receipt>)

  // ---------- The whole controller state ----------

  datatype Policy = Policy(enabled: bool, every: nat, onDeepening: bool)

  datatype ResetRequest = ResetRequest(expected: nat, topic: TopicId)
  datatype RetryRequest = RetryRequest(expected: nat, topic: TopicId, episode: EpisodeId)

  datatype Mint = Mint(topic: TopicId, kind: Kind, station: nat, generation: nat, startedAt: Time)
  datatype Count = Count(topic: TopicId, run: RunId, ordinal: nat)
  /** What happened so far, kept only to state properties: leases minted, the last claim time, accepted completions in
      order, leases whose checkpoint call has returned, proposals issued since the last reset, whether the checkpoint
      policy is still the first one, and the undecided intents that another intent of their request replaced. */
  datatype History = History(minted: map<RunId, Mint>, clock: Time, counted: seq<Count>,
                             concluded: set<RunId>, issued: map<TopicId, nat>, steady: bool,
                             replaced: set<(RequestId, Payload)>)

  datatype State = State(
    revision: nat, active: nat, policy: Policy, paused: bool, stopping: bool, queueRevision: nat, items: seq<Item>,
    seats: seq<Seat>, intake: Option<Lease>, topics: map<TopicId, Topic>, runs: map<RunId, Run>,
      pruned: map<TopicId, nat>,
    capabilities: map<Token, Capability>, triggers: map<TriggerKey, Trigger>, episodes: map<EpisodeId, Episode>,
    proposals: map<ProposalId, Proposal>, decisions: map<RequestId, Decision>, intents: map<RequestId, Intent>,
    resetRequests: map<RequestId, ResetRequest>, retryRequests: map<RequestId, RetryRequest>, history: History)

  datatype Error = ValidationError | RevisionConflict | DuplicateRequest | BudgetExhausted
                 | NotAwaiting | PublicationPending | AccessDenied

  /** A transaction either commits a state and returns a value, or raises and changes nothing. */
  datatype Outcome<+T> = Done(state: State, value: T) | Refused(error: Error)

  function DefaultTopic(v: Version): Topic {
    Topic(0, 1, v, Eligible, None, None, map[], 2, None, 0)
  }

  function TopicOf(topics: map<TopicId, Topic>, id: TopicId): Topic {
    if id in topics then topics[id] else DefaultTopic(Unset)
  }

  function CountOr0<K>(m: map<K, nat>, k: K): nat { if k in m then m[k] else 0 }

  predicate ValidStation(station: nat) { 1 <= station <= MAX_STATIONS }

  /** The lease, on any station or the intake seat, for this topic with this id. */
  predicate HoldsLease(l: Option<Lease>, topic: TopicId, id: RunId) {
    l.Some? && l.value.topic == topic && l.value.id == id
  }
  function CurrentLease(seats: seq<Seat>, intake: Option<Lease>, topic: TopicId, id: RunId): Option<Lease> {
    if seats == [] then (if HoldsLease(intake, topic, id) then intake else None)
    else if HoldsLease(seats[0].current, topic, id) then seats[0].current
    else CurrentLease(seats[1..], intake, topic, id)
  }

  function LeaseOf(s: State, topic: TopicId, id: RunId): Option<Lease> {
    CurrentLease(s.seats, s.intake, topic, id)
  }

  /** The revision moves by one when a transaction changed anything but the history. */
  function Commit(before: State, after: State): State {
    if before.(history := after.history) == after then after else after.(revision := before.revision + 1)
  }

  /** The state after a transaction. */
  function After<T>(before: State, o: Outcome<T>): State {
    match o
    case Done(s, _) => Commit(before, s)
    case Refused(_) => before
  }
}
