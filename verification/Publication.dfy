/** Recoverable decision publication: callers, the publication lock, contract files and journals around the store. */
module Publication {
  import opened Common
  import opened ControlRecords
  import opened Scheduler
  import opened Checkpoints
  import opened Runs
  import Contracts
  import GuardedWrites
  import SemanticState

  type CallerId = nat

  /** Where a call of `apply_decision` stands. */
  datatype Pc =
    | Fresh                                                       // about to take its snapshot
    | Deciding(seen: nat)                           // the snapshot, at this revision, had no decision and no intent
    | Waiting                                                     // about to take the publication lock
    | Opening                                                     // holds the lock, about to read the store again
    | WritingState(read: Payload, bundle: Bundle)   // `read` is the payload of the intent it read inside the lock
    | WritingText(read: Payload, bundle: Bundle)
    | Measuring(read: Payload, bundle: Bundle)      // both files written, about to compute the lock
    | Storing(read: Payload, prepared: Option<Bundle>, receipt: Option<Receipt>)   // about to commit
    | CleanWaiting(done: Receipt, result: DecisionResult)   // a replay, about to take the lock to clean up
    | Cleaning(done: Receipt, result: DecisionResult)       // holds the lock, about to read the journal
    | Unlinking(done: Receipt, result: DecisionResult)      // the journal carries this identity
    | Returned(result: DecisionResult)
    | Failed(error: Error)

  datatype Caller = Caller(request: RequestId, payload: Payload, pc: Pc)

  /** Kept only to state properties: `begun` holds the publications whose first file write happened and whose commit has
      not; `touched` the topics an agent wrote since the last publication wrote their state file; `strays` the topics
      whose last lock came with the publication of another decision, and that lock. */
  datatype World = World(store: State, files: map<TopicId, Contract>, journals: map<TopicId, Bundle>,
                         holder: Option<CallerId>,
                         callers: map<CallerId, Caller>, begun: set<(RequestId, Payload)>, touched: set<TopicId>,
                         strays: map<TopicId, Lock>)

  // ---------- Preparing a bundle ----------

  /** The approved proposals of a decision, with the action that approves each. */
  function Approvals(proposals: map<ProposalId, Proposal>, cs: seq<Choice>): seq<(Content, Action)> {
    if cs == [] then []
    else
      var c := cs[|cs| - 1];
      Approvals(proposals, cs[..|cs| - 1]) +
      if c.action == Reject || c.proposal !in proposals then [] else [(proposals[c.proposal].content, c.action)]
  }

  /** The bundle a decision would publish. A journal of the same identity is taken over, one of another blocks;
      None when the publisher raises. */
  function Prepare(w: World, p: Payload): Option<Bundle> {
    if p.topic !in w.files then None
    else Contracts.Prepared(w.files[p.topic], if p.topic in w.journals then Some(w.journals[p.topic]) else None,
                            Approved(p.choices), Approvals(w.store.proposals, p.choices))
  }

  function Intended(w: World, p: Payload, request: RequestId): Outcome<Option<DecisionResult>> {
    DecisionIntent(w.store, request, p, Prepare(w, p))
  }

  /** The journal is on disk before the intent is. */
  function Journaled(w: World, p: Payload): map<TopicId, Bundle> {
    if Approved(p.choices) != [] && Prepare(w, p).Some? then w.journals[p.topic := Prepare(w, p).value] else w.journals
  }

  // ---------- Steps ----------

  /** A caller advances as its place says; it may die anywhere, and also between writing the journal and recording the
      intent. */
  datatype Step =
    | Spawn(caller: CallerId, request: RequestId, payload: Payload)
    | Advance(caller: CallerId)
    | Abort(caller: CallerId)
    | Crash(caller: CallerId)
    | Transact(op: Op)                 // any other controller transaction
    | AgentWrite(topic: TopicId, lease: RunId, disk: SemanticState.Files, write: GuardedWrites.Write)

  function At(w: World, c: CallerId, pc: Pc): map<CallerId, Caller>
    requires c in w.callers
  {
    w.callers[c := w.callers[c].(pc := pc)]
  }

  /** The publication lock has nobody, or a caller that no longer exists; the system frees it when its holder dies. */
  function Leave(w: World, c: CallerId, pc: Pc): World
    requires c in w.callers
  {
    w.(callers := At(w, c, pc), holder := None)
  }

  function SnapshotPc(s: State, request: RequestId, p: Payload): Pc {
    if request in s.decisions then
      if s.decisions[request].payload != p then Failed(DuplicateRequest)
      else if request in s.intents && s.intents[request].receipt.Some?
      then CleanWaiting(s.intents[request].receipt.value, s.decisions[request].result)
      else Returned(s.decisions[request].result)
    else if request in s.intents then
      if s.intents[request].payload != p then Failed(DuplicateRequest) else Waiting
    else Deciding(s.revision)
  }

  function AfterIntend(w: World, c: CallerId): World
    requires c in w.callers
  {
    var k := w.callers[c];
    match Intended(w, k.payload, k.request)
    case Refused(e) => w.(callers := At(w, c, Failed(e)))
    case Done(s, Some(result)) => w.(callers := At(w, c, Returned(result)))
    case Done(s, None) =>
      w.(store := Commit(w.store, s), journals := Journaled(w, k.payload), callers := At(w, c, Waiting))
  }

  function AfterOpen(w: World, c: CallerId): World
    requires c in w.callers
  {
    var k, s := w.callers[c], w.store;
    if k.request !in s.intents then Leave(w, c, Failed(ValidationError))
    else if k.request in s.decisions then
      if s.intents[k.request].receipt.Some?
      then w.(callers := At(w, c, Cleaning(s.intents[k.request].receipt.value, s.decisions[k.request].result)))
      else Leave(w, c, Returned(s.decisions[k.request].result))
    else match s.intents[k.request].prepared
      case None => w.(callers := At(w, c, Storing(s.intents[k.request].payload, None, None)))
      case Some(b) => w.(callers := At(w, c, WritingState(s.intents[k.request].payload, b)))
  }

  function FileOf(w: World, t: TopicId, b: Bundle): Contract {
    if t in w.files then w.files[t] else b.contract
  }

  /** The intent this caller read is still the one on record. */
  predicate ReadsLast(w: World, k: Caller)
    requires k.pc.Storing?
  {
    k.request in w.store.intents && w.store.intents[k.request].payload == k.pc.read
  }

  /** A commit ends its publication, unless it commits another decision than the one published. */
  function BegunAfter(w: World, k: Caller): set<(RequestId, Payload)>
    requires k.pc.Storing?
  {
    if k.pc.receipt.Some? && ReadsLast(w, k) then w.begun - {(k.request, k.pc.read)} else w.begun
  }

  function StraysAfter(w: World, k: Caller): map<TopicId, Lock>
    requires k.pc.Storing?
  {
    if k.pc.receipt.None? || k.request !in w.store.intents then w.strays
    else if ReadsLast(w, k) then w.strays - {k.pc.read.topic}
    else w.strays[w.store.intents[k.request].payload.topic := k.pc.receipt.value.lock]
  }

  /** The commit takes the decision from the intent then on record, and the lock from what this caller published. */
  function AfterRecord(w: World, c: CallerId): World
    requires c in w.callers && w.callers[c].pc.Storing?
  {
    var k := w.callers[c];
    var o := CommitDecision(w.store, k.request, k.pc.receipt);
    match o
    case Refused(e) => Leave(w, c, Failed(e))
    case Done(s, result) =>
      var next := w.(store := After(w.store, o), begun := BegunAfter(w, k), strays := StraysAfter(w, k));
      if k.pc.receipt.Some? then next.(callers := At(w, c, Cleaning(k.pc.receipt.value, result)))
      else Leave(next, c, Returned(result))
  }

  /** Some publication of this topic has written a file and has not committed. */
  predicate MidPublication(w: World, t: TopicId) {
    exists x | x in w.begun :: x.1.topic == t
  }

  /** The lock that the last commit of the topic left: the inventory of its state file on disk, or the one it took from
      the publication of another decision. */
  function LastLock(w: World, t: TopicId): Lock
    requires t in w.files
  {
    if t in w.strays then w.strays[t] else SemanticState.InventoryProjection(w.files[t].state)
  }

  /** A pinned item has that lock, except in the middle of a publication. */
  predicate LockAgrees(w: World, i: Item) {
    i.lock.Pinned? && i.id in w.files && !MidPublication(w, i.id) ==> i.lock.lock == LastLock(w, i.id)
  }

  /** Queue edits bring in only items whose lock agrees. */
  predicate EditAgrees(w: World, op: Op) {
    op.Editing? ==> forall i | i in op.items :: LockAgrees(w, i)
  }

  predicate Dies(w: World, k: Caller) {
    k.pc.Deciding? && k.request !in w.store.decisions && Intended(w, k.payload, k.request).Done?
  }

  predicate Enabled(w: World, step: Step) {
    match step
    case Spawn(c, _, _) => c !in w.callers
    case Advance(c) => c in w.callers && (w.callers[c].pc.Waiting? || w.callers[c].pc.CleanWaiting? ==> w.holder.None?)
    case Abort(c) => c in w.callers && Dies(w, w.callers[c])
    case Crash(c) => c in w.callers
    case Transact(op) =>
      |w.store.seats| == MAX_STATIONS && Allowed(w.store, op) && !op.Intending? && !op.Committing? && EditAgrees(w, op)
    case AgentWrite(t, lease, disk, write) =>
      LeaseOf(w.store, t, lease).Some? && t in w.files && GuardedWrites.WriteOf(disk, w.files[t].state, write).Ok?
  }

  function AfterSpawn(w: World, c: CallerId, request: RequestId, p: Payload): World {
    w.(callers := w.callers[c := Caller(request, p, Fresh)])
  }

  function AfterSnapshot(w: World, c: CallerId): World
    requires c in w.callers
  {
    w.(callers := At(w, c, SnapshotPc(w.store, w.callers[c].request, w.callers[c].payload)))
  }

  function AfterAbort(w: World, c: CallerId): World
    requires c in w.callers
  {
    w.(journals := Journaled(w, w.callers[c].payload), callers := w.callers - {c})
  }

  function AfterAcquire(w: World, c: CallerId): World
    requires c in w.callers && (w.callers[c].pc.Waiting? || w.callers[c].pc.CleanWaiting?)
  {
    w.(holder := Some(c), callers := At(w, c, if w.callers[c].pc.Waiting? then Opening
                                              else Cleaning(w.callers[c].pc.done, w.callers[c].pc.result)))
  }

  function AfterWriteState(w: World, c: CallerId): World
    requires c in w.callers && w.callers[c].pc.WritingState?
  {
    var k, p, b := w.callers[c], w.callers[c].pc.read, w.callers[c].pc.bundle;
    w.(files := w.files[p.topic := FileOf(w, p.topic, b).(state := b.contract.state)],
       begun := w.begun + {(k.request, p)}, touched := w.touched - {p.topic}, callers := At(w, c, WritingText(p, b)))
  }

  function AfterWriteText(w: World, c: CallerId): World
    requires c in w.callers && w.callers[c].pc.WritingText?
  {
    var p, b := w.callers[c].pc.read, w.callers[c].pc.bundle;
    w.(files := w.files[p.topic := FileOf(w, p.topic, b).(text := b.contract.text)],
      callers := At(w, c, Measuring(p, b)))
  }

  function AfterMeasure(w: World, c: CallerId): World
    requires c in w.callers && w.callers[c].pc.Measuring?
  {
    var p, b := w.callers[c].pc.read, w.callers[c].pc.bundle;
    var lock := SemanticState.InventoryProjection(FileOf(w, p.topic, b).state);
    w.(callers := At(w, c, Storing(p, Some(b), Some(Receipt(lock, p.topic, b.identity)))))
  }

  function AfterReadJournal(w: World, c: CallerId): World
    requires c in w.callers && w.callers[c].pc.Cleaning?
  {
    var done, result := w.callers[c].pc.done, w.callers[c].pc.result;
    if done.topic in w.journals && w.journals[done.topic].identity == done.identity
    then w.(callers := At(w, c, Unlinking(done, result)))
    else Leave(w, c, Returned(result))
  }

  function AfterUnlink(w: World, c: CallerId): World
    requires c in w.callers && w.callers[c].pc.Unlinking?
  {
    Leave(w, c, Returned(w.callers[c].pc.result)).(journals := w.journals - {w.callers[c].pc.done.topic})
  }

  function AfterCrash(w: World, c: CallerId): World {
    w.(callers := w.callers - {c}, holder := if w.holder == Some(c) then None else w.holder)
  }

  function AfterAgentWrite(w: World, t: TopicId, disk: SemanticState.Files, write: GuardedWrites.Write): World
    requires t in w.files && GuardedWrites.WriteOf(disk, w.files[t].state, write).Ok?
  {
    w.(files := w.files[t := w.files[t].(state := GuardedWrites.WriteOf(disk, w.files[t].state, write).value)],
       touched := w.touched + {t})
  }

  function Advanced(w: World, c: CallerId): World
    requires c in w.callers
  {
    match w.callers[c].pc
    case Fresh => AfterSnapshot(w, c)
    case Deciding(_) => AfterIntend(w, c)
    case Waiting => AfterAcquire(w, c)
    case CleanWaiting(_, _) => AfterAcquire(w, c)
    case Opening => AfterOpen(w, c)
    case WritingState(_, _) => AfterWriteState(w, c)
    case WritingText(_, _) => AfterWriteText(w, c)
    case Measuring(_, _) => AfterMeasure(w, c)
    case Storing(_, _, _) => AfterRecord(w, c)
    case Cleaning(_, _) => AfterReadJournal(w, c)
    case Unlinking(_, _) => AfterUnlink(w, c)
    case _ => w
  }

  function Next(w: World, step: Step): World
    requires Enabled(w, step)
  {
    match step
    case Spawn(c, request, p) => AfterSpawn(w, c, request, p)
    case Advance(c) => Advanced(w, c)
    case Abort(c) => AfterAbort(w, c)
    case Crash(c) => AfterCrash(w, c)
    case Transact(op) => w.(store := Apply(w.store, op))
    case AgentWrite(t, lease, disk, write) => AfterAgentWrite(w, t, disk, write)
  }
}
