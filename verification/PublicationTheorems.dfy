/** What publication guarantees along every trace of callers, crashes, agent writes and controller transactions. */
module PublicationTheorems {
  import opened Common
  import opened ControlRecords
  import opened Scheduler
  import opened Checkpoints
  import opened Episodes
  import opened Reviews
  import opened EpisodeSteps
  import opened OperatorSteps
  import opened Runs
  import opened Bystanders
  import opened Publication
  import opened PublicationSafety
  import GuardedWrites
  import SemanticState

  /** The step of each place a caller can be in. */
  lemma AdvancedIs(w: World, c: CallerId)
    requires hide *; true
    requires c in w.callers
    ensures match w.callers[c].pc
            case Fresh => Advanced(w, c) == AfterSnapshot(w, c)
            case Deciding(_) => Advanced(w, c) == AfterIntend(w, c)
            case Waiting => Advanced(w, c) == AfterAcquire(w, c)
            case Opening => Advanced(w, c) == AfterOpen(w, c)
            case WritingState(_, _) => Advanced(w, c) == AfterWriteState(w, c)
            case WritingText(_, _) => Advanced(w, c) == AfterWriteText(w, c)
            case Measuring(_, _) => Advanced(w, c) == AfterMeasure(w, c)
            case Storing(_, _, _) => Advanced(w, c) == AfterRecord(w, c)
            case CleanWaiting(_, _) => Advanced(w, c) == AfterAcquire(w, c)
            case Cleaning(_, _) => Advanced(w, c) == AfterReadJournal(w, c)
            case Unlinking(_, _) => Advanced(w, c) == AfterUnlink(w, c)
            case Returned(_) => Advanced(w, c) == w
            case Failed(_) => Advanced(w, c) == w
  {
    hide AfterSnapshot, AfterIntend, AfterAcquire, AfterOpen, AfterWriteState, AfterWriteText, AfterMeasure,
      AfterRecord, AfterReadJournal, AfterUnlink;
  }

  // ---------- Every step keeps the invariants ----------

  lemma IntendKeepsGood(w: World, c: CallerId)
    requires hide *; true
    requires Good(w.store) && c in w.callers && w.callers[c].pc.Deciding?
    ensures Good(AfterIntend(w, c).store)
  {
    hide Good, Prepare, DecisionIntent, Journaled;
    var k := w.callers[c];
    match Intended(w, k.payload, k.request)
    case Refused(_) =>
    case Done(_, Some(_)) =>
    case Done(s, None) => IntentKeepsGood(w.store, k.request, k.payload, Prepare(w, k.payload));
  }

  lemma IntentKeepsGood(s: State, request: RequestId, p: Payload, bundle: Option<Bundle>)
    requires Good(s)
    ensures Good(After(s, DecisionIntent(s, request, p, bundle)))
  {
    hide *;
    GoodParts(s);
    GoodSeats(s);
    ApplyIs(s, Intending(request, p, bundle));
    IntendAllowed(s, request, p, bundle);
    StepKeepsGood(s, Intending(request, p, bundle));
  }

  lemma IntendAllowed(s: State, request: RequestId, p: Payload, bundle: Option<Bundle>)
    ensures Allowed(s, Intending(request, p, bundle))
  {
  }

  lemma CommitGoesThrough(w: World, c: CallerId)
    requires hide *; true
    requires Good(w.store) && c in w.callers && CallerKnows(w.store, w.callers[c]) && w.callers[c].pc.Storing?
    ensures CommitDecision(w.store, w.callers[c].request, w.callers[c].pc.receipt).Done?
  {
    hide ReviewGood, CommitDecision;
    CommitKeepsReviews(w.store, w.callers[c].request, w.callers[c].pc.receipt);
  }

  lemma CommittedKeepsGood(s: State, request: RequestId, receipt: Option<Receipt>)
    requires Good(s)
    ensures Good(After(s, CommitDecision(s, request, receipt)))
  {
    hide *;
    GoodParts(s);
    GoodSeats(s);
    ApplyIs(s, Committing(request, receipt));
    CommitAllowed(s, request, receipt);
    StepKeepsGood(s, Committing(request, receipt));
  }

  lemma CommitAllowed(s: State, request: RequestId, receipt: Option<Receipt>)
    ensures Allowed(s, Committing(request, receipt))
  {
  }

  lemma RecordKeepsGood(w: World, c: CallerId)
    requires hide *; true
    requires Good(w.store) && c in w.callers && CallerKnows(w.store, w.callers[c]) && w.callers[c].pc.Storing?
    ensures CommitDecision(w.store, w.callers[c].request, w.callers[c].pc.receipt).Done?
            && Good(AfterRecord(w, c).store)
  {
    hide *;
    CommitGoesThrough(w, c);
    CommittedKeepsGood(w.store, w.callers[c].request, w.callers[c].pc.receipt);
    RecordStores(w, c);
  }

  lemma EditAgreesIs(w: World, op: Op)
    requires EditAgrees(w, op)
    ensures op.Editing? ==> forall i | i in op.items :: LockAgrees(w, i)
  {
    hide LockAgrees;
  }

  lemma TransactKeeps(w: World, op: Op)
    requires hide *; true
    requires Good(w.store) && ProtocolInv(w) && |w.store.seats| == MAX_STATIONS && Allowed(w.store, op)
             && !op.Intending? && !op.Committing? && EditAgrees(w, op)
    ensures Good(Apply(w.store, op)) && ProtocolInv(w.(store := Apply(w.store, op)))
  {
    hide *;
    StepKeepsGood(w.store, op);
    EditAgreesIs(w, op);
    ApplyIs(w.store, op);
    if op.Editing? {
      EditKeeps(w, op.items, op.paused, op.stopping);
    } else {
      StepBystander(w.store, op);
      BystanderKeeps(w, Apply(w.store, op));
    }
  }

  /** A caller's steps that leave the store alone. */
  lemma AdvanceKeeps(w: World, c: CallerId)
    requires hide *; true
    requires Good(w.store) && ProtocolInv(w) && c in w.callers
    requires w.callers[c].pc.Waiting? || w.callers[c].pc.CleanWaiting? ==> w.holder.None?
    requires !w.callers[c].pc.Deciding? && !w.callers[c].pc.Storing?
    ensures ProtocolInv(Advanced(w, c))
  {
    hide *;
    AdvancedIs(w, c);
    match w.callers[c].pc
    case Fresh => SnapshotKeeps(w, c);
    case Waiting => AcquireKeeps(w, c);
    case CleanWaiting(_, _) => AcquireKeeps(w, c);
    case Opening => OpenKeeps(w, c);
    case Cleaning(_, _) => ReadJournalKeeps(w, c);
    case Unlinking(_, _) => UnlinkKeeps(w, c);
    case WritingState(_, _) => WriteStateKeeps(w, c);
    case WritingText(_, _) => WriteTextKeeps(w, c);
    case Measuring(_, _) => MeasureKeeps(w, c);
    case _ =>
  }

  lemma ProtocolParts(w: World)
    requires ProtocolInv(w)
    ensures CallersInv(w) && StoreInv(w.store)
  {
    hide CallersInv, StoreInv, HolderInv, JournalInv, LocksInv;
  }

  lemma KnownAt(w: World, c: CallerId)
    requires CallersInv(w) && c in w.callers
    ensures CallerKnows(w.store, w.callers[c]) && FilesFit(w, w.callers[c])
  {
    hide CallerKnows, FilesFit;
  }

  lemma CallerStepKeeps(w: World, c: CallerId)
    requires hide *; true
    requires Good(w.store) && ProtocolInv(w) && c in w.callers
    requires w.callers[c].pc.Waiting? || w.callers[c].pc.CleanWaiting? ==> w.holder.None?
    ensures Good(Advanced(w, c).store) && ProtocolInv(Advanced(w, c))
  {
    hide *;
    AdvancedIs(w, c);
    ProtocolParts(w);
    match w.callers[c].pc
    case Deciding(_) =>
      IntendKeeps(w, c);
      IntendKeepsGood(w, c);
    case Storing(_, _, _) =>
      KnownAt(w, c);
      RecordKeepsGood(w, c);
      RecordKeeps(w, c);
    case _ =>
      AdvanceLeavesStore(w, c);
      AdvanceKeeps(w, c);
  }

  // ---------- Traces ----------

  /** No caller yet; files, journals and the queue are arbitrary as long as the queue's locks match the files. */
  ghost predicate InitialWorld(w: World) {
    Initial(w.store) && w.callers == map[] && w.holder.None? && w.begun == {} && w.touched == {} && w.strays == map[]
      && LocksInv(w)
  }

  /** The step is possible in w and leads to o. */
  predicate Leads(w: World, step: Step, o: World) { Enabled(w, step) && o == Next(w, step) }

  /** What each step is possible on, and what it leads to. */
  lemma LeadsIs(w: World, step: Step, o: World)
    requires hide *; true
    requires Leads(w, step, o)
    ensures match step
            case Spawn(c, request, p) => c !in w.callers && o == AfterSpawn(w, c, request, p) && o.store == w.store
            case Advance(c) =>
              && c in w.callers && (w.callers[c].pc.Waiting? || w.callers[c].pc.CleanWaiting? ==> w.holder.None?)
              && o == Advanced(w, c)
            case Abort(c) =>
              c in w.callers && w.callers[c].pc.Deciding? && o == AfterAbort(w, c) && o.store == w.store
            case Crash(c) => c in w.callers && o == AfterCrash(w, c) && o.store == w.store
            case Transact(op) =>
              && |w.store.seats| == MAX_STATIONS && Allowed(w.store, op) && !op.Intending? && !op.Committing?
              && EditAgrees(w, op) && o == w.(store := Apply(w.store, op))
            case AgentWrite(t, lease, disk, write) =>
              && LeaseOf(w.store, t, lease).Some? && t in w.files
              && GuardedWrites.WriteOf(disk, w.files[t].state, write).Ok?
              && o == AfterAgentWrite(w, t, disk, write) && o.store == w.store
  {
    hide Apply, Allowed, Advanced, EditAgrees, Journaled, GuardedWrites.WriteOf, Publication.Intended;
  }

  ghost predicate Trace(worlds: seq<World>, steps: seq<Step>) {
    && |worlds| == |steps| + 1 && InitialWorld(worlds[0])
    && (forall i | 0 <= i < |steps| :: Leads(worlds[i], steps[i], worlds[i + 1]))
  }

  lemma TraceShape(worlds: seq<World>, steps: seq<Step>)
    requires hide *; true
    requires Trace(worlds, steps)
    ensures |worlds| == |steps| + 1 && InitialWorld(worlds[0])
  {
    hide InitialWorld, Leads;
  }

  lemma TraceLeads(worlds: seq<World>, steps: seq<Step>, i: nat)
    requires hide *; true
    requires Trace(worlds, steps) && i < |steps|
    ensures |worlds| == |steps| + 1 && Leads(worlds[i], steps[i], worlds[i + 1])
  {
    hide InitialWorld, Leads;
  }

  ghost predicate Safe(w: World) { Good(w.store) && ProtocolInv(w) }

  lemma SafeParts(w: World)
    requires Safe(w)
    ensures Good(w.store) && ProtocolInv(w) && CallersInv(w) && StoreInv(w.store)
  {
    hide Good, CallersInv, StoreInv, HolderInv, JournalInv, LocksInv;
  }

  lemma SafeWhole(w: World)
    requires Good(w.store) && ProtocolInv(w)
    ensures Safe(w)
  {
    hide Good, ProtocolInv;
  }

  lemma InitialSafe(w: World)
    requires InitialWorld(w)
    ensures Safe(w)
  {
    hide Good;
    InitialGood(w.store);
  }

  /** Every step keeps the store's invariants and the protocol's. */
  lemma StepSafe(w: World, step: Step, o: World)
    requires Safe(w) && Leads(w, step, o)
    ensures Safe(o)
  {
    hide *;
    SafeParts(w);
    LeadsIs(w, step, o);
    match step {
      case Spawn(c, request, p) => SpawnKeeps(w, c, request, p);
      case Advance(c) => CallerStepKeeps(w, c);
      case Abort(c) => DecidingIsOut(w.callers[c].pc); AbortKeeps(w, c);
      case Crash(c) => CrashKeeps(w, c);
      case Transact(op) => TransactKeeps(w, op);
      case AgentWrite(t, lease, disk, write) => AgentWriteKeeps(w, t, disk, write);
    }
    SafeWhole(o);
  }

  lemma DecidingIsOut(pc: Pc)
    requires pc.Deciding?
    ensures !Locked(pc)
  {
  }

  lemma TraceSafe(worlds: seq<World>, steps: seq<Step>, i: nat)
    requires hide *; true
    requires Trace(worlds, steps) && i < |worlds|
    ensures Safe(worlds[i]) && Good(worlds[i].store) && ProtocolInv(worlds[i])
  {
    hide *;
    TraceShape(worlds, steps);
    InitialSafe(worlds[0]);
    forall k | 0 < k <= i && Safe(worlds[k - 1]) ensures Safe(worlds[k]) {
      TraceLeads(worlds, steps, k - 1);
      StepSafe(worlds[k - 1], steps[k - 1], worlds[k]);
    }
    Invariantly(Safe, worlds, i);
    SafeParts(worlds[i]);
  }

  /** What one caller may rely on, at any moment of a trace. */
  lemma TraceCaller(worlds: seq<World>, steps: seq<Step>, i: nat, c: CallerId)
    requires hide *; true
    requires Trace(worlds, steps) && i < |worlds| && c in worlds[i].callers
    ensures CallerKnows(worlds[i].store, worlds[i].callers[c]) && FilesFit(worlds[i], worlds[i].callers[c])
  {
    hide Trace, Good;
    TraceSafe(worlds, steps, i);
  }

  /** The completion lock of every pinned queue item is the inventory of its state file, at every moment its topic is
      not between the first file write and the commit of a publication; unless the topic's last lock came with the
      publication of another decision: then it is that lock, which agrees only by coincidence. */
  lemma LocksAgree(worlds: seq<World>, steps: seq<Step>, i: nat, item: Item)
    requires hide *; true
    requires Trace(worlds, steps) && i < |worlds| && item in worlds[i].store.items && item.lock.Pinned?
             && item.id in worlds[i].files
    requires !MidPublication(worlds[i], item.id)
    ensures var w := worlds[i];
            item.lock.lock == if item.id in w.strays then w.strays[item.id]
              else SemanticState.InventoryProjection(w.files[item.id].state)
  {
    hide Trace, Good;
    TraceSafe(worlds, steps, i);
    assert LockAgrees(worlds[i], item);
  }

  /** The step advances a caller. */
  predicate ByCaller(w: World, step: Step) {
    step.Advance? && step.caller in w.callers
  }

  /** At a commit the contract files hold the prepared bundle of the payload its publisher read: TOPIC.md and the
      inventory always, the whole state file unless an agent wrote it since the publication did; every queue item of the
      decided topic gets that inventory as its lock; and the payload decided is the one published exactly when its
      intent was not replaced. */
  lemma PublishedExactly(worlds: seq<World>, steps: seq<Step>, i: nat, b: Bundle)
    requires hide Leads; true
    requires Trace(worlds, steps) && i < |steps| && ByCaller(worlds[i], steps[i])
    requires worlds[i].callers[steps[i].caller].pc.Storing? && worlds[i].callers[steps[i].caller].pc.prepared == Some(b)
    ensures var w, k := worlds[i], worlds[i].callers[steps[i].caller];
            Reads(w.store, k, k.pc.read, Some(b)) && CommitsBundle(w, worlds[i + 1], k, b)
  {
    hide Trace, Good, CommitsBundle, Reads, AfterRecord;
    TraceCommits(worlds, steps, i);
    TraceSafe(worlds, steps, i);
    CommitPublishes(worlds[i], steps[i].caller, b);
  }

  lemma TraceCommits(worlds: seq<World>, steps: seq<Step>, i: nat)
    requires hide AfterRecord, Leads; true
    requires Trace(worlds, steps) && i < |steps| && ByCaller(worlds[i], steps[i])
             && worlds[i].callers[steps[i].caller].pc.Storing?
    ensures |worlds| == |steps| + 1 && worlds[i + 1] == AfterRecord(worlds[i], steps[i].caller)
  {
    hide AfterRecord, Trace, Leads, Apply, GuardedWrites.WriteOf, Prepare, AfterIntend;
    TraceLeads(worlds, steps, i);
    LeadsIs(worlds[i], steps[i], worlds[i + 1]);
    AdvancedIs(worlds[i], steps[i].caller);
  }

  ghost predicate CommitsBundle(w: World, o: World, k: Caller, b: Bundle)
    requires k.pc.Storing?
  {
    var t, lock := k.pc.read.topic, SemanticState.InventoryProjection(b.contract.state);
    && o.files == w.files && t in w.files && w.files[t].text == b.contract.text
    && SemanticState.InventoryProjection(w.files[t].state) == lock
    && (t !in w.touched ==> w.files[t] == b.contract)
    && k.request in o.store.decisions
    && (o.store.decisions[k.request].payload == k.pc.read <==> (k.request, k.pc.read) !in w.store.history.replaced)
    && (forall j | j in o.store.items && j.id == o.store.decisions[k.request].payload.topic :: j.lock == Pinned(lock))
    && o.strays == if o.store.decisions[k.request].payload == k.pc.read then w.strays - {t}
                   else w.strays[o.store.decisions[k.request].payload.topic := lock]
  }

  lemma ReplacedIsNotOnRecord(s: State, r: RequestId, p: Payload)
    requires hide *; true
    requires Good(s) && (r, p) in s.history.replaced
    ensures r in s.intents && s.intents[r].payload.episode != p.episode
  {
    assert Lost(s.episodes, s.proposals, s.intents, s.decisions, (r, p).0, (r, p).1);
  }

  lemma OnRecordOrReplaced(s: State, r: RequestId, p: Payload)
    requires hide Good; true
    requires Good(s) && Holds(s, r, p)
    ensures s.intents[r].payload == p <==> (r, p) !in s.history.replaced
  {
    hide Good;
    if (r, p) in s.history.replaced { ReplacedIsNotOnRecord(s, r, p); }
  }

  lemma CommitPublishes(w: World, c: CallerId, b: Bundle)
    requires hide *; true
    requires Good(w.store) && CallersInv(w) && c in w.callers && w.callers[c].pc.Storing?
             && w.callers[c].pc.prepared == Some(b)
    ensures Reads(w.store, w.callers[c], w.callers[c].pc.read, Some(b))
            && CommitsBundle(w, AfterRecord(w, c), w.callers[c], b)
  {
    hide Good, AfterRecord, CommitDecision;
    var k := w.callers[c];
    assert CallerKnows(w.store, k) && FilesFit(w, k);
    CommitGoesThrough(w, c);
    CommitLeaves(w, c, CommitDecision(w.store, k.request, k.pc.receipt));
    OnRecordOrReplaced(w.store, k.request, k.pc.read);
    LeavesBundle(w, AfterRecord(w, c), k, b, CommitDecision(w.store, k.request, k.pc.receipt).value);
  }

  lemma CommitLeaves(w: World, c: CallerId, commit: Outcome<DecisionResult>)
    requires c in w.callers && w.callers[c].pc.Storing?
             && commit == CommitDecision(w.store, w.callers[c].request, w.callers[c].pc.receipt)
    requires commit.Done? && Undecided(w.store.intents, w.store.decisions, w.callers[c].request)
    ensures var k, o := w.callers[c], AfterRecord(w, c);
            && o.files == w.files && o.strays == StraysAfter(w, k)
            && Concludes(w.store, o.store, k.request, k.pc.receipt, commit.value)
            && o.store.items == DecidedItems(w.store.items, w.store.intents[k.request].payload.topic,
                 LockOf(k.pc.receipt))
  {
    RecordedWorld(w, c, commit);
    CommitShape(w.store, w.callers[c].request, w.callers[c].pc.receipt);
  }

  lemma LeavesBundle(w: World, o: World, k: Caller, b: Bundle, result: DecisionResult)
    requires k.pc.Storing? && k.pc.prepared == Some(b) && CallerKnows(w.store, k) && FilesFit(w, k)
    requires w.store.intents[k.request].payload == k.pc.read <==> (k.request, k.pc.read) !in w.store.history.replaced
    requires o.files == w.files && o.strays == StraysAfter(w, k)
             && Concludes(w.store, o.store, k.request, k.pc.receipt, result)
    requires o.store.items == DecidedItems(w.store.items, w.store.intents[k.request].payload.topic,
             LockOf(k.pc.receipt))
    ensures CommitsBundle(w, o, k, b)
  {
  }

  /** A publisher that read approvals has a bundle for them; a commit decides approvals without one only when another
      payload replaced the intent its caller read. */
  lemma ApprovalsPublished(worlds: seq<World>, steps: seq<Step>, i: nat)
    requires hide Leads; true
    requires Trace(worlds, steps) && i < |steps| && ByCaller(worlds[i], steps[i])
             && worlds[i].callers[steps[i].caller].pc.Storing?
    ensures var w, o, k := worlds[i], worlds[i + 1], worlds[i].callers[steps[i].caller];
            && (k.pc.prepared.Some? <==> Approved(k.pc.read.choices) != []) && k.request in o.store.decisions
            && (k.pc.prepared.None? && Approved(o.store.decisions[k.request].payload.choices) != [] ==>
                  (k.request, k.pc.read) in w.store.history.replaced)
  {
    hide Trace, Good, AfterRecord;
    TraceCommits(worlds, steps, i);
    TraceSafe(worlds, steps, i);
    CommitsRead(worlds[i], steps[i].caller);
  }

  lemma CommitsRead(w: World, c: CallerId)
    requires hide *; true
    requires Good(w.store) && CallersInv(w) && c in w.callers && w.callers[c].pc.Storing?
    ensures ReadDecided(w.store, AfterRecord(w, c).store, w.callers[c])
  {
    hide Good, AfterRecord, CommitDecision;
    var k := w.callers[c];
    assert CallerKnows(w.store, k);
    CommitGoesThrough(w, c);
    var commit := CommitDecision(w.store, k.request, k.pc.receipt);
    CommitLeaves(w, c, commit);
    ConcludesRead(w.store, AfterRecord(w, c).store, k, commit.value);
  }

  predicate ReadDecided(s: State, t: State, k: Caller)
    requires k.pc.Storing?
  {
    && BundleFor(k.pc.read, k.pc.prepared) && k.request in t.decisions
    && (t.decisions[k.request].payload == k.pc.read <==> (k.request, k.pc.read) !in s.history.replaced)
  }

  lemma ConcludesRead(s: State, t: State, k: Caller, result: DecisionResult)
    requires hide *; true
    requires Good(s) && CallerKnows(s, k) && k.pc.Storing? && Concludes(s, t, k.request, k.pc.receipt, result)
    ensures ReadDecided(s, t, k)
  {
    hide Good;
    OnRecordOrReplaced(s, k.request, k.pc.read);
  }

  /** No step of a committed request writes a contract file. */
  lemma CommittedNeverWrites(worlds: seq<World>, steps: seq<Step>, i: nat)
    requires hide Leads; true
    requires Trace(worlds, steps) && i < |steps| && ByCaller(worlds[i], steps[i])
    requires worlds[i].callers[steps[i].caller].request in worlds[i].store.decisions
    ensures worlds[i + 1].files == worlds[i].files
  {
    hide Trace, Leads, Advanced, CallerKnows, FilesFit, Apply, GuardedWrites.WriteOf, AfterAbort;
    TraceLeads(worlds, steps, i);
    LeadsIs(worlds[i], steps[i], worlds[i + 1]);
    TraceCaller(worlds, steps, i, steps[i].caller);
    DecidedStepKeepsFiles(worlds[i], steps[i].caller);
  }

  lemma DecidedStepKeepsFiles(w: World, c: CallerId)
    requires hide *; true
    requires c in w.callers && CallerKnows(w.store, w.callers[c]) && w.callers[c].request in w.store.decisions
    ensures Advanced(w, c).files == w.files
  {
    hide CommitDecision, SnapshotPc, DecisionIntent, Prepare, Journaled;
  }

  /** A journal is removed only by the publication whose receipt names it, once that is committed: the one of the
      decision on record, or of a decision whose intent was replaced; an undecided publication keeps its own. */
  lemma JournalOwned(worlds: seq<World>, steps: seq<Step>, i: nat, t: TopicId)
    requires hide Leads; true
    requires Trace(worlds, steps) && i < |steps| && t in worlds[i].journals && t !in worlds[i + 1].journals
    ensures ByCaller(worlds[i], steps[i])
    ensures Clears(worlds[i], worlds[i].callers[steps[i].caller], t)
  {
    hide Trace, Leads, Clears, Safe, Good, ProtocolInv;
    TraceLeads(worlds, steps, i);
    TraceSafe(worlds, steps, i);
    JournalRemoved(worlds[i], steps[i], worlds[i + 1], t);
  }

  ghost predicate Clears(w: World, k: Caller, t: TopicId)
    requires t in w.journals
  {
    && k.request in w.store.decisions && k.request in w.store.intents && w.store.intents[k.request].receipt.Some?
    && var done := w.store.intents[k.request].receipt.value;
       done.topic == t && done.identity == w.journals[t].identity && Receipted(w.store, k.request, done)
  }

  lemma JournalRemoved(w: World, step: Step, o: World, t: TopicId)
    requires hide Leads, Safe; true
    requires Safe(w) && Leads(w, step, o) && t in w.journals && t !in o.journals
    ensures ByCaller(w, step)
    ensures Clears(w, w.callers[step.caller], t)
  {
    hide Good, ProtocolInv, Safe, Leads, Advanced, Clears, CallersInv, StoreInv, Apply, Allowed,
      GuardedWrites.WriteOf, EditAgrees, Prepare;
    SafeParts(w);
    LeadsIs(w, step, o);
    if step.Abort? {
      JournaledExtends(w, w.callers[step.caller].payload);
    } else if step.Advance? {
      AdvanceRemoves(w, step.caller, t);
    }
  }

  lemma AdvanceRemoves(w: World, c: CallerId, t: TopicId)
    requires hide *; true
    requires CallersInv(w) && StoreInv(w.store) && c in w.callers && t in w.journals && t !in Advanced(w, c).journals
    ensures Clears(w, w.callers[c], t)
  {
    hide AfterIntend, AfterRecord;
    var k := w.callers[c];
    assert CallerKnows(w.store, k) && FilesFit(w, k);
    if k.pc.Unlinking? { assert Receipted(w.store, k.request, k.pc.done); } else { OthersKeepJournals(w, c, t); }
  }

  lemma OthersKeepJournals(w: World, c: CallerId, t: TopicId)
    requires hide *; true
    requires c in w.callers && t in w.journals && !w.callers[c].pc.Unlinking?
    ensures t in Advanced(w, c).journals
  {
    hide Journaled, Prepare;
    if w.callers[c].pc.Deciding? { JournaledExtends(w, w.callers[c].payload); }
  }

  lemma JournalsHeld(worlds: seq<World>, steps: seq<Step>, i: nat, r: RequestId)
    requires hide Trace; true
    requires Trace(worlds, steps) && i < |worlds|
    requires Undecided(worlds[i].store.intents, worlds[i].store.decisions, r)
             && worlds[i].store.intents[r].prepared.Some?
    ensures var t := worlds[i].store.intents[r].payload.topic;
            t in worlds[i].journals && worlds[i].journals[t] == worlds[i].store.intents[r].prepared.value
  {
    hide Trace, Good;
    TraceSafe(worlds, steps, i);
  }

  // ---------- Each request commits once ----------

  ghost predicate DecisionsGrow(s: State, t: State) {
    forall r | r in s.decisions :: r in t.decisions && t.decisions[r] == s.decisions[r]
  }

  lemma AdvanceDecides(w: World, c: CallerId)
    requires hide *; true
    requires Good(w.store) && CallersInv(w) && c in w.callers
    ensures DecisionsGrow(w.store, Advanced(w, c).store)
  {
    hide *;
    AdvancedIs(w, c);
    match w.callers[c].pc
    case Storing(_, _, _) =>
      KnownAt(w, c);
      CommitAddsDecision(w, c);
    case Deciding(_) =>
      IntendDecides(w, c);
      SameDecisions(w.store, AfterIntend(w, c).store);
    case _ =>
      AdvanceLeavesStore(w, c);
      SameDecisions(w.store, Advanced(w, c).store);
  }

  lemma AdvanceLeavesStore(w: World, c: CallerId)
    requires hide *; true
    requires c in w.callers && !w.callers[c].pc.Storing? && !w.callers[c].pc.Deciding?
    ensures Advanced(w, c).store == w.store
  {
    hide AfterIntend, AfterRecord;
  }

  lemma CommitAddsDecision(w: World, c: CallerId)
    requires hide *; true
    requires Good(w.store) && c in w.callers && w.callers[c].pc.Storing? && CallerKnows(w.store, w.callers[c])
    ensures DecisionsGrow(w.store, AfterRecord(w, c).store)
  {
    hide Good, AfterRecord, CommitDecision;
    CommitGoesThrough(w, c);
    CommitDecidesOne(w.store, w.callers[c].request, w.callers[c].pc.receipt);
    RecordStores(w, c);
  }

  lemma CommitDecidesOne(s: State, request: RequestId, receipt: Option<Receipt>)
    requires Undecided(s.intents, s.decisions, request) && CommitDecision(s, request, receipt).Done?
    ensures var t := After(s, CommitDecision(s, request, receipt)); DecisionsGrow(s, t) && request in t.decisions
  {
    hide CommitDecision;
    CommitShape(s, request, receipt);
  }

  lemma RecordStores(w: World, c: CallerId)
    requires c in w.callers && w.callers[c].pc.Storing?
             && CommitDecision(w.store, w.callers[c].request, w.callers[c].pc.receipt).Done?
    ensures AfterRecord(w, c).store == After(w.store,
            CommitDecision(w.store, w.callers[c].request, w.callers[c].pc.receipt))
  {
  }

  lemma IntendDecides(w: World, c: CallerId)
    requires hide *; true
    requires c in w.callers
    ensures AfterIntend(w, c).store.decisions == w.store.decisions
  {
    hide Prepare, DecisionIntent, Journaled;
    var k := w.callers[c];
    IntentLeavesDecisions(w.store, k.request, k.payload, Prepare(w, k.payload));
    var o := Intended(w, k.payload, k.request);
    if o.Done? { CommitLeavesDecisions(w.store, o.state); }
  }

  lemma CommitLeavesDecisions(s: State, t: State)
    ensures Commit(s, t).decisions == t.decisions
  {
  }

  lemma IntentLeavesDecisions(s: State, request: RequestId, p: Payload, bundle: Option<Bundle>)
    ensures var o := DecisionIntent(s, request, p, bundle); o.Done? ==> o.state.decisions == s.decisions
  {
    if request in s.decisions {
    } else if IntentRefusal(s, p, bundle).Some? {
    } else {
      var o := DecisionIntent(s, request, p, bundle);
      assert o.Done? && o.state.decisions == s.decisions;
    }
  }

  lemma BystanderDecides(s: State, t: State)
    requires Bystander(s, t)
    ensures DecisionsGrow(s, t)
  {
  }

  lemma TransactDecides(s: State, op: Op)
    requires hide *; true
    requires Good(s) && |s.seats| == MAX_STATIONS && Allowed(s, op) && !op.Intending? && !op.Committing?
    ensures DecisionsGrow(s, Apply(s, op))
  {
    hide *;
    ApplyIs(s, op);
    if op.Editing? {
      EditFrame(s, op.items, op.paused, op.stopping);
      SameDecisions(s, Apply(s, op));
    } else {
      StepBystander(s, op);
      BystanderDecides(s, Apply(s, op));
    }
  }

  lemma StepDecides(w: World, step: Step, o: World)
    requires Safe(w) && Leads(w, step, o)
    ensures DecisionsGrow(w.store, o.store)
  {
    hide *;
    SafeParts(w);
    LeadsIs(w, step, o);
    match step
    case Advance(c) => AdvanceDecides(w, c);
    case Transact(op) => TransactDecides(w.store, op);
    case _ => SameDecisions(w.store, o.store);
  }

  lemma SameDecisions(s: State, t: State)
    requires t.decisions == s.decisions
    ensures DecisionsGrow(s, t)
  {
  }

  lemma TraceDecides(worlds: seq<World>, steps: seq<Step>, i: nat)
    requires hide *; true
    requires Trace(worlds, steps) && i < |steps|
    ensures |worlds| == |steps| + 1 && DecisionsGrow(worlds[i].store, worlds[i + 1].store)
  {
    hide *;
    TraceLeads(worlds, steps, i);
    TraceSafe(worlds, steps, i);
    StepDecides(worlds[i], steps[i], worlds[i + 1]);
  }

  /** A decision on record stays, with its result. */
  lemma DecidedForGood(worlds: seq<World>, steps: seq<Step>, i: nat, j: nat)
    requires hide *; true
    requires Trace(worlds, steps) && i <= j < |worlds|
    ensures DecisionsGrow(worlds[i].store, worlds[j].store)
  {
    hide Trace;
    TraceShape(worlds, steps);
    var states := seq(|worlds|, k requires 0 <= k < |worlds| => worlds[k].store);
    forall k | i <= k < j ensures DecisionsGrow(states[k], states[k + 1]) {
      TraceDecides(worlds, steps, k);
    }
    Stepwise(DecisionsGrow, states, i, j);
  }

  /** Every caller of a request that returns a result returns the same one: the result of its one commit. The payload
      decided is the caller's own exactly when no other payload replaced its intent. */
  lemma OneResult(worlds: seq<World>, steps: seq<Step>, i: nat, j: nat, c: CallerId, d: CallerId)
    requires hide *; true
    requires Trace(worlds, steps) && i <= j < |worlds| && c in worlds[i].callers && d in worlds[j].callers
    requires worlds[i].callers[c].pc.Returned? && worlds[j].callers[d].pc.Returned?
             && worlds[i].callers[c].request == worlds[j].callers[d].request
    ensures worlds[i].callers[c].pc.result == worlds[j].callers[d].pc.result
    ensures var k := worlds[i].callers[c];
            && k.request in worlds[i].store.decisions && worlds[i].store.decisions[k.request].result == k.pc.result
            && (worlds[i].store.decisions[k.request].payload == k.payload <==>
                  (k.request, k.payload) !in worlds[i].store.history.replaced)
  {
    hide Trace;
    TraceCaller(worlds, steps, i, c);
    TraceCaller(worlds, steps, j, d);
    DecidedForGood(worlds, steps, i, j);
    ReturnsOwn(worlds, steps, i, c);
  }

  lemma ReturnsOwn(worlds: seq<World>, steps: seq<Step>, i: nat, c: CallerId)
    requires hide *; true
    requires Trace(worlds, steps) && i < |worlds| && c in worlds[i].callers && worlds[i].callers[c].pc.Returned?
    ensures var s, k := worlds[i].store, worlds[i].callers[c];
            k.request in s.decisions && (s.decisions[k.request].payload == k.payload <==>
              (k.request, k.payload) !in s.history.replaced)
  {
    hide Trace, Good;
    TraceSafe(worlds, steps, i);
    DecidesOwn(worlds[i].store, worlds[i].callers[c]);
  }

  lemma DecidesOwn(s: State, k: Caller)
    requires hide *; true
    requires Good(s) && StoreInv(s) && CallerKnows(s, k) && k.pc.Returned?
    ensures k.request in s.decisions && (s.decisions[k.request].payload == k.payload <==>
            (k.request, k.payload) !in s.history.replaced)
  {
    hide Good;
    if (k.request, k.payload) in s.history.replaced { ReplacedIsNotOnRecord(s, k.request, k.payload); }
  }

  predicate Commits(w: World, step: Step, r: RequestId) {
    ByCaller(w, step) && w.callers[step.caller].pc.Storing? && w.callers[step.caller].request == r
  }

  lemma CommitDecides(worlds: seq<World>, steps: seq<Step>, i: nat, r: RequestId)
    requires hide Leads; true
    requires Trace(worlds, steps) && i < |steps| && Commits(worlds[i], steps[i], r)
    ensures |worlds| == |steps| + 1 && r !in worlds[i].store.decisions && r in worlds[i + 1].store.decisions
  {
    hide Trace, AfterRecord, Good;
    TraceCommits(worlds, steps, i);
    TraceSafe(worlds, steps, i);
    RecordDecides(worlds[i], steps[i].caller);
  }

  lemma RecordDecides(w: World, c: CallerId)
    requires hide *; true
    requires Good(w.store) && CallersInv(w) && c in w.callers && w.callers[c].pc.Storing?
    ensures w.callers[c].request !in w.store.decisions && w.callers[c].request in AfterRecord(w, c).store.decisions
  {
    hide Good, AfterRecord, CommitDecision;
    assert CallerKnows(w.store, w.callers[c]);
    CommitGoesThrough(w, c);
    CommitDecidesOne(w.store, w.callers[c].request, w.callers[c].pc.receipt);
    RecordStores(w, c);
  }

  /** Each request is committed at most once. */
  lemma CommitsOnce(worlds: seq<World>, steps: seq<Step>, i: nat, j: nat, r: RequestId)
    requires hide Leads; true
    requires Trace(worlds, steps) && i < |steps| && j < |steps| && Commits(worlds[i], steps[i], r)
             && Commits(worlds[j], steps[j], r)
    ensures i == j
  {
    hide Trace, Commits;
    var a, b := if i < j then i else j, if i < j then j else i;
    CommitDecides(worlds, steps, a, r);
    CommitDecides(worlds, steps, b, r);
    if a < b { DecidedForGood(worlds, steps, a + 1, b); }
  }

  /** While a decision of a topic is undecided, every lease a station still holds on it has already reported; so no
      agent whose run is still going can write the topic's files. */
  lemma PublisherAlone(worlds: seq<World>, steps: seq<Step>, i: nat, r: RequestId, k: nat)
    requires hide Trace; true
    requires Trace(worlds, steps) && i < |worlds| && Undecided(worlds[i].store.intents, worlds[i].store.decisions, r)
    requires k < |worlds[i].store.seats| && worlds[i].store.seats[k].current.Some?
    requires worlds[i].store.seats[k].current.value.topic == worlds[i].store.intents[r].payload.topic
    ensures worlds[i].store.seats[k].current.value.id in worlds[i].store.history.concluded
  {
    hide Trace, ProtocolInv;
    TraceSafe(worlds, steps, i);
    var s := worlds[i].store;
    IntentHoldsTopic(s, r);
    HeldIsQuiescent(s, s.intents[r].payload.episode);
  }

  // ---------- Agents that write only while their run is going ----------

  /** The lease sits on a station and its checkpoint call, if it has one, has not returned. */
  predicate StillRunning(s: State, t: TopicId, lease: RunId) {
    && lease !in s.history.concluded
    && exists k ::
         && 0 <= k < |s.seats| && s.seats[k].current.Some?
         && s.seats[k].current.value.topic == t && s.seats[k].current.value.id == lease
  }

  /** The caller has written its state file and not committed yet. */
  predicate Publishes(pc: Pc) { pc.WritingText? || pc.Measuring? || (pc.Storing? && pc.prepared.Some?) }

  /** No agent has written a state file since the publication under way did. */
  ghost predicate StateIntact(w: World) {
    forall c | c in w.callers && Publishes(w.callers[c].pc) :: w.callers[c].pc.read.topic !in w.touched
  }

  lemma NobodyElseRuns(s: State, p: Payload, lease: RunId)
    requires Good(s) && HeldFor(s.episodes, s.proposals, p)
    ensures !StillRunning(s, p.topic, lease)
  {
    ActiveIsOpen(s.topics, s.episodes, p.episode);
    HeldIsQuiescent(s, p.episode);
  }

  /** Whatever its intent became, the review of a payload under publication is held. */
  lemma ReadIsHeld(s: State, k: Caller, p: Payload, prepared: Option<Bundle>)
    requires Good(s) && Reads(s, k, p, prepared)
    ensures HeldFor(s.episodes, s.proposals, p)
  {
    if (k.request, p) in s.history.replaced {
      assert Lost(s.episodes, s.proposals, s.intents, s.decisions, (k.request, p).0, (k.request, p).1);
    } else {
      assert IntentPlaced(s.episodes, s.proposals, s.intents[k.request]);
    }
  }

  lemma AgentLeavesIntact(w: World, t: TopicId, lease: RunId, disk: SemanticState.Files, write: GuardedWrites.Write)
    requires hide *; true
    requires Good(w.store) && CallersInv(w) && StateIntact(w) && StillRunning(w.store, t, lease)
    requires t in w.files && GuardedWrites.WriteOf(disk, w.files[t].state, write).Ok?
    ensures StateIntact(AfterAgentWrite(w, t, disk, write))
  {
    hide Good, GuardedWrites.WriteOf;
    forall c | c in w.callers && Publishes(w.callers[c].pc) ensures w.callers[c].pc.read.topic != t {
      var k := w.callers[c];
      assert CallerKnows(w.store, k);
      ReadIsHeld(w.store, k, k.pc.read, if k.pc.Storing? then k.pc.prepared else Some(k.pc.bundle));
      NobodyElseRuns(w.store, k.pc.read, lease);
    }
  }

  /** A caller begins to publish only by writing its state file, alone inside the lock. */
  lemma AdvanceLeavesIntact(w: World, c: CallerId)
    requires hide *; true
    requires StateIntact(w) && c in w.callers
    ensures StateIntact(Advanced(w, c))
  {
    hide Advanced;
    var o := Advanced(w, c);
    AdvanceTouches(w, c);
    forall d | d in o.callers && Publishes(o.callers[d].pc) ensures o.callers[d].pc.read.topic !in o.touched {
      if d != c { assert w.callers[d] == o.callers[d]; }
    }
  }

  /** Only this caller moves; it begins to publish only by writing the state file, which forgets what agents wrote there
      before, and to decide only by taking its snapshot; only a commit can give a topic a lock that is not its own. */
  ghost predicate Touches(w: World, o: World, c: CallerId) {
    && c in w.callers && c in o.callers && o.callers == At(w, c, o.callers[c].pc) && o.touched <= w.touched
    && (o.callers[c].pc.Deciding? ==> w.callers[c].pc.Fresh? && o.callers[c].pc.seen == w.store.revision)
    && (o.strays == w.strays || (w.callers[c].pc.Storing? && o.strays == StraysAfter(w, w.callers[c])))
    && (Publishes(o.callers[c].pc) ==>
          if Publishes(w.callers[c].pc) then o.callers[c].pc.read == w.callers[c].pc.read
            else o.callers[c].pc.read.topic !in o.touched)
  }

  lemma RecordTouches(w: World, c: CallerId)
    requires c in w.callers && w.callers[c].pc.Storing?
    ensures Touches(w, AfterRecord(w, c), c)
  {
    hide AfterRecord, CommitDecision;
    var o := CommitDecision(w.store, w.callers[c].request, w.callers[c].pc.receipt);
    if o.Done? { RecordedWorld(w, c, o); } else { RecordRefused(w, c); }
  }

  lemma RecordRefused(w: World, c: CallerId)
    requires c in w.callers && w.callers[c].pc.Storing?
             && !CommitDecision(w.store, w.callers[c].request, w.callers[c].pc.receipt).Done?
    ensures AfterRecord(w, c) == w.(callers := At(w, c, AfterRecord(w, c).callers[c].pc), holder := None)
    ensures AfterRecord(w, c).callers[c].pc.Failed?
  {
  }

  lemma IntendTouches(w: World, c: CallerId)
    requires hide *; true
    requires c in w.callers && w.callers[c].pc.Deciding?
    ensures Touches(w, AfterIntend(w, c), c)
  {
    hide Intended, Journaled;
  }

  lemma OpenTouches(w: World, c: CallerId)
    requires c in w.callers
    ensures Touches(w, AfterOpen(w, c), c) && (w.callers[c].pc.Fresh? ==> Touches(w, AfterSnapshot(w, c), c))
  {
  }

  lemma WriteTouches(w: World, c: CallerId)
    requires hide *; true
    requires c in w.callers
    requires var pc := w.callers[c].pc; pc.WritingState? || pc.WritingText? || pc.Measuring?
    ensures Touches(w, Advanced(w, c), c)
  {
    hide AfterIntend, AfterRecord, AfterOpen, AfterSnapshot;
  }

  lemma CleanTouches(w: World, c: CallerId)
    requires hide *; true
    requires c in w.callers && (w.callers[c].pc.Cleaning? || w.callers[c].pc.Unlinking?)
    ensures Touches(w, Advanced(w, c), c)
  {
    hide AfterIntend, AfterRecord, AfterOpen, AfterSnapshot;
  }

  lemma WaitTouches(w: World, c: CallerId)
    requires hide *; true
    requires c in w.callers
    requires var pc := w.callers[c].pc; pc.Waiting? || pc.CleanWaiting? || pc.Returned? || pc.Failed?
    ensures Touches(w, Advanced(w, c), c)
  {
    hide AfterIntend, AfterRecord, AfterOpen, AfterSnapshot;
    assert w.callers == At(w, c, w.callers[c].pc);
  }

  lemma AdvanceTouches(w: World, c: CallerId)
    requires hide *; true
    requires c in w.callers
    ensures Touches(w, Advanced(w, c), c)
  {
    hide *;
    AdvancedIs(w, c);
    match w.callers[c].pc
    case Fresh => OpenTouches(w, c);
    case Deciding(_) => IntendTouches(w, c);
    case Opening => OpenTouches(w, c);
    case WritingState(_, _) => WriteTouches(w, c);
    case WritingText(_, _) => WriteTouches(w, c);
    case Measuring(_, _) => WriteTouches(w, c);
    case Storing(_, _, _) => RecordTouches(w, c);
    case Cleaning(_, _) => CleanTouches(w, c);
    case Unlinking(_, _) => CleanTouches(w, c);
    case _ => WaitTouches(w, c);
  }

  lemma AsideLeavesIntact(w: World, step: Step, o: World)
    requires Leads(w, step, o) && !step.Advance? && !step.AgentWrite? && StateIntact(w)
    ensures StateIntact(o)
  {
    hide Leads, Apply, Allowed, EditAgrees, Journaled, GuardedWrites.WriteOf, Advanced;
    LeadsIs(w, step, o);
    assert o.touched == w.touched;
    forall d | d in o.callers && Publishes(o.callers[d].pc) ensures o.callers[d].pc.read.topic !in o.touched {
      assert o.callers[d] == w.callers[d];
    }
  }

  lemma StepLeavesIntact(w: World, step: Step, o: World)
    requires Safe(w) && Leads(w, step, o) && StateIntact(w) && Attends(w, step)
    ensures StateIntact(o)
  {
    hide *;
    AttendsIs(w, step);
    SafeParts(w);
    LeadsIs(w, step, o);
    match step
    case Advance(c) => AdvanceLeavesIntact(w, c);
    case AgentWrite(t, lease, disk, write) => AgentLeavesIntact(w, t, lease, disk, write);
    case _ => AsideLeavesIntact(w, step, o);
  }

  lemma AttendsIs(w: World, step: Step)
    requires Attends(w, step)
    ensures step.AgentWrite? ==> StillRunning(w.store, step.topic, step.lease)
  {
    hide StillRunning;
  }

  /** Agents write only while their own run is going. */
  ghost predicate Attended(worlds: seq<World>, steps: seq<Step>) {
    forall i | 0 <= i < |steps| && i < |worlds| :: Attends(worlds[i], steps[i])
  }

  predicate Attends(w: World, step: Step) {
    step.AgentWrite? ==> StillRunning(w.store, step.topic, step.lease)
  }

  lemma AttendedAt(worlds: seq<World>, steps: seq<Step>, i: nat)
    requires Attended(worlds, steps) && i < |steps| && i < |worlds|
    ensures Attends(worlds[i], steps[i])
  {
  }

  lemma InitialIntact(w: World)
    requires InitialWorld(w)
    ensures StateIntact(w)
  {
  }

  lemma TraceIntact(worlds: seq<World>, steps: seq<Step>, i: nat)
    requires hide *; true
    requires Trace(worlds, steps) && Attended(worlds, steps) && i < |worlds|
    ensures StateIntact(worlds[i])
  {
    hide *;
    TraceShape(worlds, steps);
    InitialIntact(worlds[0]);
    forall k | 0 < k <= i && StateIntact(worlds[k - 1]) ensures StateIntact(worlds[k]) {
      AttendedAt(worlds, steps, k - 1);
      TraceLeads(worlds, steps, k - 1);
      TraceSafe(worlds, steps, k - 1);
      StepLeavesIntact(worlds[k - 1], steps[k - 1], worlds[k]);
    }
    Invariantly(StateIntact, worlds, i);
  }

  /** When agents write only while their own run is going, the contract files are exactly the prepared bundle at every
      commit. */
  lemma PublishedWhole(worlds: seq<World>, steps: seq<Step>, i: nat, b: Bundle)
    requires hide Leads; true
    requires Trace(worlds, steps) && Attended(worlds, steps) && i < |steps| && ByCaller(worlds[i], steps[i])
    requires worlds[i].callers[steps[i].caller].pc.Storing? && worlds[i].callers[steps[i].caller].pc.prepared == Some(b)
    ensures var w, t := worlds[i], worlds[i].callers[steps[i].caller].pc.read.topic;
            t in w.files && w.files[t] == b.contract && worlds[i + 1].files == w.files
  {
    hide Trace, Attended, Reads;
    TraceShape(worlds, steps);
    PublishedExactly(worlds, steps, i, b);
    TraceIntact(worlds, steps, i);
  }

  // ---------- Recovery ----------

  /** One step of the caller. */
  predicate Moves(w: World, c: CallerId, o: World) {
    && c in w.callers && (w.callers[c].pc.Waiting? || w.callers[c].pc.CleanWaiting? ==> w.holder.None?)
    && o == Advanced(w, c)
  }

  lemma MovesIsStep(w: World, c: CallerId, o: World)
    ensures Moves(w, c, o) <==> Leads(w, Advance(c), o)
  {
    hide Advanced;
  }

  /** A run in which only this caller moves. */
  ghost predicate Alone(run: seq<World>, c: CallerId) {
    run != [] && forall i | 0 <= i < |run| - 1 :: MovesAt(run, c, i)
  }

  predicate MovesAt(run: seq<World>, c: CallerId, i: nat)
    requires i < |run| - 1
  {
    Moves(run[i], c, run[i + 1])
  }

  lemma AloneThen(run: seq<World>, c: CallerId, rest: seq<World>)
    requires hide MovesAt; true
    requires Alone(run, c) && Alone(rest, c) && rest[0] == run[|run| - 1]
    ensures Alone(run + rest[1..], c)
  {
    hide Moves;
    var all := run + rest[1..];
    forall i | 0 <= i < |all| - 1 ensures MovesAt(all, c, i) {
      if i < |run| - 1 { assert MovesAt(run, c, i); } else { assert MovesAt(rest, c, i - (|run| - 1)); }
    }
  }

  /** The world with the caller inside the lock at this place. */
  function Inside(w: World, c: CallerId, pc: Pc): World
    requires c in w.callers
  {
    w.(holder := Some(c), callers := At(w, c, pc))
  }

  function HalfWritten(w: World, c: CallerId, b: Bundle): World
    requires c in w.callers
  {
    var k, p := w.callers[c], w.callers[c].payload;
    Inside(w, c, WritingText(p, b)).(files := w.files[p.topic := FileOf(w, p.topic, b).(state := b.contract.state)],
                                     begun := w.begun + {(k.request, p)}, touched := w.touched - {p.topic})
  }

  function Written(w: World, c: CallerId, b: Bundle, pc: Pc): World
    requires c in w.callers
  {
    var k, p := w.callers[c], w.callers[c].payload;
    Inside(w, c, pc).(files := w.files[p.topic := b.contract], begun := w.begun + {(k.request, p)},
      touched := w.touched - {p.topic})
  }

  /** What this caller's publication of the bundle returns. */
  function ReceiptFor(p: Payload, b: Bundle): Receipt {
    Receipt(SemanticState.InventoryProjection(b.contract.state), p.topic, b.identity)
  }

  function Committed(w: World, c: CallerId, b: Bundle, store: State, pc: Pc): World
    requires c in w.callers
  {
    var k, p := w.callers[c], w.callers[c].payload;
    Written(w, c, b, pc).(store := store, begun := w.begun + {(k.request, p)} - {(k.request, p)},
      strays := w.strays - {p.topic})
  }

  lemma RecoveryOpens(w: World, c: CallerId, b: Bundle)
    requires hide *; true
    requires c in w.callers && w.callers[c].pc.Fresh? && w.holder.None? && Unsettled(w.store, w.callers[c], Some(b))
    ensures Alone([w, w.(callers := At(w, c, Waiting)), Inside(w, c, Opening),
            Inside(w, c, WritingState(w.callers[c].payload, b))], c)
  {
    hide Moves;
    SnapshotMoves(w, c, b);
    OpenMoves(w, c, b);
  }

  lemma SnapshotMoves(w: World, c: CallerId, b: Bundle)
    requires hide *; true
    requires c in w.callers && w.callers[c].pc.Fresh? && w.holder.None? && Unsettled(w.store, w.callers[c], Some(b))
    ensures Moves(w, c, w.(callers := At(w, c, Waiting)))
  {
  }

  lemma OpenMoves(w: World, c: CallerId, b: Bundle)
    requires hide *; true
    requires c in w.callers && w.holder.None? && Unsettled(w.store, w.callers[c], Some(b))
    ensures Moves(w.(callers := At(w, c, Waiting)), c, Inside(w, c, Opening))
    ensures Moves(Inside(w, c, Opening), c, Inside(w, c, WritingState(w.callers[c].payload, b)))
  {
  }

  lemma RecoveryWrites(w: World, c: CallerId, b: Bundle)
    requires hide *; true
    requires c in w.callers
    ensures var p := w.callers[c].payload;
            Alone([Inside(w, c, WritingState(p, b)), HalfWritten(w, c, b), Written(w, c, b, Measuring(p, b))], c)
  {
    var o := AfterWriteText(HalfWritten(w, c, b), c);
    assert o.files == Written(w, c, b, Measuring(w.callers[c].payload, b)).files;
  }

  lemma RecoveryMeasures(w: World, c: CallerId, b: Bundle)
    requires hide *; true
    requires c in w.callers
    ensures var p := w.callers[c].payload;
            Alone([Written(w, c, b, Measuring(p, b)), Written(w, c, b, Storing(p, Some(b), Some(ReceiptFor(p, b))))], c)
  {
  }

  lemma CommitMoves(w: World, c: CallerId, b: Bundle, commit: Outcome<DecisionResult>)
    requires hide *; true
    requires c in w.callers && Unsettled(w.store, w.callers[c], Some(b))
    requires commit == CommitDecision(w.store, w.callers[c].request, Some(ReceiptFor(w.callers[c].payload, b)))
             && commit.Done?
    ensures var p := w.callers[c].payload;
            Moves(Written(w, c, b, Storing(p, Some(b), Some(ReceiptFor(p, b)))), c,
                  Committed(w, c, b, After(w.store, commit), Cleaning(ReceiptFor(p, b), commit.value)))
  {
    hide Advanced, AfterIntend, AfterRecord, CommitDecision;
    var p := w.callers[c].payload;
    var v := Written(w, c, b, Storing(p, Some(b), Some(ReceiptFor(p, b))));
    RecordedWorld(v, c, commit);
    AdvancedIs(v, c);
  }

  lemma RecoveryCommits(w: World, c: CallerId, b: Bundle, commit: Outcome<DecisionResult>)
    requires hide *; true
    requires c in w.callers && Unsettled(w.store, w.callers[c], Some(b))
    requires commit == CommitDecision(w.store, w.callers[c].request, Some(ReceiptFor(w.callers[c].payload, b)))
             && commit.Done?
    ensures var p := w.callers[c].payload;
            Alone([Written(w, c, b, Storing(p, Some(b), Some(ReceiptFor(p, b)))),
                   Committed(w, c, b, After(w.store, commit), Cleaning(ReceiptFor(p, b), commit.value))], c)
  {
    hide Moves, CommitDecision;
    CommitMoves(w, c, b, commit);
  }

  lemma RecoveryCleans(w: World, c: CallerId) returns (run: seq<World>)
    requires hide *; true
    requires c in w.callers && w.callers[c].pc.Cleaning? && w.callers[c].pc.done.topic in w.journals
    requires w.journals[w.callers[c].pc.done.topic].identity == w.callers[c].pc.done.identity
    ensures Alone(run, c) && |run| == 3 && run[0] == w
    ensures var o := run[2];
            && o.store == w.store && o.files == w.files && o.journals == w.journals - {w.callers[c].pc.done.topic}
            && o.holder.None?
            && c in o.callers && o.callers[c].pc == Returned(w.callers[c].pc.result)
  {
    hide AfterIntend, AfterRecord;
    run := [w, Advanced(w, c), Advanced(Advanced(w, c), c)];
  }

  lemma RecoveryReachesCommit(w: World, c: CallerId, b: Bundle, commit: Outcome<DecisionResult>)
    returns (run: seq<World>)
    requires hide *; true
    requires c in w.callers && w.callers[c].pc.Fresh? && w.holder.None? && Unsettled(w.store, w.callers[c], Some(b))
    requires commit == CommitDecision(w.store, w.callers[c].request, Some(ReceiptFor(w.callers[c].payload, b)))
             && commit.Done?
    ensures Alone(run, c) && |run| == 8 && run[0] == w
    ensures run[7] == Committed(w, c, b, After(w.store, commit),
            Cleaning(ReceiptFor(w.callers[c].payload, b), commit.value))
  {
    hide *;
    var p, done := w.callers[c].payload, ReceiptFor(w.callers[c].payload, b);
    var run1 := [w, w.(callers := At(w, c, Waiting)), Inside(w, c, Opening), Inside(w, c, WritingState(p, b))];
    var run2 := [Inside(w, c, WritingState(p, b)), HalfWritten(w, c, b), Written(w, c, b, Measuring(p, b))];
    var run3 := [Written(w, c, b, Measuring(p, b)), Written(w, c, b, Storing(p, Some(b), Some(done)))];
    var run4 := [Written(w, c, b, Storing(p, Some(b), Some(done))),
                 Committed(w, c, b, After(w.store, commit), Cleaning(done, commit.value))];
    RecoveryOpens(w, c, b);
    RecoveryWrites(w, c, b);
    RecoveryMeasures(w, c, b);
    RecoveryCommits(w, c, b, commit);
    AloneThen(run1, c, run2);
    AloneThen(run3, c, run4);
    AloneThen(run1 + run2[1..], c, run3 + run4[1..]);
    run := run1 + run2[1..] + (run3 + run4[1..])[1..];
  }

  lemma SettlesStore(s: State, k: Caller, b: Bundle)
    requires hide *; true
    requires Good(s) && Unsettled(s, k, Some(b))
    ensures var o := CommitDecision(s, k.request, Some(ReceiptFor(k.payload, b)));
            && o.Done? && k.request in After(s, o).decisions && After(s, o).decisions[k.request].payload == k.payload
            && forall j | j in After(s, o).items
            && j.id == k.payload.topic :: j.lock == Pinned(ReceiptFor(k.payload, b).lock)
  {
    hide ReviewGood, CommitDecision;
    CommitKeepsReviews(s, k.request, Some(ReceiptFor(k.payload, b)));
    CommitLocks(s, k.request, ReceiptFor(k.payload, b));
  }

  lemma CommitLocks(s: State, request: RequestId, receipt: Receipt)
    requires Undecided(s.intents, s.decisions, request) && CommitDecision(s, request, Some(receipt)).Done?
    ensures var t := After(s, CommitDecision(s, request, Some(receipt)));
            && request in t.decisions && t.decisions[request].payload == s.intents[request].payload
            && forall j | j in t.items && j.id == s.intents[request].payload.topic :: j.lock == Pinned(receipt.lock)
  {
    hide CommitDecision;
    CommitShape(s, request, Some(receipt));
  }

  /** Wherever the callers of a request died, before or after any file write, one new call of the request running alone
      commits the decision on record, leaves exactly its prepared bundle on disk, locks the topic's items to it, and
      removes the journal. */
  lemma RecoveryCompletes(w: World, c: CallerId, b: Bundle) returns (run: seq<World>)
    requires hide *; true
    requires Good(w.store) && ProtocolInv(w) && c in w.callers && w.callers[c].pc.Fresh? && w.holder.None?
    requires Unsettled(w.store, w.callers[c], Some(b))
    ensures Alone(run, c) && |run| == 10 && run[0] == w
    ensures var k, o := w.callers[c], run[9];
            && c in o.callers && o.callers[c].pc.Returned? && o.holder.None?
            && k.request in o.store.decisions && o.store.decisions[k.request].payload == k.payload
            && k.payload.topic in o.files && o.files[k.payload.topic] == b.contract && k.payload.topic !in o.journals
            && forall j | j in o.store.items && j.id == k.payload.topic ::
                 j.lock == Pinned(SemanticState.InventoryProjection(b.contract.state))
  {
    hide Good, MovesAt, CommitDecision;
    var k := w.callers[c];
    assert BundleNamed(w.store.intents[k.request]);
    SettlesStore(w.store, k, b);
    var run1 := RecoveryReachesCommit(w, c, b, CommitDecision(w.store, k.request, Some(ReceiptFor(k.payload, b))));
    var run2 := RecoveryCleans(run1[7], c);
    AloneThen(run1, c, run2);
    run := run1 + run2[1..];
  }
}
