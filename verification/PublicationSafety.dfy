/** Publication is safe along every interleaving of callers, crashes, agent writes and other transactions. */
module PublicationSafety {
  import opened Common
  import opened ControlRecords
  import opened Scheduler
  import opened Checkpoints
  import opened Episodes
  import opened Reviews
  import opened EpisodeSteps
  import opened OperatorSteps
  import opened Runs
  import opened Bystanders
  import opened Publication
  import Contracts
  import GuardedWrites
  import SemanticState

  // ---------- Invariants ----------

  /** The intent on record for this request has this payload, unless another intent replaced one that had. */
  predicate Holds(s: State, r: RequestId, p: Payload) {
    r in s.intents && (s.intents[r].payload == p || (r, p) in s.history.replaced)
  }

  /** The same for the decision on record. */
  predicate Decides(s: State, r: RequestId, p: Payload) {
    r in s.decisions && (s.decisions[r].payload == p || (r, p) in s.history.replaced)
  }

  predicate BundleFor(p: Payload, prepared: Option<Bundle>) {
    && (prepared.Some? <==> Approved(p.choices) != [])
    && (prepared.Some? ==> prepared.value.identity == Approved(p.choices))
  }

  /** What a caller inside the lock read is still on record, unless another intent replaced it since. */
  predicate Reads(s: State, k: Caller, p: Payload, prepared: Option<Bundle>) {
    && Holds(s, k.request, k.payload) && Holds(s, k.request, p) && k.request !in s.decisions && BundleFor(p, prepared)
    && (s.intents[k.request].payload == p ==> s.intents[k.request].prepared == prepared)
    && (k.payload == p || (k.request, k.payload) in s.history.replaced)
  }

  predicate Unsettled(s: State, k: Caller, prepared: Option<Bundle>) {
    && k.request in s.intents && s.intents[k.request].payload == k.payload && k.request !in s.decisions
    && s.intents[k.request].prepared == prepared
  }

  predicate Settled(s: State, k: Caller, done: Receipt, result: DecisionResult) {
    && Decides(s, k.request, k.payload) && s.decisions[k.request].result == result
    && k.request in s.intents && s.intents[k.request].receipt == Some(done)
  }

  predicate ReceiptFits(p: Payload, prepared: Option<Bundle>, receipt: Option<Receipt>) {
    && (prepared.None? <==> receipt.None?)
    && (prepared.Some? ==> receipt.value.topic == p.topic && receipt.value.identity == prepared.value.identity)
  }

  /** What each caller may rely on in the store. */
  predicate CallerKnows(s: State, k: Caller) {
    match k.pc
    case Deciding(seen) => seen <= s.revision && (k.request in s.intents ==> seen < s.revision)
    case Waiting => Holds(s, k.request, k.payload)
    case Opening => Holds(s, k.request, k.payload)
    case WritingState(p, b) => Reads(s, k, p, Some(b))
    case WritingText(p, b) => Reads(s, k, p, Some(b))
    case Measuring(p, b) => Reads(s, k, p, Some(b))
    case Storing(p, prepared, receipt) => Reads(s, k, p, prepared) && ReceiptFits(p, prepared, receipt)
    case CleanWaiting(done, result) => Settled(s, k, done, result)
    case Cleaning(done, result) => Settled(s, k, done, result)
    case Unlinking(done, result) => Settled(s, k, done, result)
    case Returned(result) => Decides(s, k.request, k.payload) && s.decisions[k.request].result == result
    case _ => true
  }

  predicate Locked(pc: Pc) {
    pc.Opening? || pc.WritingState? || pc.WritingText? || pc.Measuring? || pc.Storing? || pc.Cleaning? || pc.Unlinking?
  }

  /** The state file holds the bundle's inventory, and the bundle itself unless an agent wrote since. */
  predicate StateWritten(files: map<TopicId, Contract>, touched: set<TopicId>, t: TopicId, b: Bundle) {
    && t in files && SemanticState.InventoryProjection(files[t].state) ==
         SemanticState.InventoryProjection(b.contract.state)
    && (t !in touched ==> files[t].state == b.contract.state)
  }

  /** What the caller inside the lock may rely on in the files. */
  predicate FilesFit(w: World, k: Caller) {
    match k.pc
    case WritingText(p, b) => StateWritten(w.files, w.touched, p.topic, b) && (k.request, p) in w.begun
    case Measuring(p, b) =>
      StateWritten(w.files, w.touched, p.topic, b) && (k.request, p) in w.begun
        && w.files[p.topic].text == b.contract.text
    case Storing(p, Some(b), Some(receipt)) =>
      && StateWritten(w.files, w.touched, p.topic, b) && w.files[p.topic].text == b.contract.text
      && (k.request, p) in w.begun
      && receipt.lock == SemanticState.InventoryProjection(b.contract.state)
    case Unlinking(done, _) => done.topic in w.journals && w.journals[done.topic].identity == done.identity
    case _ => true
  }

  ghost predicate CallersInv(w: World) {
    forall c | c in w.callers :: CallerKnows(w.store, w.callers[c]) && FilesFit(w, w.callers[c])
  }

  /** Exactly the lock's holder is inside it. */
  ghost predicate HolderInv(w: World) {
    && (w.holder.Some? ==> w.holder.value in w.callers)
    && (forall c | c in w.callers :: Locked(w.callers[c].pc) <==> w.holder == Some(c))
  }

  predicate BundleNamed(i: Intent) { BundleFor(i.payload, i.prepared) }

  /** The journal of an undecided publication is on disk, with its bundle. */
  ghost predicate JournalInv(s: State, journals: map<TopicId, Bundle>) {
    && (forall r | r in s.intents :: BundleNamed(s.intents[r]))
    && (forall r | Undecided(s.intents, s.decisions, r) && s.intents[r].prepared.Some? ::
          s.intents[r].payload.topic in journals && journals[s.intents[r].payload.topic] == s.intents[r].prepared.value)
  }

  predicate ChoicesResolved(proposals: map<ProposalId, Proposal>, cs: seq<Choice>) {
    forall c | c in cs :: c.proposal in proposals && !proposals[c.proposal].pending
  }

  /** A decided proposal stays decided. */
  ghost predicate ResolvedInv(s: State) {
    forall r | r in s.decisions :: ChoicesResolved(s.proposals, s.decisions[r].payload.choices)
  }

  /** The receipt names the journal of this payload's publication. */
  predicate ReceiptOf(p: Payload, done: Receipt) {
    done.topic == p.topic && done.identity == Approved(p.choices) && done.identity != []
  }

  /** The publication was of the decision on record, or of one whose intent was replaced under its publisher. */
  ghost predicate Receipted(s: State, r: RequestId, done: Receipt) {
    exists p :: Decides(s, r, p) && ReceiptOf(p, done)
  }

  ghost predicate ReceiptsInv(s: State) {
    forall r | r in s.intents && s.intents[r].receipt.Some? :: Receipted(s, r, s.intents[r].receipt.value)
  }

  ghost predicate LocksInv(w: World) { forall i | i in w.store.items :: LockAgrees(w, i) }

  /** A decision comes from the published intent of its request. */
  ghost predicate DecisionsNamed(s: State) {
    forall r | r in s.decisions ::
      r in s.intents && s.intents[r].payload == s.decisions[r].payload && s.intents[r].published
  }

  ghost predicate StoreInv(s: State) { DecisionsNamed(s) && ResolvedInv(s) && ReceiptsInv(s) }

  ghost predicate ProtocolInv(w: World) {
    StoreInv(w.store) && CallersInv(w) && HolderInv(w) && JournalInv(w.store, w.journals) && LocksInv(w)
  }

  // ---------- One undecided intent per topic ----------

  lemma IntentHoldsTopic(s: State, r: RequestId)
    requires hide Good; true
    requires Good(s) && Undecided(s.intents, s.decisions, r)
    ensures var p := s.intents[r].payload;
            p.topic in s.topics && s.topics[p.topic].active == Some(p.episode) && p.episode in s.episodes
            && s.episodes[p.episode].state in {Publishing, Parked} && s.episodes[p.episode].topic == p.topic
  {
    assert IntentPlaced(s.episodes, s.proposals, s.intents[r]);
    ActiveIsOpen(s.topics, s.episodes, s.intents[r].payload.episode);
  }

  lemma OneIntentPerTopic(s: State, q: RequestId, r: RequestId)
    requires hide Good; true
    requires Good(s) && Undecided(s.intents, s.decisions, q) && Undecided(s.intents, s.decisions, r)
    requires s.intents[q].payload.topic == s.intents[r].payload.topic
    ensures q == r
  {
    IntentHoldsTopic(s, q);
    IntentHoldsTopic(s, r);
  }

  // ---------- Steps of a caller that only move it ----------

  /** Only the caller's place changes. */
  lemma MoveCaller(w: World, c: CallerId, pc: Pc)
    requires ProtocolInv(w) && c in w.callers && Locked(pc) == Locked(w.callers[c].pc)
    requires CallerKnows(w.store, w.callers[c].(pc := pc)) && FilesFit(w, w.callers[c].(pc := pc))
    ensures ProtocolInv(w.(callers := At(w, c, pc)))
  {
    hide CallersInv, CallerKnows;
    var o := w.(callers := At(w, c, pc));
    CallersMoved(w, o, c);
    SameLocked(w, o);
  }

  /** Callers other than c are where they were, over the same store and files. */
  lemma CallersMoved(w: World, o: World, c: CallerId)
    requires CallersInv(w) && c in o.callers && CallerKnows(o.store, o.callers[c]) && FilesFit(o, o.callers[c])
    requires o.store == w.store && o.files == w.files && o.journals == w.journals && o.touched == w.touched
             && o.begun == w.begun
    requires forall d | d in o.callers && d != c :: d in w.callers && o.callers[d] == w.callers[d]
    ensures CallersInv(o)
  {
    hide CallerKnows;
    forall d | d in o.callers ensures CallerKnows(o.store, o.callers[d]) && FilesFit(o, o.callers[d]) {
      if d != c { assert CallerKnows(w.store, w.callers[d]) && FilesFit(w, w.callers[d]); }
    }
  }

  lemma SameLocked(w: World, o: World)
    requires LocksInv(w) && o.store.items == w.store.items && o.files == w.files && o.begun == w.begun
             && o.strays == w.strays
    ensures LocksInv(o)
  {
    forall i | i in o.store.items ensures LockAgrees(o, i) {
      assert LockAgrees(w, i);
    }
  }

  /** The caller takes or leaves the lock. */
  lemma PassLock(w: World, c: CallerId, pc: Pc)
    requires ProtocolInv(w) && c in w.callers && (w.holder.None? || w.holder == Some(c))
             && Locked(pc) != Locked(w.callers[c].pc)
    requires CallerKnows(w.store, w.callers[c].(pc := pc)) && FilesFit(w, w.callers[c].(pc := pc))
    ensures ProtocolInv(w.(callers := At(w, c, pc), holder := if Locked(pc) then Some(c) else None))
  {
    hide CallersInv, CallerKnows;
    var o := w.(callers := At(w, c, pc), holder := if Locked(pc) then Some(c) else None);
    CallersMoved(w, o, c);
    SameLocked(w, o);
  }

  lemma SpawnKeeps(w: World, c: CallerId, request: RequestId, p: Payload)
    requires ProtocolInv(w) && c !in w.callers
    ensures ProtocolInv(AfterSpawn(w, c, request, p))
  {
    var o := AfterSpawn(w, c, request, p);
    CallersMoved(w, o, c);
    SameLocked(w, o);
  }

  lemma CrashKeeps(w: World, c: CallerId)
    requires ProtocolInv(w) && c in w.callers
    ensures ProtocolInv(AfterCrash(w, c))
  {
    hide CallerKnows;
    var o := AfterCrash(w, c);
    forall d | d in o.callers ensures CallerKnows(o.store, o.callers[d]) && FilesFit(o, o.callers[d]) {
      assert CallerKnows(w.store, w.callers[d]) && FilesFit(w, w.callers[d]);
    }
    SameLocked(w, o);
  }

  lemma SnapshotKeeps(w: World, c: CallerId)
    requires hide *; true
    requires ProtocolInv(w) && c in w.callers && w.callers[c].pc.Fresh?
    ensures ProtocolInv(AfterSnapshot(w, c))
  {
    hide ProtocolInv;
    var k := w.callers[c];
    assert CallerKnows(w.store, k);
    MoveCaller(w, c, SnapshotPc(w.store, k.request, k.payload));
  }

  lemma AcquireKeeps(w: World, c: CallerId)
    requires ProtocolInv(w) && c in w.callers && (w.callers[c].pc.Waiting? || w.callers[c].pc.CleanWaiting?)
             && w.holder.None?
    ensures ProtocolInv(AfterAcquire(w, c))
  {
    var k := w.callers[c];
    assert CallerKnows(w.store, k);
    PassLock(w, c, if k.pc.Waiting? then Opening else Cleaning(k.pc.done, k.pc.result));
  }

  lemma OpenKeeps(w: World, c: CallerId)
    requires hide *; true
    requires ProtocolInv(w) && c in w.callers && w.callers[c].pc.Opening?
    ensures ProtocolInv(AfterOpen(w, c))
  {
    var k, s := w.callers[c], w.store;
    assert CallerKnows(s, k);
    assert Locked(k.pc) && w.holder == Some(c);
    if k.request in s.decisions {
      if s.intents[k.request].receipt.Some? {
        MoveCaller(w, c, Cleaning(s.intents[k.request].receipt.value, s.decisions[k.request].result));
      } else {
        PassLock(w, c, Returned(s.decisions[k.request].result));
      }
    } else {
      assert BundleNamed(s.intents[k.request]);
      match s.intents[k.request].prepared
      case None => MoveCaller(w, c, Storing(s.intents[k.request].payload, None, None));
      case Some(b) => MoveCaller(w, c, WritingState(s.intents[k.request].payload, b));
    }
  }

  lemma ReadJournalKeeps(w: World, c: CallerId)
    requires hide *; true
    requires ProtocolInv(w) && c in w.callers && w.callers[c].pc.Cleaning?
    ensures ProtocolInv(AfterReadJournal(w, c))
  {
    var k := w.callers[c];
    assert CallerKnows(w.store, k);
    assert Locked(k.pc) && w.holder == Some(c);
    if k.pc.done.topic in w.journals && w.journals[k.pc.done.topic].identity == k.pc.done.identity {
      MoveCaller(w, c, Unlinking(k.pc.done, k.pc.result));
    } else {
      PassLock(w, c, Returned(k.pc.result));
    }
  }

  lemma MeasureKeeps(w: World, c: CallerId)
    requires ProtocolInv(w) && c in w.callers && w.callers[c].pc.Measuring?
    ensures ProtocolInv(AfterMeasure(w, c))
  {
    var k, p, b := w.callers[c], w.callers[c].pc.read, w.callers[c].pc.bundle;
    assert CallerKnows(w.store, k) && FilesFit(w, k);
    var lock := SemanticState.InventoryProjection(FileOf(w, p.topic, b).state);
    MoveCaller(w, c, Storing(p, Some(b), Some(Receipt(lock, p.topic, b.identity))));
  }

  // ---------- Writing the contract files ----------

  /** Only the holder's files change; everybody else is outside the lock and relies on no file. */
  lemma OthersOutside(w: World, o: World, c: CallerId)
    requires CallersInv(w) && HolderInv(w) && w.holder == Some(c) && c in o.callers
    requires CallerKnows(o.store, o.callers[c]) && FilesFit(o, o.callers[c])
    requires o.store == w.store
    requires forall d | d in o.callers && d != c :: d in w.callers && o.callers[d] == w.callers[d]
    ensures CallersInv(o)
  {
    forall d | d in o.callers ensures CallerKnows(o.store, o.callers[d]) && FilesFit(o, o.callers[d]) {
      if d != c { assert CallerKnows(w.store, w.callers[d]) && !Locked(w.callers[d].pc); }
    }
  }

  /** Locks of other topics' items do not depend on this topic's file or on its publication. */
  lemma OtherLocks(w: World, o: World, t: TopicId)
    requires LocksInv(w) && o.store == w.store && MidPublication(o, t) && o.strays == w.strays
    requires forall x | x != t :: (x in o.files <==> x in w.files) && (x in w.files ==> o.files[x] == w.files[x])
    requires w.begun <= o.begun
    ensures LocksInv(o)
  {
    forall i | i in o.store.items ensures LockAgrees(o, i) {
      assert LockAgrees(w, i);
      if MidPublication(w, i.id) {
        var x :| x in w.begun && x.1.topic == i.id;
        assert x in o.begun;
      }
    }
  }

  lemma Begins(w: World, r: RequestId, p: Payload)
    requires (r, p) in w.begun
    ensures MidPublication(w, p.topic)
  {
    assert (r, p).1.topic == p.topic;
  }

  lemma WriteStateKeeps(w: World, c: CallerId)
    requires ProtocolInv(w) && c in w.callers && w.callers[c].pc.WritingState?
    ensures ProtocolInv(AfterWriteState(w, c))
  {
    var k, o := w.callers[c], AfterWriteState(w, c);
    assert CallerKnows(w.store, k);
    assert Locked(k.pc) && w.holder == Some(c);
    OthersOutside(w, o, c);
    Begins(o, k.request, k.pc.read);
    OtherLocks(w, o, k.pc.read.topic);
  }

  lemma WriteTextKeeps(w: World, c: CallerId)
    requires ProtocolInv(w) && c in w.callers && w.callers[c].pc.WritingText?
    ensures ProtocolInv(AfterWriteText(w, c))
  {
    var k, o := w.callers[c], AfterWriteText(w, c);
    assert CallerKnows(w.store, k) && FilesFit(w, k);
    assert Locked(k.pc) && w.holder == Some(c);
    OthersOutside(w, o, c);
    Begins(o, k.request, k.pc.read);
    OtherLocks(w, o, k.pc.read.topic);
  }

  /** A guarded agent write keeps the inventory, hence every lock. */
  lemma AgentWriteKeeps(w: World, t: TopicId, disk: SemanticState.Files, write: GuardedWrites.Write)
    requires hide *; true
    requires ProtocolInv(w) && t in w.files && GuardedWrites.WriteOf(disk, w.files[t].state, write).Ok?
    ensures ProtocolInv(AfterAgentWrite(w, t, disk, write))
  {
    hide GuardedWrites.WriteOf, CallerKnows;
    var o := AfterAgentWrite(w, t, disk, write);
    GuardedWrites.WriteKeepsInventory(disk, w.files[t].state, write);
    forall d | d in o.callers ensures CallerKnows(o.store, o.callers[d]) && FilesFit(o, o.callers[d]) {
      assert CallerKnows(w.store, w.callers[d]) && FilesFit(w, w.callers[d]);
    }
    forall i | i in o.store.items ensures LockAgrees(o, i) {
      assert LockAgrees(w, i);
    }
  }

  // ---------- Journals ----------

  lemma JournaledExtends(w: World, p: Payload)
    ensures forall t | t in w.journals :: t in Journaled(w, p) && Journaled(w, p)[t] == w.journals[t]
    ensures Approved(p.choices) != [] && Prepare(w, p).Some? ==>
              p.topic in Journaled(w, p) && Journaled(w, p)[p.topic] == Prepare(w, p).value
                && Prepare(w, p).value.identity == Approved(p.choices)
  {
  }

  lemma AbortKeeps(w: World, c: CallerId)
    requires hide *; true
    requires ProtocolInv(w) && c in w.callers && !Locked(w.callers[c].pc)
    ensures ProtocolInv(AfterAbort(w, c))
  {
    hide Journaled, Prepare, CallerKnows;
    var o := AfterAbort(w, c);
    JournaledExtends(w, w.callers[c].payload);
    forall d | d in o.callers ensures CallerKnows(o.store, o.callers[d]) && FilesFit(o, o.callers[d]) {
      assert CallerKnows(w.store, w.callers[d]) && FilesFit(w, w.callers[d]);
    }
    SameLocked(w, o);
  }

  lemma {:induction false} ApprovedChosen(cs: seq<Choice>, k: nat)
    requires k < |Approved(cs)|
    ensures Approved(cs)[k].0 in ChoiceIds(cs)
  {
    var rest := cs[..|cs| - 1];
    assert cs == rest + [cs[|cs| - 1]];
    if k < |Approved(rest)| {
      ApprovedChosen(rest, k);
      var c :| c in rest && c.proposal == Approved(rest)[k].0;
      assert c in cs;
    } else {
      assert cs[|cs| - 1] in cs;
    }
  }

  /** The bundle of an undecided publication never has the identity that a commit's receipt names. */
  lemma IdentitiesDiffer(s: State, journals: map<TopicId, Bundle>, q: RequestId, r: RequestId)
    requires JournalInv(s, journals) && StoreInv(s)
             && IntentInv(s.episodes, s.proposals, s.intents, s.decisions, s.history.replaced)
    requires q in s.intents && s.intents[q].receipt.Some? && Undecided(s.intents, s.decisions, r)
             && s.intents[r].prepared.Some?
    ensures s.intents[q].receipt.value.identity != s.intents[r].prepared.value.identity
  {
    assert Receipted(s, q, s.intents[q].receipt.value);
    var p :| Decides(s, q, p) && ReceiptOf(p, s.intents[q].receipt.value);
    var b := s.intents[r].payload;
    assert BundleNamed(s.intents[r]) && IntentPlaced(s.episodes, s.proposals, s.intents[r]);
    ApprovedChosen(p.choices, 0);
    ApprovedChosen(b.choices, 0);
    if s.decisions[q].payload == p {
      assert ChoicesResolved(s.proposals, p.choices);
    } else {
      assert Lost(s.episodes, s.proposals, s.intents, s.decisions, (q, p).0, (q, p).1);
    }
  }

  lemma UnlinkKeeps(w: World, c: CallerId)
    requires hide *; true
    requires ProtocolInv(w) && Good(w.store) && c in w.callers && w.callers[c].pc.Unlinking?
    ensures ProtocolInv(AfterUnlink(w, c))
  {
    hide Good;
    UnlinkKeepsCallers(w, c);
    assert CallerKnows(w.store, w.callers[c]) && FilesFit(w, w.callers[c]);
    UnlinkKeepsJournals(w.store, w.journals, w.callers[c].request);
    SameLocked(w, AfterUnlink(w, c));
  }

  lemma UnlinkKeepsCallers(w: World, c: CallerId)
    requires CallersInv(w) && HolderInv(w) && c in w.callers && w.callers[c].pc.Unlinking?
    ensures CallersInv(AfterUnlink(w, c)) && HolderInv(AfterUnlink(w, c))
  {
    assert CallerKnows(w.store, w.callers[c]) && Locked(w.callers[c].pc) && w.holder == Some(c);
    OthersOutside(w, AfterUnlink(w, c), c);
  }

  lemma UnlinkKeepsJournals(s: State, journals: map<TopicId, Bundle>, q: RequestId)
    requires hide *; true
    requires JournalInv(s, journals) && StoreInv(s) && Good(s) && q in s.intents && s.intents[q].receipt.Some?
    requires var done := s.intents[q].receipt.value;
             done.topic in journals && journals[done.topic].identity == done.identity
    ensures JournalInv(s, journals - {s.intents[q].receipt.value.topic})
  {
    var after := journals - {s.intents[q].receipt.value.topic};
    forall r | Undecided(s.intents, s.decisions, r) && s.intents[r].prepared.Some?
      ensures s.intents[r].payload.topic in after && after[s.intents[r].payload.topic] == s.intents[r].prepared.value
    {
      IdentitiesDiffer(s, journals, q, r);
    }
  }

  // ---------- Recording the intent ----------

  /** An accepted intent is of a payload that has and had none: their reviews are held, its own awaits. It names the
      present revision. */
  lemma AcceptedIsNew(s: State, request: RequestId, p: Payload, bundle: Option<Bundle>)
    requires hide Good; true
    requires Good(s) && IntentRefusal(s, p, bundle).None?
    ensures p.expected == s.revision && (request, p) !in s.history.replaced
    ensures Undecided(s.intents, s.decisions, request) ==> s.intents[request].payload != p
  {
    AwaitingUnclaimed(s, p.episode);
  }

  lemma IntentShape(s: State, request: RequestId, p: Payload, bundle: Option<Bundle>)
    requires request !in s.decisions && IntentRefusal(s, p, bundle).None?
    ensures Approved(p.choices) != [] ==> bundle.Some?
    ensures var t := After(s, DecisionIntent(s, request, p, bundle));
            && t.intents == s.intents[request := IntentFor(p, bundle)]
            && t.history == s.history.(replaced := Displaced(s, request))
            && t.decisions == s.decisions && t.items == s.items && t.proposals == s.proposals
            && t.revision == s.revision + 1
  {
    var o := DecisionIntent(s, request, p, bundle).state;
    assert s.episodes[p.episode].state == Awaiting && o.episodes[p.episode].state == Publishing;
  }

  /** The intent of a request is replaced or new; what callers rely on stays, as replaced payloads are remembered. */
  ghost predicate Reintends(s: State, t: State, r: RequestId, i: Intent) {
    && r !in s.decisions && t.intents == s.intents[r := i] && t.decisions == s.decisions
    && t.history.replaced == Displaced(s, r)
    && t.revision == s.revision + 1
  }

  lemma ReintendKnows(s: State, t: State, r: RequestId, i: Intent, k: Caller)
    requires Reintends(s, t, r, i) && CallerKnows(s, k) && (r, i.payload) !in s.history.replaced
    requires Undecided(s.intents, s.decisions, r) ==> s.intents[r].payload != i.payload
    ensures CallerKnows(t, k)
  {
  }

  lemma IntendedKeepsCallers(w: World, o: World, c: CallerId, i: Intent)
    requires CallersInv(w) && c in w.callers && o.callers == At(w, c, Waiting) && i.payload == w.callers[c].payload
    requires Reintends(w.store, o.store, w.callers[c].request, i)
    requires (w.callers[c].request, i.payload) !in w.store.history.replaced
    requires Undecided(w.store.intents, w.store.decisions, w.callers[c].request) ==>
               w.store.intents[w.callers[c].request].payload != i.payload
    requires o.files == w.files && o.touched == w.touched && o.begun == w.begun
    requires forall t | t in w.journals :: t in o.journals && o.journals[t] == w.journals[t]
    ensures CallersInv(o)
  {
    forall d | d in o.callers ensures CallerKnows(o.store, o.callers[d]) && FilesFit(o, o.callers[d]) {
      assert CallerKnows(w.store, w.callers[d]) && FilesFit(w, w.callers[d]);
      if d != c { ReintendKnows(w.store, o.store, w.callers[c].request, i, w.callers[d]); }
    }
  }

  lemma IntendedKeepsJournals(s: State, t: State, journals: map<TopicId, Bundle>, journals': map<TopicId, Bundle>,
                              request: RequestId, i: Intent)
    requires JournalInv(s, journals) && Reintends(s, t, request, i) && BundleNamed(i)
    requires forall x | x in journals :: x in journals' && journals'[x] == journals[x]
    requires i.prepared.Some? ==> i.payload.topic in journals' && journals'[i.payload.topic] == i.prepared.value
    ensures JournalInv(t, journals')
  {
    forall r | Undecided(t.intents, t.decisions, r) && t.intents[r].prepared.Some?
      ensures t.intents[r].payload.topic in journals'
              && journals'[t.intents[r].payload.topic] == t.intents[r].prepared.value
    {
      if r != request { assert Undecided(s.intents, s.decisions, r); }
    }
    forall r | r in t.intents ensures BundleNamed(t.intents[r]) {
      if r != request { assert BundleNamed(s.intents[r]); }
    }
  }

  lemma IntendedKeepsStore(s: State, t: State, request: RequestId, i: Intent)
    requires StoreInv(s) && Reintends(s, t, request, i) && t.proposals == s.proposals && i.receipt.None?
    ensures StoreInv(t)
  {
    forall r | r in t.intents && t.intents[r].receipt.Some? ensures Receipted(t, r, t.intents[r].receipt.value) {
      assert Receipted(s, r, s.intents[r].receipt.value);
      var p :| Decides(s, r, p) && ReceiptOf(p, s.intents[r].receipt.value);
      assert Decides(t, r, p);
    }
    forall r | r in t.decisions ensures ChoicesResolved(t.proposals, t.decisions[r].payload.choices) {
      assert ChoicesResolved(s.proposals, s.decisions[r].payload.choices);
    }
  }

  predicate RecordsIntent(w: World, c: CallerId) {
    && c in w.callers && w.callers[c].pc.Deciding?
    && var k := w.callers[c];
       k.request !in w.store.decisions && IntentRefusal(w.store, k.payload, Prepare(w, k.payload)).None?
  }

  lemma RecordedIntent(w: World, c: CallerId) returns (i: Intent)
    requires RecordsIntent(w, c)
    ensures i == IntentFor(w.callers[c].payload, Prepare(w, w.callers[c].payload))
            && RecordedAs(w, AfterIntend(w, c), c, i)
  {
    var k := w.callers[c];
    IntentShape(w.store, k.request, k.payload, Prepare(w, k.payload));
    JournaledExtends(w, k.payload);
    i := IntentFor(k.payload, Prepare(w, k.payload));
  }

  ghost predicate RecordedAs(w: World, o: World, c: CallerId, i: Intent)
    requires c in w.callers
  {
    var k := w.callers[c];
    && i.payload == k.payload && BundleNamed(i) && i.receipt.None? && Reintends(w.store, o.store, k.request, i)
    && (i.prepared.Some? ==> k.payload.topic in o.journals && o.journals[k.payload.topic] == i.prepared.value)
    && o.store.items == w.store.items && o.store.proposals == w.store.proposals
    && o.callers == At(w, c, Waiting) && o.files == w.files && o.touched == w.touched && o.begun == w.begun
    && o.holder == w.holder
    && o.strays == w.strays && (forall t | t in w.journals :: t in o.journals && o.journals[t] == w.journals[t])
  }

  lemma RecordIntentKeeps(w: World, c: CallerId)
    requires hide Good, AfterIntend, ProtocolInv, Prepare; true
    requires ProtocolInv(w) && Good(w.store) && RecordsIntent(w, c)
    ensures ProtocolInv(AfterIntend(w, c))
  {
    hide Good, AfterIntend, Prepare, CallersInv;
    var o := AfterIntend(w, c);
    var i := RecordedIntent(w, c);
    AcceptedIsNew(w.store, w.callers[c].request, i.payload, Prepare(w, i.payload));
    RecordedKeepsCallers(w, o, c, i);
    RecordedKeepsRest(w, o, c, i);
  }

  lemma RecordedKeepsCallers(w: World, o: World, c: CallerId, i: Intent)
    requires CallersInv(w) && HolderInv(w) && c in w.callers && RecordedAs(w, o, c, i) && w.callers[c].pc.Deciding?
    requires (w.callers[c].request, i.payload) !in w.store.history.replaced
    requires Undecided(w.store.intents, w.store.decisions, w.callers[c].request) ==>
               w.store.intents[w.callers[c].request].payload != i.payload
    ensures CallersInv(o) && HolderInv(o)
  {
    hide CallersInv;
    IntendedKeepsCallers(w, o, c, i);
  }

  lemma RecordedKeepsRest(w: World, o: World, c: CallerId, i: Intent)
    requires StoreInv(w.store) && JournalInv(w.store, w.journals) && LocksInv(w) && c in w.callers
             && RecordedAs(w, o, c, i)
    ensures StoreInv(o.store) && JournalInv(o.store, o.journals) && LocksInv(o)
  {
    IntendedKeepsJournals(w.store, o.store, w.journals, o.journals, w.callers[c].request, i);
    IntendedKeepsStore(w.store, o.store, w.callers[c].request, i);
    SameLocked(w, o);
  }

  lemma IntendKeeps(w: World, c: CallerId)
    requires hide *; true
    requires ProtocolInv(w) && Good(w.store) && c in w.callers && w.callers[c].pc.Deciding?
    ensures ProtocolInv(AfterIntend(w, c))
  {
    hide Good, ProtocolInv;
    var k := w.callers[c];
    match Intended(w, k.payload, k.request)
    case Refused(e) => MoveCaller(w, c, Failed(e));
    case Done(s, Some(result)) => MoveCaller(w, c, Returned(result));
    case Done(s, None) => RecordIntentKeeps(w, c);
  }

  // ---------- Committing ----------

  lemma CommitShape(s: State, request: RequestId, receipt: Option<Receipt>)
    requires Undecided(s.intents, s.decisions, request) && CommitDecision(s, request, receipt).Done?
    ensures var i, o := s.intents[request], CommitDecision(s, request, receipt);
            var t := After(s, o);
            && t.intents == s.intents[request := i.(published := true, receipt := receipt)]
            && t.decisions == s.decisions[request := Decision(i.payload, o.value)]
            && t.proposals == ResolveProposals(s.proposals, i.payload.choices)
            && t.items == DecidedItems(s.items, i.payload.topic, LockOf(receipt))
            && t.revision == s.revision + 1 && t.history == s.history
            && ChoiceIds(i.payload.choices) <= s.proposals.Keys
  {
    var o := CommitDecision(s, request, receipt).state;
    assert request in o.decisions;
  }

  /** One request gets its decision and its receipt. */
  ghost predicate Concludes(s: State, t: State, r: RequestId, receipt: Option<Receipt>, result: DecisionResult) {
    && Undecided(s.intents, s.decisions, r)
    && t.intents == s.intents[r := s.intents[r].(published := true, receipt := receipt)]
    && t.decisions == s.decisions[r := Decision(s.intents[r].payload, result)]
    && t.history.replaced == s.history.replaced && t.revision >= s.revision
  }

  lemma ConcludedKnows(s: State, t: State, r: RequestId, receipt: Option<Receipt>, result: DecisionResult, k: Caller)
    requires Concludes(s, t, r, receipt, result) && DecisionsNamed(s) && CallerKnows(s, k) && !Locked(k.pc)
    ensures CallerKnows(t, k)
  {
  }

  lemma CommittedKeepsCallers(w: World, o: World, c: CallerId, r: RequestId, receipt: Option<Receipt>,
                              result: DecisionResult)
    requires DecisionsNamed(w.store) && CallersInv(w) && HolderInv(w) && w.holder == Some(c) && c in o.callers
    requires CallerKnows(o.store, o.callers[c]) && FilesFit(o, o.callers[c])
    requires forall d | d in o.callers && d != c :: d in w.callers && o.callers[d] == w.callers[d]
    requires Concludes(w.store, o.store, r, receipt, result)
    ensures CallersInv(o)
  {
    forall d | d in o.callers ensures CallerKnows(o.store, o.callers[d]) && FilesFit(o, o.callers[d]) {
      if d != c {
        assert CallerKnows(w.store, w.callers[d]) && !Locked(w.callers[d].pc);
        ConcludedKnows(w.store, o.store, r, receipt, result, w.callers[d]);
      }
    }
  }

  lemma CommittedKeepsStore(s: State, t: State, journals: map<TopicId, Bundle>, r: RequestId, receipt: Option<Receipt>,
                            result: DecisionResult, p: Payload)
    requires JournalInv(s, journals) && StoreInv(s) && Concludes(s, t, r, receipt, result)
    requires t.proposals == ResolveProposals(s.proposals, s.intents[r].payload.choices)
    requires ChoiceIds(s.intents[r].payload.choices) <= s.proposals.Keys
    requires Holds(s, r, p) && (receipt.Some? ==> ReceiptOf(p, receipt.value))
    ensures JournalInv(t, journals) && StoreInv(t)
  {
    forall q | q in t.intents ensures BundleNamed(t.intents[q]) {
      assert BundleNamed(s.intents[q]);
    }
    forall q | q in t.decisions ensures ChoicesResolved(t.proposals, t.decisions[q].payload.choices) {
      if q != r { assert ChoicesResolved(s.proposals, s.decisions[q].payload.choices); }
    }
    CommittedKeepsReceipts(s, t, r, receipt, result, p);
  }

  lemma CommittedKeepsReceipts(s: State, t: State, r: RequestId, receipt: Option<Receipt>, result: DecisionResult,
                               p: Payload)
    requires ReceiptsInv(s) && Concludes(s, t, r, receipt, result)
    requires Holds(s, r, p) && (receipt.Some? ==> ReceiptOf(p, receipt.value))
    ensures ReceiptsInv(t)
  {
    forall q | q in t.intents && t.intents[q].receipt.Some? ensures Receipted(t, q, t.intents[q].receipt.value) {
      if q == r {
        assert Decides(t, r, p);
      } else {
        assert Receipted(s, q, s.intents[q].receipt.value);
        var x :| Decides(s, q, x) && ReceiptOf(x, s.intents[q].receipt.value);
        assert Decides(t, q, x);
      }
    }
  }

  /** At the commit the items of the decided topic take the lock of what was published. */
  lemma CommittedKeepsLocks(w: World, o: World, k: Caller)
    requires LocksInv(w) && k.pc.Storing? && k.request in w.store.intents && FilesFit(w, k)
    requires ReceiptFits(k.pc.read, k.pc.prepared, k.pc.receipt)
    requires o.files == w.files && o.begun == BegunAfter(w, k) && o.strays == StraysAfter(w, k)
    requires o.store.items == DecidedItems(w.store.items, w.store.intents[k.request].payload.topic,
             LockOf(k.pc.receipt))
    ensures LocksInv(o)
  {
    var t := w.store.intents[k.request].payload.topic;
    if k.pc.receipt.None? {
      SameLocked(w, o);
    } else {
      forall i | i in o.store.items ensures LockAgrees(o, i) {
        var n :| 0 <= n < |o.store.items| && o.store.items[n] == i;
        assert w.store.items[n] in w.store.items && LockAgrees(w, w.store.items[n]);
        if i.id != t { OtherTopicsMid(w, o, k, i.id); }
      }
    }
  }

  lemma OtherTopicsMid(w: World, o: World, k: Caller, x: TopicId)
    requires k.pc.Storing? && k.request in w.store.intents && o.begun == BegunAfter(w, k)
             && x != w.store.intents[k.request].payload.topic
    ensures MidPublication(w, x) ==> MidPublication(o, x)
  {
    if MidPublication(w, x) {
      var y :| y in w.begun && y.1.topic == x;
      assert y in o.begun;
    }
  }

  function RecordedPc(k: Caller, result: DecisionResult): Pc
    requires k.pc.Storing?
  {
    if k.pc.receipt.Some? then Cleaning(k.pc.receipt.value, result) else Returned(result)
  }

  /** What a commit does to the world. */
  lemma RecordedWorld(w: World, c: CallerId, o: Outcome<DecisionResult>)
    requires c in w.callers && w.callers[c].pc.Storing?
             && o == CommitDecision(w.store, w.callers[c].request, w.callers[c].pc.receipt) && o.Done?
    ensures var k := w.callers[c];
            AfterRecord(w, c) ==
              w.(store := After(w.store, o), begun := BegunAfter(w, k), strays := StraysAfter(w, k),
                callers := At(w, c, RecordedPc(k, o.value)),
                 holder := if k.pc.receipt.Some? then w.holder else None)
  {
  }

  /** The committing caller knows its decision is on record. */
  lemma RecordedKnows(s: State, t: State, k: Caller, result: DecisionResult)
    requires k.pc.Storing? && CallerKnows(s, k) && Concludes(s, t, k.request, k.pc.receipt, result)
    ensures CallerKnows(t, k.(pc := RecordedPc(k, result)))
  {
  }

  /** The caller is about to commit its publication, which it prepared and measured. */
  ghost predicate AboutToCommit(w: World, c: CallerId) {
    && c in w.callers && w.callers[c].pc.Storing? && w.holder == Some(c)
    && CallerKnows(w.store, w.callers[c]) && FilesFit(w, w.callers[c])
    && CommitDecision(w.store, w.callers[c].request, w.callers[c].pc.receipt).Done?
  }

  lemma RecordKeepsCallers(w: World, c: CallerId)
    requires hide AfterRecord, CallersInv, CommitDecision, CallerKnows; true
    requires DecisionsNamed(w.store) && CallersInv(w) && HolderInv(w) && AboutToCommit(w, c)
    ensures CallersInv(AfterRecord(w, c)) && HolderInv(AfterRecord(w, c))
  {
    hide CommitDecision;
    var k, commit := w.callers[c], CommitDecision(w.store, w.callers[c].request, w.callers[c].pc.receipt);
    RecordedWorld(w, c, commit);
    CommitShape(w.store, k.request, k.pc.receipt);
    RecordedKnows(w.store, After(w.store, commit), k, commit.value);
    CommittedKeepsCallers(w, AfterRecord(w, c), c, k.request, k.pc.receipt, commit.value);
  }

  lemma RecordKeepsStore(w: World, c: CallerId)
    requires JournalInv(w.store, w.journals) && StoreInv(w.store) && AboutToCommit(w, c)
    ensures var o := AfterRecord(w, c); JournalInv(o.store, o.journals) && StoreInv(o.store)
  {
    hide AfterRecord, CommitDecision;
    var k, o := w.callers[c], AfterRecord(w, c);
    RecordedWorld(w, c, CommitDecision(w.store, k.request, k.pc.receipt));
    CommitShape(w.store, k.request, k.pc.receipt);
    CommittedKeepsStore(w.store, o.store, w.journals, k.request, k.pc.receipt,
                        CommitDecision(w.store, k.request, k.pc.receipt).value, k.pc.read);
  }

  lemma RecordKeepsLocks(w: World, c: CallerId)
    requires hide AfterRecord, CommitDecision, CallerKnows; true
    requires LocksInv(w) && AboutToCommit(w, c)
    ensures LocksInv(AfterRecord(w, c))
  {
    hide AfterRecord, CommitDecision;
    RecordedWorld(w, c, CommitDecision(w.store, w.callers[c].request, w.callers[c].pc.receipt));
    CommitShape(w.store, w.callers[c].request, w.callers[c].pc.receipt);
    CommittedKeepsLocks(w, AfterRecord(w, c), w.callers[c]);
  }

  lemma RecordKeeps(w: World, c: CallerId)
    requires hide *; true
    requires ProtocolInv(w) && c in w.callers && w.callers[c].pc.Storing?
    requires CommitDecision(w.store, w.callers[c].request, w.callers[c].pc.receipt).Done?
    ensures ProtocolInv(AfterRecord(w, c))
  {
    hide AfterRecord, CommitDecision, CallerKnows;
    assert Locked(w.callers[c].pc) && w.holder == Some(c);
    RecordKeepsCallers(w, c);
    RecordKeepsStore(w, c);
    RecordKeepsLocks(w, c);
  }

  // ---------- Other transactions ----------

  /** The store moves on without touching intents, decisions or proposals on record, and every item's lock still
      agrees. */
  lemma StoreKeeps(w: World, t: State)
    requires hide *; true
    requires ProtocolInv(w) && t.intents == w.store.intents && t.decisions == w.store.decisions
             && t.revision >= w.store.revision
    requires t.history.replaced == w.store.history.replaced
    requires forall p | p in w.store.proposals :: p in t.proposals && t.proposals[p] == w.store.proposals[p]
    requires forall i | i in t.items :: LockAgrees(w, i)
    ensures ProtocolInv(w.(store := t))
  {
    var o := w.(store := t);
    forall d | d in o.callers ensures CallerKnows(o.store, o.callers[d]) && FilesFit(o, o.callers[d]) {
      assert CallerKnows(w.store, w.callers[d]) && FilesFit(w, w.callers[d]);
    }
    SameStoreInv(w.store, t);
    forall i | i in t.items ensures LockAgrees(o, i) {
      assert LockAgrees(w, i);
    }
  }

  lemma SameStoreInv(s: State, t: State)
    requires StoreInv(s) && t.intents == s.intents && t.decisions == s.decisions
             && t.history.replaced == s.history.replaced
    requires forall p | p in s.proposals :: p in t.proposals && t.proposals[p] == s.proposals[p]
    ensures StoreInv(t)
  {
    forall r | r in t.decisions ensures ChoicesResolved(t.proposals, t.decisions[r].payload.choices) {
      assert ChoicesResolved(s.proposals, s.decisions[r].payload.choices);
    }
    forall r | r in t.intents && t.intents[r].receipt.Some? ensures Receipted(t, r, t.intents[r].receipt.value) {
      assert Receipted(s, r, s.intents[r].receipt.value);
      var p :| Decides(s, r, p) && ReceiptOf(p, s.intents[r].receipt.value);
      assert Decides(t, r, p);
    }
  }

  lemma BystanderKeeps(w: World, t: State)
    requires ProtocolInv(w) && Bystander(w.store, t)
    ensures ProtocolInv(w.(store := t))
  {
    forall i | i in t.items ensures LockAgrees(w, i) {
      var j :| j in w.store.items && j.id == i.id && j.lock == i.lock;
      assert LockAgrees(w, j);
    }
    StoreKeeps(w, t);
  }

  lemma EditFrame(s: State, items: seq<Item>, paused: bool, stopping: bool)
    ensures var t := Commit(s, s.(items := items, paused := paused, stopping := stopping));
            t == s.(items := items, paused := paused, stopping := stopping, revision := t.revision)
              && t.revision >= s.revision
  {
  }

  lemma EditKeeps(w: World, items: seq<Item>, paused: bool, stopping: bool)
    requires ProtocolInv(w) && forall i | i in items :: LockAgrees(w, i)
    ensures ProtocolInv(w.(store := Commit(w.store, w.store.(items := items, paused := paused, stopping := stopping))))
  {
    hide *;
    EditFrame(w.store, items, paused, stopping);
    StoreKeeps(w, Commit(w.store, w.store.(items := items, paused := paused, stopping := stopping)));
  }
}
