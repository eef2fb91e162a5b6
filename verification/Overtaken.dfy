/** Traces in which one call of a request replaces the intent of another between that call's intent and its commit. */
module Overtaken {
  import opened Common
  import opened ControlRecords
  import opened Checkpoints
  import opened Reviews
  import opened Runs
  import opened Reachability
  import opened Publication
  import opened PublicationSafety
  import opened PublicationTheorems
  import Contracts
  import SemanticState

  // ---------- Worlds some trace ends in ----------

  ghost predicate Ends(w: World) {
    exists worlds, steps :: Trace(worlds, steps) && EndsAt(worlds, w)
  }

  lemma TraceGoesOn(worlds: seq<World>, steps: seq<Step>, w: World, step: Step, o: World)
    requires Trace(worlds, steps) && EndsAt(worlds, w) && Leads(w, step, o)
    ensures Trace(worlds + [o], steps + [step])
  {
    hide InitialWorld, Leads;
    var worlds', steps' := worlds + [o], steps + [step];
    forall i | 0 <= i < |steps'| ensures Leads(worlds'[i], steps'[i], worlds'[i + 1]) {
      if i < |steps| {
        assert worlds'[i] == worlds[i] && worlds'[i + 1] == worlds[i + 1] && steps'[i] == steps[i];
      } else {
        assert worlds'[i] == worlds[|steps|] && worlds'[i + 1] == o && steps'[i] == step;
      }
    }
  }

  lemma EndsIn(worlds: seq<World>, steps: seq<Step>, w: World)
    requires Trace(worlds, steps) && EndsAt(worlds, w)
    ensures Ends(w)
  {
    hide Trace, EndsAt;
  }

  lemma EndsNext(w: World, step: Step, o: World)
    requires Ends(w) && Leads(w, step, o)
    ensures Ends(o)
  {
    hide Trace, Leads;
    var worlds, steps :| Trace(worlds, steps) && EndsAt(worlds, w);
    TraceShape(worlds, steps);
    TraceGoesOn(worlds, steps, w, step, o);
    EndsIn(worlds + [o], steps + [step], o);
  }

  lemma Advances(w: World, c: CallerId)
    requires hide *; true
    requires Ends(w) && c in w.callers && (w.callers[c].pc.Waiting? || w.callers[c].pc.CleanWaiting? ==> w.holder.None?)
    ensures Ends(Advanced(w, c))
  {
    hide Ends, Advanced, Apply, Allowed, EditAgrees, Dies, AfterAbort, AfterAgentWrite;
    EndsNext(w, Advance(c), Advanced(w, c));
  }

  function Idle(s: State, files: map<TopicId, Contract>): World { World(s, files, map[], None, map[], {}, {}, map[]) }

  /** A plain run of the controller is a trace in which nobody publishes. */
  lemma RunIsTrace(s: State, files: map<TopicId, Contract>)
    requires Reached(s)
    ensures Ends(Idle(s, files))
  {
    hide Leads, Reachable, Apply, Allowed, InitialWorld;
    var states, ops :| PlainRun(states, ops) && EndsAt(states, s);
    var worlds := seq(|states|, i requires 0 <= i < |states| => Idle(states[i], files));
    var steps := seq(|ops|, i requires 0 <= i < |ops| => Transact(ops[i]));
    forall i | 0 <= i < |steps| ensures Leads(worlds[i], steps[i], worlds[i + 1]) {
      RunStep(states, ops, files, i, worlds[i], steps[i], worlds[i + 1]);
    }
    IdleStarts(states[0], files);
    EndsIn(worlds, steps, Idle(s, files));
  }

  lemma IdleStarts(s: State, files: map<TopicId, Contract>)
    requires Initial(s) && forall i | i in s.items :: !i.lock.Pinned?
    ensures InitialWorld(Idle(s, files))
  {
  }

  lemma RunStep(states: seq<State>, ops: seq<Op>, files: map<TopicId, Contract>, i: nat, w: World, step: Step, o: World)
    requires hide Leads, Apply, Allowed, Initial; true
    requires PlainRun(states, ops) && i < |ops| && w == Idle(states[i], files) && step == Transact(ops[i])
             && o == Idle(states[i + 1], files)
    ensures Leads(w, step, o)
  {
    hide Leads, Apply, Allowed, Initial, Idle;
    assert ops[i] in ops;
    IdleStep(states[i], ops[i], files);
  }

  lemma IdleStep(s: State, op: Op, files: map<TopicId, Contract>)
    requires hide *; true
    requires |s.seats| == MAX_STATIONS && Allowed(s, op) && Plain(op)
    ensures Leads(Idle(s, files), Transact(op), Idle(Apply(s, op), files))
  {
    hide Apply, Allowed, Advanced, Dies, AfterAbort, AfterAgentWrite, Good;
  }

  // ---------- Two calls of one request ----------

  const REQUEST := 5

  function Decider(p: Payload, seen: nat): Caller { Caller(REQUEST, p, Deciding(seen)) }

  /** Both calls have taken their snapshot before either recorded an intent. */
  function TwoDeciding(s: State, files: map<TopicId, Contract>, a: Payload, b: Payload): World {
    Idle(s, files).(callers := map[1 := Decider(a, s.revision), 2 := Decider(b, s.revision)])
  }

  lemma Spawns(w: World, c: CallerId, p: Payload) returns (o: World)
    requires hide Ends; true
    requires Ends(w) && c !in w.callers
    ensures Ends(o) && o == w.(callers := w.callers[c := Caller(REQUEST, p, Fresh)])
  {
    hide Ends, Advanced, Apply, Allowed, EditAgrees, Dies, AfterAbort, AfterAgentWrite;
    o := AfterSpawn(w, c, REQUEST, p);
    EndsNext(w, Spawn(c, REQUEST, p), o);
  }

  lemma Snapshots(w: World, c: CallerId, p: Payload) returns (o: World)
    requires hide Ends; true
    requires Ends(w) && c in w.callers && w.callers[c] == Caller(REQUEST, p, Fresh)
    requires REQUEST !in w.store.intents && REQUEST !in w.store.decisions
    ensures Ends(o) && o == w.(callers := w.callers[c := Decider(p, w.store.revision)])
  {
    hide Ends;
    Advances(w, c);
    o := AfterSnapshot(w, c);
  }

  lemma TwoCallers(a: Payload, b: Payload, seen: nat, none: map<CallerId, Caller>)
    requires none == map[]
    ensures none[1 := Caller(REQUEST, a, Fresh)][2 := Caller(REQUEST, b, Fresh)][1 := Decider(a, seen)][2 :=
            Decider(b, seen)]
            == map[1 := Decider(a, seen), 2 := Decider(b, seen)]
  {
  }

  lemma TwoCallsDecide(s: State, files: map<TopicId, Contract>, a: Payload, b: Payload)
    requires Reached(s) && REQUEST !in s.intents && REQUEST !in s.decisions
    ensures Ends(TwoDeciding(s, files, a, b))
  {
    hide Ends, Reached;
    RunIsTrace(s, files);
    var w1 := Spawns(Idle(s, files), 1, a);
    var w2 := Spawns(w1, 2, b);
    var w3 := Snapshots(w2, 1, a);
    var w4 := Snapshots(w3, 2, b);
    TwoCallers(a, b, s.revision, map[]);
  }

  /** What the intent transaction leaves. */
  ghost predicate Intended(s: State, t: State, p: Payload, bundle: Option<Bundle>) {
    && p.episode in s.episodes && t.episodes ==
         s.episodes[p.episode := s.episodes[p.episode].(state := EpisodeState.Publishing)]
    && t.intents == s.intents[REQUEST := IntentFor(p, bundle)] && t.decisions == s.decisions
    && t.proposals == s.proposals
    && t.items == s.items && t.revision == s.revision + 1
  }

  lemma IntentLands(s: State, p: Payload, bundle: Option<Bundle>)
    requires REQUEST !in s.decisions && IntentRefusal(s, p, bundle).None?
    ensures Intended(s, After(s, DecisionIntent(s, REQUEST, p, bundle)), p, bundle)
  {
    IntentShape(s, REQUEST, p, bundle);
  }

  lemma Intends(w: World, c: CallerId) returns (o: World)
    requires hide *; true
    requires Ends(w) && c in w.callers && w.callers[c].pc.Deciding? && w.callers[c].request == REQUEST
             && REQUEST !in w.store.decisions
    requires IntentRefusal(w.store, w.callers[c].payload, Prepare(w, w.callers[c].payload)).None?
    ensures Ends(o) && Intended(w.store, o.store, w.callers[c].payload, Prepare(w, w.callers[c].payload))
    ensures o == w.(store := o.store, journals := Journaled(w, w.callers[c].payload), callers := At(w, c, Waiting))
  {
    hide Ends;
    Advances(w, c);
    o := AfterIntend(w, c);
    IntentLands(w.store, w.callers[c].payload, Prepare(w, w.callers[c].payload));
  }

  lemma Enters(w: World, c: CallerId) returns (o: World)
    requires hide *; true
    requires Ends(w) && c in w.callers && w.callers[c].pc.Waiting? && w.holder.None?
    ensures Ends(o) && o == w.(callers := At(w, c, Opening), holder := Some(c))
  {
    hide Ends;
    Advances(w, c);
    o := AfterAcquire(w, c);
  }

  lemma Opens(w: World, c: CallerId) returns (o: World)
    requires hide Ends; true
    requires Ends(w) && c in w.callers && w.callers[c].pc.Opening?
    requires Undecided(w.store.intents, w.store.decisions, w.callers[c].request)
    ensures var i := w.store.intents[w.callers[c].request];
            Ends(o) && o == w.(callers := At(w, c,
              match i.prepared case None => Storing(i.payload, None, None) case Some(b) => WritingState(i.payload, b)))
  {
    hide Ends;
    Advances(w, c);
    o := AfterOpen(w, c);
  }

  lemma Records(w: World, c: CallerId) returns (o: World)
    requires hide *; true
    requires Ends(w) && c in w.callers && w.callers[c].pc.Storing?
    ensures Ends(o) && o == AfterRecord(w, c)
  {
    hide Ends, AfterIntend, AfterRecord;
    Advances(w, c);
    AdvancedIs(w, c);
    o := AfterRecord(w, c);
  }

  lemma EndsSafe(w: World)
    requires Ends(w)
    ensures Good(w.store) && ProtocolInv(w)
  {
    hide Trace, Good, ProtocolInv;
    var worlds, steps :| Trace(worlds, steps) && EndsAt(worlds, w);
    TraceSafe(worlds, steps, |worlds| - 1);
  }

  // ---------- Two topics with blank contracts ----------

  /** A contract with no obligations yet. */
  function Blank(id: string): Contract {
    var text := SemanticState.Document([], true);
    Contract(SemanticState.State(2, id, text, "", [], [], [], []), text)
  }

  function TwoBlanks(): map<TopicId, Contract> { map[1 := Blank("one"), 2 := Blank("two")] }

  lemma BlankTakes(id: string)
    ensures var d := Contracts.PublishAll(Blank(id), [(Addition("claim", "source"), Approve)]);
            d.Some? && d.value.state.topicId == id
  {
    var approvals := [(Addition("claim", "source"), Approve)];
    assert approvals[..0] == [];
    assert !SemanticState.IsSpace("claim"[0]) && !SemanticState.IsSpace("source"[0]);
    assert SemanticState.Filled("claim") && SemanticState.Filled("source");
  }

  lemma BlankPrepares(w: World, revision: nat, t: TopicId, e: EpisodeId, id: ProposalId, name: string)
    requires t in w.files && w.files[t] == Blank(name) && t !in w.journals
    requires id in w.store.proposals && w.store.proposals[id] == Pending(id, e, t)
    ensures var bundle := Prepare(w, Approval(revision, t, e, id));
            bundle.Some? && bundle.value.contract.state.topicId == name
  {
    var cs := [Choice(id, 1, Approve)];
    assert cs[..0] == [];
    assert Approvals(w.store.proposals, cs) == [(Addition("claim", "source"), Approve)];
    BlankTakes(name);
  }

  // ---------- One intent over another ----------

  /** The second topic still waits, and the second call names the revision that the first intent made. */
  ghost predicate SecondFits(s: State, b: Payload) {
    && b == Approval(s.revision, 2, 20, 200) && 20 in s.episodes && s.episodes[20].state == Awaiting
    && s.episodes[20].topic == 2
    && 200 in s.proposals && s.proposals[200] == Pending(200, 20, 2) && REQUEST !in s.decisions
  }

  lemma SecondStillFits(s: State, t: State, a: Payload, b: Payload, bundle: Option<Bundle>)
    requires Intended(s, t, a, bundle) && a.episode != 20 && SecondFits(s, b.(expected := s.revision))
             && b.expected == s.revision + 1
    ensures SecondFits(t, b)
  {
  }

  lemma SamePrepared(s: State, files: map<TopicId, Contract>, a: Payload, b: Payload)
    ensures Prepare(TwoDeciding(s, files, a, b), a) == Prepare(Idle(s, files), a)
  {
  }

  /** The first call records its intent. */
  lemma FirstIntends(s: State, files: map<TopicId, Contract>, a: Payload, b: Payload) returns (w: World)
    requires hide Ends, Reached, Prepare; true
    requires Reached(s) && REQUEST !in s.intents && REQUEST !in s.decisions
    requires IntentRefusal(s, a, Prepare(Idle(s, files), a)).None?
    ensures Ends(w) && w == Idle(w.store, files).(callers := w.callers, journals := w.journals)
    ensures w.callers == map[1 := Caller(REQUEST, a, Waiting), 2 := Decider(b, s.revision)]
    ensures forall t | t in w.journals :: t == a.topic
    ensures Intended(s, w.store, a, Prepare(Idle(s, files), a))
  {
    hide Ends, Reached, Prepare;
    TwoCallsDecide(s, files, a, b);
    SamePrepared(s, files, a, b);
    w := Intends(TwoDeciding(s, files, a, b), 1);
    FirstWaits(a, b, s.revision);
  }

  lemma FirstWaits(a: Payload, b: Payload, seen: nat)
    ensures var callers := map[1 := Decider(a, seen), 2 := Decider(b, seen)];
            callers[1 := callers[1].(pc := Waiting)] == map[1 := Caller(REQUEST, a, Waiting), 2 := Decider(b, seen)]
  {
  }

  /** The second call records its own over it, wherever the first one is. */
  lemma SecondIntends(w: World, b: Payload, seen: nat) returns (o: World)
    requires hide *; true
    requires Ends(w) && 2 in w.callers && w.callers[2] == Decider(b, seen) && SecondFits(w.store, b)
    requires w.files == TwoBlanks() && 2 !in w.journals
    ensures Ends(o) && o == w.(store := o.store, journals := o.journals, callers := At(w, 2, Waiting))
    ensures REQUEST in o.store.intents && o.store.intents[REQUEST].payload == b && REQUEST !in o.store.decisions
    ensures o.store.items == w.store.items
  {
    hide Ends;
    BlankPrepares(w, w.store.revision, 2, 20, 200, "two");
    ApprovalHolds(w.store, 2, 20, 200, Prepare(w, b));
    o := Intends(w, 2);
  }

  /** What both examples start from. */
  lemma SecondAwaits(s: State, b: Payload)
    requires 20 in s.episodes && s.episodes[20].state == Awaiting && s.episodes[20].topic == 2 && s.decisions == map[]
    requires s.proposals == map[100 := Pending(100, 10, 1), 200 := Pending(200, 20, 2)]
             && b == Approval(s.revision + 1, 2, 20, 200)
    ensures SecondFits(s, b.(expected := s.revision)) && b.expected == s.revision + 1
  {
  }

  // ---------- One call returns the other's decision ----------

  /** The first call is inside the lock with nothing to publish, when the second records its intent over the one
      read. */
  lemma SecondPasses() returns (w: World, a: Payload, b: Payload)
    requires hide Ends; true
    ensures Ends(w) && 1 in w.callers && w.callers[1] == Caller(REQUEST, a, Storing(a, None, None)) && a.topic == 1
    ensures b.topic == 2 && Approved(b.choices) != [] && w.files == TwoBlanks()
    ensures REQUEST in w.store.intents && w.store.intents[REQUEST].payload == b && REQUEST !in w.store.decisions
  {
    hide Ends, Reached;
    var s := TwoAwaiting();
    a, b := Rejection(s.revision, 1, 10, 100), Approval(s.revision + 1, 2, 20, 200);
    SecondAwaits(s, b);
    var bundle := Prepare(Idle(s, TwoBlanks()), a);
    RejectionHolds(s, 1, 10, 100, bundle);
    var w1 := FirstIntends(s, TwoBlanks(), a, b);
    SecondStillFits(s, w1.store, a, b, bundle);
    var w2 := Enters(w1, 1);
    var w3 := Opens(w2, 1);
    w := SecondIntends(w3, b, s.revision);
    OneApproved(b.choices);
  }

  lemma {:induction false} OneApproved(cs: seq<Choice>)
    requires |cs| == 1 && cs[0].action == Approve
    ensures Approved(cs) != []
  {
    assert cs[..0] == [];
  }

  lemma ResultNames(s: State, r: RequestId, receipt: Option<Receipt>)
    requires Undecided(s.intents, s.decisions, r) && CommitDecision(s, r, receipt).Done?
    ensures CommitDecision(s, r, receipt).value.topic == s.intents[r].payload.topic
  {
  }

  /** A caller that read an intent with nothing to publish commits the one on record at once. */
  lemma CommitsWithout(w: World, c: CallerId, a: Payload, b: Payload) returns (o: World)
    requires hide *; true
    requires Ends(w) && c in w.callers && w.callers[c].pc == Storing(a, None, None) && w.callers[c].request == REQUEST
    requires REQUEST in w.store.intents && w.store.intents[REQUEST].payload == b && REQUEST !in w.store.decisions
    ensures Ends(o) && REQUEST in o.store.decisions && o.store.decisions[REQUEST].payload == b && o.files == w.files
    ensures c in o.callers && o.callers[c].payload == w.callers[c].payload && o.callers[c].pc.Returned?
            && o.callers[c].pc.result.topic == b.topic
  {
    hide Ends, Good, CommitDecision, CallerKnows;
    EndsSafe(w);
    CommitGoesThrough(w, c);
    o := Records(w, c);
    RecordedWithout(w, c, a, b, CommitDecision(w.store, REQUEST, None));
  }

  lemma RecordedWithout(w: World, c: CallerId, a: Payload, b: Payload, commit: Outcome<DecisionResult>)
    requires c in w.callers && w.callers[c].pc == Storing(a, None, None) && w.callers[c].request == REQUEST
    requires REQUEST in w.store.intents && w.store.intents[REQUEST].payload == b && REQUEST !in w.store.decisions
    requires commit == CommitDecision(w.store, REQUEST, None) && commit.Done?
    ensures var o := AfterRecord(w, c);
            && REQUEST in o.store.decisions && o.store.decisions[REQUEST].payload == b && c in o.callers
            && o.files == w.files && o.callers[c].payload == w.callers[c].payload && o.callers[c].pc.Returned?
            && o.callers[c].pc.result.topic == b.topic
  {
    RecordedWorld(w, c, commit);
    CommitShape(w.store, REQUEST, None);
    ResultNames(w.store, REQUEST, None);
  }

  /** A trace in which a call that rejects returns the result of another call's approval, which is decided although
      nothing was published: the other call named the revision that the first one's intent was about to make. */
  lemma ReturnsAnother() returns (w: World)
    requires hide *; true
    ensures Ends(w) && 1 in w.callers && w.callers[1].pc.Returned? && w.callers[1].pc.result.topic == 2
            && w.callers[1].payload.topic == 1
    ensures REQUEST in w.store.decisions && w.store.decisions[REQUEST].payload != w.callers[1].payload
            && Approved(w.store.decisions[REQUEST].payload.choices) != [] && w.files == TwoBlanks()
  {
    hide Ends, Reached;
    var w0, a, b := SecondPasses();
    w := CommitsWithout(w0, 1, a, b);
  }

  // ---------- A topic gets the lock of another topic's files ----------

  /** The holder writes both files and measures them. */
  lemma Writes(w: World, c: CallerId, p: Payload, b: Bundle) returns (o: World)
    requires hide *; true
    requires Ends(w) && c in w.callers && w.callers[c].pc == WritingState(p, b) && p.topic in w.files
    ensures Ends(o) && c in w.callers && o == Wrote(w, c, p, b)
  {
    hide Ends;
    WritesOn(w, c);
    WritesOn(AfterWriteState(w, c), c);
    WritesOn(AfterWriteText(AfterWriteState(w, c), c), c);
    o := Wrote(w, c, p, b);
    WroteBoth(w, c, p, b);
  }

  lemma WritesOn(w: World, c: CallerId)
    requires hide *; true
    requires Ends(w) && c in w.callers
    ensures w.callers[c].pc.WritingState? ==> Ends(AfterWriteState(w, c))
    ensures w.callers[c].pc.WritingText? ==> Ends(AfterWriteText(w, c))
    ensures w.callers[c].pc.Measuring? ==> Ends(AfterMeasure(w, c))
  {
    hide Ends;
    if w.callers[c].pc.WritingState? || w.callers[c].pc.WritingText? || w.callers[c].pc.Measuring? { Advances(w, c); }
  }

  function Wrote(w: World, c: CallerId, p: Payload, b: Bundle): World
    requires c in w.callers
  {
    w.(files := w.files[p.topic := b.contract], begun := w.begun + {(w.callers[c].request, p)},
      touched := w.touched - {p.topic},
       callers := At(w, c, Storing(p, Some(b), Some(ReceiptFor(p, b)))))
  }

  lemma WroteBoth(w: World, c: CallerId, p: Payload, b: Bundle)
    requires c in w.callers && w.callers[c].pc == WritingState(p, b) && p.topic in w.files
    ensures AfterMeasure(AfterWriteText(AfterWriteState(w, c), c), c) == Wrote(w, c, p, b)
  {
    var o := AfterMeasure(AfterWriteText(AfterWriteState(w, c), c), c);
    assert o.files == Wrote(w, c, p, b).files && o.callers == Wrote(w, c, p, b).callers;
  }

  /** The first call is inside the lock, about to write what it read. */
  lemma FirstOpens() returns (w: World, a: Payload, b: Payload, bundle: Bundle, seen: nat)
    requires hide Ends; true
    ensures Ends(w) && w.callers == map[1 := Caller(REQUEST, a, WritingState(a, bundle)), 2 := Decider(b, seen)]
    ensures SecondFits(w.store, b) && a.topic == 1 && bundle.contract.state.topicId == "one"
    ensures w.files == TwoBlanks() && w.begun == {} && w.store.items == [WorkItem(1), WorkItem(2)] && 2 !in w.journals
  {
    hide Ends, Reached;
    var s := TwoAwaiting();
    a, b, seen := Approval(s.revision, 1, 10, 100), Approval(s.revision + 1, 2, 20, 200), s.revision;
    SecondAwaits(s, b);
    BlankPrepares(Idle(s, TwoBlanks()), s.revision, 1, 10, 100, "one");
    var prepared := Prepare(Idle(s, TwoBlanks()), a);
    bundle := prepared.value;
    ApprovalHolds(s, 1, 10, 100, prepared);
    var w1 := FirstIntends(s, TwoBlanks(), a, b);
    SecondStillFits(s, w1.store, a, b, prepared);
    var w2 := Enters(w1, 1);
    w := Opens(w2, 1);
    FirstWrites(a, b, seen, bundle);
  }

  lemma FirstWrites(a: Payload, b: Payload, seen: nat, bundle: Bundle)
    ensures var callers := map[1 := Caller(REQUEST, a, Waiting), 2 := Decider(b, seen)];
            var inside := callers[1 := callers[1].(pc := Opening)];
            inside[1 := inside[1].(pc := WritingState(a, bundle))] ==
              map[1 := Caller(REQUEST, a, WritingState(a, bundle)), 2 := Decider(b, seen)]
  {
  }

  lemma RecordedAnother(w: World, c: CallerId, a: Payload, b: Payload, bundle: Bundle, commit: Outcome<DecisionResult>)
    requires hide *; true
    requires c in w.callers && w.callers[c].request == REQUEST
             && w.callers[c].pc == Storing(a, Some(bundle), Some(ReceiptFor(a, bundle)))
    requires REQUEST in w.store.intents && w.store.intents[REQUEST].payload == b && REQUEST !in w.store.decisions
             && a != b
    requires commit == CommitDecision(w.store, REQUEST, Some(ReceiptFor(a, bundle))) && commit.Done?
    ensures var o := AfterRecord(w, c);
            && o.files == w.files && o.begun == w.begun
            && o.store.items == LockItems(w.store.items, b.topic, ReceiptFor(a, bundle).lock)
  {
    RecordedWorld(w, c, commit);
    CommitShape(w.store, REQUEST, Some(ReceiptFor(a, bundle)));
  }

  /** A commit of another decision than the one published. */
  lemma CommitsAnother(w: World, c: CallerId, a: Payload, b: Payload, bundle: Bundle) returns (o: World)
    requires hide *; true
    requires Ends(w) && c in w.callers && w.callers[c].request == REQUEST
             && w.callers[c].pc == Storing(a, Some(bundle), Some(ReceiptFor(a, bundle)))
    requires REQUEST in w.store.intents && w.store.intents[REQUEST].payload == b && REQUEST !in w.store.decisions
             && a != b
    ensures Ends(o) && o.files == w.files && o.begun == w.begun
    ensures o.store.items == LockItems(w.store.items, b.topic, ReceiptFor(a, bundle).lock)
  {
    hide Ends, Good, CommitDecision, CallerKnows;
    EndsSafe(w);
    CommitGoesThrough(w, c);
    o := Records(w, c);
    RecordedAnother(w, c, a, b, bundle, CommitDecision(w.store, REQUEST, Some(ReceiptFor(a, bundle))));
  }

  /** The second topic's item, pinned to the inventory of the first topic's bundle. */
  lemma SecondLocked(items: seq<Item>, bundle: Bundle, a: Payload) returns (item: Item)
    requires items == LockItems([WorkItem(1), WorkItem(2)], 2, ReceiptFor(a, bundle).lock)
             && bundle.contract.state.topicId == "one"
    ensures item in items && item.id == 2 && item.lock.Pinned?
    ensures item.lock.lock != SemanticState.InventoryProjection(Blank("two").state)
  {
    item := items[1];
  }

  /** The first call's place in the lock, when the second has recorded its intent over the one read. */
  ghost predicate Overtakes(w: World, a: Payload, b: Payload, bundle: Bundle) {
    && 1 in w.callers && w.callers[1].request == REQUEST && a.topic == 1 && bundle.contract.state.topicId == "one"
    && b.topic == 2
    && REQUEST in w.store.intents && w.store.intents[REQUEST].payload == b && REQUEST !in w.store.decisions
    && 1 in w.files && 2 in w.files && w.files[2] == Blank("two") && w.store.items == [WorkItem(1), WorkItem(2)]
  }

  lemma SecondOvertakes() returns (w: World, a: Payload, b: Payload, bundle: Bundle)
    requires hide Ends; true
    ensures Ends(w) && Overtakes(w, a, b, bundle) && w.callers[1].pc == WritingState(a, bundle) && w.begun == {}
  {
    hide Ends, Reached;
    var w1, seen;
    w1, a, b, bundle, seen := FirstOpens();
    w := SecondIntends(w1, b, seen);
  }

  lemma WroteOvertaken(w: World, a: Payload, b: Payload, bundle: Bundle)
    requires Overtakes(w, a, b, bundle) && w.begun == {}
    ensures var o := Wrote(w, 1, a, bundle); Overtakes(o, a, b, bundle) && o.begun == {(REQUEST, a)}
  {
  }

  /** The first call publishes its own bundle, and commits the decision of the second. */
  lemma AnotherCommits() returns (w: World, a: Payload, bundle: Bundle)
    requires hide *; true
    ensures Ends(w) && a.topic == 1 && bundle.contract.state.topicId == "one" && w.begun == {(REQUEST, a)}
    ensures 2 in w.files && w.files[2] == Blank("two")
            && w.store.items == LockItems([WorkItem(1), WorkItem(2)], 2, ReceiptFor(a, bundle).lock)
  {
    hide Ends, Reached;
    var w2, b;
    w2, a, b, bundle := SecondOvertakes();
    var w3 := Writes(w2, 1, a, bundle);
    WroteOvertaken(w2, a, b, bundle);
    w := CommitsAnother(w3, 1, a, b, bundle);
  }

  /** A trace after which a queue item is locked to the inventory of another topic's files, with no publication of its
      own under way: its topic's intent replaced the one whose bundle was just being written. */
  lemma LocksAnother() returns (w: World, item: Item)
    requires hide *; true
    ensures Ends(w) && item in w.store.items && item.lock.Pinned? && item.id in w.files && !MidPublication(w, item.id)
    ensures item.lock.lock != SemanticState.InventoryProjection(w.files[item.id].state)
  {
    hide Ends, Reached;
    var a, bundle;
    w, a, bundle := AnotherCommits();
    item := SecondLocked(w.store.items, bundle, a);
  }
}
