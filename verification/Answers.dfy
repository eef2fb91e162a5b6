/** What holds along every run between a state and what the calls on it answered. */
module Answers {
  import opened Common
  import opened ControlRecords
  import opened Scheduler
  import opened Checkpoints
  import opened Episodes
  import opened Ledger
  import opened Reviews
  import opened Effects
  import opened Runs
  import Bystanders

  // ---------- Delegates ----------

  /** In every reachable review, exactly the first two infrastructure failures were refunded, and as many refunds are
      left as make two with them. */
  lemma RefundsBounded(states: seq<State>, ops: seq<Op>, i: nat, e: EpisodeId)
    requires hide *; true
    requires Execution(states, ops) && i < |states| && e in states[i].episodes
    ensures var ep := states[i].episodes[e];
            var failed := set k | k in ep.invocations && ep.invocations[k].finished
                                  && (ep.invocations[k].exit == 70 || ep.invocations[k].exit == 124);
            var refunded := set k | k in ep.invocations && ep.invocations[k].refunded;
            && refunded <= failed && |refunded| == (if |failed| < 2 then |failed| else 2)
            && ep.refunds == 2 - |refunded|
  {
    hide *;
    RunSafe(states, ops, i);
    GoodBudget(states[i], e);
    RefundSets(states[i].episodes[e]);
  }

  lemma GoodBudget(s: State, e: EpisodeId)
    requires hide *; true
    requires Good(s) && e in s.episodes
    ensures DelegateInv(s.episodes[e])
  {
    hide LedgerGood;
  }

  lemma RefundSets(ep: Episode)
    requires DelegateInv(ep)
    ensures var failed := set k | k in ep.invocations && ep.invocations[k].finished
                                  && (ep.invocations[k].exit == 70 || ep.invocations[k].exit == 124);
            var refunded := set k | k in ep.invocations && ep.invocations[k].refunded;
            && refunded <= failed && |refunded| == (if |failed| < 2 then |failed| else 2)
            && ep.refunds == 2 - |refunded|
  {
    RefundsCounted(ep);
    hide DelegateInv, Conserved, OneAtATime, InOrder;
    assert InfraEnded(ep) == set k | k in ep.invocations && ep.invocations[k].finished
                                     && (ep.invocations[k].exit == 70 || ep.invocations[k].exit == 124);
    assert Refunded(ep) == set k | k in ep.invocations && ep.invocations[k].refunded;
  }

  // ---------- Deepening ----------

  /** Along every run a topic's record says of a version that it deepened exactly when its deepening trigger is on
      record. */
  lemma DeepeningMarked(states: seq<State>, ops: seq<Op>, i: nat, t: TopicId, v: Version)
    requires hide *; true
    requires Execution(states, ops) && i < |states|
    ensures var s := states[i];
            (t in s.topics && v in s.topics[t].deepening && s.topics[t].deepening[v]) <==>
              exists k :: k in s.triggers && k.kind == Deepening && k.topic == t && k.inventory == v
  {
    hide *;
    RunSafe(states, ops, i);
    GoodReviews(states[i]);
    Parts(states[i]);
    MarksIff(states[i], t, v);
  }

  lemma MarksIff(s: State, t: TopicId, v: Version)
    requires TriggerInv(s.topics, s.triggers, s.episodes)
    ensures (t in s.topics && v in s.topics[t].deepening && s.topics[t].deepening[v]) <==>
              exists k :: k in s.triggers && k.kind == Deepening && k.topic == t && k.inventory == v
  {
    if v in Marked(TopicOf(s.topics, t)) { assert Deepened(s.triggers, t, v); }
    forall k | k in s.triggers && k.kind == Deepening && k.topic == t && k.inventory == v
      ensures v in Marked(TopicOf(s.topics, t))
    {
      assert TriggerPlaced(s.triggers, s.topics, s.episodes, k);
    }
  }

  // ---------- Accepted completions ----------

  /** The completion was counted by this step. */
  predicate Counts(s: State, o: State) { |o.history.counted| > |s.history.counted| }

  /** Every step of a run that counts a completion adds exactly the triggers its policy calls for, in the topic's open
      review. */
  lemma CompletionTrips(states: seq<State>, ops: seq<Op>, i: nat)
    requires hide Apply; true
    requires Execution(states, ops) && i < |ops| && ops[i].Accepting? && Counts(states[i], states[i + 1])
    ensures TrippedExactly(states[i], states[i + 1], ops[i].topic, ops[i].version, ops[i].deepening)
  {
    hide *;
    RunStep(states, ops, i);
    RunSafe(states, ops, i);
    AcceptedTrips(states[i], ops[i], states[i + 1]);
  }

  lemma RunStep(states: seq<State>, ops: seq<Op>, i: nat)
    requires hide *; true
    requires Execution(states, ops) && i < |ops|
    ensures |states| == |ops| + 1 && |states[i].seats| == MAX_STATIONS && Allowed(states[i], ops[i])
            && states[i + 1] == Apply(states[i], ops[i])
  {
    hide Apply, Allowed, Initial;
  }

  lemma AcceptedTrips(s: State, op: Op, o: State)
    requires hide *; true
    requires Good(s) && |s.seats| == MAX_STATIONS && Allowed(s, op) && op.Accepting? && o == Apply(s, op)
             && Counts(s, o)
    ensures TrippedExactly(s, o, op.topic, op.version, op.deepening)
  {
    hide *;
    AcceptingIs(s, op);
    GoodReviews(s);
    CountTrips(s, op.topic, op.run, op.station, op.version, op.deepening, op.now, op.episode);
    var t := CountRun(s, op.topic, op.run, op.station, op.version, op.deepening, op.now, op.episode).state;
    CommitTrips(s, t, op.topic, op.version, op.deepening);
  }

  lemma GoodReviews(s: State)
    requires Good(s)
    ensures ReviewGood(s)
  {
    hide ReviewGood, LedgerGood;
  }

  lemma AcceptingIs(s: State, op: Op)
    requires hide *; true
    requires |s.seats| == MAX_STATIONS && Allowed(s, op) && op.Accepting? && Counts(s, Apply(s, op))
    ensures op.episode !in s.episodes
    ensures var c := CountRun(s, op.topic, op.run, op.station, op.version, op.deepening, op.now, op.episode);
            c.Done? && Apply(s, op) == Commit(s, c.state)
  {
    hide Accept, CountRun, Counts;
    CountingIs(s, op.topic, op.run, op.station, op.version, op.accepted, op.deepening, op.now, op.episode);
  }

  lemma CountingIs(s: State, t: TopicId, run: RunId, station: nat, v: Version, accepted: bool, deepening: bool,
                   now: Time, uuid: EpisodeId)
    requires Counts(s, After(s, Accept(s, t, run, station, v, accepted, deepening, now, uuid)))
    ensures Accept(s, t, run, station, v, accepted, deepening, now, uuid) ==
              CountRun(s, t, run, station, v, deepening, now, uuid)
    ensures CountRun(s, t, run, station, v, deepening, now, uuid).Done?
  {
    hide Tallied;
  }

  lemma CommitTrips(s: State, t: State, topic: TopicId, v: Version, deepening: bool)
    requires TrippedExactly(s, t, topic, v, deepening)
    ensures TrippedExactly(s, Commit(s, t), topic, v, deepening)
  {
  }

  // ---------- Decisions ----------

  /** Only the commit of a request decides it. */
  lemma DecidesOnly(s: State, op: Op, r: RequestId)
    requires hide *; true
    requires |s.seats| == MAX_STATIONS && Good(s) && Allowed(s, op) && r !in s.decisions
             && r in Apply(s, op).decisions
    ensures op.Committing? && op.request == r
  {
    hide *;
    ApplyIs(s, op);
    match op
    case Editing(items, paused, stopping) => CommitFrame(s, s.(items := items, paused := paused, stopping := stopping));
    case Intending(request, p, bundle) => IntendDecides(s, request, p, bundle);
    case Committing(request, receipt) => CommitDecides(s, request, receipt, r);
    case _ => StepDecides(s, op);
  }

  lemma StepDecides(s: State, op: Op)
    requires hide *; true
    requires |s.seats| == MAX_STATIONS && !op.Intending? && !op.Committing? && !op.Editing?
    ensures Apply(s, op).decisions == s.decisions
  {
    hide Apply;
    Bystanders.StepBystander(s, op);
  }

  lemma IntendDecides(s: State, request: RequestId, p: Payload, bundle: Option<Bundle>)
    ensures After(s, DecisionIntent(s, request, p, bundle)).decisions == s.decisions
  {
    hide IntentRefusal;
    AfterIs(s, DecisionIntent(s, request, p, bundle));
  }

  lemma CommitDecides(s: State, request: RequestId, receipt: Option<Receipt>, r: RequestId)
    requires r !in s.decisions && r in After(s, CommitDecision(s, request, receipt)).decisions
    ensures request == r && CommitDecision(s, r, receipt).Done?
            && After(s, CommitDecision(s, r, receipt)) == Commit(s, CommitDecision(s, r, receipt).state)
  {
    AfterIs(s, CommitDecision(s, request, receipt));
  }

  /** When a step of a run decides a request, its answer speaks of the state it leaves: what is still pending of the
      review, whether that completes it, the topic's next ordinal, and the revision; and its choices are what was
      decided. */
  lemma DecisionAnswers(states: seq<State>, ops: seq<Op>, i: nat, r: RequestId)
    requires hide Apply; true
    requires Execution(states, ops) && i < |ops| && r !in states[i].decisions && r in states[i + 1].decisions
    ensures var o, d := states[i + 1], states[i + 1].decisions[r];
            && AsChosen(states[i], o, d.payload) && Answers(o, d.payload, d.result) && d.result.revision == o.revision
            && (d.result.remaining != {} ==> o.topics[d.payload.topic].active == Some(d.payload.episode))
  {
    hide *;
    RunStep(states, ops, i);
    RunSafe(states, ops, i);
    RunSafe(states, ops, i + 1);
    DecidesOnly(states[i], ops[i], r);
    ApplyIs(states[i], ops[i]);
    CommitDecides(states[i], r, ops[i].receipt, r);
    CommitAnswers(states[i], r, ops[i].receipt);
    AnswersCommitted(states[i], CommitDecision(states[i], r, ops[i].receipt), r);
    assert Undecided(states[i].intents, states[i].decisions, r) by { UndecidedIs(states[i], r); }
    IntentTopic(states[i], r);
    AwaitingIsActive(states[i + 1], states[i + 1].decisions[r].payload, states[i + 1].decisions[r].result);
  }

  lemma AnswersCommitted(s: State, v: Outcome<DecisionResult>, r: RequestId)
    requires v.Done? && r in s.intents && r !in s.decisions && v.state.revision == s.revision
             && v.value.revision == s.revision + 1
    requires v.state.decisions == s.decisions[r := Decision(s.intents[r].payload, v.value)]
    requires AsChosen(s, v.state, s.intents[r].payload) && Answers(v.state, s.intents[r].payload, v.value)
    ensures var o := Commit(s, v.state);
            && o.episodes == v.state.episodes
            && r in o.decisions && o.decisions[r] == Decision(s.intents[r].payload, v.value)
            && AsChosen(s, o, s.intents[r].payload) && Answers(o, s.intents[r].payload, v.value)
            && v.value.revision == o.revision
  {
  }

  lemma UndecidedIs(s: State, r: RequestId)
    requires r in s.intents && r !in s.decisions
    ensures Undecided(s.intents, s.decisions, r)
  {
  }

  lemma IntentTopic(s: State, r: RequestId)
    requires hide Good; true
    requires Good(s) && Undecided(s.intents, s.decisions, r)
    ensures s.intents[r].payload.episode in s.episodes
            && s.episodes[s.intents[r].payload.episode].topic == s.intents[r].payload.topic
  {
    assert IntentPlaced(s.episodes, s.proposals, s.intents[r]);
  }

  lemma AwaitingIsActive(s: State, p: Payload, result: DecisionResult)
    requires hide Good; true
    requires Good(s) && Answers(s, p, result)
    ensures p.topic in s.topics
    ensures result.remaining != {} && s.episodes[p.episode].topic == p.topic ==>
              s.topics[p.topic].active == Some(p.episode)
  {
    if s.episodes[p.episode].state == Awaiting { ActiveIsOpen(s.topics, s.episodes, p.episode); }
  }
}
