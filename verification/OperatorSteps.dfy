/** The operator's steps and orphan parking keep the review invariants. */
module OperatorSteps {
  import opened Common
  import opened ControlRecords
  import opened Scheduler
  import opened Checkpoints
  import opened Episodes
  import opened Ledger
  import opened Reviews
  import opened ReviewSteps
  import opened EpisodeSteps
  import Dealing

  // ---------- Changing a review's state alone ----------

  lemma StateMoves(s: State, e: EpisodeId, st: EpisodeState, topic: Topic)
    requires EpisodeInv(s.topics, s.episodes) && ReferenceInv(s.episodes, s.runs)
    requires e in s.episodes && Open(s.episodes[e].state) && Attends(topic, e, st)
    requires s.episodes[e].topic in s.topics ==>
               var was := s.topics[s.episodes[e].topic];
               topic.allowance == was.allowance && topic.completed == was.completed && topic.deepening == was.deepening
    ensures Moves(s, e, s.episodes[e].(state := st), topic)
  {
    ActiveIsOpen(s.topics, s.episodes, e);
    MentionsLive(s.episodes, s.runs, e);
  }

  lemma StateReviewed(episodes: map<EpisodeId, Episode>, e: EpisodeId, st: EpisodeState)
    requires ReviewedInv(episodes) && e in episodes && !Closed(episodes[e].state)
    requires st == CompleteWithDecisions ==> Countered(episodes[e])
    requires st != CompleteWithoutProposals
    ensures ReviewedProperly(episodes[e := episodes[e].(state := st)], episodes[e].(state := st))
  {
    assert ReviewedProperly(episodes, episodes[e]);
  }

  /** A quiescent review changes state and its topic record follows. */
  lemma StateKeepsReviews(s: State, e: EpisodeId, st: EpisodeState, topic: Topic)
    requires hide *; true
    requires ReviewGood(s) && Quiescent(s, if e in s.episodes then s.episodes[e].topic else 0)
    requires e in s.episodes && Open(s.episodes[e].state) && Moves(s, e, s.episodes[e].(state := st), topic)
    requires st == CompleteWithDecisions ==> Countered(s.episodes[e])
    requires st != CompleteWithoutProposals && (PendingFor(s.proposals, e) == {}
             || st in {Awaiting, Publishing, Parked})
    requires IntentInv(s.episodes[e := s.episodes[e].(state := st)], s.proposals, s.intents, s.decisions,
             s.history.replaced)
    ensures var o := Moved(s, e, s.episodes[e].(state := st), topic);
            ReviewGood(o) && (Mirrored(s.topics) ==> Mirrored(o.topics))
  {
    StateReviewed(s.episodes, e, st);
    MoveKeepsRunners(s, e, s.episodes[e].(state := st), topic);
    MoveKeepsReviews(s, e, s.episodes[e].(state := st), topic);
  }

  // ---------- Retrying ----------

  lemma RetryMoved(s: State, e: EpisodeId)
    requires hide *; true
    requires ReviewGood(s) && e in s.episodes && s.episodes[e].state in {Parked, RetryWait}
    requires s.episodes[e].topic in s.topics && PendingFor(s.proposals, e) == {}
             && !LeasedAnywhere(s, s.episodes[e].topic)
    ensures var o := Moved(s, e, s.episodes[e].(state := RetryWait),
            s.topics[s.episodes[e].topic].(review := CheckpointDue));
            ReviewGood(o) && (Mirrored(s.topics) ==> Mirrored(o.topics))
  {
    var ep := s.episodes[e].(state := RetryWait);
    var topic := s.topics[ep.topic].(review := CheckpointDue);
    ActiveIsOpen(s.topics, s.episodes, e);
    StateMoves(s, e, RetryWait, topic);
    AdvanceKeepsIntents(s.episodes, s.proposals, s.intents, s.decisions, s.history.replaced, e, ep);
    StateKeepsReviews(s, e, RetryWait, topic);
  }

  lemma RetryKeepsReviews(s: State, request: RequestId, r: RetryRequest)
    requires hide *; true
    requires ReviewGood(s)
    ensures var o := RetryCheckpoint(s, request, r);
            o.Done? ==> ReviewGood(o.state) && (Mirrored(s.topics) ==> Mirrored(o.state.topics))
  {
    var o := RetryCheckpoint(s, request, r);
    if o.Done? && request !in s.retryRequests {
      RetryMoved(s, r.episode);
    }
  }

  // ---------- Deciding ----------

  /** Neither an undecided intent nor a payload that lost its intent names this review. */
  ghost predicate Unclaimed(intents: map<RequestId, Intent>, decisions: map<RequestId, Decision>,
                            replaced: set<(RequestId, Payload)>, e: EpisodeId) {
    NoIntent(intents, decisions, e) && forall x | x in replaced :: x.1.episode != e
  }

  lemma AwaitingUnclaimed(s: State, e: EpisodeId)
    requires IntentInv(s.episodes, s.proposals, s.intents, s.decisions, s.history.replaced)
    requires e in s.episodes && s.episodes[e].state !in {Publishing, Parked}
    ensures Unclaimed(s.intents, s.decisions, s.history.replaced, e)
  {
    forall r | Undecided(s.intents, s.decisions, r) ensures s.intents[r].payload.episode != e {
      assert IntentPlaced(s.episodes, s.proposals, s.intents[r]);
    }
    forall x | x in s.history.replaced ensures x.1.episode != e {
      assert Lost(s.episodes, s.proposals, s.intents, s.decisions, x.0, x.1);
    }
  }

  lemma UnclaimedKeeps(episodes: map<EpisodeId, Episode>, proposals: map<ProposalId, Proposal>,
                       intents: map<RequestId, Intent>, decisions: map<RequestId, Decision>,
                       replaced: set<(RequestId, Payload)>, e: EpisodeId, ep: Episode)
    requires IntentInv(episodes, proposals, intents, decisions, replaced) && Unclaimed(intents, decisions, replaced, e)
    ensures IntentInv(episodes[e := ep], proposals, intents, decisions, replaced)
  {
    forall r | Undecided(intents, decisions, r) ensures IntentPlaced(episodes[e := ep], proposals, intents[r]) {
      assert IntentPlaced(episodes, proposals, intents[r]);
    }
    forall x | x in replaced ensures Lost(episodes[e := ep], proposals, intents, decisions, x.0, x.1) {
      assert Lost(episodes, proposals, intents, decisions, x.0, x.1);
    }
  }

  /** Choices that are not refused are pending proposals of the episode, at the version named. */
  lemma {:induction false} ChoicesFit(s: State, e: EpisodeId, cs: seq<Choice>)
    requires ChoicesRefusal(s, e, cs).None?
    ensures forall c | c in cs ::
            c.proposal in s.proposals && s.proposals[c.proposal].episode == e && s.proposals[c.proposal].pending
                                  && c.version == s.proposals[c.proposal].version
    ensures forall i, j | 0 <= i < j < |cs| :: cs[i].proposal != cs[j].proposal
  {
    if cs != [] {
      var rest := cs[..|cs| - 1];
      ChoicesFit(s, e, rest);
      assert cs == rest + [cs[|cs| - 1]];
      forall i | 0 <= i < |rest| ensures cs[i].proposal != cs[|cs| - 1].proposal {
        assert rest[i] in rest;
      }
    }
  }

  /** An intent for a review nobody claims goes on record. An undecided intent of the same request is replaced; its
      review stays held. */
  lemma AddIntent(episodes: map<EpisodeId, Episode>, proposals: map<ProposalId, Proposal>,
                  intents: map<RequestId, Intent>, decisions: map<RequestId, Decision>,
                  replaced: set<(RequestId, Payload)>, request: RequestId, i: Intent)
    requires IntentInv(episodes, proposals, intents, decisions, replaced) && request !in decisions
    requires IntentPlaced(episodes, proposals, i) && Unclaimed(intents, decisions, replaced, i.payload.episode)
    ensures IntentInv(episodes, proposals, intents[request := i], decisions,
                      if request in intents then replaced + {(request, intents[request].payload)} else replaced)
  {
    var intents' := intents[request := i];
    forall r | Undecided(intents', decisions, r) ensures IntentPlaced(episodes, proposals, intents'[r]) {
      if r != request { assert Undecided(intents, decisions, r); assert IntentPlaced(episodes, proposals, intents[r]); }
    }
    forall q, r | Undecided(intents', decisions, q) && Undecided(intents', decisions, r) && q != r
      ensures intents'[q].payload.episode != intents'[r].payload.episode
    {
      assert q != request ==> Undecided(intents, decisions, q);
      assert r != request ==> Undecided(intents, decisions, r);
    }
    forall x | x in replaced ensures Lost(episodes, proposals, intents', decisions, x.0, x.1) {
      assert Lost(episodes, proposals, intents, decisions, x.0, x.1);
    }
    if request in intents { DisplacedStaysHeld(episodes, proposals, intents, decisions, replaced, request, i); }
  }

  lemma DisplacedStaysHeld(episodes: map<EpisodeId, Episode>, proposals: map<ProposalId, Proposal>,
                           intents: map<RequestId, Intent>, decisions: map<RequestId, Decision>,
                           replaced: set<(RequestId, Payload)>, request: RequestId, i: Intent)
    requires IntentInv(episodes, proposals, intents, decisions, replaced) && Undecided(intents, decisions, request)
    requires NoIntent(intents, decisions, i.payload.episode)
    ensures Lost(episodes, proposals, intents[request := i], decisions, request, intents[request].payload)
  {
    assert IntentPlaced(episodes, proposals, intents[request]);
    var intents' := intents[request := i];
    forall r | Undecided(intents', decisions,
      r) ensures intents'[r].payload.episode != intents[request].payload.episode {
      if r != request { assert Undecided(intents, decisions, r); }
    }
  }

  lemma IntentMoved(s: State, p: Payload)
    requires hide *; true
    requires ReviewGood(s) && p.episode in s.episodes && s.episodes[p.episode].state == Awaiting
    ensures var t := s.episodes[p.episode].topic;
            && t in s.topics && Unclaimed(s.intents, s.decisions, s.history.replaced, p.episode)
            && var o := Moved(s, p.episode, s.episodes[p.episode].(state := Publishing),
                 s.topics[t].(review := PublishingDecision));
               ReviewGood(o) && (Mirrored(s.topics) ==> Mirrored(o.topics))
  {
    var e, ep := p.episode, s.episodes[p.episode].(state := Publishing);
    ActiveIsOpen(s.topics, s.episodes, e);
    HeldIsQuiescent(s, e);
    AwaitingUnclaimed(s, e);
    UnclaimedKeeps(s.episodes, s.proposals, s.intents, s.decisions, s.history.replaced, e, ep);
    StateMoves(s, e, Publishing, s.topics[ep.topic].(review := PublishingDecision));
    StateKeepsReviews(s, e, Publishing, s.topics[ep.topic].(review := PublishingDecision));
  }

  lemma IntentPlacedAfter(s: State, p: Payload, bundle: Option<Bundle>)
    requires IntentRefusal(s, p, bundle).None?
    ensures p.episode in s.episodes && s.episodes[p.episode].state == Awaiting && s.episodes[p.episode].topic == p.topic
    ensures IntentPlaced(s.episodes[p.episode := s.episodes[p.episode].(state := Publishing)], s.proposals,
            IntentFor(p, bundle))
  {
    ChoicesFit(s, p.episode, p.choices);
  }

  lemma AddIntentKeepsReviews(s: State, request: RequestId, i: Intent)
    requires ReviewGood(s) && request !in s.decisions && IntentPlaced(s.episodes, s.proposals, i)
    requires Unclaimed(s.intents, s.decisions, s.history.replaced, i.payload.episode)
    ensures ReviewGood(s.(intents := s.intents[request := i], history := s.history.(replaced := Displaced(s, request))))
  {
    AddIntent(s.episodes, s.proposals, s.intents, s.decisions, s.history.replaced, request, i);
  }

  /** Recording an intent keeps the reviews, whether or not it replaces another intent of its request. */
  lemma IntentKeepsReviews(s: State, request: RequestId, p: Payload, bundle: Option<Bundle>)
    requires hide *; true
    requires ReviewGood(s)
    ensures var o := DecisionIntent(s, request, p, bundle);
            o.Done? ==> ReviewGood(o.state) && (Mirrored(s.topics) ==> Mirrored(o.state.topics))
  {
    hide ReviewGood;
    var o := DecisionIntent(s, request, p, bundle);
    if o.Done? && request !in s.decisions {
      IntentPlacedAfter(s, p, bundle);
      IntentMoved(s, p);
      AddIntentKeepsReviews(Moved(s, p.episode, s.episodes[p.episode].(state := Publishing),
        s.topics[p.topic].(review := PublishingDecision)),
                            request, IntentFor(p, bundle));
    }
  }

  lemma DecideKeepsProposals(episodes: map<EpisodeId, Episode>, proposals: map<ProposalId, Proposal>, cs: seq<Choice>)
    requires ProposalInv(episodes, proposals)
    ensures ProposalInv(episodes, ResolveProposals(proposals, cs))
  {
    forall p | p in proposals ensures ProposalPlaced(episodes, ResolveProposals(proposals, cs)[p]) {
      assert ProposalPlaced(episodes, proposals[p]);
    }
  }

  /** A resolved proposal belongs to the decided review, so no other held review loses a pending one. */
  lemma OthersStayHeld(episodes: map<EpisodeId, Episode>, proposals: map<ProposalId, Proposal>, decided: Payload,
                       p: Payload)
    requires HeldFor(episodes, proposals, decided) && HeldFor(episodes, proposals, p) && p.episode != decided.episode
    ensures HeldFor(episodes, ResolveProposals(proposals, decided.choices), p)
  {
  }

  lemma DecideKeepsIntents(episodes: map<EpisodeId, Episode>, proposals: map<ProposalId, Proposal>,
                           intents: map<RequestId, Intent>, decisions: map<RequestId, Decision>,
                           replaced: set<(RequestId, Payload)>, request: RequestId, receipt: Option<Receipt>,
                           result: DecisionResult)
    requires IntentInv(episodes, proposals, intents, decisions, replaced) && Undecided(intents, decisions, request)
    ensures var i := intents[request];
            var decisions' := decisions[request := Decision(i.payload, result)];
            var intents' := intents[request := i.(published := true, receipt := receipt)];
            IntentInv(episodes, ResolveProposals(proposals, i.payload.choices), intents', decisions', replaced)
            && Unclaimed(intents', decisions', replaced, i.payload.episode)
  {
    var i := intents[request];
    var decisions', intents' := decisions[request := Decision(i.payload, result)],
      intents[request := i.(published := true, receipt := receipt)];
    var proposals' := ResolveProposals(proposals, i.payload.choices);
    assert IntentPlaced(episodes, proposals, i);
    forall r | Undecided(intents', decisions', r) ensures IntentPlaced(episodes, proposals', intents'[r])
      && intents'[r].payload.episode != i.payload.episode {
      assert Undecided(intents, decisions, r) && IntentPlaced(episodes, proposals, intents[r]);
      OthersStayHeld(episodes, proposals, i.payload, intents[r].payload);
    }
    forall q, r | Undecided(intents', decisions', q) && Undecided(intents', decisions', r) && q != r
      ensures intents'[q].payload.episode != intents'[r].payload.episode
    {
      assert Undecided(intents, decisions, q) && Undecided(intents, decisions, r);
    }
    forall x | x in replaced ensures Lost(episodes, proposals', intents', decisions', x.0, x.1)
      && x.1.episode != i.payload.episode {
      assert Lost(episodes, proposals, intents, decisions, x.0, x.1);
      OthersStayHeld(episodes, proposals, i.payload, x.1);
    }
  }

  lemma DecidedKeepsReviews(s: State, request: RequestId, receipt: Option<Receipt>, result: DecisionResult)
    requires hide ReviewGood; true
    requires ReviewGood(s) && Undecided(s.intents, s.decisions, request)
    ensures ReviewGood(Decided(s, request, receipt, result))
    ensures var o := Decided(s, request, receipt, result);
            Unclaimed(o.intents, o.decisions, o.history.replaced, s.intents[request].payload.episode)
  {
    DecideKeepsProposals(s.episodes, s.proposals, s.intents[request].payload.choices);
    DecideKeepsIntents(s.episodes, s.proposals, s.intents, s.decisions, s.history.replaced, request, receipt, result);
  }

  /** Everything a decided review needs to move on. */
  predicate Deciding(s: State, e: EpisodeId) {
    e in s.episodes && s.episodes[e].state in {Publishing, Parked} && s.episodes[e].topic in s.topics
      && Countered(s.episodes[e])
  }

  lemma IntentDecides(s: State, request: RequestId)
    requires hide ReviewGood; true
    requires ReviewGood(s) && Undecided(s.intents, s.decisions, request)
    ensures var p := s.intents[request].payload;
            Deciding(s, p.episode) && s.episodes[p.episode].topic == p.topic && ChoiceIds(p.choices) <= s.proposals.Keys
  {
    var i := s.intents[request];
    assert IntentPlaced(s.episodes, s.proposals, i);
    ActiveIsOpen(s.topics, s.episodes, i.payload.episode);
    assert i.payload.choices[0] in i.payload.choices;
    assert ProposalPlaced(s.episodes, s.proposals[i.payload.choices[0].proposal]);
  }

  lemma DecidedMoves(s: State, e: EpisodeId, lock: Option<Lock>, done: bool)
    requires hide ReviewGood; true
    requires ReviewGood(s) && Deciding(s, e) && Unclaimed(s.intents, s.decisions, s.history.replaced, e)
             && (done ==> PendingFor(s.proposals, e) == {})
    ensures var o := Moved(s, e, s.episodes[e].(state := if done then CompleteWithDecisions else Awaiting),
                           DecidedTopic(s.topics[s.episodes[e].topic], lock, done));
            ReviewGood(o) && (Mirrored(s.topics) ==> Mirrored(o.topics))
  {
    var st := if done then CompleteWithDecisions else Awaiting;
    var topic := DecidedTopic(s.topics[s.episodes[e].topic], lock, done);
    ActiveIsOpen(s.topics, s.episodes, e);
    HeldIsQuiescent(s, e);
    UnclaimedKeeps(s.episodes, s.proposals, s.intents, s.decisions, s.history.replaced, e, s.episodes[e].(state := st));
    StateMoves(s, e, st, topic);
    StateKeepsReviews(s, e, st, topic);
  }

  lemma ItemsKeepReviews(s: State, items: seq<Item>)
    requires ReviewGood(s)
    ensures ReviewGood(s.(items := items))
  {
  }

  /** Committing a decision keeps the reviews, and an intent on record can always be committed. */
  lemma CommitKeepsReviews(s: State, request: RequestId, receipt: Option<Receipt>)
    requires hide *; true
    requires ReviewGood(s)
    ensures var o := CommitDecision(s, request, receipt);
            && (request in s.intents ==> o.Done?)
            && (o.Done? ==> ReviewGood(o.state) && (Mirrored(s.topics) ==> Mirrored(o.state.topics)))
  {
    hide ReviewGood;
    if Undecided(s.intents, s.decisions, request) {
      var p := s.intents[request].payload;
      IntentDecides(s, request);
      var result := CommitDecision(s, request, receipt).value;
      DecidedKeepsReviews(s, request, receipt, result);
      var s1 := Decided(s, request, receipt, result);
      var done := PendingFor(s1.proposals, p.episode) == {};
      DecidedMoves(s1, p.episode, LockOf(receipt), done);
      ItemsKeepReviews(Moved(s1, p.episode, s.episodes[p.episode].(state := if done then CompleteWithDecisions
        else Awaiting),
                             DecidedTopic(s.topics[p.topic], LockOf(receipt), done)),
                               DecidedItems(s.items, p.topic, LockOf(receipt)));
    }
  }

  /** A reset gives the topic its two proposals back and starts a new count of issued ones. */
  lemma ResetKeepsReviews(s: State, request: RequestId, r: ResetRequest)
    requires hide *; true
    requires ReviewGood(s)
    ensures var o := ResetAllowance(s, request, r);
            o.Done? ==> ReviewGood(o.state) && (Mirrored(s.topics) ==> Mirrored(o.state.topics))
  {
    var o := ResetAllowance(s, request, r);
    if o.Done? && request !in s.resetRequests {
      AllowanceKeeps(s, o.state, r.topic);
    }
  }

  // ---------- Orphan parking ----------

  lemma VacateKeepsReviews(s: State, k: nat)
    requires hide *; true
    requires ReviewGood(s) && k < |s.seats|
    ensures ReviewGood(s.(seats := Vacated(s.seats, k)))
  {
    hide ReviewGood;
    SeatUpdateViews(s.seats, k, Vacated(s.seats, k)[k]);
    QuietKeeps(s, s.(seats := Vacated(s.seats, k)));
  }

  lemma VacatedIsQuiescent(s: State, k: nat)
    requires LedgerGood(s) && k < |s.seats| && s.seats[k].current.Some?
    ensures Quiescent(s.(seats := Vacated(s.seats, k)), s.seats[k].current.value.topic)
  {
    LeaseAt(s, k);
  }

  /** A topic with no open review is marked as needing attention: only the mirror suffers. */
  lemma UnattendedKeepsReviews(s: State, t: TopicId)
    requires hide *; true
    requires ReviewGood(s) && t in s.topics && s.topics[t].active.None?
    ensures ReviewGood(ReviewParked(s, t))
  {
    ParkUnattended(s.topics, s.episodes, t);
    UnattendedTopics(s, t);
  }

  lemma UnattendedTopics(s: State, t: TopicId)
    requires hide *; true
    requires ReviewGood(s) && t in s.topics && s.topics[t].active.None?
    ensures var topics' := s.topics[t := s.topics[t].(review := NeedsAttention)];
            && TriggerInv(topics', s.triggers, s.episodes)
            && RunnerInv(Leases(s.seats), s.history.concluded, topics', s.episodes)
            && (s.history.steady ==> CadenceInv(s.policy, topics', s.triggers))
            && AllowanceInv(topics', s.history.issued)
  {
    var topics' := s.topics[t := s.topics[t].(review := NeedsAttention)];
    OneTopicFacts(s.topics, topics', t);
    FactsKeepTriggers(s.topics, topics', s.triggers, s.episodes);
    FactsKeepRunners(Leases(s.seats), s.history.concluded, s.topics, topics', s.episodes);
    if s.history.steady { CountsKeepCadence(s.policy, s.topics, topics', s.triggers); }
    AllowancesKeep(s.topics, topics', s.history.issued);
  }

  lemma CountsKeepCadence(p: Policy, topics: map<TopicId, Topic>, topics': map<TopicId, Topic>,
                          triggers: map<TriggerKey, Trigger>)
    requires CadenceInv(p, topics, triggers) && forall q ::
             TopicOf(topics, q).completed == TopicOf(topics', q).completed
    ensures CadenceInv(p, topics', triggers)
  {
    forall q ensures |CadenceTriggers(triggers, q)| == CadenceCount(p, TopicOf(topics', q).completed) {
      assert TopicOf(topics, q).completed == TopicOf(topics', q).completed;
    }
  }

  lemma AllowancesKeep(topics: map<TopicId, Topic>, topics': map<TopicId, Topic>, issued: map<TopicId, nat>)
    requires AllowanceInv(topics, issued) && forall q :: TopicOf(topics, q).allowance == TopicOf(topics', q).allowance
    ensures AllowanceInv(topics', issued)
  {
    forall q ensures TopicOf(topics', q).allowance + CountOr0(issued, q) == 2 {
      assert TopicOf(topics, q).allowance == TopicOf(topics', q).allowance;
    }
  }

  lemma AttendedKeepsReviews(s: State, t: TopicId)
    requires hide *; true
    requires ReviewGood(s) && Quiescent(s, t) && t in s.topics && s.topics[t].active.Some?
    ensures ReviewGood(ReviewParked(s, t))
  {
    var e, topic := s.topics[t].active.value, s.topics[t].(review := NeedsAttention);
    assert TopicPlaced(s.episodes, t, s.topics[t]);
    StateMoves(s, e, Parked, topic);
    AdvanceKeepsIntents(s.episodes, s.proposals, s.intents, s.decisions, s.history.replaced, e,
      s.episodes[e].(state := Parked));
    StateKeepsReviews(s, e, Parked, topic);
  }

  lemma ReviewParkedKeeps(s: State, t: TopicId)
    requires ReviewGood(s) && Quiescent(s, t)
    ensures ReviewGood(ReviewParked(s, t))
  {
    hide ReviewGood;
    if t !in s.topics {
      assert ReviewParked(s, t) == s;
    } else if s.topics[t].active.Some? {
      AttendedKeepsReviews(s, t);
    } else {
      UnattendedKeepsReviews(s, t);
    }
  }

  lemma SidelineKeepsReviews(s: State, t: TopicId, kind: Kind)
    requires ReviewGood(s) && Quiescent(s, t)
    ensures ReviewGood(Sidelined(s, t, kind))
  {
    hide ReviewGood;
    if kind == Checkpoint { ReviewParkedKeeps(s, t); }
    ItemsKeepReviews(if kind == Checkpoint then ReviewParked(s, t) else s, ParkItem(s.items, t));
  }

  lemma EndRunKeepsReviews(s: State, capabilities: map<Token, Capability>, id: RunId, now: Time)
    requires ReviewGood(s)
    ensures ReviewGood(s.(capabilities := capabilities, runs := FinishRun(s.runs, id, now)))
  {
    hide ReviewGood;
    QuietKeeps(s, s.(capabilities := capabilities, runs := FinishRun(s.runs, id, now)));
  }

  /** Parking the orphan of a current lease keeps the reviews. */
  lemma OrphanKeepsReviews(s: State, k: nat, now: Time)
    requires hide *; true
    requires LedgerGood(s) && ReviewGood(s) && k < |s.seats| && s.seats[k].current.Some?
             && s.seats[k].current.value.station == k + 1
    ensures ReviewGood(ParkOrphan(s, s.seats[k].current.value, now))
  {
    hide ReviewGood, LedgerGood, Reconcile;
    var lease := s.seats[k].current.value;
    var s1 := s.(seats := Vacated(s.seats, k));
    VacateKeepsReviews(s, k);
    VacatedIsQuiescent(s, k);
    SidelineKeepsReviews(s1, lease.topic, lease.kind);
    var s2 := Sidelined(s1, lease.topic, lease.kind);
    ReconcileKeepsReviews(s2, now);
    EndRunKeepsReviews(Reconcile(s2, now), Revoke(Reconcile(s2, now).capabilities, lease.id), lease.id, now);
  }

  /** It keeps the mirror too, unless the lease was a checkpoint's and its topic had no open review any more. */
  lemma OrphanMirrors(s: State, k: nat, now: Time)
    requires EpisodeInv(s.topics, s.episodes) && Mirrored(s.topics)
    requires k < |s.seats| && s.seats[k].current.Some? && s.seats[k].current.value.station == k + 1
    ensures var lease := s.seats[k].current.value;
            Mirrored(ParkOrphan(s, lease, now).topics) <==>
              lease.kind == Research || lease.topic !in s.topics || s.topics[lease.topic].active.Some?
  {
    var lease := s.seats[k].current.value;
    var s2 := Sidelined(s.(seats := Vacated(s.seats, k)), lease.topic, lease.kind);
    ParkReviewMirrorsIff(s.topics, s.episodes, lease.topic);
    assert s2.topics == if lease.kind == Checkpoint then ParkedTopics(s.topics, lease.topic) else s.topics;
    Dealing.ReconcileFrame(s2, now);
    EnsureMirrors(s2.topics, Reconcile(s2, now).topics);
  }

  lemma EnsureMirrors(topics: map<TopicId, Topic>, topics': map<TopicId, Topic>)
    requires topics.Keys <= topics'.Keys && forall t :: TopicOf(topics', t) == TopicOf(topics, t)
    ensures Mirrored(topics') <==> Mirrored(topics)
  {
    forall t | t in topics' ensures topics'[t] == TopicOf(topics, t) {
      assert TopicOf(topics', t) == topics'[t];
    }
    if !Mirrored(topics) {
      var t :| t in topics && topics[t].active.None? && topics[t].review != Eligible;
      assert topics'[t] == topics[t];
    }
  }
}
