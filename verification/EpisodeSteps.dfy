/** The steps of one review keep the review invariants: running it, finishing it, parking it, deciding it. */
module EpisodeSteps {
  import opened Common
  import opened ControlRecords
  import opened Scheduler
  import opened Checkpoints
  import opened Episodes
  import opened Ledger
  import opened Reviews
  import opened ReviewSteps

  // ---------- Who may act on a review ----------

  /** This checkpoint lease is current for the topic, and its call has not returned yet. */
  predicate Serving(s: State, run: RunId, t: TopicId) {
    && run !in s.history.concluded
    && exists k :: 0 <= k < |s.seats| && s.seats[k].current.Some? && s.seats[k].current.value.id == run
                   && s.seats[k].current.value.topic == t && s.seats[k].current.value.kind == Checkpoint
  }

  /** No lease on this topic still waits for its checkpoint call or its research run. */
  predicate Quiescent(s: State, t: TopicId) {
    forall k | 0 <= k < |s.seats| && s.seats[k].current.Some? && s.seats[k].current.value.topic == t ::
      s.seats[k].current.value.id in s.history.concluded
  }

  lemma RunnerAt(seats: seq<Seat>, concluded: set<RunId>, topics: map<TopicId, Topic>,
                 episodes: map<EpisodeId, Episode>, k: nat)
    requires RunnerInv(Leases(seats), concluded, topics, episodes) && k < |seats| && seats[k].current.Some?
    ensures seats[k].current.value.id in concluded || Served(seats[k].current.value, topics, episodes)
  {
    assert Leases(seats)[k] == seats[k].current;
  }

  lemma LeaseAt(s: State, k: nat)
    requires LeaseInv(Leases(s.seats), Generations(s.seats), s.history.minted, s.history.clock, s.intake)
    requires RunInv(Leases(s.seats), s.history.minted, s.runs) && k < |s.seats| && s.seats[k].current.Some?
    ensures s.seats[k].current.value.id in s.runs && s.seats[k].current.value.id in s.history.minted
    ensures forall j | 0 <= j < |s.seats| && s.seats[j].current.Some?
            && s.seats[j].current.value.topic == s.seats[k].current.value.topic :: j == k
  {
    var ls := Leases(s.seats);
    assert ls[k] == s.seats[k].current;
    assert LeaseRecorded(ls, Generations(s.seats), s.history.minted, k);
    forall j | 0 <= j < |s.seats| && s.seats[j].current.Some?
      && s.seats[j].current.value.topic == s.seats[k].current.value.topic ensures j == k {
      assert ls[j] == s.seats[j].current;
    }
  }

  lemma ActiveAt(topics: map<TopicId, Topic>, episodes: map<EpisodeId, Episode>, t: TopicId)
    requires EpisodeInv(topics, episodes) && TopicOf(topics, t).active.Some?
    ensures t in topics && topics[t].active.value in episodes && episodes[topics[t].active.value].topic == t
  {
    assert TopicPlaced(episodes, t, topics[t]);
  }

  /** Only the serving lease is current for its topic, it is on record, and its topic's review is servable. */
  lemma ServingAlone(s: State, run: RunId, t: TopicId)
    requires hide *; true
    requires LedgerGood(s) && ReviewGood(s) && Serving(s, run, t)
    ensures forall k | 0 <= k < |s.seats| && s.seats[k].current.Some?
            && s.seats[k].current.value.topic == t :: s.seats[k].current.value.id == run
    ensures run in s.runs && run in s.history.minted
    ensures t in s.topics && s.topics[t].active.Some? && s.topics[t].active.value in s.episodes
    ensures s.episodes[s.topics[t].active.value].state in {Due, InReview, RetryWait}
            && s.episodes[s.topics[t].active.value].topic == t
  {
    var k :| 0 <= k < |s.seats| && s.seats[k].current.Some? && s.seats[k].current.value.id == run
             && s.seats[k].current.value.topic == t && s.seats[k].current.value.kind == Checkpoint;
    RunnerAt(s.seats, s.history.concluded, s.topics, s.episodes, k);
    LeaseAt(s, k);
    ActiveAt(s.topics, s.episodes, t);
  }

  /** While a review waits for its operator, or is parked, every lease on its topic has reported. */
  lemma HeldIsQuiescent(s: State, e: EpisodeId)
    requires EpisodeInv(s.topics, s.episodes) && RunnerInv(Leases(s.seats), s.history.concluded, s.topics, s.episodes)
    requires e in s.episodes && s.episodes[e].state in {Awaiting, Publishing, Parked}
    ensures Quiescent(s, s.episodes[e].topic)
  {
    ActiveIsOpen(s.topics, s.episodes, e);
    forall k | 0 <= k < |s.seats| && s.seats[k].current.Some? && s.seats[k].current.value.topic == s.episodes[e].topic
      ensures s.seats[k].current.value.id in s.history.concluded
    {
      RunnerAt(s.seats, s.history.concluded, s.topics, s.episodes, k);
    }
  }

  lemma ConcludeKeepsReviews(s: State, run: RunId)
    requires ReviewGood(s) && run in s.history.minted
    ensures ReviewGood(Conclude(s, run))
  {
  }

  // ---------- Updates in place ----------

  /** An update that leaves the review where it is. */
  predicate InPlace(a: Episode, b: Episode) {
    Advances(a, b) && b.state == a.state && b.prior == a.prior && b.digest == a.digest && b.reused == a.reused
      && b.run == a.run
    && b.attempts == a.attempts && b.results == a.results
  }

  lemma InPlaceKeepsRunners(s: State, e: EpisodeId, ep: Episode)
    requires hide *; true
    requires ReviewGood(s) && e in s.episodes && ep.state == s.episodes[e].state
    ensures RunnerInv(Leases(s.seats), s.history.concluded, s.topics, s.episodes[e := ep])
  {
    var ls := Leases(s.seats);
    forall k | 0 <= k < |ls| && ls[k].Some? && ls[k].value.id !in s.history.concluded ensures Served(ls[k].value,
      s.topics, s.episodes[e := ep]) {
      assert Served(ls[k].value, s.topics, s.episodes);
    }
  }

  lemma InPlaceKeepsReviewed(episodes: map<EpisodeId, Episode>, e: EpisodeId, ep: Episode)
    requires ReviewedInv(episodes) && e in episodes && InPlace(episodes[e], ep)
    ensures ReviewedInv(episodes[e := ep])
  {
    assert ReviewedProperly(episodes, episodes[e]);
    assert ReviewedProperly(episodes[e := ep], ep);
    AdvanceKeepsReviewed(episodes, e, ep);
  }

  lemma InPlaceKeepsIntents(episodes: map<EpisodeId, Episode>, proposals: map<ProposalId, Proposal>,
                            intents: map<RequestId, Intent>, decisions: map<RequestId, Decision>,
                            replaced: set<(RequestId, Payload)>, e: EpisodeId, ep: Episode)
    requires IntentInv(episodes, proposals, intents, decisions, replaced) && e in episodes
             && ep.topic == episodes[e].topic && ep.state == episodes[e].state
    ensures IntentInv(episodes[e := ep], proposals, intents, decisions, replaced)
  {
    HeldKeepsIntents(episodes, episodes[e := ep], proposals, proposals, intents, decisions, replaced);
  }

  lemma InPlaceKeepsProposals(episodes: map<EpisodeId, Episode>, proposals: map<ProposalId, Proposal>, e: EpisodeId,
                              ep: Episode)
    requires ProposalInv(episodes, proposals) && e in episodes && InPlace(episodes[e], ep)
    ensures ProposalInv(episodes[e := ep], proposals)
  {
    forall p | p in proposals ensures ProposalPlaced(episodes[e := ep], proposals[p]) {
      assert ProposalPlaced(episodes, proposals[p]);
    }
  }

  lemma InPlaceKeepsReviews(s: State, e: EpisodeId, ep: Episode)
    requires hide *; true
    requires ReviewGood(s) && e in s.episodes && InPlace(s.episodes[e], ep) && DelegateInv(ep)
    ensures ReviewGood(s.(episodes := s.episodes[e := ep]))
  {
    KeepEpisode(s.topics, s.episodes, e, ep);
    InPlaceKeepsRunners(s, e, ep);
    InPlaceKeepsReviewed(s.episodes, e, ep);
    InPlaceKeepsIntents(s.episodes, s.proposals, s.intents, s.decisions, s.history.replaced, e, ep);
    InPlaceKeepsProposals(s.episodes, s.proposals, e, ep);
    AdvanceKeepsTriggers(s.topics, s.triggers, s.episodes, e, ep);
    forall r | r in Mentions(ep) ensures r in s.runs {
      assert r in Mentions(s.episodes[e]);
    }
    AdvanceKeepsReferences(s.episodes, s.runs, e, ep);
  }

  lemma ReserveInPlace(ep: Episode, k: InvocationId, role: Role, lease: RunId)
    requires k !in ep.invocations && ReserveRefusal(ep, role).None?
    ensures InPlace(ep, Reserved(ep, k, role, lease))
  {
    var next := Reserved(ep, k, role, lease);
    if Countered(ep) {
      var j :| j in ep.invocations && Certifies(ep.invocations[j]);
      assert Certifies(next.invocations[j]);
    }
  }

  lemma RecordInPlace(ep: Episode, k: InvocationId, exit: int, output: bool, complete: bool)
    requires k in ep.invocations && !ep.invocations[k].finished
    ensures InPlace(ep, Recorded(ep, k, exit, output, complete))
  {
    var next := Recorded(ep, k, exit, output, complete);
    if Countered(ep) {
      var j :| j in ep.invocations && Certifies(ep.invocations[j]);
      assert Certifies(next.invocations[j]);
    }
  }

  lemma ReserveKeepsReviews(s: State, e: EpisodeId, lease: RunId, k: InvocationId, role: Role, digest: Option<Token>)
    requires hide *; true
    requires ReviewGood(s)
    ensures var o := ReserveDelegate(s, e, lease, k, role, digest); o.Done? ==> ReviewGood(o.state)
  {
    var o := ReserveDelegate(s, e, lease, k, role, digest);
    if o.Done? && k !in s.episodes[e].invocations {
      ReserveKeepsBudget(s.episodes[e], k, role, lease);
      ReserveInPlace(s.episodes[e], k, role, lease);
      InPlaceKeepsReviews(s, e, Reserved(s.episodes[e], k, role, lease));
    }
  }

  lemma RecordKeepsReviews(s: State, e: EpisodeId, k: InvocationId, exit: int, output: bool, complete: bool)
    requires hide *; true
    requires ReviewGood(s)
    ensures var o := RecordDelegate(s, e, k, exit, output, complete); o.Done? ==> ReviewGood(o.state)
  {
    var o := RecordDelegate(s, e, k, exit, output, complete);
    if o.Done? && !s.episodes[e].invocations[k].finished {
      RecordKeepsBudget(s.episodes[e], k, exit, output, complete);
      RecordInPlace(s.episodes[e], k, exit, output, complete);
      InPlaceKeepsReviews(s, e, Recorded(s.episodes[e], k, exit, output, complete));
    }
  }

  // ---------- Moving a review ----------

  predicate SameDelegates(a: Episode, b: Episode) {
    b.invocations == a.invocations && b.launches == a.launches && b.refunds == a.refunds && b.exchanges == a.exchanges
      && b.phase == a.phase
  }

  /** The review moves to another state and its topic record follows. */
  ghost predicate Moves(s: State, e: EpisodeId, ep: Episode, topic: Topic) {
    && e in s.episodes && Open(s.episodes[e].state) && s.episodes[e].topic in s.topics
    && Advances(s.episodes[e], ep) && SameDelegates(s.episodes[e], ep) && Mentions(ep) <= s.runs.Keys
    && Attends(topic, e, ep.state)
    && var old_ := s.topics[s.episodes[e].topic];
       topic.allowance == old_.allowance && topic.completed == old_.completed && topic.deepening == old_.deepening
  }

  function Moved(s: State, e: EpisodeId, ep: Episode, topic: Topic): State {
    MovedTo(s, e, ep, ep.topic, topic)
  }

  lemma MoveIsStep(s: State, e: EpisodeId, ep: Episode, topic: Topic)
    requires BudgetsInv(s.episodes) && s.history.concluded <= s.history.minted.Keys && Moves(s, e, ep, topic)
    ensures EpisodeStep(s, Moved(s, e, ep, topic), e)
  {
    assert DelegateInv(s.episodes[e]);
    SameBudget(s.episodes[e], ep);
  }

  lemma MoveKeepsRunners(s: State, e: EpisodeId, ep: Episode, topic: Topic)
    requires ReviewGood(s) && Moves(s, e, ep, topic) && Quiescent(s, ep.topic)
    ensures var o := Moved(s, e, ep, topic); RunnerInv(Leases(s.seats), s.history.concluded, o.topics, o.episodes)
  {
    MoveIsStep(s, e, ep, topic);
    EpisodeStepKeepsRunners(s, Moved(s, e, ep, topic), e);
  }

  /** A review whose leases have all reported may move to another state. */
  lemma MoveKeepsReviews(s: State, e: EpisodeId, ep: Episode, topic: Topic)
    requires ReviewGood(s) && Moves(s, e, ep, topic)
    requires var o := Moved(s, e, ep, topic); RunnerInv(Leases(s.seats), s.history.concluded, o.topics, o.episodes)
    requires ReviewedProperly(s.episodes[e := ep], ep)
    requires PendingFor(s.proposals, e) == {} || ep.state in {Awaiting, Publishing, Parked}
    requires IntentInv(s.episodes[e := ep], s.proposals, s.intents, s.decisions, s.history.replaced)
    ensures ReviewGood(Moved(s, e, ep, topic))
    ensures Mirrored(s.topics) ==> Mirrored(Moved(s, e, ep, topic).topics)
  {
    MoveIsStep(s, e, ep, topic);
    SetEpisode(s.topics, s.episodes, e, ep, topic);
    AdvanceKeepsProposals(s.episodes, s.proposals, e, ep);
    EpisodeStepKeeps(s, Moved(s, e, ep, topic), e);
  }

  lemma NothingPending(episodes: map<EpisodeId, Episode>, proposals: map<ProposalId, Proposal>, e: EpisodeId)
    requires ProposalInv(episodes, proposals) && e in episodes && episodes[e].state !in {Awaiting, Publishing, Parked}
    ensures PendingFor(proposals, e) == {}
  {
    forall p | p in proposals && proposals[p].episode == e ensures !proposals[p].pending {
      assert ProposalPlaced(episodes, proposals[p]);
    }
  }

  // ---------- Starting ----------

  lemma StartAdvances(ep: Episode, run: RunId, digest: Digest, prior: Option<EpisodeId>)
    requires !Closed(ep.state)
    ensures var next := StartedEpisode(ep, run, digest, prior);
            Advances(ep, next) && SameDelegates(ep, next) && Mentions(next) <= Mentions(ep) + {run}
  {
  }

  lemma StartMoves(s: State, e: EpisodeId, run: RunId, digest: Digest, prior: Option<EpisodeId>)
    requires EpisodeInv(s.topics, s.episodes) && ReferenceInv(s.episodes, s.runs)
    requires e in s.episodes && s.episodes[e].state in {Due, RetryWait} && run in s.runs
    ensures s.episodes[e].topic in s.topics
    ensures Moves(s, e, StartedEpisode(s.episodes[e], run, digest, prior), s.topics[s.episodes[e].topic])
  {
    ActiveIsOpen(s.topics, s.episodes, e);
    StartAdvances(s.episodes[e], run, digest, prior);
    MentionsLive(s.episodes, s.runs, e);
  }

  lemma MentionsLive(episodes: map<EpisodeId, Episode>, runs: map<RunId, Run>, e: EpisodeId)
    requires ReferenceInv(episodes, runs) && e in episodes
    ensures Mentions(episodes[e]) <= runs.Keys
  {
  }

  lemma StartReviewed(s: State, e: EpisodeId, run: RunId, digest: Digest, prior: Option<EpisodeId>)
    requires e in s.episodes && s.episodes[e].state in {Due, RetryWait}
             && OffersPrior(s, s.episodes[e].topic, digest, prior)
    ensures ReviewedProperly(s.episodes[e := StartedEpisode(s.episodes[e], run, digest, prior)],
            StartedEpisode(s.episodes[e], run, digest, prior))
  {
  }

  lemma StartServed(s: State, e: EpisodeId, ep: Episode, run: RunId)
    requires hide *; true
    requires LedgerGood(s) && ReviewGood(s) && Serving(s, run, ep.topic)
    requires ep.topic in s.topics && Moves(s, e, ep, s.topics[ep.topic]) && ep.state == InReview
    ensures var o := Moved(s, e, ep, s.topics[ep.topic]);
            RunnerInv(Leases(s.seats), s.history.concluded, o.topics, o.episodes)
  {
    hide ProposalInv, ReviewedInv, TriggerInv, CadenceInv, IntentInv, RunnerInv, ReferenceInv, DelegateInv, CountInv;
    var o := Moved(s, e, ep, s.topics[ep.topic]);
    var k :| 0 <= k < |s.seats| && s.seats[k].current.Some? && s.seats[k].current.value.id == run
             && s.seats[k].current.value.topic == ep.topic && s.seats[k].current.value.kind == Checkpoint;
    LeaseAt(s, k);
    assert Served(s.seats[k].current.value, o.topics, o.episodes);
    MoveIsStep(s, e, ep, s.topics[ep.topic]);
    EpisodeStepKeepsRunners(s, o, e);
  }

  lemma StartFits(s: State, e: EpisodeId, run: RunId, digest: Digest, prior: Option<EpisodeId>)
    requires hide *; true
    requires LedgerGood(s) && ReviewGood(s) && e in s.episodes && s.episodes[e].state in {Due, RetryWait}
             && run in s.runs
    requires Serving(s, run, s.episodes[e].topic) && OffersPrior(s, s.episodes[e].topic, digest, prior)
    ensures var next := StartedEpisode(s.episodes[e], run, digest, prior);
            && next.topic in s.topics && Moves(s, e, next, s.topics[next.topic])
            && (var o := Moved(s, e, next, s.topics[next.topic]); RunnerInv(Leases(s.seats), s.history.concluded,
                 o.topics, o.episodes))
            && ReviewedProperly(s.episodes[e := next], next) && PendingFor(s.proposals, e) == {}
            && IntentInv(s.episodes[e := next], s.proposals, s.intents, s.decisions, s.history.replaced)
  {
    hide LedgerGood;
    var next := StartedEpisode(s.episodes[e], run, digest, prior);
    StartMoves(s, e, run, digest, prior);
    StartServed(s, e, next, run);
    NothingPending(s.episodes, s.proposals, e);
    StartReviewed(s, e, run, digest, prior);
    AdvanceKeepsIntents(s.episodes, s.proposals, s.intents, s.decisions, s.history.replaced, e, next);
  }

  lemma StartedKeepsReviews(s: State, e: EpisodeId, run: RunId, digest: Digest, prior: Option<EpisodeId>)
    requires hide *; true
    requires LedgerGood(s) && ReviewGood(s) && e in s.episodes && s.episodes[e].state in {Due, RetryWait}
    requires Serving(s, run, s.episodes[e].topic) && OffersPrior(s, s.episodes[e].topic, digest, prior)
    ensures ReviewGood(s.(episodes := s.episodes[e := StartedEpisode(s.episodes[e], run, digest, prior)]))
  {
    hide ReviewGood, LedgerGood;
    var next := StartedEpisode(s.episodes[e], run, digest, prior);
    ServingAlone(s, run, next.topic);
    StartFits(s, e, run, digest, prior);
    MoveKeepsReviews(s, e, next, s.topics[next.topic]);
    MovedInPlace(s, e, next);
  }

  lemma MovedInPlace(s: State, e: EpisodeId, ep: Episode)
    requires ep.topic in s.topics
    ensures Moved(s, e, ep, s.topics[ep.topic]) == s.(episodes := s.episodes[e := ep])
  {
    assert s.topics[ep.topic := s.topics[ep.topic]] == s.topics;
  }

  /** A serving lease may start its topic's review, naming a prior review only as the source picks it. */
  lemma StartKeepsReviews(s: State, e: EpisodeId, run: RunId, digest: Digest, prior: Option<EpisodeId>)
    requires hide *; true
    requires LedgerGood(s) && ReviewGood(s)
    requires e in s.episodes ==>
             Serving(s, run, s.episodes[e].topic) && OffersPrior(s, s.episodes[e].topic, digest, prior)
    ensures var o := StartCheckpoint(s, e, run, digest, prior);
            o.Done? ==> ReviewGood(o.state) && o.state.topics == s.topics
  {
    hide ReviewGood, LedgerGood;
    var o := StartCheckpoint(s, e, run, digest, prior);
    if o.Done? && s.episodes[e].state in {Due, RetryWait} {
      StartedKeepsReviews(s, e, run, digest, prior);
    }
  }

  // ---------- Finishing ----------

  lemma HandleKeepsTriggers(topics: map<TopicId, Topic>, triggers: map<TriggerKey, Trigger>,
                            episodes: map<EpisodeId, Episode>, keys: seq<TriggerKey>)
    requires TriggerInv(topics, triggers, episodes)
    ensures TriggerInv(topics, HandleTriggers(triggers, keys), episodes)
    ensures forall t :: CadenceTriggers(HandleTriggers(triggers, keys), t) == CadenceTriggers(triggers, t)
  {
    var triggers' := HandleTriggers(triggers, keys);
    forall k | k in triggers' ensures TriggerPlaced(triggers', topics, episodes, k) {
      assert TriggerPlaced(triggers, topics, episodes, k);
    }
    forall t, v | v in Marked(TopicOf(topics, t)) ensures Deepened(triggers', t, v) {
      assert Deepened(triggers, t, v);
    }
    forall t ensures CadenceTriggers(triggers', t) == CadenceTriggers(triggers, t) {
    }
  }

  lemma HandleKeepsReviews(s: State, keys: seq<TriggerKey>)
    requires ReviewGood(s)
    ensures ReviewGood(s.(triggers := HandleTriggers(s.triggers, keys)))
  {
    HandleKeepsTriggers(s.topics, s.triggers, s.episodes, keys);
  }

  lemma FinishAdvances(ep: Episode, r: Report, st: EpisodeState)
    requires ep.state == InReview
    ensures var next := FinishedEpisode(ep, r, st);
            Advances(ep, next) && SameDelegates(ep, next) && Mentions(next) <= Mentions(ep) + {r.run}
              && next.state == st
  {
  }

  lemma FinishMoves(s: State, e: EpisodeId, r: Report, st: EpisodeState)
    requires EpisodeInv(s.topics, s.episodes) && ReferenceInv(s.episodes, s.runs)
    requires e in s.episodes && s.episodes[e].state == InReview && r.run in s.runs
    requires st in {Parked, RetryWait, CompleteWithoutProposals, Awaiting}
    ensures s.episodes[e].topic in s.topics
    ensures Moves(s, e, FinishedEpisode(s.episodes[e], r, st), FinishedTopic(s.topics[s.episodes[e].topic], st))
  {
    ActiveIsOpen(s.topics, s.episodes, e);
    FinishAdvances(s.episodes[e], r, st);
    MentionsLive(s.episodes, s.runs, e);
  }

  lemma FinishReviewed(episodes: map<EpisodeId, Episode>, e: EpisodeId, r: Report, st: EpisodeState)
    requires ReviewedInv(episodes) && e in episodes && episodes[e].state == InReview
    requires st in {Parked, RetryWait, CompleteWithoutProposals, Awaiting}
    requires st == CompleteWithoutProposals ==>
             Countered(episodes[e]) || (r.reuseOf.Some? && r.reuseOf == episodes[e].prior)
    ensures ReviewedProperly(episodes[e := FinishedEpisode(episodes[e], r, st)], FinishedEpisode(episodes[e], r, st))
  {
    assert ReviewedProperly(episodes, episodes[e]);
    var next := FinishedEpisode(episodes[e], r, st);
    if Countered(episodes[e]) {
      var j :| j in episodes[e].invocations && Certifies(episodes[e].invocations[j]);
      assert Certifies(next.invocations[j]);
    }
  }

  /** A report whose lease has reported moves its review. */
  lemma FinishedKeepsReviews(s: State, r: Report, st: EpisodeState)
    requires hide *; true
    requires ReviewGood(s) && r.episode in s.episodes && s.episodes[r.episode].state == InReview && r.run in s.runs
    requires Quiescent(s, s.episodes[r.episode].topic) && st in {Parked, RetryWait, CompleteWithoutProposals, Awaiting}
    requires st == CompleteWithoutProposals ==>
               Countered(s.episodes[r.episode]) || (r.reuseOf.Some? && r.reuseOf == s.episodes[r.episode].prior)
    ensures ReviewGood(FinishedState(s, r, st)) && (Mirrored(s.topics) ==> Mirrored(FinishedState(s, r, st).topics))
  {
    var e := r.episode;
    FinishMoves(s, e, r, st);
    var next, topic := FinishedEpisode(s.episodes[e], r, st), FinishedTopic(s.topics[s.episodes[e].topic], st);
    NothingPending(s.episodes, s.proposals, e);
    FinishReviewed(s.episodes, e, r, st);
    MoveKeepsRunners(s, e, next, topic);
    AdvanceKeepsIntents(s.episodes, s.proposals, s.intents, s.decisions, s.history.replaced, e, next);
    MoveKeepsReviews(s, e, next, topic);
  }

  lemma {:induction false} IssuedProposals(proposals: map<ProposalId, Proposal>, e: EpisodeId, t: TopicId,
                                           ds: seq<Draft>)
    ensures var after := IssueProposals(proposals, e, t, ds);
            forall p | p in after ::
              (p in proposals && after[p] == proposals[p] && p !in DraftIds(ds))
              || (p in DraftIds(ds) && after[p].episode == e && after[p].topic == t && after[p].pending
                   && after[p].decision.None?)
    ensures IssueProposals(proposals, e, t, ds).Keys == proposals.Keys + Elements(DraftIds(ds))
  {
    if ds != [] {
      IssuedProposals(proposals, e, t, ds[..|ds| - 1]);
      assert DraftIds(ds) == DraftIds(ds[..|ds| - 1]) + [ds[|ds| - 1].id];
    }
  }

  lemma IssueKeepsProposals(episodes: map<EpisodeId, Episode>, proposals: map<ProposalId, Proposal>, e: EpisodeId,
                            ds: seq<Draft>)
    requires ProposalInv(episodes, proposals) && e in episodes && episodes[e].state == Awaiting
             && Countered(episodes[e]) && episodes[e].resultOf.Some?
    ensures ProposalInv(episodes, IssueProposals(proposals, e, episodes[e].topic, ds))
  {
    IssuedProposals(proposals, e, episodes[e].topic, ds);
    var after := IssueProposals(proposals, e, episodes[e].topic, ds);
    forall p | p in after ensures ProposalPlaced(episodes, after[p]) {
      if p in proposals { assert ProposalPlaced(episodes, proposals[p]); }
    }
  }

  lemma IssueKeepsIntents(episodes: map<EpisodeId, Episode>, proposals: map<ProposalId, Proposal>,
                          intents: map<RequestId, Intent>, decisions: map<RequestId, Decision>,
                          replaced: set<(RequestId, Payload)>, e: EpisodeId, t: TopicId, ds: seq<Draft>)
    requires IntentInv(episodes, proposals, intents, decisions, replaced) && forall d | d in ds :: d.id !in proposals
    ensures IntentInv(episodes, IssueProposals(proposals, e, t, ds), intents, decisions, replaced)
  {
    IssuedProposals(proposals, e, t, ds);
    assert forall i | 0 <= i < |ds| :: DraftIds(ds)[i] == ds[i].id && ds[i] in ds;
    HeldKeepsIntents(episodes, episodes, proposals, IssueProposals(proposals, e, t, ds), intents, decisions, replaced);
  }

  /** Proposals are issued within the allowance, to a review whose counter is on record. */
  lemma IssueKeepsReviews(s: State, e: EpisodeId, ds: seq<Draft>)
    requires hide *; true
    requires ReviewGood(s) && e in s.episodes && s.episodes[e].state == Awaiting && Countered(s.episodes[e])
             && s.episodes[e].resultOf.Some?
    requires s.episodes[e].topic in s.topics && |ds| <= s.topics[s.episodes[e].topic].allowance
             && forall d | d in ds :: d.id !in s.proposals
    ensures var o := WithIssued(s, e, s.episodes[e].topic, ds);
            ReviewGood(o) && (Mirrored(s.topics) ==> Mirrored(o.topics))
  {
    var o := WithIssued(s, e, s.episodes[e].topic, ds);
    IssueKeepsProposals(s.episodes, s.proposals, e, ds);
    IssueKeepsIntents(s.episodes, s.proposals, s.intents, s.decisions, s.history.replaced, e, s.episodes[e].topic, ds);
    AllowanceKeeps(s, o, s.episodes[e].topic);
  }

  /** One topic's allowance and issue count move together; every other fact stays. */
  lemma AllowanceKeeps(s: State, o: State, t: TopicId)
    requires hide *; true
    requires ReviewGood(s) && t in s.topics && t in o.topics && o.topics == s.topics[t := o.topics[t]]
    requires o.topics[t] == s.topics[t].(allowance := o.topics[t].allowance)
    requires o.history.issued == s.history.issued[t := CountOr0(o.history.issued, t)]
             && o.topics[t].allowance + CountOr0(o.history.issued, t) == 2
    ensures AllowanceInv(o.topics, o.history.issued) && EpisodeInv(o.topics, s.episodes)
    ensures TriggerInv(o.topics, s.triggers, s.episodes)
            && (s.history.steady ==> CadenceInv(s.policy, o.topics, s.triggers))
    ensures RunnerInv(Leases(s.seats), s.history.concluded, o.topics, s.episodes)
    ensures Mirrored(s.topics) ==> Mirrored(o.topics)
  {
    AllowanceMoves(s.topics, o.topics, s.history.issued, o.history.issued, t);
    KeepTopics(s.topics, o.topics, s.episodes);
    FactsKeepTriggers(s.topics, o.topics, s.triggers, s.episodes);
    FactsKeepRunners(Leases(s.seats), s.history.concluded, s.topics, o.topics, s.episodes);
    forall q | s.history.steady ensures |CadenceTriggers(s.triggers, q)| ==
      CadenceCount(s.policy, TopicOf(o.topics, q).completed) {
      assert TopicOf(o.topics, q).completed == TopicOf(s.topics, q).completed;
    }
  }

  lemma AllowanceMoves(topics: map<TopicId, Topic>, topics': map<TopicId, Topic>, issued: map<TopicId, nat>,
                       issued': map<TopicId, nat>, t: TopicId)
    requires AllowanceInv(topics, issued) && t in topics && t in topics' && topics' == topics[t := topics'[t]]
    requires issued' == issued[t := CountOr0(issued', t)] && topics'[t].allowance + CountOr0(issued', t) == 2
    ensures AllowanceInv(topics', issued')
  {
    forall q ensures TopicOf(topics', q).allowance + CountOr0(issued', q) == 2 {
      assert TopicOf(topics, q).allowance + CountOr0(issued, q) == 2;
    }
  }

  lemma ConcludedIsQuiescent(s: State, run: RunId, t: TopicId)
    requires LedgerGood(s) && ReviewGood(s) && Serving(s, run, t)
    ensures run in s.runs && ReviewGood(Conclude(s, run)) && Quiescent(Conclude(s, run), t)
  {
    hide ReviewGood, LedgerGood;
    ServingAlone(s, run, t);
    ConcludeKeepsReviews(s, run);
  }

  lemma AwaitingShape(s: State, r: Report, keys: seq<TriggerKey>)
    requires r.episode in s.episodes && s.episodes[r.episode].topic in s.topics && Countered(s.episodes[r.episode])
    ensures var o, t := Handled(FinishedState(s, r, Awaiting), keys), s.episodes[r.episode].topic;
            && r.episode in o.episodes && o.episodes[r.episode].state == Awaiting && o.episodes[r.episode].topic == t
            && Countered(o.episodes[r.episode]) && o.episodes[r.episode].resultOf.Some?
            && t in o.topics && o.topics[t].allowance == s.topics[t].allowance && o.proposals == s.proposals
  {
  }

  lemma HandledKeepsReviews(s: State, r: Report, st: EpisodeState)
    requires hide *; true
    requires ReviewGood(s) && r.episode in s.episodes && s.episodes[r.episode].state == InReview && r.run in s.runs
    requires Quiescent(s, s.episodes[r.episode].topic) && st in {CompleteWithoutProposals, Awaiting}
    requires Countered(s.episodes[r.episode]) || (r.reuseOf.Some? && r.reuseOf == s.episodes[r.episode].prior)
    ensures var o := Handled(FinishedState(s, r, st), s.episodes[r.episode].triggers);
            ReviewGood(o) && (Mirrored(s.topics) ==> Mirrored(o.topics))
  {
    hide ReviewGood;
    FinishedKeepsReviews(s, r, st);
    HandleKeepsReviews(FinishedState(s, r, st), s.episodes[r.episode].triggers);
  }

  /** A finished run of a review with drafts: the review awaits its operator and the drafts are issued. */
  lemma DraftedKeepsReviews(s: State, r: Report)
    requires hide *; true
    requires ReviewGood(s) && r.episode in s.episodes && s.episodes[r.episode].state == InReview && r.run in s.runs
    requires Quiescent(s, s.episodes[r.episode].topic) && Countered(s.episodes[r.episode])
             && s.episodes[r.episode].topic in s.topics
    requires |r.drafts| <= s.topics[s.episodes[r.episode].topic].allowance
             && forall d | d in r.drafts :: d.id !in s.proposals
    ensures var ep := s.episodes[r.episode];
            var o := WithIssued(Handled(FinishedState(s, r, Awaiting), ep.triggers), r.episode, ep.topic, r.drafts);
            ReviewGood(o) && (Mirrored(s.topics) ==> Mirrored(o.topics))
  {
    hide *;
    HandledKeepsReviews(s, r, Awaiting);
    AwaitingShape(s, r, s.episodes[r.episode].triggers);
    IssueKeepsReviews(Handled(FinishedState(s, r, Awaiting), s.episodes[r.episode].triggers), r.episode, r.drafts);
  }

  predicate WithinMeans(s: State, r: Report)
    requires r.episode in s.episodes
  {
    var ep, st := s.episodes[r.episode], EndState(s.episodes[r.episode], r);
    && ep.state == InReview
    && (st == CompleteWithoutProposals ==> Countered(ep) || (r.reuseOf.Some? && r.reuseOf == ep.prior))
    && (st == Awaiting ==> Countered(ep) && |r.drafts| <= TopicOr(s.topics, ep.topic, Unknown).allowance
                           && forall d | d in r.drafts :: d.id !in s.proposals)
  }

  lemma ReportedKeepsReviews(s: State, r: Report)
    requires hide *; true
    requires ReviewGood(s) && r.episode in s.episodes && r.run in s.runs && WithinMeans(s, r)
    requires Quiescent(s, s.episodes[r.episode].topic)
    ensures var o := Reported(s, r, EndState(s.episodes[r.episode], r));
            ReviewGood(o) && (Mirrored(s.topics) ==> Mirrored(o.topics))
  {
    var st := EndState(s.episodes[r.episode], r);
    ActiveIsOpen(s.topics, s.episodes, r.episode);
    if st == CompleteWithoutProposals {
      HandledKeepsReviews(s, r, st);
    } else if st == Awaiting {
      DraftedKeepsReviews(s, r);
    } else {
      FinishedKeepsReviews(s, r, st);
    }
  }

  /** A report that gets past every check names the running review and stays within its means. */
  lemma FinishChecks(s: State, r: Report, digest: Digest)
    requires WellFormed(r) && r.episode in s.episodes && FinishRefusal(s, r, digest).None?
    ensures WithinMeans(s, r)
  {
  }

  /** A serving lease's report, whatever it says, keeps the reviews. */
  lemma FinishKeepsReviews(s: State, r: Report, digest: Digest)
    requires hide *; true
    requires LedgerGood(s) && ReviewGood(s)
    requires r.episode in s.episodes ==> Serving(s, r.run, s.episodes[r.episode].topic)
    ensures var o := FinishCheckpoint(s, r, digest);
            o.Done? ==> ReviewGood(o.state) && (Mirrored(s.topics) ==> Mirrored(o.state.topics))
  {
    hide ReviewGood, LedgerGood, Reported;
    if FinishCheckpoint(s, r, digest).Done? {
      ConcludedIsQuiescent(s, r.run, s.episodes[r.episode].topic);
      if s.episodes[r.episode].resultOf != Some(r.run) {
        FinishChecks(s, r, digest);
        ReportedKeepsReviews(Conclude(s, r.run), r);
      }
    }
  }

  // ---------- Parking ----------

  lemma FailMoves(s: State, e: EpisodeId, retry: bool, failures: nat, now: Time)
    requires EpisodeInv(s.topics, s.episodes) && ReferenceInv(s.episodes, s.runs)
    requires e in s.episodes && s.episodes[e].state in {Due, InReview, RetryWait}
    ensures s.episodes[e].topic in s.topics
    ensures Moves(s, e, FailedEpisode(s.episodes[e], retry, failures),
            FailedTopic(s.topics[s.episodes[e].topic], retry, now))
  {
    ActiveIsOpen(s.topics, s.episodes, e);
    FailAdvances(s.episodes[e], retry, failures);
    MentionsLive(s.episodes, s.runs, e);
  }

  lemma FailKeepsReviews(s: State, e: EpisodeId, retry: bool, failures: nat, now: Time)
    requires hide *; true
    requires ReviewGood(s) && e in s.episodes && s.episodes[e].state in {Due, InReview, RetryWait}
             && Quiescent(s, s.episodes[e].topic)
    requires s.episodes[e].topic in s.topics
    ensures var o := Moved(s, e, FailedEpisode(s.episodes[e], retry, failures),
            FailedTopic(s.topics[s.episodes[e].topic], retry, now));
            ReviewGood(o) && (Mirrored(s.topics) ==> Mirrored(o.topics))
  {
    var ep, topic := FailedEpisode(s.episodes[e], retry, failures),
      FailedTopic(s.topics[s.episodes[e].topic], retry, now);
    FailMoves(s, e, retry, failures, now);
    NothingPending(s.episodes, s.proposals, e);
    FailReviewed(s.episodes, e, retry, failures);
    MoveKeepsRunners(s, e, ep, topic);
    AdvanceKeepsIntents(s.episodes, s.proposals, s.intents, s.decisions, s.history.replaced, e, ep);
    MoveKeepsReviews(s, e, ep, topic);
  }

  lemma FailAdvances(ep: Episode, retry: bool, failures: nat)
    requires !Closed(ep.state)
    ensures var next := FailedEpisode(ep, retry, failures);
            Advances(ep, next) && SameDelegates(ep, next) && Mentions(next) == Mentions(ep)
  {
  }

  lemma FailReviewed(episodes: map<EpisodeId, Episode>, e: EpisodeId, retry: bool, failures: nat)
    requires ReviewedInv(episodes) && e in episodes && !Closed(episodes[e].state)
    ensures ReviewedProperly(episodes[e := FailedEpisode(episodes[e], retry, failures)],
            FailedEpisode(episodes[e], retry, failures))
  {
    assert ReviewedProperly(episodes, episodes[e]);
  }

  /** A failed run moves its topic's active review. */
  lemma ParkFailedResult(s: State, t: TopicId, lease: RunId, known: Option<EpisodeId>, infra: bool, now: Time)
    requires t in s.topics && s.topics[t].active.Some? && s.topics[t].active.value in s.episodes
    requires s.episodes[s.topics[t].active.value].topic == t && (known.Some? ==> s.topics[t].active == known)
    ensures var e := s.topics[t].active.value;
            var before := s.episodes[e].infraFailures;
            var retry := infra && before + 1 < INFRA_RETRY_LIMIT;
            ParkFailed(s, t, lease, known, infra, now) ==
              Moved(Conclude(s, lease), e, FailedEpisode(s.episodes[e], retry, if infra then before + 1 else before),
                FailedTopic(s.topics[t], retry, now))
  {
  }

  lemma FailedKeepsReviews(s: State, t: TopicId, lease: RunId, known: Option<EpisodeId>, infra: bool, now: Time)
    requires hide *; true
    requires ReviewGood(Conclude(s, lease)) && Quiescent(Conclude(s, lease), t)
    requires t in s.topics && s.topics[t].active.Some? && s.topics[t].active.value in s.episodes
             && (known.Some? ==> s.topics[t].active == known)
    requires s.episodes[s.topics[t].active.value].topic == t
             && s.episodes[s.topics[t].active.value].state in {Due, InReview, RetryWait}
    ensures var o := ParkFailed(s, t, lease, known, infra, now);
            ReviewGood(o) && (Mirrored(Conclude(s, lease).topics) ==> Mirrored(o.topics))
  {
    hide ReviewGood;
    var e := s.topics[t].active.value;
    var before := s.episodes[e].infraFailures;
    var retry, failures := infra && before + 1 < INFRA_RETRY_LIMIT, if infra then before + 1 else before;
    ParkFailedResult(s, t, lease, known, infra, now);
    FailedOutcome(Conclude(s, lease), e, retry, failures, now, ParkFailed(s, t, lease, known, infra, now));
  }

  lemma FailedOutcome(s: State, e: EpisodeId, retry: bool, failures: nat, now: Time, o: State)
    requires hide *; true
    requires ReviewGood(s) && e in s.episodes && s.episodes[e].state in {Due, InReview, RetryWait}
             && Quiescent(s, s.episodes[e].topic)
    requires s.episodes[e].topic in s.topics
    requires o == Moved(s, e, FailedEpisode(s.episodes[e], retry, failures),
             FailedTopic(s.topics[s.episodes[e].topic], retry, now))
    ensures ReviewGood(o) && (Mirrored(s.topics) ==> Mirrored(o.topics))
  {
    hide *;
    FailKeepsReviews(s, e, retry, failures, now);
  }

  /** The serving lease failed: its review is parked or waits to be retried. */
  lemma ParkFailedKeepsReviews(s: State, t: TopicId, lease: RunId, known: Option<EpisodeId>, infra: bool, now: Time)
    requires hide *; true
    requires LedgerGood(s) && ReviewGood(s) && Serving(s, lease, t)
    requires known.Some? ==> t in s.topics && s.topics[t].active == known
    ensures var o := ParkFailed(s, t, lease, known, infra, now);
            ReviewGood(o) && (Mirrored(s.topics) ==> Mirrored(o.topics))
  {
    hide ReviewGood, LedgerGood;
    ServingAlone(s, lease, t);
    ConcludedIsQuiescent(s, lease, t);
    FailedKeepsReviews(s, t, lease, known, infra, now);
  }
}
