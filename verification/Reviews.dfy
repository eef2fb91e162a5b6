/** What every controller step keeps about reviews: triggers, proposals, decisions and the runs that serve them. */
module Reviews {
  import opened Common
  import opened ControlRecords
  import opened Scheduler
  import opened Checkpoints
  import opened Episodes
  import opened Ledger

  // ---------- The invariants ----------

  predicate Closed(st: EpisodeState) { st in {CompleteWithoutProposals, CompleteWithDecisions} }

  ghost predicate BudgetsInv(episodes: map<EpisodeId, Episode>) {
    forall e {:trigger DelegateInv(episodes[e])} | e in episodes :: DelegateInv(episodes[e])
  }

  predicate ProposalPlaced(episodes: map<EpisodeId, Episode>, p: Proposal) {
    && p.episode in episodes && p.topic == episodes[p.episode].topic && Countered(episodes[p.episode])
    && episodes[p.episode].resultOf.Some?
    && (p.pending ==> episodes[p.episode].state in {Awaiting, Publishing, Parked})
  }

  /** Every proposal belongs to an episode whose counter succeeded and is on record; a pending one to an open
      episode. */
  ghost predicate ProposalInv(episodes: map<EpisodeId, Episode>, proposals: map<ProposalId, Proposal>) {
    forall p {:trigger ProposalPlaced(episodes, proposals[p])} | p in proposals ::
      ProposalPlaced(episodes, proposals[p])
  }

  /** Proposals issued since the last operator reset and the allowance left always make two. */
  ghost predicate AllowanceInv(topics: map<TopicId, Topic>, issued: map<TopicId, nat>) {
    forall t :: TopicOf(topics, t).allowance + CountOr0(issued, t) == 2
  }

  predicate PriorPlaced(episodes: map<EpisodeId, Episode>, ep: Episode) {
    ep.prior.Some? ==>
      && ep.prior.value in episodes && Closed(episodes[ep.prior.value].state)
      && episodes[ep.prior.value].topic == ep.topic && episodes[ep.prior.value].digest == ep.digest
  }

  predicate ReviewedProperly(episodes: map<EpisodeId, Episode>, ep: Episode) {
    && PriorPlaced(episodes, ep)
    && (ep.state == CompleteWithDecisions ==> Countered(ep))
    && (ep.state == CompleteWithoutProposals ==> Countered(ep) || (ep.reused.Some? && ep.reused == ep.prior))
  }

  /** A completed review had its own recorded counter, or reuses a completed review of the same topic over the same
      material. */
  ghost predicate ReviewedInv(episodes: map<EpisodeId, Episode>) {
    forall e {:trigger ReviewedProperly(episodes, episodes[e])} | e in episodes ::
      ReviewedProperly(episodes, episodes[e])
  }

  predicate TriggerPlaced(triggers: map<TriggerKey, Trigger>, topics: map<TopicId, Topic>,
                          episodes: map<EpisodeId, Episode>, k: TriggerKey)
    requires k in triggers
  {
    && triggers[k].episode.Some? && triggers[k].episode.value in episodes
    && episodes[triggers[k].episode.value].topic == k.topic && k in episodes[triggers[k].episode.value].triggers
    && k.ordinal <= TopicOf(topics, k.topic).completed
    && (k.kind == Deepening ==> k.inventory in Marked(TopicOf(topics, k.topic)))
  }

  /** The versions a topic's record says deepened. */
  function Marked(topic: Topic): set<Version> { set v | v in topic.deepening && topic.deepening[v] }

  predicate Deepened(triggers: map<TriggerKey, Trigger>, t: TopicId, v: Version) {
    exists k | k in triggers :: k.kind == Deepening && k.topic == t && k.inventory == v
  }

  ghost predicate MarksRecorded(topics: map<TopicId, Topic>, triggers: map<TriggerKey, Trigger>) {
    forall t, v {:trigger Deepened(triggers, t, v)} | v in Marked(TopicOf(topics, t)) :: Deepened(triggers, t, v)
  }

  /** Every trigger names an episode of its topic that lists it, every listed trigger is recorded, an inventory version
      trips deepening at most once, and its topic's record says so. */
  ghost predicate TriggerInv(topics: map<TopicId, Topic>, triggers: map<TriggerKey, Trigger>,
                             episodes: map<EpisodeId, Episode>) {
    && (forall k {:trigger TriggerPlaced(triggers, topics, episodes, k)} | k in triggers ::
         TriggerPlaced(triggers, topics, episodes, k))
    && (forall e, k | e in episodes && k in episodes[e].triggers :: k in triggers && k.topic == episodes[e].topic)
    && (forall j, k | j in triggers && k in triggers && j.kind == Deepening && k.kind == Deepening
                      && j.topic == k.topic && j.inventory == k.inventory :: j == k)
    && MarksRecorded(topics, triggers)
  }

  function CadenceTriggers(triggers: map<TriggerKey, Trigger>, t: TopicId): set<TriggerKey> {
    set k | k in triggers && k.kind == Cadence && k.topic == t
  }

  function CadenceCount(p: Policy, completed: nat): nat {
    if p.enabled && p.every > 0 then completed / p.every else 0
  }

  /** A topic has exactly one cadence trigger for each full period of accepted completions. */
  ghost predicate CadenceInv(p: Policy, topics: map<TopicId, Topic>, triggers: map<TriggerKey, Trigger>) {
    forall t :: |CadenceTriggers(triggers, t)| == CadenceCount(p, TopicOf(topics, t).completed)
  }

  predicate Undecided(intents: map<RequestId, Intent>, decisions: map<RequestId, Decision>, r: RequestId) {
    r in intents && r !in decisions
  }

  /** The review is held for this decision, whose proposals are pending. */
  predicate HeldFor(episodes: map<EpisodeId, Episode>, proposals: map<ProposalId, Proposal>, p: Payload) {
    && p.episode in episodes && episodes[p.episode].topic == p.topic
    && episodes[p.episode].state in {Publishing, Parked}
    && p.choices != []
    && (forall c | c in p.choices ::
          c.proposal in proposals && proposals[c.proposal].episode == p.episode && proposals[c.proposal].pending)
  }

  predicate IntentPlaced(episodes: map<EpisodeId, Episode>, proposals: map<ProposalId, Proposal>, i: Intent) {
    HeldFor(episodes, proposals, i.payload) && (i.prepared.Some? <==> Approved(i.payload.choices) != [])
  }

  /** No undecided intent names this review. */
  ghost predicate NoIntent(intents: map<RequestId, Intent>, decisions: map<RequestId, Decision>, e: EpisodeId) {
    forall r | Undecided(intents, decisions, r) :: intents[r].payload.episode != e
  }

  /** Another intent of the request replaced this payload's: its review stays held with no intent left to decide it. */
  ghost predicate Lost(episodes: map<EpisodeId, Episode>, proposals: map<ProposalId, Proposal>,
                       intents: map<RequestId, Intent>, decisions: map<RequestId, Decision>, r: RequestId, p: Payload) {
    && r in intents && intents[r].payload.episode != p.episode
    && HeldFor(episodes, proposals, p) && NoIntent(intents, decisions, p.episode)
  }

  /** An undecided intent holds its episode, and its proposals stay pending; no two share an episode; a decision comes
      from the intent with its request id; a payload whose intent was replaced is lost. */
  ghost predicate IntentInv(episodes: map<EpisodeId, Episode>, proposals: map<ProposalId, Proposal>,
                            intents: map<RequestId, Intent>, decisions: map<RequestId, Decision>,
                            replaced: set<(RequestId, Payload)>) {
    && (forall r {:trigger IntentPlaced(episodes, proposals, intents[r])} | Undecided(intents, decisions, r) ::
         IntentPlaced(episodes, proposals, intents[r]))
    && (forall q, r | Undecided(intents, decisions, q) && Undecided(intents, decisions, r) && q != r ::
          intents[q].payload.episode != intents[r].payload.episode)
    && (forall r | r in decisions :: r in intents && intents[r].payload == decisions[r].payload && intents[r].published)
    && (forall x | x in replaced :: Lost(episodes, proposals, intents, decisions, x.0, x.1))
  }

  /** Whatever held a review still does. */
  lemma HeldKeepsIntents(episodes: map<EpisodeId, Episode>, episodes': map<EpisodeId, Episode>,
                         proposals: map<ProposalId, Proposal>, proposals': map<ProposalId, Proposal>,
                         intents: map<RequestId, Intent>, decisions: map<RequestId, Decision>,
                         replaced: set<(RequestId, Payload)>)
    requires IntentInv(episodes, proposals, intents, decisions, replaced)
    requires forall p {:trigger HeldFor(episodes', proposals', p)} | HeldFor(episodes, proposals, p) ::
             HeldFor(episodes', proposals', p)
    ensures IntentInv(episodes', proposals', intents, decisions, replaced)
  {
    forall r | Undecided(intents, decisions, r) ensures IntentPlaced(episodes', proposals', intents[r]) {
      assert IntentPlaced(episodes, proposals, intents[r]);
      assert HeldFor(episodes', proposals', intents[r].payload);
    }
    forall x | x in replaced ensures Lost(episodes', proposals', intents, decisions, x.0, x.1) {
      assert Lost(episodes, proposals, intents, decisions, x.0, x.1);
      assert HeldFor(episodes', proposals', x.1);
    }
  }

  predicate Served(l: Lease, topics: map<TopicId, Topic>, episodes: map<EpisodeId, Episode>) {
    var a := TopicOf(topics, l.topic).active;
    if l.kind == Checkpoint then a.Some? && a.value in episodes && episodes[a.value].state in {Due, InReview, RetryWait}
    else a.None? || (a.value in episodes && episodes[a.value].state == Due)
  }

  /** While its checkpoint call has not returned, a checkpoint lease serves its topic's open review; a
      research lease coexists with no review, or with one that is only due. */
  ghost predicate RunnerInv(ls: seq<Option<Lease>>, concluded: set<RunId>, topics: map<TopicId, Topic>,
                            episodes: map<EpisodeId, Episode>) {
    forall k | 0 <= k < |ls| && ls[k].Some? && ls[k].value.id !in concluded :: Served(ls[k].value, topics, episodes)
  }

  /** Every run an episode refers to is still on record. */
  ghost predicate ReferenceInv(episodes: map<EpisodeId, Episode>, runs: map<RunId, Run>) {
    forall e, r | e in episodes && r in Mentions(episodes[e]) :: r in runs
  }

  ghost predicate ReviewGood(s: State) {
    && EpisodeInv(s.topics, s.episodes) && BudgetsInv(s.episodes) && ProposalInv(s.episodes, s.proposals)
    && AllowanceInv(s.topics, s.history.issued) && ReviewedInv(s.episodes)
    && TriggerInv(s.topics, s.triggers, s.episodes) && (s.history.steady ==> CadenceInv(s.policy, s.topics, s.triggers))
    && IntentInv(s.episodes, s.proposals, s.intents, s.decisions, s.history.replaced)
    && RunnerInv(Leases(s.seats), s.history.concluded, s.topics, s.episodes)
    && ReferenceInv(s.episodes, s.runs) && s.history.concluded <= s.history.minted.Keys
  }

  // ---------- Steps that leave reviews alone ----------

  /** The facts about a topic that reviews depend on. */
  predicate SameFacts(a: Topic, b: Topic) {
    a.active == b.active && a.review == b.review && a.allowance == b.allowance && a.completed == b.completed
      && a.deepening == b.deepening
  }

  ghost predicate SameTopicFacts(a: map<TopicId, Topic>, b: map<TopicId, Topic>) {
    a.Keys <= b.Keys && forall t :: SameFacts(TopicOf(a, t), TopicOf(b, t))
  }

  lemma FactsKeepMachine(topics: map<TopicId, Topic>, topics': map<TopicId, Topic>, episodes: map<EpisodeId, Episode>)
    requires EpisodeInv(topics, episodes) && SameTopicFacts(topics, topics')
    ensures EpisodeInv(topics', episodes) && (Mirrored(topics) ==> Mirrored(topics'))
  {
    forall t | t in topics' ensures SameFacts(TopicOf(topics, t), topics'[t]) {
      assert TopicOf(topics', t) == topics'[t];
    }
    KeepTopics(topics, topics', episodes);
  }

  lemma FactsKeepTriggers(topics: map<TopicId, Topic>, topics': map<TopicId, Topic>, triggers: map<TriggerKey, Trigger>,
                          episodes: map<EpisodeId, Episode>)
    requires TriggerInv(topics, triggers, episodes)
    requires forall t ::
               && TopicOf(topics, t).completed == TopicOf(topics', t).completed
               && TopicOf(topics, t).deepening == TopicOf(topics', t).deepening
    ensures TriggerInv(topics', triggers, episodes)
  {
    forall k | k in triggers ensures TriggerPlaced(triggers, topics', episodes, k) {
      assert TriggerPlaced(triggers, topics, episodes, k);
    }
  }

  lemma FactsKeepRunners(ls: seq<Option<Lease>>, concluded: set<RunId>, topics: map<TopicId, Topic>,
                         topics': map<TopicId, Topic>, episodes: map<EpisodeId, Episode>)
    requires RunnerInv(ls, concluded, topics, episodes)
    requires forall t :: TopicOf(topics, t).active == TopicOf(topics', t).active
    ensures RunnerInv(ls, concluded, topics', episodes)
  {
    forall k | 0 <= k < |ls| && ls[k].Some? && ls[k].value.id !in concluded ensures Served(ls[k].value, topics',
      episodes) {
      assert Served(ls[k].value, topics, episodes);
    }
  }

  /** Only records reviews do not depend on changed, leases may have ended, and referenced runs are still there. */
  ghost predicate QuietStep(s: State, t: State) {
    && SameTopicFacts(s.topics, t.topics)
    && t.episodes == s.episodes && t.proposals == s.proposals && t.triggers == s.triggers && t.intents == s.intents
    && t.decisions == s.decisions && t.policy == s.policy
    && t.history.issued == s.history.issued && t.history.concluded == s.history.concluded
    && t.history.steady == s.history.steady
    && t.history.replaced == s.history.replaced && s.history.minted.Keys <= t.history.minted.Keys
    && |Leases(t.seats)| == |Leases(s.seats)|
    && (forall k | 0 <= k < |Leases(s.seats)| && Leases(t.seats)[k].Some? ::
          Leases(s.seats)[k].Some? && Leases(s.seats)[k].value.(confirmed := false) ==
            Leases(t.seats)[k].value.(confirmed := false))
    && (forall r | r in Referenced(s.episodes) && r in s.runs :: r in t.runs)
  }

  lemma QuietKeepsRunners(ls: seq<Option<Lease>>, ls': seq<Option<Lease>>, concluded: set<RunId>,
                          topics: map<TopicId, Topic>, episodes: map<EpisodeId, Episode>)
    requires RunnerInv(ls, concluded, topics, episodes) && |ls| == |ls'|
    requires forall k | 0 <= k < |ls| && ls'[k].Some? ::
             ls[k].Some? && ls[k].value.(confirmed := false) == ls'[k].value.(confirmed := false)
    ensures RunnerInv(ls', concluded, topics, episodes)
  {
    forall k | 0 <= k < |ls'| && ls'[k].Some?
      && ls'[k].value.id !in concluded ensures Served(ls'[k].value, topics, episodes) {
      assert Served(ls[k].value, topics, episodes);
    }
  }

  lemma QuietKeeps(s: State, t: State)
    requires ReviewGood(s) && QuietStep(s, t)
    ensures ReviewGood(t) && (Mirrored(s.topics) ==> Mirrored(t.topics))
  {
    forall x ensures TopicOf(s.topics, x).completed == TopicOf(t.topics, x).completed
      && TopicOf(s.topics, x).deepening == TopicOf(t.topics, x).deepening
                     && TopicOf(s.topics, x).active == TopicOf(t.topics, x).active
                     && TopicOf(s.topics, x).allowance == TopicOf(t.topics, x).allowance {
      assert SameFacts(TopicOf(s.topics, x), TopicOf(t.topics, x));
    }
    FactsKeepMachine(s.topics, t.topics, s.episodes);
    FactsKeepTriggers(s.topics, t.topics, s.triggers, s.episodes);
    FactsKeepRunners(Leases(s.seats), s.history.concluded, s.topics, t.topics, s.episodes);
    QuietKeepsRunners(Leases(s.seats), Leases(t.seats), s.history.concluded, t.topics, s.episodes);
    forall e, r | e in t.episodes && r in Mentions(t.episodes[e]) ensures r in t.runs {
      assert r in Referenced(s.episodes);
    }
  }

  // ---------- Steps on one episode ----------

  /** An episode update that keeps the topic, the listed triggers, every certified counter, and a completed review. */
  predicate Advances(a: Episode, b: Episode) {
    && b.topic == a.topic && b.triggers == a.triggers
    && (Countered(a) ==> Countered(b)) && (a.resultOf.Some? ==> b.resultOf.Some?)
    && (Closed(a.state) ==> b.state == a.state && b.digest == a.digest && b.prior == a.prior && b.reused == a.reused)
  }

  lemma AdvanceKeepsBudgets(episodes: map<EpisodeId, Episode>, e: EpisodeId, ep: Episode)
    requires BudgetsInv(episodes) && DelegateInv(ep)
    ensures BudgetsInv(episodes[e := ep])
  {
  }

  lemma AdvanceKeepsProposals(episodes: map<EpisodeId, Episode>, proposals: map<ProposalId, Proposal>, e: EpisodeId,
                              ep: Episode)
    requires ProposalInv(episodes, proposals) && e in episodes && Advances(episodes[e], ep)
    requires ep.state in {Awaiting, Publishing, Parked} || PendingFor(proposals, e) == {}
    ensures ProposalInv(episodes[e := ep], proposals)
  {
    forall p | p in proposals ensures ProposalPlaced(episodes[e := ep], proposals[p]) {
      assert ProposalPlaced(episodes, proposals[p]);
      if proposals[p].episode == e && proposals[p].pending { assert p in PendingFor(proposals, e); }
    }
  }

  lemma AdvanceKeepsReviewed(episodes: map<EpisodeId, Episode>, e: EpisodeId, ep: Episode)
    requires ReviewedInv(episodes) && e in episodes && Advances(episodes[e], ep)
    requires ReviewedProperly(episodes[e := ep], ep)
    ensures ReviewedInv(episodes[e := ep])
  {
    var episodes' := episodes[e := ep];
    forall d | d in episodes' ensures ReviewedProperly(episodes', episodes'[d]) {
      if d != e { assert ReviewedProperly(episodes, episodes[d]); }
    }
  }

  lemma AdvanceKeepsTriggers(topics: map<TopicId, Topic>, triggers: map<TriggerKey, Trigger>,
                             episodes: map<EpisodeId, Episode>, e: EpisodeId, ep: Episode)
    requires TriggerInv(topics, triggers, episodes) && e in episodes && Advances(episodes[e], ep)
    ensures TriggerInv(topics, triggers, episodes[e := ep])
  {
    var episodes' := episodes[e := ep];
    forall k | k in triggers ensures TriggerPlaced(triggers, topics, episodes', k) {
      assert TriggerPlaced(triggers, topics, episodes, k);
    }
  }

  lemma AdvanceKeepsIntents(episodes: map<EpisodeId, Episode>, proposals: map<ProposalId, Proposal>,
                            intents: map<RequestId, Intent>, decisions: map<RequestId, Decision>,
                            replaced: set<(RequestId, Payload)>, e: EpisodeId, ep: Episode)
    requires IntentInv(episodes, proposals, intents, decisions, replaced) && e in episodes
             && ep.topic == episodes[e].topic
    requires ep.state in {Publishing, Parked} || episodes[e].state !in {Publishing, Parked}
             || PendingFor(proposals, e) == {}
    ensures IntentInv(episodes[e := ep], proposals, intents, decisions, replaced)
  {
    forall p | HeldFor(episodes, proposals, p) ensures HeldFor(episodes[e := ep], proposals, p) {
      assert p.choices[0] in p.choices;
      if p.episode == e { assert p.choices[0].proposal in PendingFor(proposals, e); }
    }
    HeldKeepsIntents(episodes, episodes[e := ep], proposals, proposals, intents, decisions, replaced);
  }

  lemma AdvanceKeepsReferences(episodes: map<EpisodeId, Episode>, runs: map<RunId, Run>, e: EpisodeId, ep: Episode)
    requires ReferenceInv(episodes, runs) && forall r | r in Mentions(ep) :: r in runs
    ensures ReferenceInv(episodes[e := ep], runs)
  {
  }

  /** An episode changes and its topic follows; everything else reviews depend on stays. */
  ghost predicate EpisodeStep(s: State, t: State, e: EpisodeId) {
    && e in s.episodes && e in t.episodes && t.episodes == s.episodes[e := t.episodes[e]]
    && var a, b := s.episodes[e], t.episodes[e];
    && Advances(a, b) && DelegateInv(b) && (forall r | r in Mentions(b) :: r in s.runs)
    && a.topic in s.topics && a.topic in t.topics && t.topics == s.topics[a.topic := t.topics[a.topic]]
    && var u, v := s.topics[a.topic], t.topics[a.topic];
    && u.allowance == v.allowance && u.completed == v.completed && u.deepening == v.deepening
    && t.triggers == s.triggers && t.policy == s.policy && t.history.issued == s.history.issued
    && t.history.steady == s.history.steady
    && t.runs == s.runs && t.seats == s.seats && s.history.minted == t.history.minted
    && s.history.concluded <= t.history.concluded <= s.history.minted.Keys
  }

  lemma OneTopicFacts(topics: map<TopicId, Topic>, topics': map<TopicId, Topic>, q: TopicId)
    requires q in topics && q in topics' && topics' == topics[q := topics'[q]]
    requires topics[q].allowance == topics'[q].allowance && topics[q].completed == topics'[q].completed
             && topics[q].deepening == topics'[q].deepening
    ensures forall x ::
              && TopicOf(topics, x).completed == TopicOf(topics', x).completed
              && TopicOf(topics, x).deepening == TopicOf(topics', x).deepening
    ensures forall x :: TopicOf(topics, x).allowance == TopicOf(topics', x).allowance
  {
  }

  lemma EpisodeStepKeepsTopics(s: State, t: State, e: EpisodeId)
    requires ReviewGood(s) && EpisodeStep(s, t, e)
    ensures AllowanceInv(t.topics, t.history.issued)
            && (t.history.steady ==> CadenceInv(t.policy, t.topics, t.triggers))
    ensures BudgetsInv(t.episodes) && ReferenceInv(t.episodes, t.runs)
    ensures TriggerInv(t.topics, t.triggers, t.episodes)
  {
    OneTopicFacts(s.topics, t.topics, s.episodes[e].topic);
    AdvanceKeepsTriggers(s.topics, s.triggers, s.episodes, e, t.episodes[e]);
    FactsKeepTriggers(s.topics, t.topics, s.triggers, t.episodes);
    AdvanceKeepsBudgets(s.episodes, e, t.episodes[e]);
    AdvanceKeepsReferences(s.episodes, s.runs, e, t.episodes[e]);
  }

  /** Leases whose checkpoint call is still out stay served when their topic's review stays servable. */
  lemma EpisodeStepKeepsRunners(s: State, t: State, e: EpisodeId)
    requires hide ReviewGood; true
    requires ReviewGood(s) && EpisodeStep(s, t, e)
    requires Open(t.episodes[e].state) ==> t.topics[s.episodes[e].topic].active == Some(e)
    requires forall k | 0 <= k < |s.seats| && s.seats[k].current.Some?
             && s.seats[k].current.value.id !in t.history.concluded
                        && s.seats[k].current.value.topic == s.episodes[e].topic ::
               Served(s.seats[k].current.value, t.topics, t.episodes)
    ensures RunnerInv(Leases(t.seats), t.history.concluded, t.topics, t.episodes)
  {
    hide BudgetsInv, ProposalInv, ReviewedInv, TriggerInv, CadenceInv, IntentInv, DelegateInv;
    var ls := Leases(s.seats);
    forall k | 0 <= k < |ls| && ls[k].Some? && ls[k].value.id !in t.history.concluded
      ensures Served(ls[k].value, t.topics, t.episodes)
    {
      var l := s.seats[k].current.value;
      assert ls[k].value == l;
      if l.topic != s.episodes[e].topic {
        assert Served(l, s.topics, s.episodes);
        assert TopicOf(t.topics, l.topic) == TopicOf(s.topics, l.topic);
        var a := TopicOf(s.topics, l.topic).active;
        if a.Some? {
          assert l.topic in s.topics && TopicPlaced(s.episodes, l.topic, s.topics[l.topic]);
        }
      }
    }
  }

  lemma EpisodeStepKeeps(s: State, t: State, e: EpisodeId)
    requires ReviewGood(s) && EpisodeStep(s, t, e)
    requires EpisodeInv(t.topics, t.episodes)
             && IntentInv(t.episodes, t.proposals, t.intents, t.decisions, t.history.replaced)
    requires ProposalInv(t.episodes, t.proposals)
    requires ReviewedProperly(t.episodes, t.episodes[e])
    requires RunnerInv(Leases(t.seats), t.history.concluded, t.topics, t.episodes)
    ensures ReviewGood(t)
  {
    EpisodeStepKeepsTopics(s, t, e);
    AdvanceKeepsReviewed(s.episodes, e, t.episodes[e]);
  }
}
