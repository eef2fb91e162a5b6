/** Where a stronger claim would be false: the exact condition, or a state that shows it. */
module Limits {
  import opened Common
  import opened ControlRecords
  import opened Scheduler
  import opened Checkpoints
  import opened Episodes
  import opened Ledger
  import opened Reviews
  import opened EpisodeSteps
  import opened OperatorSteps
  import opened Runs
  import opened Safety
  import opened Reachability
  import Compaction
  import Dealing

  // ---------- Exactly-once needs the lease's own topic ----------

  /** A pruned run reported accepted for any topic is counted again exactly when that topic has no pruned runs yet.
      Its own topic always has some, so only another topic can be talked into it. */
  lemma PrunedRecountsIff(s: State, run: RunId, t: TopicId, station: nat, v: Version, deepening: bool, now: Time,
                          e: EpisodeId)
    requires hide *; true
    requires LedgerGood(s) && run in s.history.minted && run !in s.runs && v != Unset
    ensures var o := Accept(s, t, run, station, v, true, deepening, now, e);
            && (o.Done? <==> CountOr0(s.pruned, t) == 0)
            && (o.Done? ==> t != s.history.minted[run].topic
                            && o.state.history.counted == s.history.counted
                                 + [Count(t, run, TopicOf(s.topics, t).completed + 1)])
  {
    UnknownRun(s, run, t, station, v, deepening, now, e);
    PrunedUnleased(s, run, t);
    MissingMeansPruned(Leases(s.seats), s.history.minted, s.runs, s.pruned, s.history.counted, run);
  }

  lemma PrunedUnleased(s: State, run: RunId, t: TopicId)
    requires LedgerGood(s) && run in s.history.minted && run !in s.runs
    ensures LeaseOf(s, t, run).None?
  {
    var ls := Leases(s.seats);
    MissingMeansPruned(ls, s.history.minted, s.runs, s.pruned, s.history.counted, run);
    forall k | 0 <= k < |s.seats| && s.seats[k].current.Some? ensures s.seats[k].current.value.id != run {
      assert ls[k] == s.seats[k].current;
    }
    Compaction.NoLeaseNoAuthority(s.seats, s.intake, t, run);
  }

  /** A run the ledger does not hold is refused on a topic with pruned runs, unless it has a lease, and counted
      otherwise. */
  lemma UnknownRun(s: State, run: RunId, t: TopicId, station: nat, v: Version, deepening: bool, now: Time, e: EpisodeId)
    requires run !in s.runs && v != Unset
    ensures var o := Accept(s, t, run, station, v, true, deepening, now, e);
            if CountOr0(s.pruned, t) > 0 && LeaseOf(s, t, run).None? then o == Refused(RevisionConflict)
            else
              && o.Done?
              && o.state.history.counted == s.history.counted + [Count(t, run, TopicOf(s.topics, t).completed + 1)]
  {
  }

  /** So some run of the controller counts the same lease's completion for two topics. */
  lemma RecountedElsewhere(now: Time) returns (s: State, run: RunId)
    requires hide *; true
    ensures Reachable(s) && PrunedAndCounted(s, run)
    ensures var o := Accept(s, 2, run, 1, Unknown, true, false, now, 0);
            o.Done? && o.state.history.counted == s.history.counted
              + [Count(2, run, TopicOf(s.topics, 2).completed + 1)]
  {
    hide Reached, Reachable, Accept;
    s, run := PrunedRun();
    ReachedReachable(s);
    UnknownRun(s, run, 2, 1, Unknown, false, now, 0);
  }

  // ---------- One request id, two payloads ----------

  /** The intent transaction looks at decisions, not at intents: it replaces an undecided intent by one of another
      payload exactly when that payload would be accepted under a new request id. The first review then stays held with
      no intent left to decide it. */
  lemma IntentReplacedIff(s: State, r: RequestId, p: Payload, bundle: Option<Bundle>)
    requires hide Good; true
    requires Good(s) && Undecided(s.intents, s.decisions, r)
    ensures var o := DecisionIntent(s, r, p, bundle);
            && (o.Done? <==> IntentRefusal(s, p, bundle).None?)
            && (o.Done? ==>
                  var e := s.intents[r].payload.episode;
                  && p != s.intents[r].payload && o.state.intents[r].payload == p
                  && (r, s.intents[r].payload) in o.state.history.replaced
                  && e in o.state.episodes && o.state.episodes[e].state in {Publishing, Parked}
                  && NoIntent(o.state.intents, o.state.decisions, e))
  {
    hide LedgerGood, TriggerInv, CadenceInv, BudgetsInv, RunnerInv, ReviewedInv, ReferenceInv, AllowanceInv,
      ProposalInv;
    assert IntentPlaced(s.episodes, s.proposals, s.intents[r]);
    var o := DecisionIntent(s, r, p, bundle);
    if o.Done? {
      var e := s.intents[r].payload.episode;
      assert p.episode != e;
      OnlyIntentGone(s, o.state.intents, r, e);
    }
  }

  lemma OnlyIntentGone(s: State, intents: map<RequestId, Intent>, r: RequestId, e: EpisodeId)
    requires hide Good; true
    requires Good(s) && Undecided(s.intents, s.decisions, r) && e == s.intents[r].payload.episode
    requires r in intents && intents == s.intents[r := intents[r]] && intents[r].payload.episode != e
    ensures NoIntent(intents, s.decisions, e)
  {
    hide LedgerGood;
    forall q | Undecided(intents, s.decisions, q) ensures intents[q].payload.episode != e {
      if q != r { assert Undecided(s.intents, s.decisions, q); }
    }
  }

  /** Some run of the controller has such an intent, and a payload that replaces it. */
  lemma IntentReplaced() returns (s: State, r: RequestId, p: Payload)
    requires hide Reachable; true
    ensures Reachable(s) && Undecided(s.intents, s.decisions, r) && p != s.intents[r].payload
    ensures var o := DecisionIntent(s, r, p, None);
            && o.Done? && o.state.intents[r].payload == p && (r, s.intents[r].payload) in o.state.history.replaced
            && 10 in o.state.episodes && o.state.episodes[10].state in {Publishing, Parked}
            && NoIntent(o.state.intents, o.state.decisions, 10)
  {
    hide *;
    s := FirstIntended();
    r, p := 5, Rejection(s.revision, 2, 20, 200);
    RejectionHolds(s, 2, 20, 200, None);
    ReachableGood(s);
    IntentReplacedIff(s, r, p, None);
  }

  lemma FirstIntended() returns (s: State)
    requires hide Reachable; true
    ensures Reachable(s) && Undecided(s.intents, s.decisions, 5) && s.intents[5].payload.episode == 10
    ensures 20 in s.episodes && s.episodes[20].state == Awaiting && s.episodes[20].topic == 2 && 200 in s.proposals
            && s.proposals[200] == Pending(200, 20, 2)
  {
    hide *;
    var s0 := TwoAwaiting();
    var p := Rejection(s0.revision, 1, 10, 100);
    FirstIntentIs(s0, p);
    ReachedReachable(s0);
    ReachableStep(s0, Intending(5, p, None));
    s := Apply(s0, Intending(5, p, None));
    ApplyIs(s0, Intending(5, p, None));
    AfterIs(s0, DecisionIntent(s0, 5, p, None));
    CommitFrame(s0, DecisionIntent(s0, 5, p, None).state);
    StillIntended(DecisionIntent(s0, 5, p, None).state, s);
  }

  lemma StillIntended(s: State, s': State)
    requires Undecided(s.intents, s.decisions, 5) && s' == s.(revision := s'.revision)
    ensures Undecided(s'.intents, s'.decisions, 5)
  {
  }

  lemma FirstIntentIs(s: State, p: Payload)
    requires p == Rejection(s.revision, 1, 10, 100) && s.decisions == map[]
    requires 10 in s.episodes && s.episodes[10].state == Awaiting && s.episodes[10].topic == 1
    requires 20 in s.episodes && s.episodes[20].state == Awaiting && s.episodes[20].topic == 2
    requires s.proposals == map[100 := Pending(100, 10, 1), 200 := Pending(200, 20, 2)]
    ensures Allowed(s, Intending(5, p, None))
    ensures var o := DecisionIntent(s, 5, p, None);
            && o.Done? && Undecided(o.state.intents, o.state.decisions, 5) && 5 in o.state.intents
            && o.state.intents[5].payload.episode == 10
            && 20 in o.state.episodes && o.state.episodes[20] == s.episodes[20] && o.state.proposals == s.proposals
  {
    RejectionHolds(s, 1, 10, 100, None);
    hide IntentRefusal;
  }

  // ---------- Orphan parking ----------

  /** A run of the controller in which a checkpoint's report cleared its topic and its lease was not finalized before a
      restart: parking that orphan leaves the topic needing attention with no review that would say why. */
  lemma OrphanPartsMirror(now: Time) returns (s: State, l: Lease)
    requires hide *; true
    ensures Reachable(s) && |s.seats| == MAX_STATIONS && Mirrored(s.topics) && Allowed(s, Orphaning(l, now))
    ensures var o := Apply(s, Orphaning(l, now));
            !Mirrored(o.topics) && forall e | e in o.episodes :: !Open(o.episodes[e].state)
  {
    hide *;
    s, l := ClearedReview();
    ReachedReachable(s);
    ReachableGood(s);
    OrphaningIs(s, l, now);
    StepMirrorsIff(s, Orphaning(l, now));
    OrphanOpensNothing(s, l, now);
  }

  lemma OrphaningIs(s: State, l: Lease, now: Time)
    requires hide Apply, Allowed; true
    requires |s.seats| == MAX_STATIONS && s.seats[0].current == Some(l) && l.station == 1 && l.kind == Checkpoint
    requires l.topic in s.topics && s.topics[l.topic].active.None?
    ensures SitsAt(s, l) && Allowed(s, Orphaning(l, now)) && Unattended(s, Orphaning(l, now))
    ensures Apply(s, Orphaning(l, now)) == Commit(s, ParkOrphan(s, l, now))
  {
    hide ParkOrphan, Accept, FinishCheckpoint, Reconcile, StallCheckpoint;
    ApplyIs(s, Orphaning(l, now));
  }

  lemma OrphanOpensNothing(s: State, l: Lease, now: Time)
    requires SitsAt(s, l) && l.topic in s.topics && s.topics[l.topic].active.None?
    ensures Commit(s, ParkOrphan(s, l, now)).episodes == s.episodes
  {
    var t := s.(seats := Vacated(s.seats, l.station - 1));
    RedealOpensNothing(s, t, l, now);
    OrphanRedeals(s, l, now);
    OrphanKeepsEpisodes(s, l, now);
    CommitEpisodes(s, ParkOrphan(s, l, now));
  }

  lemma OrphanRedeals(s: State, l: Lease, now: Time)
    requires SitsAt(s, l)
    ensures Vacancy(s, l, now) == Reconcile(Sidelined(s.(seats := Vacated(s.seats, l.station - 1)), l.topic, l.kind),
            now)
  {
    hide Reconcile;
  }

  lemma OrphanKeepsEpisodes(s: State, l: Lease, now: Time)
    ensures ParkOrphan(s, l, now).episodes == Vacancy(s, l, now).episodes
  {
  }

  lemma RedealOpensNothing(s: State, t: State, l: Lease, now: Time)
    requires t.topics == s.topics && t.episodes == s.episodes && l.topic in s.topics && s.topics[l.topic].active.None?
    ensures Reconcile(Sidelined(t, l.topic, l.kind), now).episodes == s.episodes
  {
    SidelineOpensNothing(t, l.topic, l.kind);
    Dealing.ReconcileFrame(Sidelined(t, l.topic, l.kind), now);
  }

  lemma SidelineOpensNothing(s: State, t: TopicId, kind: Kind)
    requires t in s.topics && s.topics[t].active.None?
    ensures Sidelined(s, t, kind).episodes == s.episodes
  {
  }

  lemma CommitEpisodes(s: State, t: State)
    ensures Commit(s, t).episodes == t.episodes
  {
  }
}
