/** Every controller step keeps the review invariants. */
module ReviewSteps {
  import opened Common
  import opened ControlRecords
  import opened Scheduler
  import opened Checkpoints
  import opened Episodes
  import opened Ledger
  import opened Reviews
  import Compaction
  import Dealing

  // ---------- Scheduling ----------

  lemma ReconcileKeepsReviews(s: State, now: Time)
    requires ReviewGood(s)
    ensures ReviewGood(Reconcile(s, now)) && (Mirrored(s.topics) ==> Mirrored(Reconcile(s, now).topics))
  {
    hide ReviewGood, Reconcile;
    Dealing.ReconcileFrame(s, now);
    SameLeasesViews(Reconcile(s, now).seats, s.seats);
    forall t ensures SameFacts(TopicOf(s.topics, t), TopicOf(Reconcile(s, now).topics, t)) {
      assert TopicOf(Reconcile(s, now).topics, t) == TopicOf(s.topics, t);
    }
    QuietKeeps(s, Reconcile(s, now));
  }

  lemma CompactKeepsReviews(s: State)
    requires ReviewGood(s)
    ensures ReviewGood(Compact(s))
  {
    hide ReviewGood;
    forall r | r in Referenced(s.episodes) && r in s.runs ensures r in Compact(s).runs {
      Compaction.CompactKeeps(s, r);
    }
    QuietKeeps(s, Compact(s));
  }

  lemma RetryKeepsFacts(topics: map<TopicId, Topic>, t: TopicId, retry: Option<Time>)
    ensures SameTopicFacts(topics, WithRetry(topics, t, retry))
  {
  }

  lemma ReleaseIsQuiet(s: State, k: nat, now: Time, pacing: Option<Time>, retry: Option<Time>)
    requires k < |s.seats| && s.seats[k].current.Some?
    ensures QuietStep(s, Release(s, k, now, pacing, retry))
  {
    var s' := Release(s, k, now, pacing, retry);
    RetryKeepsFacts(s.topics, s.seats[k].current.value.topic, retry);
    SeatUpdateViews(s.seats, k, s'.seats[k]);
    assert forall r | r in s.runs :: r in s'.runs;
  }

  lemma ReleaseKeepsReviews(s: State, k: nat, now: Time, pacing: Option<Time>, retry: Option<Time>)
    requires hide *; true
    requires ReviewGood(s) && k < |s.seats| && s.seats[k].current.Some?
    ensures ReviewGood(Release(s, k, now, pacing, retry))
    ensures Mirrored(s.topics) ==> Mirrored(Release(s, k, now, pacing, retry).topics)
  {
    hide *;
    ReleaseIsQuiet(s, k, now, pacing, retry);
    QuietKeeps(s, Release(s, k, now, pacing, retry));
  }

  lemma FinalizeKeepsReviews(s: State, station: nat, lease: RunId, now: Time, pacing: Option<Time>, retry: Option<Time>)
    requires hide *; true
    requires ReviewGood(s) && |s.seats| == MAX_STATIONS
    ensures var o := Finalize(s, station, lease, now, pacing, retry);
            o.Done? ==> ReviewGood(o.state) && (Mirrored(s.topics) ==> Mirrored(o.state.topics))
  {
    hide ReviewGood, SeatAfter;
    if Finalize(s, station, lease, now, pacing, retry).Done? {
      var s1 := Release(s, station - 1, now, pacing, retry);
      ReleaseKeepsReviews(s, station - 1, now, pacing, retry);
      CompactKeepsReviews(s1);
      ReconcileKeepsReviews(Compact(s1), now);
    }
  }

  lemma ConfirmKeepsReviews(s: State, station: nat, lease: RunId)
    requires hide *; true
    requires ReviewGood(s) && |s.seats| == MAX_STATIONS
    ensures var o := ConfirmLaunch(s, station, lease); o.Done? ==> ReviewGood(o.state)
  {
    hide ReviewGood;
    var o := ConfirmLaunch(s, station, lease);
    if o.Done? {
      SeatUpdateViews(s.seats, station - 1, o.state.seats[station - 1]);
      QuietKeeps(s, o.state);
    }
  }

  // ---------- Claiming ----------

  /** What a claim mints fits the reviews: research only where no review is open, a checkpoint run only
      where one is due. */
  lemma MintFits(s: State, station: nat, now: Time, uuid: RunId)
    requires EpisodeInv(s.topics, s.episodes) && |s.seats| == MAX_STATIONS
    requires Claim(s, station, now, uuid).Done? && Claim(s, station, now, uuid).value.Minted?
    ensures var l := Claim(s, station, now, uuid).value.lease;
            var a := TopicOf(s.topics, l.topic).active;
            if l.kind == Research then a.None?
            else a.Some? && a.value in s.episodes && s.episodes[a.value].state in {Due, InReview, RetryWait}
  {
    var r := Reconcile(s, now);
    var d := r.seats[station - 1].desired.value;
    Dealing.ReconcileFrame(s, now);
    assert !s.paused && !s.stopping;
    Dealing.DealtIsRunnable(s, now, station - 1);
    if d.topic in s.topics { assert TopicPlaced(s.episodes, d.topic, s.topics[d.topic]); }
  }

  lemma MintKeepsReviews(s: State, station: nat, now: Time, uuid: RunId, d: Dealt)
    requires hide *; true
    requires ReviewGood(s) && ValidStation(station) && |s.seats| == MAX_STATIONS && uuid !in s.history.minted
    requires Served(NewLease(s, station, now, uuid, d), s.topics, s.episodes)
    ensures ReviewGood(MintLease(s, station, now, uuid, d))
  {
    var s' := MintLease(s, station, now, uuid, d);
    SeatUpdateViews(s.seats, station - 1, s'.seats[station - 1]);
    var ls, ls' := Leases(s.seats), Leases(s'.seats);
    forall k | 0 <= k < |ls'| && ls'[k].Some?
      && ls'[k].value.id !in s.history.concluded ensures Served(ls'[k].value, s.topics, s.episodes) {
      if k != station - 1 { assert ls[k] == ls'[k]; }
    }
    assert RunnerInv(ls', s'.history.concluded, s'.topics, s'.episodes);
  }

  lemma MintedFits(s: State, station: nat, now: Time, uuid: RunId) returns (d: Dealt)
    requires EpisodeInv(s.topics, s.episodes) && |s.seats| == MAX_STATIONS
    requires Claim(s, station, now, uuid).Done? && Claim(s, station, now, uuid).value.Minted?
    ensures ValidStation(station) && Claim(s, station, now, uuid).state ==
            MintLease(Reconcile(s, now), station, now, uuid, d)
    ensures Served(NewLease(Reconcile(s, now), station, now, uuid, d), Reconcile(s, now).topics, s.episodes)
    ensures Reconcile(s, now).episodes == s.episodes && Reconcile(s, now).history == s.history
  {
    hide Reconcile;
    var r := Reconcile(s, now);
    d := r.seats[station - 1].desired.value;
    MintFits(s, station, now, uuid);
    Dealing.ReconcileFrame(s, now);
    assert TopicOf(r.topics, d.topic) == TopicOf(s.topics, d.topic);
  }

  lemma ClaimKeepsReviews(s: State, station: nat, now: Time, uuid: RunId)
    requires hide *; true
    requires ReviewGood(s) && |s.seats| == MAX_STATIONS && uuid !in s.history.minted
    ensures var o := Claim(s, station, now, uuid);
            o.Done? ==> ReviewGood(o.state) && (Mirrored(s.topics) ==> Mirrored(o.state.topics))
  {
    hide Reconcile;
    var o := Claim(s, station, now, uuid);
    ReconcileKeepsReviews(s, now);
    if o.Done? && o.value.Minted? {
      var d := MintedFits(s, station, now, uuid);
      MintKeepsReviews(Reconcile(s, now), station, now, uuid, d);
    }
  }

  // ---------- Triggers ----------

  lemma SameBudget(a: Episode, b: Episode)
    requires DelegateInv(a)
    requires b.invocations == a.invocations && b.launches == a.launches && b.refunds == a.refunds
    requires b.exchanges == a.exchanges && b.phase == a.phase
    ensures DelegateInv(b)
  {
    assert UnrefundedResponses(b) == UnrefundedResponses(a);
    assert Refunded(b) == Refunded(a) && InfraEnded(b) == InfraEnded(a);
    assert HasRole(b, Response) <==> HasRole(a, Response);
    assert HasRole(b, Assessment) <==> HasRole(a, Assessment);
    assert Successful(b, Counter) <==> Successful(a, Counter);
    assert Successful(b, Response) <==> Successful(a, Response);
  }

  lemma TripKeepsBudgets(topics: map<TopicId, Topic>, episodes: map<EpisodeId, Episode>, t: TopicId,
                         keys: seq<TriggerKey>, uuid: EpisodeId)
    requires BudgetsInv(episodes) && t in topics
    ensures BudgetsInv(TrippedEpisodes(topics, episodes, t, keys, uuid))
  {
    NewEpisodeBudget(t, topics[t], keys);
    if HasOpenEpisode(topics, episodes, t) {
      var ep := episodes[topics[t].active.value];
      SameBudget(ep, ep.(triggers := AppendNew(ep.triggers, keys)));
    }
  }

  lemma TripKeepsProposals(topics: map<TopicId, Topic>, episodes: map<EpisodeId, Episode>, t: TopicId,
                           keys: seq<TriggerKey>, uuid: EpisodeId, proposals: map<ProposalId, Proposal>)
    requires ProposalInv(episodes, proposals) && t in topics && uuid !in episodes
    ensures ProposalInv(TrippedEpisodes(topics, episodes, t, keys, uuid), proposals)
  {
    var episodes' := TrippedEpisodes(topics, episodes, t, keys, uuid);
    forall p | p in proposals ensures ProposalPlaced(episodes', proposals[p]) {
      assert ProposalPlaced(episodes, proposals[p]);
    }
  }

  lemma TripKeepsReviewed(topics: map<TopicId, Topic>, episodes: map<EpisodeId, Episode>, t: TopicId,
                          keys: seq<TriggerKey>, uuid: EpisodeId)
    requires ReviewedInv(episodes) && t in topics && uuid !in episodes
    ensures ReviewedInv(TrippedEpisodes(topics, episodes, t, keys, uuid))
  {
    var episodes' := TrippedEpisodes(topics, episodes, t, keys, uuid);
    forall e | e in episodes' ensures ReviewedProperly(episodes', episodes'[e]) {
      if e in episodes { assert ReviewedProperly(episodes, episodes[e]); }
    }
  }

  lemma TripKeepsIntents(topics: map<TopicId, Topic>, episodes: map<EpisodeId, Episode>, t: TopicId,
                         keys: seq<TriggerKey>, uuid: EpisodeId, proposals: map<ProposalId, Proposal>,
                         intents: map<RequestId, Intent>, decisions: map<RequestId, Decision>,
                         replaced: set<(RequestId, Payload)>)
    requires IntentInv(episodes, proposals, intents, decisions, replaced) && t in topics && uuid !in episodes
    ensures IntentInv(TrippedEpisodes(topics, episodes, t, keys, uuid), proposals, intents, decisions, replaced)
  {
    HeldKeepsIntents(episodes, TrippedEpisodes(topics, episodes, t, keys, uuid), proposals, proposals, intents,
      decisions, replaced);
  }

  lemma TripKeepsReferences(topics: map<TopicId, Topic>, episodes: map<EpisodeId, Episode>, t: TopicId,
                            keys: seq<TriggerKey>, uuid: EpisodeId, runs: map<RunId, Run>, runs': map<RunId, Run>)
    requires ReferenceInv(episodes, runs) && t in topics && runs.Keys <= runs'.Keys
    ensures ReferenceInv(TrippedEpisodes(topics, episodes, t, keys, uuid), runs')
  {
    var episodes' := TrippedEpisodes(topics, episodes, t, keys, uuid);
    forall e, r | e in episodes' && r in Mentions(episodes'[e]) ensures r in runs' {
      assert e in episodes && r in Mentions(episodes[e]);
    }
  }

  lemma TripKeepsRunners(topics: map<TopicId, Topic>, episodes: map<EpisodeId, Episode>, t: TopicId,
                         keys: seq<TriggerKey>, uuid: EpisodeId, ls: seq<Option<Lease>>, concluded: set<RunId>)
    requires EpisodeInv(topics, episodes) && RunnerInv(ls, concluded, topics, episodes) && t in topics
             && uuid !in episodes
    ensures RunnerInv(ls, concluded, TrippedTopics(topics, episodes, t, keys, uuid),
            TrippedEpisodes(topics, episodes, t, keys, uuid))
  {
    var topics', episodes' := TrippedTopics(topics, episodes, t, keys, uuid),
      TrippedEpisodes(topics, episodes, t, keys, uuid);
    assert TopicPlaced(episodes, t, topics[t]);
    forall k | 0 <= k < |ls| && ls[k].Some? && ls[k].value.id !in concluded ensures Served(ls[k].value, topics',
      episodes') {
      assert Served(ls[k].value, topics, episodes);
    }
  }

  /** Counts and deepening records only grow. */
  ghost predicate FactsGrow(a: map<TopicId, Topic>, b: map<TopicId, Topic>) {
    forall t :: TopicOf(a, t).completed <= TopicOf(b, t).completed
      && Marked(TopicOf(a, t)) <= Marked(TopicOf(b, t))
  }

  /** Every new mark comes with its key. */
  ghost predicate MarksFrom(a: map<TopicId, Topic>, b: map<TopicId, Topic>, keys: seq<TriggerKey>) {
    forall t, v | v in Marked(TopicOf(b, t)) && v !in Marked(TopicOf(a, t)) ::
      exists k | k in keys :: k.kind == Deepening && k.topic == t && k.inventory == v
  }

  predicate FitsTopic(k: TriggerKey, t: TopicId, before: Topic, after: Topic) {
    && k.topic == t && k.ordinal <= after.completed
    && (k.kind == Deepening ==> k.inventory in Marked(after) && k.inventory !in before.deepening)
  }

  predicate OneDeepening(keys: seq<TriggerKey>) {
    forall j, k | j in keys && k in keys && j.kind == Deepening && k.kind == Deepening :: j == k
  }

  /** The keys fit their topic: they are new where they must be, and their counts are reached. */
  ghost predicate Fitting(keys: seq<TriggerKey>, t: TopicId, before: Topic, after: Topic) {
    OneDeepening(keys) && forall k | k in keys :: FitsTopic(k, t, before, after)
  }

  /** The target episode belongs to the topic and lists the keys; every other record is as before. */
  ghost predicate Assigned(episodes: map<EpisodeId, Episode>, episodes': map<EpisodeId, Episode>, t: TopicId,
                           keys: seq<TriggerKey>, e: EpisodeId) {
    && e in episodes' && episodes'[e].topic == t
    && (forall k :: k in episodes'[e].triggers <==> k in keys || (e in episodes && k in episodes[e].triggers))
    && episodes'.Keys == episodes.Keys + {e} && (e in episodes ==> episodes[e].topic == t)
    && (forall d | d in episodes && d != e :: episodes'[d] == episodes[d])
  }

  lemma TripAssigns(topics: map<TopicId, Topic>, episodes: map<EpisodeId, Episode>, t: TopicId, keys: seq<TriggerKey>,
                    uuid: EpisodeId)
    requires EpisodeInv(topics, episodes) && t in topics && uuid !in episodes && keys != []
    ensures Assigned(episodes, TrippedEpisodes(topics, episodes, t, keys, uuid), t, keys,
            TargetEpisode(topics, episodes, t, uuid))
  {
    assert TopicPlaced(episodes, t, topics[t]);
  }

  lemma AssignPlaces(topics: map<TopicId, Topic>, topics': map<TopicId, Topic>, triggers: map<TriggerKey, Trigger>,
                     episodes: map<EpisodeId, Episode>, episodes': map<EpisodeId, Episode>, t: TopicId,
                     keys: seq<TriggerKey>, e: EpisodeId)
    requires TriggerInv(topics, triggers, episodes) && Assigned(episodes, episodes', t, keys, e)
    requires FactsGrow(topics, topics') && Fitting(keys, t, TopicOf(topics, t), TopicOf(topics', t))
    ensures forall k | k in AssignTriggers(triggers, keys, e) ::
            TriggerPlaced(AssignTriggers(triggers, keys, e), topics', episodes', k)
  {
    var triggers' := AssignTriggers(triggers, keys, e);
    forall k | k in triggers' ensures TriggerPlaced(triggers', topics', episodes', k) {
      if k in keys {
        assert FitsTopic(k, t, TopicOf(topics, t), TopicOf(topics', t));
      } else {
        assert TriggerPlaced(triggers, topics, episodes, k);
      }
    }
  }

  lemma AssignRecords(topics: map<TopicId, Topic>, after: Topic, triggers: map<TriggerKey, Trigger>,
                      episodes: map<EpisodeId, Episode>, episodes': map<EpisodeId, Episode>, t: TopicId,
                      keys: seq<TriggerKey>, e: EpisodeId)
    requires TriggerInv(topics, triggers, episodes) && Assigned(episodes, episodes', t, keys, e)
    requires Fitting(keys, t, TopicOf(topics, t), after)
    ensures forall d, k | d in episodes' && k in episodes'[d].triggers ::
            k in AssignTriggers(triggers, keys, e) && k.topic == episodes'[d].topic
  {
    forall d, k | d in episodes' && k in episodes'[d].triggers
      ensures k in AssignTriggers(triggers, keys, e) && k.topic == episodes'[d].topic
    {
      if k in keys && d == e { assert FitsTopic(k, t, TopicOf(topics, t), after); }
    }
  }

  lemma AssignOnce(topics: map<TopicId, Topic>, after: Topic, triggers: map<TriggerKey, Trigger>,
                   episodes: map<EpisodeId, Episode>, t: TopicId, keys: seq<TriggerKey>, e: EpisodeId)
    requires TriggerInv(topics, triggers, episodes) && Fitting(keys, t, TopicOf(topics, t), after)
    ensures var ts := AssignTriggers(triggers, keys, e);
            forall j, k | j in ts && k in ts && j.kind == Deepening && k.kind == Deepening && j.topic == k.topic
              && j.inventory == k.inventory :: j == k
  {
    var ts := AssignTriggers(triggers, keys, e);
    forall j, k | j in ts && k in ts && j.kind == Deepening && k.kind == Deepening && j.topic == k.topic
      && j.inventory == k.inventory
      ensures j == k
    {
      if j in keys { assert FitsTopic(j, t, TopicOf(topics, t), after); } else {
        assert TriggerPlaced(triggers, topics, episodes, j);
      }
      if k in keys { assert FitsTopic(k, t, TopicOf(topics, t), after); } else {
        assert TriggerPlaced(triggers, topics, episodes, k);
      }
    }
  }

  lemma AssignMarks(topics: map<TopicId, Topic>, topics': map<TopicId, Topic>, triggers: map<TriggerKey, Trigger>,
                    keys: seq<TriggerKey>, e: EpisodeId)
    requires MarksRecorded(topics, triggers) && MarksFrom(topics, topics', keys)
    ensures MarksRecorded(topics', AssignTriggers(triggers, keys, e))
  {
    var ts := AssignTriggers(triggers, keys, e);
    forall t, v | v in Marked(TopicOf(topics', t)) ensures Deepened(ts, t, v) {
      if v in Marked(TopicOf(topics, t)) {
        assert Deepened(triggers, t, v);
        var k :| k in triggers && k.kind == Deepening && k.topic == t && k.inventory == v;
        assert k in ts;
      } else {
        var k :| k in keys && k.kind == Deepening && k.topic == t && k.inventory == v;
        assert k in ts;
      }
    }
  }

  lemma TripKeepsTriggers(topics: map<TopicId, Topic>, topics1: map<TopicId, Topic>, triggers: map<TriggerKey, Trigger>,
                          episodes: map<EpisodeId, Episode>, t: TopicId, keys: seq<TriggerKey>, uuid: EpisodeId)
    requires TriggerInv(topics, triggers, episodes) && EpisodeInv(topics1, episodes) && t in topics1
             && uuid !in episodes
    requires FactsGrow(topics, topics1) && Fitting(keys, t, TopicOf(topics, t), topics1[t]) && keys != []
             && MarksFrom(topics, topics1, keys)
    ensures TriggerInv(TrippedTopics(topics1, episodes, t, keys, uuid),
                       AssignTriggers(triggers, keys, TargetEpisode(topics1, episodes, t, uuid)),
                       TrippedEpisodes(topics1, episodes, t, keys, uuid))
  {
    var e := TargetEpisode(topics1, episodes, t, uuid);
    var topics', episodes' := TrippedTopics(topics1, episodes, t, keys, uuid),
      TrippedEpisodes(topics1, episodes, t, keys, uuid);
    TripAssigns(topics1, episodes, t, keys, uuid);
    assert FactsGrow(topics, topics');
    AssignPlaces(topics, topics', triggers, episodes, episodes', t, keys, e);
    AssignRecords(topics, topics1[t], triggers, episodes, episodes', t, keys, e);
    AssignOnce(topics, topics1[t], triggers, episodes, t, keys, e);
    AssignMarks(topics, topics', triggers, keys, e);
  }

  lemma NextPeriod(n: nat, every: nat)
    requires every > 0
    ensures (n + 1) / every == n / every + (if (n + 1) % every == 0 then 1 else 0)
  {
    var q, r := n / every, n % every;
    assert n == q * every + r;
    if r + 1 == every {
      assert n + 1 == (q + 1) * every;
      DivMod(n + 1, every, q + 1, 0);
    } else {
      DivMod(n + 1, every, q, r + 1);
    }
  }

  lemma FarFromZero(x: int, d: int)
    requires d > 0 && x != 0
    ensures x * d >= d || x * d <= -d
  {
  }

  lemma DivMod(n: nat, d: nat, q: nat, r: nat)
    requires d > 0 && r < d && n == q * d + r
    ensures n / d == q && n % d == r
  {
    var x := n / d - q;
    assert x * d == r - n % d;
    if x != 0 { FarFromZero(x, d); }
  }

  /** The cadence triggers the keys add. */
  function CadenceKeys(keys: seq<TriggerKey>, t: TopicId): set<TriggerKey> {
    set k | k in keys && k.kind == Cadence && k.topic == t
  }

  lemma AssignCadence(triggers: map<TriggerKey, Trigger>, keys: seq<TriggerKey>, e: EpisodeId, q: TopicId)
    ensures CadenceTriggers(AssignTriggers(triggers, keys, e), q) == CadenceTriggers(triggers, q) + CadenceKeys(keys, q)
  {
  }

  lemma CadenceKeysOf(p: Policy, topic: Topic, n: nat, t: TopicId, v: Version, deepening: bool)
    ensures CadenceKeys(CompletionTriggers(p, t, topic, n, deepening, v), t) ==
              if CadenceDue(p, n) then {TriggerKey(t, Cadence, n, v)} else {}
    ensures forall q | q != t :: CadenceKeys(CompletionTriggers(p, t, topic, n, deepening, v), q) == {}
  {
  }

  lemma CadenceStep(p: Policy, n: nat)
    ensures CadenceCount(p, n + 1) == CadenceCount(p, n) + (if CadenceDue(p, n + 1) then 1 else 0)
  {
    if p.every > 0 { NextPeriod(n, p.every); }
  }

  lemma NextCadence(p: Policy, topic: Topic, triggers: map<TriggerKey, Trigger>, t: TopicId, v: Version,
                    deepening: bool)
    requires |CadenceTriggers(triggers, t)| == CadenceCount(p, topic.completed)
    requires TriggerKey(t, Cadence, topic.completed + 1, v) !in triggers
    ensures var keys := CadenceKeys(CompletionTriggers(p, t, topic, topic.completed + 1, deepening, v), t);
            |CadenceTriggers(triggers, t) + keys| == CadenceCount(p, topic.completed + 1)
  {
    CadenceStep(p, topic.completed);
    CadenceKeysOf(p, topic, topic.completed + 1, t, v, deepening);
    var keys := CadenceKeys(CompletionTriggers(p, t, topic, topic.completed + 1, deepening, v), t);
    if keys == {} { assert CadenceTriggers(triggers, t) + keys == CadenceTriggers(triggers, t); }
  }

  lemma AssignedCadence(triggers: map<TriggerKey, Trigger>, keys: seq<TriggerKey>, e: EpisodeId, q: TopicId,
                        added: set<TriggerKey>, c: nat)
    requires added == CadenceKeys(keys, q) && |CadenceTriggers(triggers, q) + added| == c
    ensures |CadenceTriggers(if keys == [] then triggers else AssignTriggers(triggers, keys, e), q)| == c
  {
    AssignCadence(triggers, keys, e, q);
    if keys == [] { assert CadenceTriggers(triggers, q) + added == CadenceTriggers(triggers, q); }
  }

  lemma CountKeepsCadence(p: Policy, topics: map<TopicId, Topic>, topics': map<TopicId, Topic>,
                          triggers: map<TriggerKey, Trigger>, t: TopicId, v: Version, deepening: bool, e: EpisodeId)
    requires CadenceInv(p, topics, triggers)
    requires TriggerKey(t, Cadence, TopicOf(topics, t).completed + 1, v) !in triggers
    requires TopicOf(topics', t).completed == TopicOf(topics, t).completed + 1
    requires forall q | q != t :: TopicOf(topics', q).completed == TopicOf(topics, q).completed
    ensures var keys := CompletionTriggers(p, t, TopicOf(topics, t), TopicOf(topics, t).completed + 1, deepening, v);
            CadenceInv(p, topics', if keys == [] then triggers else AssignTriggers(triggers, keys, e))
  {
    var topic := TopicOf(topics, t);
    var keys := CompletionTriggers(p, t, topic, topic.completed + 1, deepening, v);
    var triggers' := if keys == [] then triggers else AssignTriggers(triggers, keys, e);
    CadenceKeysOf(p, topic, topic.completed + 1, t, v, deepening);
    forall q ensures |CadenceTriggers(triggers', q)| == CadenceCount(p, TopicOf(topics', q).completed) {
      assert |CadenceTriggers(triggers, q)| == CadenceCount(p, TopicOf(topics, q).completed);
      if q == t {
        NextCadence(p, topic, triggers, t, v, deepening);
      } else {
        assert CadenceTriggers(triggers, q) + {} == CadenceTriggers(triggers, q);
      }
      AssignedCadence(triggers, keys, e, q, CadenceKeys(keys, q), CadenceCount(p, TopicOf(topics', q).completed));
    }
  }

  // ---------- Accounting and stalls ----------

  /** Topic records move to `moved`, then the keys trip a review of the topic. */
  ghost predicate TripStep(s: State, o: State, moved: map<TopicId, Topic>, t: TopicId, keys: seq<TriggerKey>,
                           uuid: EpisodeId) {
    && t in moved
    && o.topics == TrippedTopics(moved, s.episodes, t, keys, uuid)
    && o.episodes == TrippedEpisodes(moved, s.episodes, t, keys, uuid)
    && o.triggers == (if keys == [] then s.triggers
         else AssignTriggers(s.triggers, keys, TargetEpisode(moved, s.episodes, t, uuid)))
    && o.proposals == s.proposals && o.intents == s.intents && o.decisions == s.decisions && o.policy == s.policy
    && o.seats == s.seats
    && o.history.issued == s.history.issued && o.history.concluded == s.history.concluded
    && o.history.minted == s.history.minted
    && o.history.steady == s.history.steady && o.history.replaced == s.history.replaced
    && s.runs.Keys <= o.runs.Keys
  }

  ghost predicate SameAllowances(a: map<TopicId, Topic>, b: map<TopicId, Topic>) {
    forall t :: TopicOf(a, t).allowance == TopicOf(b, t).allowance
  }

  ghost predicate SameActive(a: map<TopicId, Topic>, b: map<TopicId, Topic>) {
    forall t :: TopicOf(a, t).active == TopicOf(b, t).active
  }

  lemma TripKeepsAllowances(topics: map<TopicId, Topic>, moved: map<TopicId, Topic>, episodes: map<EpisodeId, Episode>,
                            t: TopicId, keys: seq<TriggerKey>, uuid: EpisodeId, issued: map<TopicId, nat>)
    requires AllowanceInv(topics, issued) && SameAllowances(topics, moved) && t in moved
    ensures AllowanceInv(TrippedTopics(moved, episodes, t, keys, uuid), issued)
  {
    var topics' := TrippedTopics(moved, episodes, t, keys, uuid);
    forall q ensures TopicOf(topics', q).allowance + CountOr0(issued, q) == 2 {
      assert TopicOf(topics, q).allowance == TopicOf(moved, q).allowance;
    }
  }

  /** The episodes side of a trip. */
  lemma TripKeepsEpisodes(s: State, o: State, moved: map<TopicId, Topic>, t: TopicId, keys: seq<TriggerKey>,
                          uuid: EpisodeId)
    requires ReviewGood(s) && TripStep(s, o, moved, t, keys, uuid) && uuid !in s.episodes
    ensures BudgetsInv(o.episodes) && ProposalInv(o.episodes, o.proposals) && ReviewedInv(o.episodes)
    ensures IntentInv(o.episodes, o.proposals, o.intents, o.decisions, o.history.replaced)
            && ReferenceInv(o.episodes, o.runs)
  {
    TripKeepsBudgets(moved, s.episodes, t, keys, uuid);
    TripKeepsProposals(moved, s.episodes, t, keys, uuid, s.proposals);
    TripKeepsReviewed(moved, s.episodes, t, keys, uuid);
    TripKeepsIntents(moved, s.episodes, t, keys, uuid, s.proposals, s.intents, s.decisions, s.history.replaced);
    TripKeepsReferences(moved, s.episodes, t, keys, uuid, s.runs, o.runs);
  }

  lemma TripKeepsReviews(s: State, o: State, moved: map<TopicId, Topic>, t: TopicId, keys: seq<TriggerKey>,
                         uuid: EpisodeId)
    requires hide ReviewGood; true
    requires ReviewGood(s) && TripStep(s, o, moved, t, keys, uuid) && uuid !in s.episodes
    requires SameReviews(s.topics, moved) && SameAllowances(s.topics, moved) && SameActive(s.topics, moved)
             && FactsGrow(s.topics, moved) && MarksFrom(s.topics, moved, keys)
    requires Fitting(keys, t, TopicOf(s.topics, t), moved[t])
             && (s.history.steady ==> CadenceInv(s.policy, moved, o.triggers))
    ensures ReviewGood(o) && (Mirrored(s.topics) ==> Mirrored(o.topics))
  {
    TripKeepsEpisodes(s, o, moved, t, keys, uuid);
    KeepTopics(s.topics, moved, s.episodes);
    TripKeepsMachine(moved, s.episodes, t, keys, uuid);
    TripKeepsAllowances(s.topics, moved, s.episodes, t, keys, uuid, s.history.issued);
    FactsKeepRunners(Leases(s.seats), s.history.concluded, s.topics, moved, s.episodes);
    TripKeepsRunners(moved, s.episodes, t, keys, uuid, Leases(s.seats), s.history.concluded);
    if keys != [] {
      TripKeepsTriggers(s.topics, moved, s.triggers, s.episodes, t, keys, uuid);
    } else {
      GrowKeepsTriggers(s.topics, moved, s.triggers, s.episodes);
    }
    if s.history.steady { TripKeepsCadence(s.policy, moved, s.episodes, t, keys, uuid, o.triggers); }
  }

  lemma TripKeepsCadence(p: Policy, topics: map<TopicId, Topic>, episodes: map<EpisodeId, Episode>, t: TopicId,
                         keys: seq<TriggerKey>, uuid: EpisodeId, triggers: map<TriggerKey, Trigger>)
    requires CadenceInv(p, topics, triggers) && t in topics
    ensures CadenceInv(p, TrippedTopics(topics, episodes, t, keys, uuid), triggers)
  {
    var topics' := TrippedTopics(topics, episodes, t, keys, uuid);
    forall q ensures |CadenceTriggers(triggers, q)| == CadenceCount(p, TopicOf(topics', q).completed) {
      assert TopicOf(topics', q).completed == TopicOf(topics, q).completed;
    }
  }

  lemma GrowKeepsTriggers(topics: map<TopicId, Topic>, topics': map<TopicId, Topic>, triggers: map<TriggerKey, Trigger>,
                          episodes: map<EpisodeId, Episode>)
    requires TriggerInv(topics, triggers, episodes) && FactsGrow(topics, topics') && MarksFrom(topics, topics', [])
    ensures TriggerInv(topics', triggers, episodes)
  {
    forall k | k in triggers ensures TriggerPlaced(triggers, topics', episodes, k) {
      assert TriggerPlaced(triggers, topics, episodes, k);
    }
  }

  lemma CountedFacts(s: State, t: TopicId, run: RunId, v: Version, deepening: bool)
    ensures var moved := CountedTopics(s, t, run, v, deepening);
            && SameReviews(s.topics, moved) && SameAllowances(s.topics, moved) && SameActive(s.topics, moved)
            && FactsGrow(s.topics, moved) && MarksFrom(s.topics, moved, CountedTriggers(s, t, v, deepening))
            && t in moved && moved[t].completed == TopicOf(s.topics, t).completed + 1
            && (forall q | q != t :: TopicOf(moved, q) == TopicOf(s.topics, q))
            && CountedTriggers(s, t, v, deepening) ==
                 CompletionTriggers(s.policy, t, TopicOf(s.topics, t), TopicOf(s.topics, t).completed + 1, deepening, v)
            && Fitting(CountedTriggers(s, t, v, deepening), t, TopicOf(s.topics, t), moved[t])
  {
    CountedFits(s, t, run, v, deepening);
    CountedSame(s, t, run, v, deepening);
    CountedMarks(s, t, run, v, deepening);
  }

  lemma CountedMarks(s: State, t: TopicId, run: RunId, v: Version, deepening: bool)
    ensures MarksFrom(s.topics, CountedTopics(s, t, run, v, deepening), CountedTriggers(s, t, v, deepening))
  {
    var topics', keys := CountedTopics(s, t, run, v, deepening), CountedTriggers(s, t, v, deepening);
    forall q, w | w in Marked(TopicOf(topics', q)) && w !in Marked(TopicOf(s.topics, q))
      ensures exists k | k in keys :: k.kind == Deepening && k.topic == q && k.inventory == w
    {
      assert q == t && w == v && DeepeningDue(s.policy, TopicOr(s.topics, t, v), deepening, v);
      assert TriggerKey(t, Deepening, TopicOr(s.topics, t, v).completed + 1, v) in keys;
    }
  }

  lemma CountedSame(s: State, t: TopicId, run: RunId, v: Version, deepening: bool)
    ensures var moved := CountedTopics(s, t, run, v, deepening);
            SameReviews(s.topics, moved) && SameAllowances(s.topics, moved) && SameActive(s.topics, moved)
              && FactsGrow(s.topics, moved)
  {
  }

  lemma CountedFits(s: State, t: TopicId, run: RunId, v: Version, deepening: bool)
    ensures var moved := CountedTopics(s, t, run, v, deepening);
            t in moved && Fitting(CountedTriggers(s, t, v, deepening), t, TopicOf(s.topics, t), moved[t])
  {
  }

  lemma OrdinalsReached(topics: map<TopicId, Topic>, triggers: map<TriggerKey, Trigger>,
                        episodes: map<EpisodeId, Episode>)
    requires TriggerInv(topics, triggers, episodes)
    ensures forall k | k in triggers :: k.ordinal <= TopicOf(topics, k.topic).completed
  {
    forall k | k in triggers ensures k.ordinal <= TopicOf(topics, k.topic).completed {
      assert TriggerPlaced(triggers, topics, episodes, k);
    }
  }

  lemma CountIsTrip(s: State, t: TopicId, run: RunId, station: nat, v: Version, deepening: bool, now: Time,
                    uuid: EpisodeId)
    ensures CountRun(s, t, run, station, v, deepening, now, uuid).Done?
    ensures TripStep(s, CountRun(s, t, run, station, v, deepening, now, uuid).state,
                     CountedTopics(s, t, run, v, deepening), t, CountedTriggers(s, t, v, deepening), uuid)
  {
  }

  lemma CountedCadence(s: State, t: TopicId, run: RunId, v: Version, deepening: bool, e: EpisodeId)
    requires CadenceInv(s.policy, s.topics, s.triggers) && TriggerInv(s.topics, s.triggers, s.episodes)
    ensures var keys := CountedTriggers(s, t, v, deepening);
            CadenceInv(s.policy, CountedTopics(s, t, run, v, deepening),
                       if keys == [] then s.triggers else AssignTriggers(s.triggers, keys, e))
  {
    CountedFacts(s, t, run, v, deepening);
    OrdinalsReached(s.topics, s.triggers, s.episodes);
    CountKeepsCadence(s.policy, s.topics, CountedTopics(s, t, run, v, deepening), s.triggers, t, v, deepening, e);
  }

  lemma CountRunKeepsReviews(s: State, t: TopicId, run: RunId, station: nat, v: Version, deepening: bool, now: Time,
                             uuid: EpisodeId)
    requires hide ReviewGood, Tallied; true
    requires ReviewGood(s) && uuid !in s.episodes
    ensures var o := CountRun(s, t, run, station, v, deepening, now, uuid).state;
            ReviewGood(o) && (Mirrored(s.topics) ==> Mirrored(o.topics))
  {
    var o := CountRun(s, t, run, station, v, deepening, now, uuid).state;
    var moved := CountedTopics(s, t, run, v, deepening);
    CountedFacts(s, t, run, v, deepening);
    if s.history.steady { CountedCadence(s, t, run, v, deepening, TargetEpisode(moved, s.episodes, t, uuid)); }
    CountIsTrip(s, t, run, station, v, deepening, now, uuid);
    TripKeepsReviews(s, o, moved, t, CountedTriggers(s, t, v, deepening), uuid);
  }

  lemma VersionKeepsFacts(topics: map<TopicId, Topic>, t: TopicId, v: Version)
    ensures var moved := topics[t := TopicOr(topics, t, v).(inventory := v)];
            && SameTopicFacts(topics, moved) && SameReviews(topics, moved) && SameAllowances(topics, moved)
            && SameActive(topics, moved) && FactsGrow(topics, moved) && MarksFrom(topics, moved, [])
            && forall q :: TopicOf(moved, q).completed == TopicOf(topics, q).completed
  {
  }

  lemma RejectIsQuiet(s: State, t: TopicId, run: RunId, station: nat, v: Version, now: Time)
    ensures QuietStep(s, RejectRun(s, t, run, station, v, now).state)
  {
    VersionKeepsFacts(s.topics, t, v);
  }

  lemma RejectRunKeepsReviews(s: State, t: TopicId, run: RunId, station: nat, v: Version, now: Time)
    requires hide ReviewGood; true
    requires ReviewGood(s)
    ensures var o := RejectRun(s, t, run, station, v, now).state;
            ReviewGood(o) && (Mirrored(s.topics) ==> Mirrored(o.topics))
  {
    hide ReviewGood;
    RejectIsQuiet(s, t, run, station, v, now);
    QuietKeeps(s, RejectRun(s, t, run, station, v, now).state);
  }

  /** Accounting, whatever it is called with, keeps the reviews. */
  lemma AcceptKeepsReviews(s: State, t: TopicId, run: RunId, station: nat, v: Version, accepted: bool, deepening: bool,
                           now: Time, uuid: EpisodeId)
    requires hide *; true
    requires ReviewGood(s) && uuid !in s.episodes
    ensures var o := Accept(s, t, run, station, v, accepted, deepening, now, uuid);
            o.Done? ==> ReviewGood(o.state) && (Mirrored(s.topics) ==> Mirrored(o.state.topics))
  {
    hide ReviewGood, CountRun;
    if accepted {
      CountRunKeepsReviews(s, t, run, station, v, deepening, now, uuid);
    } else {
      RejectRunKeepsReviews(s, t, run, station, v, now);
    }
  }

  lemma StallKeepsCadence(p: Policy, topics: map<TopicId, Topic>, topics': map<TopicId, Topic>,
                          triggers: map<TriggerKey, Trigger>, key: TriggerKey, e: EpisodeId)
    requires CadenceInv(p, topics, triggers) && key.kind == Stall
    requires forall q :: TopicOf(topics', q).completed == TopicOf(topics, q).completed
    ensures CadenceInv(p, topics', AssignTriggers(triggers, [key], e))
  {
    forall q ensures |CadenceTriggers(AssignTriggers(triggers, [key], e), q)| ==
      CadenceCount(p, TopicOf(topics', q).completed) {
      assert CadenceTriggers(triggers, q) + {} == CadenceTriggers(triggers, q);
      AssignedCadence(triggers, [key], e, q, {}, CadenceCount(p, TopicOf(topics, q).completed));
    }
  }

  function StallTopics(s: State, t: TopicId, v: Version): map<TopicId, Topic> {
    s.topics[t := TopicOr(s.topics, t, v).(inventory := v)]
  }

  lemma StallIsTrip(s: State, t: TopicId, v: Version, uuid: EpisodeId)
    requires v != Unset
    ensures StallCheckpoint(s, t, v, uuid).Done?
    ensures TripStep(s, StallCheckpoint(s, t, v, uuid).state, StallTopics(s, t, v), t, [StallKey(s, t, v)], uuid)
    ensures Fitting([StallKey(s, t, v)], t, TopicOf(s.topics, t), StallTopics(s, t, v)[t])
  {
  }

  lemma StallKeepsReviews(s: State, t: TopicId, v: Version, uuid: EpisodeId)
    requires hide *; true
    requires ReviewGood(s) && uuid !in s.episodes
    ensures var o := StallCheckpoint(s, t, v, uuid);
            o.Done? ==> ReviewGood(o.state) && (Mirrored(s.topics) ==> Mirrored(o.state.topics))
  {
    if v != Unset {
      var moved := StallTopics(s, t, v);
      StallIsTrip(s, t, v, uuid);
      VersionKeepsFacts(s.topics, t, v);
      if s.history.steady {
        StallKeepsCadence(s.policy, s.topics, moved, s.triggers, StallKey(s, t, v),
          TargetEpisode(moved, s.episodes, t, uuid));
      }
      TripKeepsReviews(s, StallCheckpoint(s, t, v, uuid).state, moved, t, [StallKey(s, t, v)], uuid);
    }
  }
}
