/** The steps of reviews leave seats, runs and counts alone; orphan parking ends its lease and its run together. */
module LedgerSteps {
  import opened Common
  import opened ControlRecords
  import opened Scheduler
  import opened Checkpoints
  import opened Ledger
  import Dealing

  // ---------- The ledger under the steps of reviews ----------

  /** The step leaves seats, runs and counts alone. */
  ghost predicate Aside(s: State, t: State) {
    && t.seats == s.seats && t.intake == s.intake && t.runs == s.runs && t.pruned == s.pruned
    && t.history.minted == s.history.minted && t.history.clock == s.history.clock
    && t.history.counted == s.history.counted
    && s.history.replaced <= t.history.replaced && SameCounts(s.topics, t.topics)
  }

  lemma AsideKeepsLedger(s: State, t: State)
    requires LedgerGood(s) && Aside(s, t)
    ensures LedgerGood(t)
  {
    LedgerFrame(s, t);
  }

  lemma IssueAside(s: State, token: Token, topic: TopicId, lease: RunId, uid: nat)
    ensures var o := IssueCapability(s, token, topic, lease, uid); o.Done? ==> Aside(s, o.state)
  {
  }

  lemma StallAside(s: State, t: TopicId, v: Version, uuid: EpisodeId)
    ensures var o := StallCheckpoint(s, t, v, uuid); o.Done? ==> Aside(s, o.state)
  {
  }

  lemma EpisodesAside(s: State, episodes: map<EpisodeId, Episode>)
    ensures Aside(s, s.(episodes := episodes))
  {
  }

  lemma StartFrame(s: State, e: EpisodeId, run: RunId, digest: Digest, prior: Option<EpisodeId>)
    ensures var o := StartCheckpoint(s, e, run, digest, prior); o.Done? ==> o.state == s.(episodes := o.state.episodes)
  {
  }

  lemma StartAside(s: State, e: EpisodeId, run: RunId, digest: Digest, prior: Option<EpisodeId>)
    ensures var o := StartCheckpoint(s, e, run, digest, prior); o.Done? ==> Aside(s, o.state)
  {
    var o := StartCheckpoint(s, e, run, digest, prior);
    StartFrame(s, e, run, digest, prior);
    if o.Done? { EpisodesAside(s, o.state.episodes); }
  }

  lemma ReserveFrame(s: State, e: EpisodeId, lease: RunId, k: InvocationId, role: Role, digest: Option<Token>)
    ensures var o := ReserveDelegate(s, e, lease, k, role, digest);
            o.Done? ==> o.state == s.(episodes := o.state.episodes)
  {
  }

  lemma ReserveAside(s: State, e: EpisodeId, lease: RunId, k: InvocationId, role: Role, digest: Option<Token>)
    ensures var o := ReserveDelegate(s, e, lease, k, role, digest); o.Done? ==> Aside(s, o.state)
  {
    var o := ReserveDelegate(s, e, lease, k, role, digest);
    ReserveFrame(s, e, lease, k, role, digest);
    if o.Done? { EpisodesAside(s, o.state.episodes); }
  }

  lemma RecordFrame(s: State, e: EpisodeId, k: InvocationId, exit: int, output: bool, complete: bool)
    ensures var o := RecordDelegate(s, e, k, exit, output, complete);
            o.Done? ==> o.state == s.(episodes := o.state.episodes)
  {
  }

  lemma RecordAside(s: State, e: EpisodeId, k: InvocationId, exit: int, output: bool, complete: bool)
    ensures var o := RecordDelegate(s, e, k, exit, output, complete); o.Done? ==> Aside(s, o.state)
  {
    var o := RecordDelegate(s, e, k, exit, output, complete);
    RecordFrame(s, e, k, exit, output, complete);
    if o.Done? { EpisodesAside(s, o.state.episodes); }
  }

  lemma FinishedAside(s: State, r: Report, st: EpisodeState)
    requires r.episode in s.episodes
    ensures Aside(s, FinishedState(s, r, st))
  {
  }

  lemma HandledAside(s: State, keys: seq<TriggerKey>)
    ensures Aside(s, Handled(s, keys))
  {
  }

  lemma IssuedAside(s: State, e: EpisodeId, t: TopicId, ds: seq<Draft>)
    ensures Aside(s, WithIssued(s, e, t, ds))
  {
  }

  lemma AsideTwice(a: State, b: State, c: State)
    requires Aside(a, b) && Aside(b, c)
    ensures Aside(a, c)
  {
  }

  lemma ReportedAside(s: State, r: Report, st: EpisodeState)
    requires r.episode in s.episodes
    ensures Aside(s, Reported(s, r, st))
  {
    var after, keys := FinishedState(s, r, st), s.episodes[r.episode].triggers;
    FinishedAside(s, r, st);
    HandledAside(after, keys);
    AsideTwice(s, after, Handled(after, keys));
    IssuedAside(Handled(after, keys), r.episode, s.episodes[r.episode].topic, r.drafts);
    AsideTwice(s, Handled(after, keys), WithIssued(Handled(after, keys), r.episode, s.episodes[r.episode].topic,
      r.drafts));
  }

  lemma FinishAside(s: State, r: Report, digest: Digest)
    ensures var o := FinishCheckpoint(s, r, digest); o.Done? ==> Aside(s, o.state)
  {
    if r.episode in s.episodes { ReportedAside(Conclude(s, r.run), r, EndState(s.episodes[r.episode], r)); }
  }

  lemma FailAside(s: State, t: TopicId, lease: RunId, known: Option<EpisodeId>, infra: bool, now: Time)
    ensures Aside(s, ParkFailed(s, t, lease, known, infra, now))
  {
  }

  lemma ResetAside(s: State, request: RequestId, r: ResetRequest)
    ensures var o := ResetAllowance(s, request, r); o.Done? ==> Aside(s, o.state)
  {
  }

  lemma RetryAside(s: State, request: RequestId, r: RetryRequest)
    ensures var o := RetryCheckpoint(s, request, r); o.Done? ==> Aside(s, o.state)
  {
    var o := RetryCheckpoint(s, request, r);
    if o.Done? && request !in s.retryRequests {
      RetriedAside(s, r, s.retryRequests[request := r]);
    }
  }

  lemma RetriedAside(s: State, r: RetryRequest, requests: map<RequestId, RetryRequest>)
    requires r.topic in s.topics && r.episode in s.episodes
    ensures Aside(s, MovedTo(s, r.episode, s.episodes[r.episode].(state := RetryWait), r.topic,
                             s.topics[r.topic].(review := CheckpointDue)).(retryRequests := requests))
  {
  }

  lemma IntentAside(s: State, request: RequestId, p: Payload, bundle: Option<Bundle>)
    ensures var o := DecisionIntent(s, request, p, bundle); o.Done? ==> Aside(s, o.state)
  {
  }

  lemma CommitAside(s: State, request: RequestId, receipt: Option<Receipt>)
    ensures var o := CommitDecision(s, request, receipt); o.Done? ==> Aside(s, o.state)
  {
    if request in s.intents && request !in s.decisions {
      var o := CommitDecision(s, request, receipt);
      if o.Done? {
        var t := s.intents[request].payload.topic;
        assert o.state.topics == s.topics[t := o.state.topics[t]];
      }
    }
  }

  lemma SidelineAside(s: State, t: TopicId, kind: Kind)
    ensures Aside(s, Sidelined(s, t, kind))
  {
  }

  lemma ReconcileCounts(s: State, now: Time)
    ensures SameCounts(s.topics, Reconcile(s, now).topics)
    ensures Leases(Reconcile(s, now).seats) == Leases(s.seats)
            && Generations(Reconcile(s, now).seats) == Generations(s.seats)
  {
    hide Reconcile;
    Dealing.ReconcileFrame(s, now);
    SameLeasesViews(Reconcile(s, now).seats, s.seats);
    forall t | t in Reconcile(s, now).topics ensures Reconcile(s, now).topics[t] == TopicOf(s.topics, t) {
      assert TopicOf(Reconcile(s, now).topics, t) == TopicOf(s.topics, t);
    }
  }

  /** The orphan's seat is vacated and its run finished, in one transaction. */
  lemma OrphanShape(s: State, k: nat, now: Time)
    requires k < |s.seats| && s.seats[k].current.Some? && s.seats[k].current.value.station == k + 1
    ensures var lease := s.seats[k].current.value;
            var o := ParkOrphan(s, lease, now);
            && Leases(o.seats) == Leases(s.seats)[k := None] && Generations(o.seats) == Generations(s.seats)
            && o.runs == FinishRun(s.runs, lease.id, now) && o.pruned == s.pruned && o.history == s.history
            && o.intake == s.intake
            && SameCounts(s.topics, o.topics)
  {
    var lease := s.seats[k].current.value;
    var s1 := s.(seats := Vacated(s.seats, k));
    var s2 := Sidelined(s1, lease.topic, lease.kind);
    SidelineAside(s1, lease.topic, lease.kind);
    ReconcileCounts(s2, now);
    Dealing.ReconcileFrame(s2, now);
    SeatUpdateViews(s.seats, k, Vacated(s.seats, k)[k]);
    assert Generations(s1.seats) == Generations(s.seats);
  }

  lemma OrphanKeepsLedger(s: State, k: nat, now: Time)
    requires hide *; true
    requires LedgerGood(s) && k < |s.seats| && s.seats[k].current.Some? && s.seats[k].current.value.station == k + 1
    ensures LedgerGood(ParkOrphan(s, s.seats[k].current.value, now))
  {
    hide ParkOrphan;
    OrphanShape(s, k, now);
    OrphanLedgerKeeps(s, k, now);
    CountsKeep(s.history.counted, s.topics, ParkOrphan(s, s.seats[k].current.value, now).topics);
  }

  lemma CountsKeep(counted: seq<Count>, topics: map<TopicId, Topic>, topics': map<TopicId, Topic>)
    requires CountInv(counted, topics) && SameCounts(topics, topics')
    ensures CountInv(counted, topics')
  {
  }

  lemma OrphanLedgerKeeps(s: State, k: nat, now: Time)
    requires LedgerGood(s) && k < |s.seats| && s.seats[k].current.Some? && s.seats[k].current.value.station == k + 1
    ensures var ls, id := Leases(s.seats)[k := None], s.seats[k].current.value.id;
            && LeaseInv(ls, Generations(s.seats), s.history.minted, s.history.clock, s.intake)
            && RunInv(ls, s.history.minted, FinishRun(s.runs, id, now))
            && LedgerInv(s.history.minted, FinishRun(s.runs, id, now), s.pruned, s.history.counted)
  {
    assert Leases(s.seats)[k] == s.seats[k].current;
    DropLeaseKeeps(Leases(s.seats), Generations(s.seats), s.history.minted, s.history.clock, s.intake, s.runs, k, now);
    FinishKeepsLedger(s.history.minted, s.runs, s.pruned, s.history.counted, s.seats[k].current.value.id, now);
  }
}
