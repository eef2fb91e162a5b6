/** What holds along every run of the controller. */
module Safety {
  import opened Common
  import opened ControlRecords
  import opened Scheduler
  import opened Checkpoints
  import opened Episodes
  import opened Ledger
  import opened Reviews
  import opened ReviewSteps
  import opened EpisodeSteps
  import opened OperatorSteps
  import opened LedgerSteps
  import opened Runs
  import Compaction
  import Dealing

  // ---------- Leases ----------

  /** No topic is leased by two stations; a lease carries its station's generation; a run on record is started
      only while its lease is current, and agrees with it. */
  lemma LeaseExclusion(states: seq<State>, ops: seq<Op>, i: nat)
    requires hide *; true
    requires Execution(states, ops) && i < |states|
    ensures var s := states[i];
            && |s.seats| == MAX_STATIONS
            && (forall j, k | 0 <= j < k < MAX_STATIONS && s.seats[j].current.Some? && s.seats[k].current.Some? ::
                  s.seats[j].current.value.topic != s.seats[k].current.value.topic)
            && (forall k | 0 <= k < MAX_STATIONS && s.seats[k].current.Some? ::
                  s.seats[k].current.value.station == k + 1
                    && s.seats[k].current.value.generation == s.seats[k].generation)
            && (forall r | r in s.runs && s.runs[r].state == Started ::
                  exists k :: 0 <= k < MAX_STATIONS && s.seats[k].current.Some? && s.seats[k].current.value.id == r
                              && s.seats[k].current.value.topic == s.runs[r].topic
                              && s.runs[r].generation == Some(s.seats[k].generation))
  {
    hide Execution;
    RunSafe(states, ops, i);
    var s := states[i];
    SeatsExclusive(s.seats, s.history.minted, s.history.clock, s.intake);
    forall r | r in s.runs && s.runs[r].state == Started
      ensures exists k :: 0 <= k < MAX_STATIONS && s.seats[k].current.Some? && s.seats[k].current.value.id == r
                          && s.seats[k].current.value.topic == s.runs[r].topic
                          && s.runs[r].generation == Some(s.seats[k].generation)
    {
      StartedIsCurrent(s, r);
    }
  }

  lemma SeatsExclusive(seats: seq<Seat>, minted: Minted, clock: Time, intake: Option<Lease>)
    requires LeaseInv(Leases(seats), Generations(seats), minted, clock, intake)
    ensures forall j, k | 0 <= j < k < |seats| && seats[j].current.Some? && seats[k].current.Some? ::
              seats[j].current.value.topic != seats[k].current.value.topic
    ensures forall k | 0 <= k < |seats| && seats[k].current.Some? ::
              seats[k].current.value.station == k + 1 && seats[k].current.value.generation == seats[k].generation
  {
    var ls := Leases(seats);
    forall k | 0 <= k < |seats| && seats[k].current.Some?
      ensures seats[k].current.value.station == k + 1 && seats[k].current.value.generation == seats[k].generation
    {
      assert ls[k] == seats[k].current;
      assert LeaseRecorded(ls, Generations(seats), minted, k);
    }
    forall j, k | 0 <= j < k < |seats| && seats[j].current.Some? && seats[k].current.Some?
      ensures seats[j].current.value.topic != seats[k].current.value.topic
    {
      assert ls[j] == seats[j].current && ls[k] == seats[k].current;
    }
  }

  lemma StartedIsCurrent(s: State, r: RunId)
    requires LedgerGood(s) && r in s.runs && s.runs[r].state == Started
    ensures exists k :: 0 <= k < |s.seats| && s.seats[k].current.Some? && s.seats[k].current.value.id == r
                        && s.seats[k].current.value.topic == s.runs[r].topic
                        && s.runs[r].generation == Some(s.seats[k].generation)
  {
    var ls := Leases(s.seats);
    assert RunRecorded(ls, s.history.minted, s.runs[r], r);
    var k :| 0 <= k < |ls| && ls[k].Some? && ls[k].value.id == r;
    assert LeaseRecorded(ls, Generations(s.seats), s.history.minted, k);
    assert s.seats[k].current == ls[k];
  }

  // ---------- Accounting ----------

  /** The ordinals a topic's accepted completions got, in order. */
  function OrdinalsOf(counted: seq<Count>, t: TopicId): seq<nat> {
    if counted == [] then []
    else
      var c := counted[|counted| - 1];
      OrdinalsOf(counted[..|counted| - 1], t) + if c.topic == t then [c.ordinal] else []
  }

  lemma {:induction false} OrdinalsContiguous(counted: seq<Count>, t: TopicId)
    requires forall k | 0 <= k < |counted| :: counted[k].ordinal == CountFor(counted[..k], counted[k].topic) + 1
    ensures OrdinalsOf(counted, t) == seq(CountFor(counted, t), i => i + 1)
  {
    if counted != [] {
      var last := |counted| - 1;
      var rest := counted[..last];
      forall k | 0 <= k < last ensures rest[k].ordinal == CountFor(rest[..k], rest[k].topic) + 1 {
        assert rest[k] == counted[k] && rest[..k] == counted[..k];
      }
      OrdinalsContiguous(rest, t);
      assert counted[last].ordinal == CountFor(rest, counted[last].topic) + 1;
    }
  }

  /** Along every run each lease is counted at most once, and a topic's completed count is the number of its
      accepted completions, whose ordinals are 1, 2, 3, ... */
  lemma CountedOnce(states: seq<State>, ops: seq<Op>, i: nat, t: TopicId)
    requires hide *; true
    requires Execution(states, ops) && i < |states|
    ensures var s := states[i];
            && (forall j, k | 0 <= j < k < |s.history.counted| :: s.history.counted[j].run != s.history.counted[k].run)
            && OrdinalsOf(s.history.counted, t) == seq(TopicOf(s.topics, t).completed, n => n + 1)
            && TopicOf(s.topics, t).next == TopicOf(s.topics, t).completed + 1
  {
    hide Execution;
    RunSafe(states, ops, i);
    NextFollowsCount(states[i], t);
    OrdinalsContiguous(states[i].history.counted, t);
  }

  /** A completion once counted is never counted again, whatever happened since: its replay returns the result it
      got, or is refused because its run was pruned. */
  lemma CountedReplays(states: seq<State>, ops: seq<Op>, i: nat, c: Count, station: nat, v: Version, accepted: bool,
                       deepening: bool, now: Time, e: EpisodeId)
    requires hide *; true
    requires Execution(states, ops) && i < |states| && c in states[i].history.counted && v != Unset
    ensures var o := Accept(states[i], c.topic, c.run, station, v, accepted, deepening, now, e);
            if c.run in states[i].runs then o.Done? && o.state == states[i] && o.value.accepted
              && o.value.ordinal == Some(c.ordinal)
            else o == Refused(RevisionConflict)
  {
    hide Execution, Accept, LedgerGood;
    RunSafe(states, ops, i);
    CountReplays(states[i], c, station, v, accepted, deepening, now, e);
  }

  lemma CountReplays(s: State, c: Count, station: nat, v: Version, accepted: bool, deepening: bool, now: Time,
                     e: EpisodeId)
    requires hide *; true
    requires LedgerGood(s) && c in s.history.counted && v != Unset
    ensures var o := Accept(s, c.topic, c.run, station, v, accepted, deepening, now, e);
            if c.run in s.runs then o.Done? && o.state == s && o.value.accepted && o.value.ordinal == Some(c.ordinal)
            else o == Refused(RevisionConflict)
  {
    var k :| 0 <= k < |s.history.counted| && s.history.counted[k] == c;
    assert CountRecorded(s.history.minted, s.runs, s.history.counted[k]);
    if c.run in s.runs {
      assert RunRecorded(Leases(s.seats), s.history.minted, s.runs[c.run], c.run);
    } else {
      PrunedReplayRefused(s, c.topic, c.run);
    }
  }

  // ---------- Reviews ----------

  /** Per topic at most one review is open and it is the active one; no ordinary research lease is minted while a
      review is open; a checkpoint lease is minted only for a review that is due, running or waiting. */
  lemma NoResearchDuringReview(states: seq<State>, ops: seq<Op>, i: nat, e: EpisodeId)
    requires hide Claim, Apply; true
    requires Execution(states, ops) && i < |ops| && ops[i].Claiming?
    requires var o := Claim(states[i], ops[i].station, ops[i].now, ops[i].uuid); o.Done? && o.value.Minted?
    requires e in states[i].episodes && Open(states[i].episodes[e].state)
    ensures var l := Claim(states[i], ops[i].station, ops[i].now, ops[i].uuid).value.lease;
            states[i].episodes[e].topic == l.topic ==>
              l.kind == Checkpoint && states[i].episodes[e].state in {Due, InReview, RetryWait}
  {
    hide Apply, Allowed, Initial;
    RunSafe(states, ops, i);
    var s := states[i];
    MintFits(s, ops[i].station, ops[i].now, ops[i].uuid);
    ActiveIsOpen(s.topics, s.episodes, e);
  }

  /** A counter invocation that certifies the review. */
  function Certificates(ep: Episode): set<InvocationId> {
    set k | k in ep.invocations && Certifies(ep.invocations[k])
  }

  lemma OneCertificate(ep: Episode)
    requires DelegateInv(ep)
    ensures |Certificates(ep)| <= 1 && (Countered(ep) <==> |Certificates(ep)| == 1)
  {
    if Countered(ep) {
      var k :| k in ep.invocations && Certifies(ep.invocations[k]);
      assert Certificates(ep) == {k};
    } else {
      assert Certificates(ep) == {};
    }
  }

  /** Every proposal ever issued belongs to a review of its topic with exactly one successful recorded counter;
      proposals issued since the last operator reset and the allowance left make two. */
  lemma ProposalsCertified(states: seq<State>, ops: seq<Op>, i: nat, p: ProposalId, t: TopicId)
    requires hide *; true
    requires Execution(states, ops) && i < |states|
    ensures var s := states[i];
            && TopicOf(s.topics, t).allowance + CountOr0(s.history.issued, t) == 2
            && (p in s.proposals ==>
                  && s.proposals[p].episode in s.episodes
                  && s.episodes[s.proposals[p].episode].topic == s.proposals[p].topic
                  && |Certificates(s.episodes[s.proposals[p].episode])| == 1)
  {
    hide Execution;
    RunSafe(states, ops, i);
    var s := states[i];
    if p in s.proposals {
      assert ProposalPlaced(s.episodes, s.proposals[p]);
      assert DelegateInv(s.episodes[s.proposals[p].episode]);
      OneCertificate(s.episodes[s.proposals[p].episode]);
    }
  }

  /** A completed review has exactly one successful recorded counter of its own, or reuses a completed review of the
      same topic over the same material. */
  lemma CompletedReviewed(states: seq<State>, ops: seq<Op>, i: nat, e: EpisodeId)
    requires hide *; true
    requires Execution(states, ops) && i < |states| && e in states[i].episodes && Closed(states[i].episodes[e].state)
    ensures var s, ep := states[i], states[i].episodes[e];
            |Certificates(ep)| == 1
            || (ep.reused.Some? && ep.reused.value in s.episodes && Closed(s.episodes[ep.reused.value].state)
                && s.episodes[ep.reused.value].topic == ep.topic && s.episodes[ep.reused.value].digest == ep.digest)
  {
    hide Execution;
    RunSafe(states, ops, i);
    assert ReviewedProperly(states[i].episodes, states[i].episodes[e]);
    assert DelegateInv(states[i].episodes[e]);
    OneCertificate(states[i].episodes[e]);
  }

  /** In every reachable review, invocations, launches left and refunds left make six; exchanges left and unrefunded
      responses make one; at most one invocation is reserved; each role succeeds at most once and in order. */
  lemma BudgetConserved(states: seq<State>, ops: seq<Op>, i: nat, e: EpisodeId)
    requires hide *; true
    requires Execution(states, ops) && i < |states| && e in states[i].episodes
    ensures var ep := states[i].episodes[e];
            && |ep.invocations| + ep.launches + ep.refunds == 6
            && ep.exchanges + |UnrefundedResponses(ep)| == 1
            && (forall j, k | j in ep.invocations && k in ep.invocations && !ep.invocations[j].finished
                 && !ep.invocations[k].finished :: j == k)
            && (forall j, k | j in ep.invocations && k in ep.invocations
                 && ep.invocations[j].role == ep.invocations[k].role
                              && Succeeded(ep.invocations[j]) && Succeeded(ep.invocations[k]) :: j == k)
            && (Successful(ep, Assessment) ==> Successful(ep, Response))
            && (Successful(ep, Response) ==> Successful(ep, Counter))
  {
    hide Execution;
    RunSafe(states, ops, i);
    assert DelegateInv(states[i].episodes[e]);
    RolesInOrder(states[i].episodes[e]);
  }

  predicate SameDeepening(j: TriggerKey, k: TriggerKey) {
    j.kind == Deepening && k.kind == Deepening && j.topic == k.topic && j.inventory == k.inventory
  }

  /** While the policy has not been changed, after n accepted completions under an enabled policy a topic has n / every
      cadence triggers; an inventory version trips deepening at most once; every trigger names a review of its topic
      that lists it. */
  lemma TriggersCounted(states: seq<State>, ops: seq<Op>, i: nat, t: TopicId, j: TriggerKey, k: TriggerKey)
    requires hide *; true
    requires Execution(states, ops) && i < |states|
    ensures var s := states[i];
            && (s.history.steady ==>
                 |CadenceTriggers(s.triggers, t)|
                   == if s.policy.enabled && s.policy.every > 0 then TopicOf(s.topics, t).completed / s.policy.every
                      else 0)
            && (k in s.triggers ==>
                  && s.triggers[k].episode.Some? && s.triggers[k].episode.value in s.episodes
                  && s.episodes[s.triggers[k].episode.value].topic == k.topic
                  && k in s.episodes[s.triggers[k].episode.value].triggers)
            && (j in s.triggers && k in s.triggers && SameDeepening(j, k) ==> j == k)
  {
    hide Execution;
    RunSafe(states, ops, i);
    var s := states[i];
    if k in s.triggers { assert TriggerPlaced(s.triggers, s.topics, s.episodes, k); }
    assert s.history.steady ==>
      |CadenceTriggers(s.triggers, t)| == CadenceCount(s.policy, TopicOf(s.topics, t).completed);
  }

  /** Runs that are started, or that a review refers to, are on record; per topic, records and tombstones make up all
      leases. */
  lemma NothingLost(states: seq<State>, ops: seq<Op>, i: nat, t: TopicId)
    requires hide *; true
    requires Execution(states, ops) && i < |states|
    ensures var s := states[i];
            && Referenced(s.episodes) <= s.runs.Keys
            && (forall k | 0 <= k < |s.seats| && s.seats[k].current.Some? :: s.seats[k].current.value.id in s.runs)
            && |RunsFor(s.runs, t)| + CountOr0(s.pruned, t) == |MintedFor(s.history.minted, t)|
  {
    hide Execution;
    RunSafe(states, ops, i);
    var s := states[i];
    forall k | 0 <= k < |s.seats| && s.seats[k].current.Some? ensures s.seats[k].current.value.id in s.runs {
      LeaseAt(s, k);
    }
  }

  // ---------- What only grows ----------

  /** Generations never fall, the list of counted completions only gets longer, and no replaced intent is forgotten. */
  ghost predicate Grows(s: State, t: State) {
    NotBelow(Generations(s.seats), Generations(t.seats)) && s.history.counted <= t.history.counted
      && s.history.replaced <= t.history.replaced
  }

  ghost predicate NotBelow(a: seq<nat>, b: seq<nat>) {
    |b| == |a| && forall k | 0 <= k < |a| :: a[k] <= b[k]
  }

  lemma SameGrows(s: State, t: State)
    requires Generations(t.seats) == Generations(s.seats) && t.history.counted == s.history.counted
             && s.history.replaced <= t.history.replaced
    ensures Grows(s, t)
  {
  }

  lemma CommitGrows(s: State, t: State)
    requires Grows(s, t)
    ensures Grows(s, Commit(s, t))
  {
    CommitTouchesRevision(s, t);
    SamePartsGrow(s, t, Commit(s, t));
  }

  lemma CommitTouchesRevision(s: State, t: State)
    ensures Commit(s, t).seats == t.seats && Commit(s, t).history == t.history
  {
  }

  lemma SamePartsGrow(s: State, t: State, u: State)
    requires Grows(s, t) && u.seats == t.seats && u.history == t.history
    ensures Grows(s, u)
  {
  }

  lemma AfterGrows<T>(s: State, o: Outcome<T>)
    requires o.Done? ==> Grows(s, o.state)
    ensures Grows(s, After(s, o))
  {
    if o.Done? { CommitGrows(s, o.state); } else { SameGrows(s, s); }
  }

  lemma ReconcileGrows(s: State, t: State, now: Time)
    requires Generations(t.seats) == Generations(s.seats) && t.history.counted == s.history.counted
             && s.history.replaced <= t.history.replaced
    ensures Grows(s, Reconcile(t, now))
  {
    ReconcileCounts(t, now);
    Dealing.ReconcileFrame(t, now);
    SameGrows(s, Reconcile(t, now));
  }

  lemma ClaimGrows(s: State, station: nat, now: Time, uuid: RunId)
    requires |s.seats| == MAX_STATIONS
    ensures var o := Claim(s, station, now, uuid); o.Done? ==> Grows(s, o.state)
    ensures var o := Claim(s, station, now, uuid);
            o.Done? && o.value.Minted? ==>
              ValidStation(station) && |o.state.seats| == MAX_STATIONS
              && o.state.seats[station - 1].generation == o.value.lease.generation == s.seats[station - 1].generation
                   + 1
  {
    hide Reconcile;
    var o := Claim(s, station, now, uuid);
    ReconcileGrows(s, s, now);
    Dealing.ReconcileFrame(s, now);
    if !o.Done? {
    } else if o.value.Minted? {
      var r := Reconcile(s, now);
      SeatUpdateViews(r.seats, station - 1, o.state.seats[station - 1]);
      assert Generations(r.seats)[station - 1] == r.seats[station - 1].generation;
    } else {
      SameGrows(s, s);
    }
  }

  lemma FinalizeGrows(s: State, station: nat, lease: RunId, now: Time, pacing: Option<Time>, retry: Option<Time>)
    requires |s.seats| == MAX_STATIONS
    ensures var o := Finalize(s, station, lease, now, pacing, retry); o.Done? ==> Grows(s, o.state)
  {
    hide Reconcile;
    if Finalize(s, station, lease, now, pacing, retry).Done? {
      var s1 := Release(s, station - 1, now, pacing, retry);
      SeatUpdateViews(s.seats, station - 1, s1.seats[station - 1]);
      assert Generations(s1.seats) == Generations(s.seats);
      ReconcileGrows(s, Compact(s1), now);
    }
  }

  lemma ConfirmGrows(s: State, station: nat, lease: RunId)
    requires |s.seats| == MAX_STATIONS
    ensures var o := ConfirmLaunch(s, station, lease); o.Done? ==> Grows(s, o.state)
  {
    var o := ConfirmLaunch(s, station, lease);
    if o.Done? {
      SeatUpdateViews(s.seats, station - 1, o.state.seats[station - 1]);
      assert Generations(o.state.seats) == Generations(s.seats);
    }
  }

  lemma AcceptGrows(s: State, t: TopicId, run: RunId, station: nat, v: Version, accepted: bool, deepening: bool,
                    now: Time, e: EpisodeId)
    ensures var o := Accept(s, t, run, station, v, accepted, deepening, now, e); o.Done? ==> Grows(s, o.state)
  {
  }

  lemma ReorderGrows(s: State, order: seq<TopicId>, expected: nat, now: Time)
    ensures var o := Reorder(s, order, expected, now); o.Done? ==> Grows(s, o.state)
  {
    if Reorder(s, order, expected, now).Done? {
      var items := ReorderIsReconcile(s, order, expected, now);
      ReconcileGrows(s, s.(items := items, queueRevision := s.queueRevision + 1), now);
    }
  }

  lemma OrphanGrows(s: State, orphan: Lease, now: Time)
    requires hide ParkOrphan, LedgerGood; true
    requires LedgerGood(s) && SitsAt(s, orphan) && s.seats[orphan.station - 1].current == Some(orphan)
    ensures Grows(s, ParkOrphan(s, orphan, now))
  {
    hide ParkOrphan, LedgerGood;
    SeatedStation(s, orphan.station - 1);
    OrphanShape(s, orphan.station - 1, now);
    SameGrows(s, ParkOrphan(s, orphan, now));
  }

  lemma AsideGrows(s: State, t: State)
    requires Aside(s, t)
    ensures Grows(s, t)
  {
  }

  lemma StepGrows(s: State, op: Op)
    requires hide *; true
    requires LedgerGood(s) && |s.seats| == MAX_STATIONS && Allowed(s, op)
    ensures Grows(s, Apply(s, op))
  {
    hide *;
    ApplyIs(s, op);
    AllowedIs(s, op);
    match op
    case Reconciling(now) => ReconcileGrows(s, s, now); CommitGrows(s, Reconcile(s, now));
    case Claiming(station, now, uuid) => ClaimGrows(s, station, now, uuid); AfterGrows(s, Claim(s, station, now, uuid));
    case Finalizing(station, lease, now, pacing, retry) =>
      FinalizeGrows(s, station, lease, now, pacing, retry);
      AfterGrows(s, Finalize(s, station, lease, now, pacing, retry));
    case Confirming(station, lease) => ConfirmGrows(s, station, lease); AfterGrows(s, ConfirmLaunch(s, station, lease));
    case Compacting => CompactGrows(s); CommitGrows(s, Compact(s));
    case Reordering(order, expected, now) =>
      ReorderGrows(s, order, expected, now); AfterGrows(s, Reorder(s, order, expected, now));
    case Scaling(active, policy, now) =>
      ScaleGrows(s, active, policy, now); AfterGrows(s, UpdateStations(s, active, policy, now));
    case Accepting(t, run, station, v, accepted, deepening, now, e) =>
      AcceptGrows(s, t, run, station, v, accepted, deepening, now, e);
      AfterGrows(s, Accept(s, t, run, station, v, accepted, deepening, now, e));
    case Editing(items, paused, stopping) =>
      var t := s.(items := items, paused := paused, stopping := stopping);
      SameGrows(s, t); CommitGrows(s, t);
    case Revoking(lease) =>
      var t := s.(capabilities := Revoke(s.capabilities, lease));
      SameGrows(s, t); CommitGrows(s, t);
    case Orphaning(orphan, now) => OrphanGrows(s, orphan, now); CommitGrows(s, ParkOrphan(s, orphan, now));
    case _ =>
      LeavesOthers(op);
      ReviewAside(s, op);
      AsideGrows(s, Apply(s, op));
  }

  lemma CompactGrows(s: State)
    ensures Grows(s, Compact(s))
  {
    SameGrows(s, Compact(s));
  }

  lemma ScaleGrows(s: State, active: Option<nat>, policy: Option<Policy>, now: Time)
    ensures var o := UpdateStations(s, active, policy, now); o.Done? ==> Grows(s, o.state)
  {
    ReconcileGrows(s, Configured(s, active, policy), now);
  }

  lemma HistoryGrows(states: seq<State>, ops: seq<Op>, i: nat, j: nat)
    requires hide *; true
    requires Execution(states, ops) && i <= j < |states|
    ensures Grows(states[i], states[j])
  {
    forall k | i <= k < j ensures Grows(states[k], states[k + 1]) {
      hide *;
      RunShape(states, ops, k + 1);
      RunSafe(states, ops, k);
      GoodParts(states[k]);
      StepGrows(states[k], ops[k]);
    }
    hide Execution, Grows;
    Stepwise(Grows, states, i, j);
  }

  /** A decision whose undecided intent another payload replaced is lost: at every later moment its review is still held
      for it, with its proposals pending, no intent is left that would decide it, and its request decides something
      else. */
  lemma ReplacedIsLost(states: seq<State>, ops: seq<Op>, i: nat, j: nat, r: RequestId, p: Payload)
    requires hide *; true
    requires Execution(states, ops) && i <= j < |states| && (r, p) in states[i].history.replaced
    ensures var s := states[j];
            Lost(s.episodes, s.proposals, s.intents, s.decisions, r, p)
              && (r in s.decisions ==> s.decisions[r].payload.episode != p.episode)
  {
    hide Execution;
    RunSafe(states, ops, j);
    HistoryGrows(states, ops, i, j);
    assert (r, p) in states[j].history.replaced;
  }

  /** Two leases minted at the same station have strictly increasing generations, whatever happened between. */
  lemma GenerationsIncrease(states: seq<State>, ops: seq<Op>, i: nat, j: nat)
    requires hide Claim, Apply; true
    requires Execution(states, ops) && i < j < |ops| && ops[i].Claiming? && ops[j].Claiming?
             && ops[i].station == ops[j].station
    requires var o := Claim(states[i], ops[i].station, ops[i].now, ops[i].uuid); o.Done? && o.value.Minted?
    requires var o := Claim(states[j], ops[j].station, ops[j].now, ops[j].uuid); o.Done? && o.value.Minted?
    ensures Claim(states[i], ops[i].station, ops[i].now, ops[i].uuid).value.lease.generation
            < Claim(states[j], ops[j].station, ops[j].now, ops[j].uuid).value.lease.generation
  {
    hide Allowed, Initial, Grows, LedgerGood, ReviewGood;
    var station := ops[i].station;
    ClaimGrows(states[i], station, ops[i].now, ops[i].uuid);
    ClaimGrows(states[j], station, ops[j].now, ops[j].uuid);
    HistoryGrows(states, ops, i + 1, j);
    GenerationAt(states[i + 1], states[j], station - 1);
  }

  lemma GenerationAt(s: State, t: State, k: nat)
    requires Grows(s, t) && k < |s.seats|
    ensures k < |t.seats| && s.seats[k].generation <= t.seats[k].generation
  {
    assert Generations(s.seats)[k] == s.seats[k].generation;
    assert Generations(t.seats)[k] == t.seats[k].generation;
  }

  /** A completion counted at some point is counted for good: every later replay of it returns its result or is
      refused. */
  lemma CountedForGood(states: seq<State>, ops: seq<Op>, i: nat, j: nat, c: Count, station: nat, v: Version,
                       accepted: bool, deepening: bool, now: Time, e: EpisodeId)
    requires hide *; true
    requires Execution(states, ops) && i <= j < |states| && c in states[i].history.counted && v != Unset
    ensures var o := Accept(states[j], c.topic, c.run, station, v, accepted, deepening, now, e);
            if c.run in states[j].runs then o.Done? && o.state == states[j] && o.value.accepted
              && o.value.ordinal == Some(c.ordinal)
            else o == Refused(RevisionConflict)
  {
    hide Execution, Accept;
    HistoryGrows(states, ops, i, j);
    CountedReplays(states, ops, j, c, station, v, accepted, deepening, now, e);
  }

  // ---------- The review state ----------

  /** An orphaned checkpoint lease whose topic has a record but no open review any more. */
  predicate Unattended(s: State, op: Op) {
    op.Orphaning? && op.orphan.kind == Checkpoint && op.orphan.topic in s.topics
      && s.topics[op.orphan.topic].active.None?
  }

  lemma OrphanKeepsMirror(s: State, orphan: Lease, now: Time)
    requires hide Good, ParkOrphan; true
    requires Good(s) && SitsAt(s, orphan) && s.seats[orphan.station - 1].current == Some(orphan) && Mirrored(s.topics)
    ensures Mirrored(Commit(s, ParkOrphan(s, orphan, now)).topics) <==> !Unattended(s, Orphaning(orphan, now))
  {
    hide ParkOrphan, LedgerGood;
    SeatedStation(s, orphan.station - 1);
    OrphanMirrors(s, orphan.station - 1, now);
  }

  lemma QueueMirrors(s: State, t: State, now: Time)
    requires t.topics == s.topics && Mirrored(s.topics)
    ensures Mirrored(Reconcile(t, now).topics)
  {
    Dealing.ReconcileFrame(t, now);
    EnsureMirrors(t.topics, Reconcile(t, now).topics);
  }

  lemma ReorderMirrors(s: State, order: seq<TopicId>, expected: nat, now: Time)
    requires Mirrored(s.topics)
    ensures Mirrored(After(s, Reorder(s, order, expected, now)).topics)
  {
    if Reorder(s, order, expected, now).Done? {
      var items := ReorderIsReconcile(s, order, expected, now);
      QueueMirrors(s, s.(items := items, queueRevision := s.queueRevision + 1), now);
    }
  }

  lemma AfterMirrors<T>(s: State, o: Outcome<T>)
    requires Mirrored(s.topics) && (o.Done? ==> Mirrored(o.state.topics))
    ensures Mirrored(After(s, o).topics)
  {
  }

  lemma FinishMirrors(s: State, r: Report, digest: Digest)
    requires hide *; true
    requires Good(s) && (r.episode in s.episodes ==> Serving(s, r.run, s.episodes[r.episode].topic))
             && Mirrored(s.topics)
    ensures Mirrored(After(s, FinishCheckpoint(s, r, digest)).topics)
  {
    hide *;
    GoodParts(s);
    FinishKeepsReviews(s, r, digest);
    AfterMirrors(s, FinishCheckpoint(s, r, digest));
  }

  lemma FailMirrors(s: State, t: TopicId, lease: RunId, known: Option<EpisodeId>, infra: bool, now: Time)
    requires hide *; true
    requires Good(s) && Serving(s, lease, t) && (known.Some? ==> t in s.topics && s.topics[t].active == known)
             && Mirrored(s.topics)
    ensures Mirrored(Commit(s, ParkFailed(s, t, lease, known, infra, now)).topics)
  {
    hide *;
    GoodParts(s);
    ParkFailedKeepsReviews(s, t, lease, known, infra, now);
    CommitMirrors(s, ParkFailed(s, t, lease, known, infra, now));
  }

  lemma CommitMirrors(s: State, t: State)
    ensures Commit(s, t).topics == t.topics
  {
  }

  /** The one step that can part a topic's review state from its reviews is parking an unattended orphan, and it always
      does. */
  lemma StepMirrorsIff(s: State, op: Op)
    requires hide *; true
    requires Good(s) && |s.seats| == MAX_STATIONS && Allowed(s, op) && Mirrored(s.topics)
    ensures Mirrored(Apply(s, op).topics) <==> !Unattended(s, op)
  {
    hide *;
    ApplyIs(s, op);
    AllowedIs(s, op);
    GoodParts(s);
    AttendedIs(s, op);
    match op
    case Orphaning(orphan, now) => OrphanKeepsMirror(s, orphan, now);
    case Reconciling(now) => QueueMirrors(s, s, now); CommitMirrors(s, Reconcile(s, now));
    case Reordering(order, expected, now) => ReorderMirrors(s, order, expected, now);
    case Scaling(active, policy, now) =>
      ScaleMirrors(s, active, policy, now); AfterMirrors(s, UpdateStations(s, active, policy, now));
    case Confirming(station, lease) =>
      ConfirmMirrors(s, station, lease); AfterMirrors(s, ConfirmLaunch(s, station, lease));
    case Compacting => CompactMirrors(s); CommitMirrors(s, Compact(s));
    case Editing(items, paused, stopping) =>
      CommitMirrors(s, s.(items := items, paused := paused, stopping := stopping));
    case Revoking(lease) => CommitMirrors(s, s.(capabilities := Revoke(s.capabilities, lease)));
    case Claiming(station, now, uuid) =>
      ClaimKeepsReviews(s, station, now, uuid); AfterMirrors(s, Claim(s, station, now, uuid));
    case Finalizing(station, lease, now, pacing, retry) =>
      FinalizeKeepsReviews(s, station, lease, now, pacing, retry);
      AfterMirrors(s, Finalize(s, station, lease, now, pacing, retry));
    case Issuing(token, topic, lease, uid) =>
      IssueMirrors(s, token, topic, lease, uid); AfterMirrors(s, IssueCapability(s, token, topic, lease, uid));
    case Accepting(t, run, station, v, accepted, deepening, now, e) =>
      AcceptKeepsReviews(s, t, run, station, v, accepted, deepening, now, e);
      AfterMirrors(s, Accept(s, t, run, station, v, accepted, deepening, now, e));
    case Stalling(t, v, e) => StallKeepsReviews(s, t, v, e); AfterMirrors(s, StallCheckpoint(s, t, v, e));
    case Starting(e, run, digest, prior) =>
      StartFrame(s, e, run, digest, prior); AfterMirrors(s, StartCheckpoint(s, e, run, digest, prior));
    case Reserving(e, lease, k, role, token) =>
      ReserveFrame(s, e, lease, k, role, token); AfterMirrors(s, ReserveDelegate(s, e, lease, k, role, token));
    case Recording(e, k, exit, output, complete) =>
      RecordFrame(s, e, k, exit, output, complete); AfterMirrors(s, RecordDelegate(s, e, k, exit, output, complete));
    case Finishing(r, digest) => FinishMirrors(s, r, digest);
    case Failing(t, lease, known, infra, now) => FailMirrors(s, t, lease, known, infra, now);
    case Resetting(request, r) => ResetKeepsReviews(s, request, r); AfterMirrors(s, ResetAllowance(s, request, r));
    case Retrying(request, r) => RetryKeepsReviews(s, request, r); AfterMirrors(s, RetryCheckpoint(s, request, r));
    case Intending(request, p, bundle) =>
      IntentKeepsReviews(s, request, p, bundle); AfterMirrors(s, DecisionIntent(s, request, p, bundle));
    case Committing(request, receipt) =>
      CommitKeepsReviews(s, request, receipt); AfterMirrors(s, CommitDecision(s, request, receipt));
  }

  lemma AttendedIs(s: State, op: Op)
    ensures Unattended(s, op) ==> op.Orphaning?
  {
  }

  lemma ScaleMirrors(s: State, active: Option<nat>, policy: Option<Policy>, now: Time)
    requires Mirrored(s.topics)
    ensures var o := UpdateStations(s, active, policy, now); o.Done? ==> Mirrored(o.state.topics)
  {
    QueueMirrors(s, Configured(s, active, policy), now);
  }

  lemma ConfirmMirrors(s: State, station: nat, lease: RunId)
    requires |s.seats| == MAX_STATIONS
    ensures var o := ConfirmLaunch(s, station, lease); o.Done? ==> o.state.topics == s.topics
  {
  }

  lemma CompactMirrors(s: State)
    ensures Compact(s).topics == s.topics
  {
  }

  lemma IssueMirrors(s: State, token: Token, topic: TopicId, lease: RunId, uid: nat)
    ensures var o := IssueCapability(s, token, topic, lease, uid); o.Done? ==> o.state.topics == s.topics
  {
  }

  lemma {:induction false} RunMirrors(states: seq<State>, ops: seq<Op>, i: nat)
    requires hide Apply; true
    requires Execution(states, ops) && i < |states| && forall j | 0 <= j < i :: !Unattended(states[j], ops[j])
    ensures Mirrored(states[i].topics)
    decreases i
  {
    hide *;
    RunShape(states, ops, i);
    if i == 0 {
      InitialMirrors(states[0]);
    } else {
      RunMirrors(states, ops, i - 1);
      NextMirrors(states, ops, i - 1);
    }
  }

  lemma InitialMirrors(s: State)
    requires Initial(s)
    ensures Mirrored(s.topics)
  {
  }

  lemma NextMirrors(states: seq<State>, ops: seq<Op>, i: nat)
    requires hide Apply; true
    requires Execution(states, ops) && i < |ops| && Mirrored(states[i].topics) && !Unattended(states[i], ops[i])
    ensures Mirrored(states[i + 1].topics)
  {
    hide Apply, Allowed, Initial, Good;
    RunSafe(states, ops, i);
    StepMirrorsIff(states[i], ops[i]);
  }

  /** The review state a topic's reviews call for. */
  ghost predicate Reflects(episodes: map<EpisodeId, Episode>, t: TopicId, review: Review) {
    if exists e :: e in episodes && episodes[e].topic == t && Open(episodes[e].state)
    then exists e ::
      e in episodes && episodes[e].topic == t && Open(episodes[e].state) && review == Mirror(episodes[e].state)
    else review == Eligible
  }

  /** As long as no unattended orphan was parked, a topic's review state says exactly what its one open review does:
      `checkpoint_due` while it is due, running or waiting, the review's own hold otherwise, and `eligible` when none is
      open. */
  lemma ReviewStateExact(states: seq<State>, ops: seq<Op>, i: nat, t: TopicId)
    requires hide Apply; true
    requires Execution(states, ops) && i < |states| && forall j | 0 <= j < i :: !Unattended(states[j], ops[j])
    requires t in states[i].topics
    ensures Reflects(states[i].episodes, t, states[i].topics[t].review)
  {
    hide Execution;
    RunSafe(states, ops, i);
    RunMirrors(states, ops, i);
    var s := states[i];
    assert TopicPlaced(s.episodes, t, s.topics[t]);
    if s.topics[t].active.None? {
      forall e | e in s.episodes && s.episodes[e].topic == t ensures !Open(s.episodes[e].state) {
        assert EpisodePlaced(s.topics, e, s.episodes[e]);
      }
    } else {
      var e := s.topics[t].active.value;
      assert e in s.episodes && s.episodes[e].topic == t && Open(s.episodes[e].state)
        && s.topics[t].review == Mirror(s.episodes[e].state);
    }
  }
}
