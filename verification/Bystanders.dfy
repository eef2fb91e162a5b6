/** Transactions other than a decision's own leave decisions, proposals on record and item locks alone. */
module Bystanders {
  import opened Common
  import opened ControlRecords
  import opened Scheduler
  import opened Checkpoints
  import opened EpisodeSteps
  import opened Ledger
  import opened LedgerSteps
  import opened Runs
  import Dealing

  /** Every item after has an item before with the same id and lock. */
  ghost predicate LocksWithin(after: seq<Item>, before: seq<Item>) {
    forall i | i in after :: exists j :: j in before && j.id == i.id && j.lock == i.lock
  }

  ghost predicate Bystander(s: State, t: State) {
    && t.intents == s.intents && t.decisions == s.decisions && t.history.replaced == s.history.replaced
    && t.revision >= s.revision
    && LocksWithin(t.items, s.items)
    && (forall p | p in s.proposals :: p in t.proposals && t.proposals[p] == s.proposals[p])
  }

  lemma SameLocks(items: seq<Item>)
    ensures LocksWithin(items, items)
  {
  }

  /** The step touches none of these parts. */
  predicate Untouched(s: State, t: State) {
    && t.intents == s.intents && t.decisions == s.decisions && t.items == s.items && t.proposals == s.proposals
    && t.history.replaced == s.history.replaced && t.revision == s.revision
  }

  lemma UntouchedBystander(s: State, t: State)
    requires Untouched(s, t)
    ensures Bystander(s, t)
  {
    SameLocks(s.items);
  }

  lemma CommitBystander(s: State, t: State)
    requires Bystander(s, t) && t.revision == s.revision
    ensures Bystander(s, Commit(s, t))
  {
  }

  lemma AfterBystander<T>(s: State, o: Outcome<T>)
    requires o.Done? ==> Bystander(s, o.state) && o.state.revision == s.revision
    ensures Bystander(s, After(s, o))
  {
    if o.Done? { CommitBystander(s, o.state); } else { SameLocks(s.items); }
  }

  lemma AfterUntouched<T>(s: State, o: Outcome<T>)
    requires o.Done? ==> Untouched(s, o.state)
    ensures Bystander(s, After(s, o))
  {
    if o.Done? { UntouchedBystander(s, o.state); }
    AfterBystander(s, o);
  }

  // ---------- Transactions that move items ----------

  lemma ItemMoves(items: seq<Item>, i: nat, item: Item)
    requires i < |items| && item.id == items[i].id && item.lock == items[i].lock
    ensures LocksWithin(items[i := item], items)
  {
    forall x | x in items[i := item] ensures exists j :: j in items && j.id == x.id && j.lock == x.lock {
      if x == item { assert items[i] in items; }
    }
  }

  lemma ReconcileBystander(s: State, t: State, now: Time)
    requires Bystander(s, t) && t.revision == s.revision
    ensures Bystander(s, Reconcile(t, now)) && Reconcile(t, now).revision == s.revision
  {
    Dealing.ReconcileFrame(t, now);
  }

  lemma ReleaseItemLocks(items: seq<Item>, lease: Lease)
    ensures LocksWithin(ReleaseItem(items, lease), items)
  {
    FirstItemIndex(items, lease.topic);
    match FirstItem(items, lease.topic)
    case None => SameLocks(items);
    case Some(i) => ItemMoves(items, i, ReleasedItem(items[i], lease.kind));
  }

  lemma ItemsBystander(s: State, t: State, items: seq<Item>)
    requires Untouched(s, t) && LocksWithin(items, s.items)
    ensures Bystander(s, t.(items := items))
  {
  }

  lemma ReleaseBystander(s: State, k: nat, now: Time, pacing: Option<Time>, retry: Option<Time>)
    requires k < |s.seats| && s.seats[k].current.Some?
    ensures Bystander(s, Release(s, k, now, pacing, retry))
  {
    ReleaseItemLocks(s.items, s.seats[k].current.value);
    var t := Release(s, k, now, pacing, retry);
    ItemsBystander(s, t.(items := s.items), t.items);
    assert t == t.(items := s.items).(items := t.items);
  }

  lemma FinalizeBystander(s: State, station: nat, lease: RunId, now: Time, pacing: Option<Time>, retry: Option<Time>)
    requires hide *; true
    requires |s.seats| == MAX_STATIONS
    ensures Bystander(s, After(s, Finalize(s, station, lease, now, pacing, retry)))
  {
    var o := Finalize(s, station, lease, now, pacing, retry);
    if o.Done? {
      ReleaseBystander(s, station - 1, now, pacing, retry);
      ReconcileBystander(s, Compact(Release(s, station - 1, now, pacing, retry)), now);
    }
    AfterBystander(s, o);
  }

  lemma RearrangedLocks(items: seq<Item>, order: seq<TopicId>)
    requires forall id | id in order :: ItemNamed(items, id).Some?
    ensures LocksWithin(Rearranged(items, order), items)
  {
    forall x | x in Rearranged(items, order) ensures x in items {
      var i :| 0 <= i < |order| && Rearranged(items, order)[i] == x;
      assert order[i] in order;
      NamedExists(items, order[i]);
    }
  }

  lemma ReorderBystander(s: State, order: seq<TopicId>, expected: nat, now: Time)
    ensures Bystander(s, After(s, Reorder(s, order, expected, now)))
  {
    hide Reconcile;
    var o := Reorder(s, order, expected, now);
    if o.Done? {
      forall id | id in order ensures ItemNamed(s.items, id).Some? {
        assert id in Elements(order);
        NamedExists(s.items, id);
      }
      RearrangedLocks(s.items, order);
      ReconcileBystander(s, s.(items := Rearranged(s.items, order), queueRevision := s.queueRevision + 1), now);
    }
    AfterBystander(s, o);
  }

  lemma SidelineBystander(s: State, t: TopicId, kind: Kind)
    ensures Bystander(s, Sidelined(s, t, kind)) && Sidelined(s, t, kind).revision == s.revision
  {
    FirstItemIndex(s.items, t);
    match FirstItem(s.items, t)
    case None => SameLocks(s.items);
    case Some(i) => ItemMoves(s.items, i, s.items[i].(status := Attention, wanted := WantPaused));
  }

  lemma EndRunBystander(s: State, t: State, o: State)
    requires Bystander(s, t) && o == t.(capabilities := o.capabilities, runs := o.runs)
    ensures Bystander(s, o) && o.revision == t.revision
  {
  }

  lemma BystanderTwice(a: State, b: State, c: State)
    requires Untouched(a, b) && Bystander(b, c)
    ensures Bystander(a, c)
  {
  }

  lemma SeatsUntouched(s: State, seats: seq<Seat>)
    ensures Untouched(s, s.(seats := seats))
  {
  }

  lemma VacatedBystander(s: State, orphan: Lease, now: Time)
    requires SitsAt(s, orphan)
    ensures var s2 := Reconcile(Sidelined(s.(seats := Vacated(s.seats, orphan.station - 1)), orphan.topic, orphan.kind),
            now);
            Bystander(s, s2) && s2.revision == s.revision
  {
    var s1 := s.(seats := Vacated(s.seats, orphan.station - 1));
    SidelineBystander(s1, orphan.topic, orphan.kind);
    ReconcileBystander(s1, Sidelined(s1, orphan.topic, orphan.kind), now);
    SeatsUntouched(s, s1.seats);
    BystanderTwice(s, s1, Reconcile(Sidelined(s1, orphan.topic, orphan.kind), now));
  }

  lemma OrphanIs(s: State, orphan: Lease, now: Time)
    requires SitsAt(s, orphan)
    ensures var o := ParkOrphan(s, orphan, now);
            o == Reconcile(Sidelined(s.(seats := Vacated(s.seats, orphan.station - 1)), orphan.topic, orphan.kind),
              now).(
                   capabilities := o.capabilities, runs := o.runs)
  {
    hide Reconcile;
  }

  lemma SeatedOrphanBystander(s: State, orphan: Lease, now: Time)
    requires SitsAt(s, orphan)
    ensures Bystander(s, ParkOrphan(s, orphan, now)) && ParkOrphan(s, orphan, now).revision == s.revision
  {
    var s2 := Reconcile(Sidelined(s.(seats := Vacated(s.seats, orphan.station - 1)), orphan.topic, orphan.kind), now);
    VacatedBystander(s, orphan, now);
    OrphanIs(s, orphan, now);
    EndRunBystander(s, s2, ParkOrphan(s, orphan, now));
  }

  lemma OrphanBystander(s: State, orphan: Lease, now: Time)
    ensures Bystander(s, Commit(s, ParkOrphan(s, orphan, now)))
  {
    if SitsAt(s, orphan) { SeatedOrphanBystander(s, orphan, now); } else {
      SidelineBystander(s, orphan.topic, orphan.kind);
    }
    CommitBystander(s, ParkOrphan(s, orphan, now));
  }

  // ---------- Transactions that move reviews ----------

  lemma WithIssuedKeepsRecords(s: State, e: EpisodeId, t: TopicId, ds: seq<Draft>)
    requires forall d | d in ds :: d.id !in s.proposals
    ensures Bystander(s, WithIssued(s, e, t, ds))
  {
    IssuedProposals(s.proposals, e, t, ds);
    assert forall i | 0 <= i < |ds| :: DraftIds(ds)[i] == ds[i].id && ds[i] in ds;
    SameLocks(s.items);
  }

  lemma ReportedBystander(s: State, r: Report)
    requires r.episode in s.episodes && WithinMeans(s, r)
    ensures Bystander(s, Reported(s, r, EndState(s.episodes[r.episode], r)))
    ensures Reported(s, r, EndState(s.episodes[r.episode], r)).revision == s.revision
  {
    hide Bystander, Untouched, FinishedState, Handled;
    var st, ep := EndState(s.episodes[r.episode], r), s.episodes[r.episode];
    var after := FinishedState(s, r, st);
    var handled := Handled(after, ep.triggers);
    FinishedUntouched(s, r, st, ep.triggers);
    UntouchedBystander(s, after);
    UntouchedBystander(s, handled);
    if st == Awaiting {
      WithIssuedKeepsRecords(handled, r.episode, ep.topic, r.drafts);
      BystanderTwice(s, handled, WithIssued(handled, r.episode, ep.topic, r.drafts));
    }
  }

  lemma FinishedUntouched(s: State, r: Report, st: EpisodeState, keys: seq<TriggerKey>)
    requires r.episode in s.episodes
    ensures Untouched(s, FinishedState(s, r, st)) && Untouched(s, Handled(FinishedState(s, r, st), keys))
    ensures FinishedState(s, r, st).revision == s.revision
            && Handled(FinishedState(s, r, st), keys).revision == s.revision
    ensures Handled(FinishedState(s, r, st), keys).proposals == s.proposals
  {
  }

  lemma FinishBystander(s: State, r: Report, digest: Digest)
    ensures Bystander(s, After(s, FinishCheckpoint(s, r, digest)))
  {
    var o := FinishCheckpoint(s, r, digest);
    if o.Done? {
      assert Untouched(s, Conclude(s, r.run));
      if s.episodes[r.episode].resultOf == Some(r.run) {
        UntouchedBystander(s, Conclude(s, r.run));
      } else {
        FinishChecks(s, r, digest);
        ReportedBystander(Conclude(s, r.run), r);
        BystanderTwice(s, Conclude(s, r.run), o.state);
      }
    }
    AfterBystander(s, o);
  }

  lemma CountUntouched(s: State, t: TopicId, run: RunId, station: nat, v: Version, deepening: bool, now: Time,
                       e: EpisodeId)
    ensures Untouched(s, CountRun(s, t, run, station, v, deepening, now, e).state)
  {
  }

  lemma RejectUntouched(s: State, t: TopicId, run: RunId, station: nat, v: Version, now: Time)
    ensures Untouched(s, RejectRun(s, t, run, station, v, now).state)
  {
  }

  lemma AcceptUntouched(s: State, t: TopicId, run: RunId, station: nat, v: Version, accepted: bool, deepening: bool,
                        now: Time, e: EpisodeId)
    ensures var o := Accept(s, t, run, station, v, accepted, deepening, now, e); o.Done? ==> Untouched(s, o.state)
  {
    AcceptEffect(s, t, run, station, v, accepted, deepening, now, e);
    CountUntouched(s, t, run, station, v, deepening, now, e);
    RejectUntouched(s, t, run, station, v, now);
  }

  lemma GrantFrame(s: State, station: nat, now: Time, uuid: RunId)
    requires |s.seats| == MAX_STATIONS && ValidStation(station)
    ensures var t := Granted(s, station, now, uuid).state;
            t == s.(seats := t.seats, runs := t.runs, history := t.history) && t.history.replaced == s.history.replaced
  {
  }

  lemma ClaimFrame(s: State, station: nat, now: Time, uuid: RunId)
    requires |s.seats| == MAX_STATIONS
    ensures var o := Claim(s, station, now, uuid);
            o.Done? ==>
              && o.state == s.(seats := o.state.seats, topics := o.state.topics, runs := o.state.runs,
                   history := o.state.history)
              && o.state.history.replaced == s.history.replaced
  {
    hide Reconcile;
    Dealing.ReconcileFrame(s, now);
    if ValidStation(station) { GrantFrame(Reconcile(s, now), station, now, uuid); }
  }

  lemma SchedulerUntouched(s: State, t: State)
    requires t == s.(seats := t.seats, topics := t.topics, runs := t.runs, history := t.history)
    requires t.history.replaced == s.history.replaced
    ensures Untouched(s, t)
  {
  }

  lemma EpisodesUntouched(s: State, t: State)
    requires t == s.(episodes := t.episodes)
    ensures Untouched(s, t)
  {
  }

  lemma EpisodesAfter<T>(s: State, o: Outcome<T>)
    requires o.Done? ==> o.state == s.(episodes := o.state.episodes)
    ensures Bystander(s, After(s, o))
  {
    if o.Done? { EpisodesUntouched(s, o.state); }
    AfterUntouched(s, o);
  }

  lemma StallBystander(s: State, t: TopicId, v: Version, e: EpisodeId)
    ensures Bystander(s, After(s, StallCheckpoint(s, t, v, e)))
  {
    var o := StallCheckpoint(s, t, v, e);
    if o.Done? {
      assert o.state == s.(topics := o.state.topics, episodes := o.state.episodes, triggers := o.state.triggers);
    }
    AfterUntouched(s, o);
  }

  lemma ResetBystander(s: State, request: RequestId, r: ResetRequest)
    ensures Bystander(s, After(s, ResetAllowance(s, request, r)))
  {
    var o := ResetAllowance(s, request, r);
    if o.Done? {
      assert o.state == s.(topics := o.state.topics, resetRequests := o.state.resetRequests,
        history := o.state.history);
    }
    AfterUntouched(s, o);
  }

  lemma RetryBystander(s: State, request: RequestId, r: RetryRequest)
    ensures Bystander(s, After(s, RetryCheckpoint(s, request, r)))
  {
    var o := RetryCheckpoint(s, request, r);
    if o.Done? {
      assert o.state == s.(topics := o.state.topics, episodes := o.state.episodes,
        retryRequests := o.state.retryRequests);
    }
    AfterUntouched(s, o);
  }

  lemma FailBystander(s: State, t: TopicId, lease: RunId, known: Option<EpisodeId>, infra: bool, now: Time)
    ensures Bystander(s, Commit(s, ParkFailed(s, t, lease, known, infra, now)))
  {
    UntouchedBystander(s, ParkFailed(s, t, lease, known, infra, now));
    CommitBystander(s, ParkFailed(s, t, lease, known, infra, now));
  }

  lemma IssueBystander(s: State, token: Token, topic: TopicId, lease: RunId, uid: nat)
    ensures Bystander(s, After(s, IssueCapability(s, token, topic, lease, uid)))
  {
    var o := IssueCapability(s, token, topic, lease, uid);
    if o.Done? { CapabilitiesUntouched(s, o.state); }
    AfterUntouched(s, o);
  }

  lemma CapabilitiesUntouched(s: State, t: State)
    requires t == s.(capabilities := t.capabilities)
    ensures Untouched(s, t)
  {
  }

  lemma RevokeBystander(s: State, lease: RunId)
    ensures Bystander(s, Commit(s, s.(capabilities := Revoke(s.capabilities, lease))))
  {
    var t := s.(capabilities := Revoke(s.capabilities, lease));
    UntouchedBystander(s, t);
    CommitBystander(s, t);
  }

  lemma ClaimBystander(s: State, station: nat, now: Time, uuid: RunId)
    requires |s.seats| == MAX_STATIONS
    ensures Bystander(s, After(s, Claim(s, station, now, uuid)))
  {
    hide *;
    ClaimFrame(s, station, now, uuid);
    var o := Claim(s, station, now, uuid);
    if o.Done? { SchedulerUntouched(s, o.state); }
    AfterUntouched(s, o);
  }

  lemma ConfirmBystander(s: State, station: nat, lease: RunId)
    requires |s.seats| == MAX_STATIONS
    ensures Bystander(s, After(s, ConfirmLaunch(s, station, lease)))
  {
    AfterUntouched(s, ConfirmLaunch(s, station, lease));
  }

  lemma CompactBystander(s: State)
    ensures Bystander(s, Commit(s, Compact(s)))
  {
    UntouchedBystander(s, Compact(s));
    CommitBystander(s, Compact(s));
  }

  lemma ScaleBystander(s: State, active: Option<nat>, policy: Option<Policy>, now: Time)
    ensures Bystander(s, After(s, UpdateStations(s, active, policy, now)))
  {
    hide Reconcile;
    SameLocks(s.items);
    ReconcileBystander(s, Configured(s, active, policy), now);
    AfterBystander(s, UpdateStations(s, active, policy, now));
  }

  lemma DealBystander(s: State, now: Time)
    ensures Bystander(s, Commit(s, Reconcile(s, now)))
  {
    hide Reconcile;
    SameLocks(s.items);
    ReconcileBystander(s, s, now);
    CommitBystander(s, Reconcile(s, now));
  }

  /** Every transaction but a decision's own, and but queue edits, is a bystander to decisions. */
  lemma StepBystander(s: State, op: Op)
    requires hide *; true
    requires |s.seats| == MAX_STATIONS && !op.Intending? && !op.Committing? && !op.Editing?
    ensures Bystander(s, Apply(s, op))
  {
    hide *;
    ApplyIs(s, op);
    match op
    case Reconciling(now) => DealBystander(s, now);
    case Claiming(station, now, uuid) => ClaimBystander(s, station, now, uuid);
    case Finalizing(station, lease, now, pacing, retry) => FinalizeBystander(s, station, lease, now, pacing, retry);
    case Confirming(station, lease) => ConfirmBystander(s, station, lease);
    case Compacting => CompactBystander(s);
    case Reordering(order, expected, now) => ReorderBystander(s, order, expected, now);
    case Scaling(active, policy, now) => ScaleBystander(s, active, policy, now);
    case Issuing(token, topic, lease, uid) => IssueBystander(s, token, topic, lease, uid);
    case Revoking(lease) => RevokeBystander(s, lease);
    case Accepting(t, run, station, v, accepted, deepening, now, e) =>
      AcceptUntouched(s, t, run, station, v, accepted, deepening, now, e);
      AfterUntouched(s, Accept(s, t, run, station, v, accepted, deepening, now, e));
    case Stalling(t, v, e) => StallBystander(s, t, v, e);
    case Starting(e, run, digest, prior) =>
      StartFrame(s, e, run, digest, prior); EpisodesAfter(s, StartCheckpoint(s, e, run, digest, prior));
    case Reserving(e, lease, k, role, token) =>
      ReserveFrame(s, e, lease, k, role, token); EpisodesAfter(s, ReserveDelegate(s, e, lease, k, role, token));
    case Recording(e, k, exit, output, complete) =>
      RecordFrame(s, e, k, exit, output, complete); EpisodesAfter(s, RecordDelegate(s, e, k, exit, output, complete));
    case Finishing(r, digest) => FinishBystander(s, r, digest);
    case Failing(t, lease, known, infra, now) => FailBystander(s, t, lease, known, infra, now);
    case Orphaning(orphan, now) => OrphanBystander(s, orphan, now);
    case Resetting(request, r) => ResetBystander(s, request, r);
    case Retrying(request, r) => RetryBystander(s, request, r);
    case _ =>
  }
}
