/** What a transaction does, seen from outside: the states before and after it, and what its caller gets. */
module Effects {
  import opened Common
  import opened ControlRecords
  import opened Scheduler
  import opened Checkpoints
  import opened Episodes
  import opened Ledger
  import opened Reviews
  import opened ReviewSteps
  import Dealing

  // ---------- Scheduling ----------

  /** A station that no longer counts drains the lease it still holds; every topic the queue wants looked at gets a
      record, and nothing else about stations but what they are dealt moves. */
  lemma ReconcileDrains(s: State, now: Time, k: nat)
    requires k < |s.seats|
    ensures var a, b, surplus := s.seats[k], Reconcile(s, now).seats[k],
              !s.paused && !s.stopping && k >= s.active && s.seats[k].current.Some?;
            && b == a.(desired := b.desired, draining := b.draining, handoff := b.handoff)
            && (b.draining <==> a.draining || surplus) && (b.handoff <==> a.handoff || surplus)
            && (s.paused || s.stopping ==> b.desired.None?)
  {
  }

  /** The station may get a lease now: it counts, holds none and does not rest. */
  predicate Free(s: State, station: nat, now: Time)
    requires 1 <= station <= |s.seats|
  {
    && station <= s.active && s.seats[station - 1].current.None?
    && (s.seats[station - 1].restUntil.Some? ==> s.seats[station - 1].restUntil.value <= now)
  }

  /** A free station gets a new lease exactly on what it is dealt, unless the topic waits for a retry or runs elsewhere;
      a station that holds a lease resumes it exactly while it counts, does not rest, and the queue runs. */
  lemma ClaimGives(s: State, station: nat, now: Time, uuid: RunId)
    requires |s.seats| == MAX_STATIONS && 1 <= station <= MAX_STATIONS
    ensures var o, d, seat := Claim(s, station, now, uuid), Reconcile(s, now).seats[station - 1].desired,
              s.seats[station - 1];
            && o.Done?
            && (o.value.Minted? <==>
                  && Free(s, station, now) && d.Some?
                  && (d.value.topic in s.topics && s.topics[d.value.topic].retryAt.Some? ==>
                        s.topics[d.value.topic].retryAt.value <= now)
                  && (forall k | 0 <= k < MAX_STATIONS && k != station - 1 && s.seats[k].current.Some? ::
                        s.seats[k].current.value.topic != d.value.topic))
            && (o.value.Resumed? <==>
                  && station <= s.active && seat.current.Some? && !s.paused && !s.stopping
                  && (seat.restUntil.Some? ==> seat.restUntil.value <= now))
            && (o.value.Resumed? ==> Some(o.value.lease) == seat.current)
  {
    var r := Reconcile(s, now);
    Dealing.ReconcileFrame(s, now);
    assert r.seats[station - 1].current == s.seats[station - 1].current;
    if station <= s.active && !Later(s.seats[station - 1].restUntil, now) {
      GrantGives(s, r, station, now, uuid);
    }
  }

  lemma GrantGives(s: State, r: State, station: nat, now: Time, uuid: RunId)
    requires |s.seats| == MAX_STATIONS && 1 <= station <= MAX_STATIONS && r == Reconcile(s, now)
    requires station <= s.active && !Later(s.seats[station - 1].restUntil, now)
    ensures var o, d, seat := Granted(r, station, now, uuid), r.seats[station - 1].desired, s.seats[station - 1];
            && o.Done?
            && (o.value.Minted? <==>
                  && seat.current.None? && d.Some?
                  && (d.value.topic in s.topics && s.topics[d.value.topic].retryAt.Some? ==>
                        s.topics[d.value.topic].retryAt.value <= now)
                  && (forall k | 0 <= k < MAX_STATIONS && k != station - 1 && s.seats[k].current.Some? ::
                        s.seats[k].current.value.topic != d.value.topic))
            && (o.value.Resumed? <==> seat.current.Some? && !s.paused && !s.stopping)
            && (o.value.Resumed? ==> Some(o.value.lease) == seat.current)
  {
    Dealing.ReconcileFrame(s, now);
    var d := r.seats[station - 1].desired;
    if d.Some? {
      assert TopicOf(r.topics, d.value.topic) == TopicOf(s.topics, d.value.topic);
      assert TakenElsewhere(r.seats, station, d.value.topic) <==>
        exists k | 0 <= k < |s.seats| ::
          k + 1 != station && s.seats[k].current.Some? && s.seats[k].current.value.topic == d.value.topic;
    }
  }

  /** The lease a claim mints, what it leaves on its station and on record, and what it leaves alone. */
  lemma ClaimMints(s: State, station: nat, now: Time, uuid: RunId)
    requires |s.seats| == MAX_STATIONS && 1 <= station <= MAX_STATIONS
    requires Claim(s, station, now, uuid).value.Minted?
    ensures var o, d, g := Claim(s, station, now, uuid).state, Reconcile(s, now).seats[station - 1].desired,
              s.seats[station - 1].generation + 1;
            && d.Some? && |o.seats| == MAX_STATIONS
            && Claim(s, station, now, uuid).value.lease ==
                 Lease(d.value.topic, d.value.kind, station, uuid, g, now, false)
            && o.seats[station - 1].current == Some(Claim(s, station, now, uuid).value.lease)
            && o.seats[station - 1].generation == g && !o.seats[station - 1].draining
            && (forall k | 0 <= k < MAX_STATIONS && k != station - 1 ::
                  o.seats[k].current == s.seats[k].current && o.seats[k].generation == s.seats[k].generation)
            && o.runs == s.runs[uuid := Run(d.value.topic, station, Some(g), Some(d.value.kind), Started, Some(now),
                 None, None, None, false, None, false)]
            && o.items == s.items && o.capabilities == s.capabilities && o.episodes == s.episodes
  {
    hide Reconcile;
    Dealing.ReconcileFrame(s, now);
  }

  /** How an item lands when its lease ends. */
  predicate Lands(before: Item, after: Item, kind: Kind) {
    && after == before.(status := after.status, wanted := after.wanted, claimedBy := after.claimedBy)
    && after.claimedBy.None?
    && (kind == Research ==> after.status == before.status && after.wanted == before.wanted)
    && (kind == Checkpoint && before.wanted != WantRunning ==> after.status == Paused && after.wanted == WantPaused)
    && (kind == Checkpoint && before.wanted == WantRunning ==> after.status == Queued && after.wanted == WantRunning)
  }

  /** The first item of the topic is this one. */
  predicate FirstOf(items: seq<Item>, t: TopicId, i: nat)
    requires i < |items|
  {
    items[i].id == t && forall j | 0 <= j < i :: items[j].id != t
  }

  lemma {:induction false} FirstItemFound(items: seq<Item>, t: TopicId)
    ensures FirstItem(items, t).Some? ==>
              FirstItem(items, t).value < |items| && FirstOf(items, t, FirstItem(items, t).value)
    ensures FirstItem(items, t).None? ==> forall i | 0 <= i < |items| :: items[i].id != t
  {
    if items != [] && items[0].id != t {
      FirstItemFound(items[1..], t);
      assert forall i | 1 <= i < |items| :: items[i] == items[1..][i - 1];
    }
  }

  lemma ItemLands(items: seq<Item>, lease: Lease)
    ensures var after := ReleaseItem(items, lease);
            |after| == |items| && forall i: nat | i < |items| ::
              if FirstOf(items, lease.topic, i) then Lands(items[i], after[i], lease.kind) else after[i] == items[i]
  {
    FirstItemFound(items, lease.topic);
    FirstItemIndex(items, lease.topic);
  }

  /** Finalizing frees the station, sets its rest and its topic's retry when given, lands the item, closes the run and
      ends every token of the lease; other stations keep their leases. */
  lemma FinalizeDoes(s: State, station: nat, lease: RunId, now: Time, pacing: Option<Time>, retry: Option<Time>)
    requires hide *; true
    requires |s.seats| == MAX_STATIONS && Finalize(s, station, lease, now, pacing, retry).Done?
    ensures 1 <= station <= MAX_STATIONS && s.seats[station - 1].current.Some?
    ensures var o, l := Finalize(s, station, lease, now, pacing, retry).state, s.seats[station - 1].current.value;
            && l.id == lease && |o.seats| == MAX_STATIONS
            && o.seats[station - 1].current.None? && !o.seats[station - 1].draining && !o.seats[station - 1].handoff
            && o.seats[station - 1].restUntil == (if pacing.Some? then pacing else s.seats[station - 1].restUntil)
            && (forall k | 0 <= k < MAX_STATIONS && k != station - 1 ::
                  o.seats[k].current == s.seats[k].current && o.seats[k].restUntil == s.seats[k].restUntil)
            && (forall t :: TopicOf(o.topics, t) ==
                  if t == l.topic && retry.Some? then TopicOf(s.topics, t).(retryAt := retry)
                  else TopicOf(s.topics, t))
            && |o.items| == |s.items|
            && (forall i: nat | i < |s.items| ::
                  if FirstOf(s.items, l.topic, i) then Lands(s.items[i], o.items[i], l.kind)
                  else o.items[i] == s.items[i])
            && (forall d | d in o.capabilities :: d in s.capabilities && o.capabilities[d] == s.capabilities[d]
                  && o.capabilities[d].lease != lease)
            && (forall r | r in o.runs :: r in s.runs && o.runs[r] ==
                  if r == lease && s.runs[r].state == Started
                  then s.runs[r].(state := Finished, endedAt := Some(now),
                                  withoutAccounting := s.runs[r].result.None?)
                  else s.runs[r])
  {
    hide Reconcile;
    var s1 := Release(s, station - 1, now, pacing, retry);
    var s2 := Compact(s1);
    ItemLands(s.items, s.seats[station - 1].current.value);
    Dealing.ReconcileFrame(s2, now);
    ReconcileDrains(s2, now, station - 1);
    forall t ensures TopicOf(Reconcile(s2, now).topics, t) == TopicOf(s1.topics, t) { }
  }

  /** The operator's order holds afterwards: the same items, in that order. */
  lemma ReorderDoes(s: State, order: seq<TopicId>, expected: nat, now: Time)
    requires Reorder(s, order, expected, now).Done?
    ensures var o := Reorder(s, order, expected, now).state;
            && expected == s.queueRevision && o.queueRevision == expected + 1
            && Ids(o.items) == order && forall i | i in o.items :: i in s.items
  {
    forall id | id in order ensures ItemNamed(s.items, id).Some? {
      assert id in Elements(order);
      NamedExists(s.items, id);
    }
    var items := Rearranged(s.items, order);
    forall i | 0 <= i < |items| ensures items[i] in s.items && items[i].id == order[i] {
      assert order[i] in order;
      NamedExists(s.items, order[i]);
    }
    Dealing.ReconcileFrame(s.(items := items, queueRevision := s.queueRevision + 1), now);
  }

  // ---------- Research accounting ----------

  /** What a completion finds on record, and whether it can be accounted now. */
  predicate Accountable(s: State, t: TopicId, run: RunId) {
    if run in s.runs then s.runs[run].topic == t && (s.runs[run].result.Some? || s.runs[run].state == Started)
    else t !in s.pruned || s.pruned[t] == 0 || LeaseOf(s, t, run).Some?
  }

  /** A completion is accounted exactly when its inventory is known and its run is still open, already accounted, or
      nowhere on record although nothing of the topic was pruned or its lease is current. */
  lemma AcceptIff(s: State, t: TopicId, run: RunId, station: nat, v: Version, accepted: bool, deepening: bool,
                  now: Time, uuid: EpisodeId)
    ensures Accept(s, t, run, station, v, accepted, deepening, now, uuid).Done? <==>
              v != Unset && Accountable(s, t, run)
  {
  }

  /** What the first accounting of a run leaves on the run, and that the caller gets what is stored. */
  predicate RunClosed(s: State, o: State, t: TopicId, run: RunId, station: nat, now: Time, a: Accounting) {
    && run in o.runs && o.runs == s.runs[run := o.runs[run]]
    && o.runs[run].topic == t && o.runs[run].station == station && o.runs[run].state == Finished
    && o.runs[run].endedAt == Some(now) && o.runs[run].accepted == Some(a.accepted)
    && o.runs[run].accounted == a.accepted && o.runs[run].ordinal == a.ordinal && o.runs[run].result == Some(a)
    && (run in s.runs ==>
          && o.runs[run].generation == s.runs[run].generation && o.runs[run].kind == s.runs[run].kind
          && o.runs[run].startedAt == s.runs[run].startedAt)
  }

  /** The first accounting of a run: a rejected one records the inventory and nothing else; an accepted one moves the
      count, and answers with the ordinal, the count, the next ordinal and the topic's active review. */
  lemma AcceptAnswers(s: State, t: TopicId, run: RunId, station: nat, v: Version, accepted: bool, deepening: bool,
                      now: Time, uuid: EpisodeId)
    requires v != Unset && Accountable(s, t, run) && (run in s.runs ==> s.runs[run].result.None?)
    ensures Accounted(s, Accept(s, t, run, station, v, accepted, deepening, now, uuid), t, run, station, v, accepted,
                      now)
  {
    if accepted {
      CountAnswers(s, t, run, station, v, deepening, now, uuid);
    } else {
      RejectAnswers(s, t, run, station, v, now);
    }
    hide Accounted, CountRun, RejectRun;
  }

  ghost predicate Accounted(s: State, r: Outcome<Accounting>, t: TopicId, run: RunId, station: nat, v: Version,
                            accepted: bool, now: Time) {
    && r.Done? && t in r.state.topics
    && var o, a, before, after := r.state, r.value, TopicOf(s.topics, t), r.state.topics[t];
       && a.topic == t && a.run == run && a.accepted == accepted && RunClosed(s, o, t, run, station, now, a)
       && a.completed == after.completed && a.next == after.next && a.episode == after.active
       && after.inventory == v && after.allowance == before.allowance && after.retryAt == before.retryAt
       && (accepted ==>
             && a.ordinal == Some(before.completed + 1) && after.completed == before.completed + 1
             && after.next == before.completed + 2 && after.lastAccepted == Some(run))
       && (!accepted ==>
             && a.ordinal.None? && after == before.(inventory := v) && o.triggers == s.triggers
             && o.episodes == s.episodes)
       && (forall q | q != t :: TopicOf(o.topics, q) == TopicOf(s.topics, q))
  }

  lemma CountAnswers(s: State, t: TopicId, run: RunId, station: nat, v: Version, deepening: bool, now: Time,
                     uuid: EpisodeId)
    ensures Accounted(s, CountRun(s, t, run, station, v, deepening, now, uuid), t, run, station, v, true, now)
  {
  }

  lemma RejectAnswers(s: State, t: TopicId, run: RunId, station: nat, v: Version, now: Time)
    ensures Accounted(s, RejectRun(s, t, run, station, v, now), t, run, station, v, false, now)
  {
  }

  predicate Cadent(p: Policy, n: nat) { p.enabled && p.every > 0 && n % p.every == 0 }

  predicate Deepens(p: Policy, topic: Topic, deepening: bool, v: Version) {
    p.enabled && p.onDeepening && deepening && v !in topic.deepening
  }

  /** The topic's active review is open and lists the trigger, which points at it. */
  predicate Tripped(o: State, key: TriggerKey) {
    && key in o.triggers && key.topic in o.topics && o.topics[key.topic].active.Some?
    && var e := o.topics[key.topic].active.value;
       && e in o.episodes && o.episodes[e].topic == key.topic && Open(o.episodes[e].state)
       && key in o.episodes[e].triggers && o.triggers[key].episode == Some(e)
  }

  /** Of a topic's triggers for its next completion, those were added that the policy asks for, and no other; each goes
      to the topic's open review, and without one no review changes. */
  ghost predicate TrippedExactly(s: State, o: State, t: TopicId, v: Version, deepening: bool) {
    var n, topic := TopicOf(s.topics, t).completed + 1, TopicOf(s.topics, t);
    var cadence, deeper := TriggerKey(t, Cadence, n, v), TriggerKey(t, Deepening, n, v);
    && cadence !in s.triggers && deeper !in s.triggers
    && (cadence in o.triggers <==> Cadent(s.policy, n)) && (cadence in o.triggers ==> Tripped(o, cadence))
    && (deeper in o.triggers <==> Deepens(s.policy, topic, deepening, v))
    && (deeper in o.triggers ==> Tripped(o, deeper))
    && (forall k | k in o.triggers && k !in s.triggers :: k == cadence || k == deeper)
    && (cadence !in o.triggers && deeper !in o.triggers ==>
          o.episodes == s.episodes && t in o.topics && o.topics[t].active == topic.active)
  }

  /** A counted completion adds a cadence trigger exactly at the end of a period, and a deepening trigger exactly for a
      version not seen yet when the policy asks for it. */
  lemma CountTrips(s: State, t: TopicId, run: RunId, station: nat, v: Version, deepening: bool, now: Time,
                   uuid: EpisodeId)
    requires hide ReviewGood, Tallied; true
    requires ReviewGood(s) && uuid !in s.episodes
    ensures TrippedExactly(s, CountRun(s, t, run, station, v, deepening, now, uuid).state, t, v, deepening)
  {
    hide *;
    var keys, moved := CountedTriggers(s, t, v, deepening), CountedTopics(s, t, run, v, deepening);
    CountIsTrip(s, t, run, station, v, deepening, now, uuid);
    var o := CountRun(s, t, run, station, v, deepening, now, uuid).state;
    Parts(s);
    CountedSame(s, t, run, v, deepening);
    KeepTopics(s.topics, moved, s.episodes);
    CountedKeys(s, t, v, deepening);
    TripDoes(s, o, moved, t, keys, uuid);
    ActiveSame(s.topics, moved, t);
    KeysTrip(s, o, keys, t, v, deepening);
  }

  lemma KeysTrip(s: State, o: State, keys: seq<TriggerKey>, t: TopicId, v: Version, deepening: bool)
    requires TriggerInv(s.topics, s.triggers, s.episodes)
    requires var n := TopicOf(s.topics, t).completed + 1;
             var cadence, deeper := TriggerKey(t, Cadence, n, v), TriggerKey(t, Deepening, n, v);
             && (cadence in keys <==> Cadent(s.policy, n))
             && (deeper in keys <==> Deepens(s.policy, TopicOf(s.topics, t), deepening, v))
             && (forall k | k in keys :: k == cadence || k == deeper)
    requires (forall k | k in keys :: Tripped(o, k)) && forall k :: k in o.triggers <==> k in s.triggers || k in keys
    requires keys == [] ==>
               o.episodes == s.episodes && t in o.topics && o.topics[t].active == TopicOf(s.topics, t).active
    ensures TrippedExactly(s, o, t, v, deepening)
  {
    hide Tripped, Cadent, Deepens, TriggerInv, TopicOf;
    OrdinalNew(s, TriggerKey(t, Cadence, TopicOf(s.topics, t).completed + 1, v));
    OrdinalNew(s, TriggerKey(t, Deepening, TopicOf(s.topics, t).completed + 1, v));
    if keys != [] { assert keys[0] in keys; }
  }

  lemma Parts(s: State)
    requires ReviewGood(s)
    ensures EpisodeInv(s.topics, s.episodes) && TriggerInv(s.topics, s.triggers, s.episodes)
  {
  }

  lemma OrdinalNew(s: State, k: TriggerKey)
    requires TriggerInv(s.topics, s.triggers, s.episodes) && k.ordinal == TopicOf(s.topics, k.topic).completed + 1
    ensures k !in s.triggers
  {
    OrdinalsReached(s.topics, s.triggers, s.episodes);
  }

  lemma ActiveSame(a: map<TopicId, Topic>, b: map<TopicId, Topic>, t: TopicId)
    requires SameActive(a, b) && t in b
    ensures b[t].active == TopicOf(a, t).active
  {
  }

  lemma CountedKeys(s: State, t: TopicId, v: Version, deepening: bool)
    ensures var n, keys := TopicOf(s.topics, t).completed + 1, CountedTriggers(s, t, v, deepening);
            var cadence, deeper := TriggerKey(t, Cadence, n, v), TriggerKey(t, Deepening, n, v);
            && (cadence in keys <==> Cadent(s.policy, n))
            && (deeper in keys <==> Deepens(s.policy, TopicOf(s.topics, t), deepening, v))
            && (forall k | k in keys :: k == cadence || k == deeper)
  {
  }

  lemma TripDoes(s: State, o: State, moved: map<TopicId, Topic>, t: TopicId, keys: seq<TriggerKey>, uuid: EpisodeId)
    requires TripStep(s, o, moved, t, keys, uuid) && EpisodeInv(moved, s.episodes) && uuid !in s.episodes
    requires forall k | k in keys :: k.topic == t
    ensures forall k | k in keys :: Tripped(o, k)
    ensures forall k :: k in o.triggers <==> k in s.triggers || k in keys
    ensures t in moved && t in o.topics && (keys == [] ==> o.episodes == s.episodes && o.topics == moved)
  {
    if keys != [] {
      TripAssigns(moved, s.episodes, t, keys, uuid);
      assert TopicPlaced(s.episodes, t, moved[t]);
      var e := TargetEpisode(moved, s.episodes, t, uuid);
      assert o.topics[t].active == Some(e) && Open(o.episodes[e].state);
      forall k | k in keys ensures Tripped(o, k) { assert k in Elements(keys); }
      forall k ensures k in o.triggers <==> k in s.triggers || k in keys { assert k in Elements(keys) <==> k in keys; }
    }
  }

  /** A stalled topic's key of its present count is on record and in its open review, which the caller gets; the
      inventory is noted, and nothing else of the topic moves but its review. */
  lemma StallTrips(s: State, t: TopicId, v: Version, uuid: EpisodeId)
    requires EpisodeInv(s.topics, s.episodes) && uuid !in s.episodes && v != Unset
    ensures var r := StallCheckpoint(s, t, v, uuid);
            && r.Done? && t in r.state.topics
            && var o, key := r.state, TriggerKey(t, Stall, TopicOf(s.topics, t).completed, v);
               && Tripped(o, key) && o.topics[t].active == Some(r.value)
               && o.triggers.Keys == s.triggers.Keys + {key}
               && o.topics[t].(active := None, review := Eligible) ==
                    TopicOf(s.topics, t).(active := None, review := Eligible, inventory := v)
  {
    var moved := s.topics[t := TopicOr(s.topics, t, v).(inventory := v)];
    var key := StallKey(s, t, v);
    VersionKeepsFacts(s.topics, t, v);
    KeepTopics(s.topics, moved, s.episodes);
    var o := StallCheckpoint(s, t, v, uuid).state;
    assert TripStep(s, o, moved, t, [key], uuid);
    TripDoes(s, o, moved, t, [key], uuid);
  }

  // ---------- Checkpoints ----------

  /** A review can be started exactly while it is due or waits for a retry; its own run may start it again. It then
      belongs to that run. */
  lemma StartDoes(s: State, e: EpisodeId, run: RunId, digest: Digest, prior: Option<EpisodeId>)
    requires e in s.episodes
    ensures var r, ep := StartCheckpoint(s, e, run, digest, prior), s.episodes[e];
            && (r.Done? <==> ep.state in {Due, RetryWait} || (ep.state == InReview && ep.run == Some(run)))
            && (r.Done? && ep.state == InReview ==> r.state == s && r.value == ep)
            && (r.Done? && ep.state != InReview ==>
                  && r.value == ep.(state := InReview, run := Some(run), attempts := ep.attempts + [run],
                                    digest := Some(digest), prior := prior)
                  && r.state == s.(episodes := s.episodes[e := r.value]))
  {
  }

  /** A counter of the review finished well and left a complete report. */
  predicate Reviewed(ep: Episode) {
    exists k | k in ep.invocations ::
      && ep.invocations[k].role == Counter && ep.invocations[k].finished && ep.invocations[k].exit == 0
      && ep.invocations[k].output && ep.invocations[k].complete
  }

  /** The report fits the review of a run that has not reported on it yet. */
  predicate Fits(s: State, r: Report)
    requires r.episode in s.episodes
  {
    var ep := s.episodes[r.episode];
    && ep.resultOf != Some(r.run) && ep.state == InReview && ep.run == Some(r.run)
    && r.inventory == ep.inventory && Elements(r.triggers) == Elements(ep.triggers)
  }

  /** A report that says the review is not finished always goes to the operator; a finished one without a counter's
      report and without reuse goes back to the queue. */
  lemma FinishHolds(s: State, r: Report, digest: Digest)
    requires hide *; true
    requires r.episode in s.episodes && WellFormed(r) && Fits(s, r)
    requires !r.complete || (!Reviewed(s.episodes[r.episode]) && r.reuseOf.None?)
    ensures var v, ep := FinishCheckpoint(s, r, digest), s.episodes[r.episode];
            && v.Done? && r.episode in v.state.episodes && ep.topic in v.state.topics
            && v.value == Verdict(r.episode, if r.complete then RetryWait else Parked, 0)
            && v.state.episodes[r.episode] == ep.(results := ep.results + {r.run}, state := v.value.state)
            && v.state.topics[ep.topic] ==
                 TopicOr(s.topics, ep.topic, Unknown).(review := if r.complete then CheckpointDue else NeedsAttention)
            && v.state.triggers == s.triggers && v.state.proposals == s.proposals && v.state.items == s.items
  {
    assert Countered(s.episodes[r.episode]) <==> Reviewed(s.episodes[r.episode]);
  }

  /** Any other report is taken exactly when what it reuses is the completed review offered over the same material, its
      proposals are new, its review's triggers are on record, and the topic's allowance covers them. Then the triggers
      are handled; without proposals the review is complete and the topic eligible, else the operator is asked about
      each of them and the allowance pays. */
  lemma FinishIff(s: State, r: Report, digest: Digest)
    requires hide *; true
    requires r.episode in s.episodes && WellFormed(r) && Fits(s, r) && r.complete
             && (Reviewed(s.episodes[r.episode]) || r.reuseOf.Some?)
    ensures var v, ep := FinishCheckpoint(s, r, digest), s.episodes[r.episode];
            v.Done? <==>
              && (r.reuseOf.Some? ==> r.reuseOf == ep.prior && ep.digest == Some(digest))
              && (forall d | d in r.drafts :: d.id !in s.proposals) && (forall k | k in ep.triggers :: k in s.triggers)
              && |r.drafts| <= TopicOr(s.topics, ep.topic, Unknown).allowance
    ensures FinishCheckpoint(s, r, digest).Done? ==> Concluded(s, FinishCheckpoint(s, r, digest), r)
  {
    assert Countered(s.episodes[r.episode]) <==> Reviewed(s.episodes[r.episode]);
    if FinishCheckpoint(s, r, digest).Done? {
      FinishIsReport(s, r, digest);
      hide FinishCheckpoint, Concluded, Reported;
      ReportConcludes(s, r);
    }
  }

  /** What the report leaves once it is taken. */
  function Taken(s: State, r: Report): Outcome<Verdict>
    requires r.episode in s.episodes
  {
    var st := if r.drafts == [] then CompleteWithoutProposals else Awaiting;
    Done(Reported(Conclude(s, r.run), r, st), Verdict(r.episode, st, |r.drafts|))
  }

  lemma FinishIsReport(s: State, r: Report, digest: Digest)
    requires r.episode in s.episodes && WellFormed(r) && Fits(s, r) && r.complete
             && (Reviewed(s.episodes[r.episode]) || r.reuseOf.Some?) && FinishCheckpoint(s, r, digest).Done?
    ensures FinishCheckpoint(s, r, digest) == Taken(s, r)
    ensures |r.drafts| <= TopicOr(s.topics, s.episodes[r.episode].topic, Unknown).allowance
    ensures forall d | d in r.drafts :: d.id !in s.proposals
  {
    assert Countered(s.episodes[r.episode]) <==> Reviewed(s.episodes[r.episode]);
  }

  lemma ReportConcludes(s: State, r: Report)
    requires r.episode in s.episodes && WellFormed(r)
             && |r.drafts| <= TopicOr(s.topics, s.episodes[r.episode].topic, Unknown).allowance
    requires forall d | d in r.drafts :: d.id !in s.proposals
    ensures Concluded(s, Taken(s, r), r)
  {
    hide Concluded, Taken;
    if r.drafts == [] { QuietConcludes(s, r); } else { AskingConcludes(s, r); }
  }

  lemma QuietConcludes(s: State, r: Report)
    requires r.episode in s.episodes && r.drafts == []
    ensures Concluded(s, Taken(s, r), r)
  {
  }

  lemma AskingConcludes(s: State, r: Report)
    requires r.episode in s.episodes && r.drafts != [] && Distinct(DraftIds(r.drafts))
             && |r.drafts| <= TopicOr(s.topics, s.episodes[r.episode].topic, Unknown).allowance
    requires forall d | d in r.drafts :: d.id !in s.proposals
    ensures Concluded(s, Taken(s, r), r)
  {
    hide IssueProposals, HandleTriggers, Distinct, DraftIds;
    HandledAre(s.triggers, s.episodes[r.episode].triggers);
    IssuedAre(s.proposals, r.episode, s.episodes[r.episode].topic, r.drafts);
  }

  lemma HandledAre(triggers: map<TriggerKey, Trigger>, keys: seq<TriggerKey>)
    ensures HandleTriggers(triggers, keys).Keys == triggers.Keys
    ensures forall k | k in triggers :: HandleTriggers(triggers, keys)[k] ==
              if k in keys then triggers[k].(handled := true) else triggers[k]
  {
  }

  ghost predicate Concluded(s: State, v: Outcome<Verdict>, r: Report)
    requires r.episode in s.episodes && v.Done?
  {
    var ep, o, quiet := s.episodes[r.episode], v.state, r.drafts == [];
    && v.value == Verdict(r.episode, if quiet then CompleteWithoutProposals else Awaiting, |r.drafts|)
    && o.episodes == s.episodes[r.episode := ep.(results := ep.results + {r.run}, state := v.value.state,
                                                 resultOf := Some(r.run), reused := r.reuseOf)]
    && ep.topic in o.topics
    && o.topics == s.topics[ep.topic := o.topics[ep.topic]]
    && (quiet ==> o.topics[ep.topic] == TopicOr(s.topics, ep.topic, Unknown).(active := None, review := Eligible))
    && (!quiet ==>
          && o.topics[ep.topic].allowance + |r.drafts| == TopicOr(s.topics, ep.topic, Unknown).allowance
          && o.topics[ep.topic] == TopicOr(s.topics, ep.topic, Unknown).(review := AwaitingOperator,
               allowance := o.topics[ep.topic].allowance))
    && o.triggers.Keys == s.triggers.Keys
    && (forall k | k in s.triggers ::
          o.triggers[k] == if k in ep.triggers then s.triggers[k].(handled := true) else s.triggers[k])
    && (forall d | d in r.drafts ::
          d.id in o.proposals
          && o.proposals[d.id] == Proposal(r.episode, ep.topic, d.version, d.content, true, None))
    && (forall p | p in o.proposals && p !in s.proposals :: exists d :: d in r.drafts && d.id == p)
    && (forall p | p in s.proposals :: p in o.proposals && o.proposals[p] == s.proposals[p])
  }

  lemma {:induction false} IssuedAre(proposals: map<ProposalId, Proposal>, e: EpisodeId, t: TopicId, ds: seq<Draft>)
    requires Distinct(DraftIds(ds)) && forall d | d in ds :: d.id !in proposals
    ensures var after := IssueProposals(proposals, e, t, ds);
            && (forall d | d in ds :: d.id in after && after[d.id] == Proposal(e, t, d.version, d.content, true, None))
            && (forall p | p in after && p !in proposals :: exists d :: d in ds && d.id == p)
            && (forall p | p in proposals :: p in after && after[p] == proposals[p])
  {
    if ds != [] {
      var rest, d := ds[..|ds| - 1], ds[|ds| - 1];
      assert DraftIds(rest) == DraftIds(ds)[..|ds| - 1];
      IssuedAre(proposals, e, t, rest);
      forall x | x in rest ensures x.id != d.id {
        var i :| 0 <= i < |rest| && rest[i] == x;
        assert DraftIds(ds)[i] == x.id && DraftIds(ds)[|ds| - 1] == d.id;
      }
    }
  }

  /** The review a failed run was about. */
  function About(s: State, t: TopicId, known: Option<EpisodeId>): Option<EpisodeId> {
    if known.Some? then known else if t in s.topics then s.topics[t].active else None
  }

  /** A failed run's review waits ten minutes and is due again when the infrastructure failed for the first or second
      time on it; at the third failure, or any other kind, it goes to the operator. */
  lemma FailDoes(s: State, t: TopicId, lease: RunId, known: Option<EpisodeId>, infra: bool, now: Time)
    ensures var o, e := ParkFailed(s, t, lease, known, infra, now), About(s, t, known);
            && o.topics.Keys == s.topics.Keys && (forall q | q in s.topics && q != t :: o.topics[q] == s.topics[q])
            && (e.Some? && e.value in s.episodes ==>
                  var ep := s.episodes[e.value];
                  var n, again := ep.infraFailures + (if infra then 1 else 0), infra && ep.infraFailures < 2;
                  && o.episodes == s.episodes[e.value :=
                       ep.(state := if again then RetryWait else Parked, infraFailures := n)]
                  && (t in s.topics && again ==>
                        o.topics[t] == s.topics[t].(review := CheckpointDue, retryAt := Some(now + 600)))
                  && (t in s.topics && !again ==> o.topics[t] == s.topics[t].(review := NeedsAttention)))
            && o.items == s.items && o.seats == s.seats && o.triggers == s.triggers && o.proposals == s.proposals
  {
  }

  /** Parking an orphaned lease: its item goes to the operator, and so does the review of a checkpoint; its station, if
      it still sits there, is free and dealt again; its tokens are revoked and its run is closed. */
  lemma OrphanDoes(s: State, lease: Lease, now: Time)
    ensures var o := ParkOrphan(s, lease, now);
            && |o.seats| == |s.seats|
            && (forall k | 0 <= k < |s.seats| ::
                  o.seats[k].current ==
                    if k == lease.station - 1 && s.seats[k].current.Some? && s.seats[k].current.value.id == lease.id
                    then None else s.seats[k].current)
            && |o.items| == |s.items|
            && (forall i: nat | i < |s.items| ::
                  o.items[i] == if FirstOf(s.items, lease.topic, i)
                                then s.items[i].(status := Attention, wanted := WantPaused) else s.items[i])
            && (forall d | d in s.capabilities :: d in o.capabilities && o.capabilities[d] ==
                  if s.capabilities[d].lease == lease.id then s.capabilities[d].(revoked := true)
                  else s.capabilities[d])
            && o.capabilities.Keys == s.capabilities.Keys && o.runs.Keys == s.runs.Keys
            && (forall r | r in s.runs :: o.runs[r] ==
                  if r == lease.id && s.runs[r].state == Started
                  then s.runs[r].(state := Finished, endedAt := Some(now),
                                  withoutAccounting := s.runs[r].result.None?)
                  else s.runs[r])
            && (lease.kind == Research ==> o.episodes == s.episodes)
            && (lease.kind == Checkpoint && lease.topic in s.topics ==>
                  && lease.topic in o.topics
                  && o.topics[lease.topic] == s.topics[lease.topic].(review := NeedsAttention)
                  && forall e | e in s.episodes :: e in o.episodes && o.episodes[e] ==
                       if s.topics[lease.topic].active == Some(e) then s.episodes[e].(state := Parked)
                       else s.episodes[e])
  {
    VacancyDoes(s, lease, now);
    VacancySidelines(s, lease, now);
    hide Vacancy;
  }

  predicate ItemsSidelined(s: State, o: State, t: TopicId) {
    && |o.items| == |s.items|
    && (forall i: nat | i < |s.items| ::
          o.items[i] == if FirstOf(s.items, t, i)
                        then s.items[i].(status := Attention, wanted := WantPaused) else s.items[i])
  }

  predicate ReviewSidelined(s: State, o: State, t: TopicId) {
    t in s.topics ==>
      && t in o.topics && o.topics[t] == s.topics[t].(review := NeedsAttention)
      && forall e | e in s.episodes :: e in o.episodes && o.episodes[e] ==
           if s.topics[t].active == Some(e) then s.episodes[e].(state := Parked) else s.episodes[e]
  }

  lemma SidelineDoes(s: State, t: TopicId, kind: Kind)
    ensures ItemsSidelined(s, Sidelined(s, t, kind), t)
    ensures if kind == Checkpoint then ReviewSidelined(s, Sidelined(s, t, kind), t)
            else Sidelined(s, t, kind).episodes == s.episodes
  {
    FirstItemFound(s.items, t);
    FirstItemIndex(s.items, t);
  }

  lemma VacancySidelines(s: State, lease: Lease, now: Time)
    ensures var o := Vacancy(s, lease, now);
            && ItemsSidelined(s, o, lease.topic)
            && if lease.kind == Checkpoint then ReviewSidelined(s, o, lease.topic) else o.episodes == s.episodes
  {
    hide *;
    SidelineDoes(Vacating(s, lease), lease.topic, lease.kind);
    VacancyIs(s, lease, now);
    VacatingFrame(s, lease);
    SidelinedAlike(s, Vacancy(s, lease, now), Vacating(s, lease),
      Sidelined(Vacating(s, lease), lease.topic, lease.kind), lease.topic);
  }

  function Vacating(s: State, lease: Lease): State {
    if SitsAt(s, lease) then s.(seats := Vacated(s.seats, lease.station - 1)) else s
  }

  lemma VacatingFrame(s: State, lease: Lease)
    ensures Vacating(s, lease) == s.(seats := Vacating(s, lease).seats)
  {
    hide SitsAt, Vacated;
  }

  lemma VacancyIs(s: State, lease: Lease, now: Time)
    ensures var o, s2 := Vacancy(s, lease, now), Sidelined(Vacating(s, lease), lease.topic, lease.kind);
            && o.items == s2.items && o.episodes == s2.episodes
            && (lease.topic in s2.topics ==>
                  lease.topic in o.topics && o.topics[lease.topic] == s2.topics[lease.topic])
  {
    var s2 := Sidelined(Vacating(s, lease), lease.topic, lease.kind);
    hide Sidelined;
    Dealing.ReconcileFrame(s2, now);
    assert TopicOf(Reconcile(s2, now).topics, lease.topic) == TopicOf(s2.topics, lease.topic);
  }

  lemma SidelinedAlike(s: State, o: State, s1: State, s2: State, t: TopicId)
    requires s1.items == s.items && s1.topics == s.topics && s1.episodes == s.episodes
    requires o.items == s2.items && o.episodes == s2.episodes
             && (t in s2.topics ==> t in o.topics && o.topics[t] == s2.topics[t])
    ensures ItemsSidelined(s1, s2, t) ==> ItemsSidelined(s, o, t)
    ensures ReviewSidelined(s1, s2, t) ==> ReviewSidelined(s, o, t)
  {
  }

  lemma SidelineFrame(s: State, t: TopicId, kind: Kind)
    ensures var o := Sidelined(s, t, kind); o == s.(items := o.items, topics := o.topics, episodes := o.episodes)
  {
    hide ParkItem, ParkedTopics, ParkedEpisodes;
  }

  lemma RedealFrame(s: State, now: Time)
    ensures |Reconcile(s, now).seats| == |s.seats| && Reconcile(s, now).capabilities == s.capabilities
            && Reconcile(s, now).runs == s.runs
    ensures forall k | 0 <= k < |s.seats| :: Reconcile(s, now).seats[k].current == s.seats[k].current
  {
    hide Reconcile;
    Dealing.ReconcileFrame(s, now);
  }

  lemma VacancyDoes(s: State, lease: Lease, now: Time)
    ensures var o := Vacancy(s, lease, now);
            && |o.seats| == |s.seats| && o.capabilities == s.capabilities && o.runs == s.runs
            && (forall k | 0 <= k < |s.seats| ::
                  o.seats[k].current ==
                    if k == lease.station - 1 && s.seats[k].current.Some? && s.seats[k].current.value.id == lease.id
                    then None else s.seats[k].current)
  {
    hide Reconcile, Sidelined;
    SidelineFrame(s, lease.topic, lease.kind);
    if SitsAt(s, lease) {
      SidelineFrame(s.(seats := Vacated(s.seats, lease.station - 1)), lease.topic, lease.kind);
      RedealFrame(Sidelined(s.(seats := Vacated(s.seats, lease.station - 1)), lease.topic, lease.kind), now);
    }
  }

  // ---------- Operator calls ----------

  /** The operator may return a review to the queue exactly when it is the topic's active one and parked or waiting, the
      revision is the present one, and nothing of it is pending, leased or still running. */
  lemma RetryIff(s: State, request: RequestId, r: RetryRequest)
    requires request !in s.retryRequests
    ensures var v := RetryCheckpoint(s, request, r);
            && (v.Done? <==>
                  && s.revision == r.expected && r.topic in s.topics && r.episode in s.episodes
                  && s.episodes[r.episode].topic == r.topic && s.topics[r.topic].active == Some(r.episode)
                  && s.episodes[r.episode].state in {Parked, RetryWait}
                  && (forall p | p in s.proposals && s.proposals[p].episode == r.episode :: !s.proposals[p].pending)
                  && (forall k | 0 <= k < |s.seats| && s.seats[k].current.Some? ::
                        s.seats[k].current.value.topic != r.topic)
                  && (s.intake.Some? ==> s.intake.value.topic != r.topic)
                  && (forall k | k in s.episodes[r.episode].invocations ::
                        s.episodes[r.episode].invocations[k].finished))
            && (v.Done? ==>
                  && v.value == r.episode
                  && v.state == s.(episodes := s.episodes[r.episode := s.episodes[r.episode].(state := RetryWait)],
                                   topics := s.topics[r.topic := s.topics[r.topic].(review := CheckpointDue)],
                                   retryRequests := s.retryRequests[request := r]))
  {
    if r.topic in Executing(s.seats) {
      var k :| 0 <= k < |s.seats| && s.seats[k].current.Some? && s.seats[k].current.value.topic == r.topic;
    }
    if r.episode in s.episodes && PendingFor(s.proposals, r.episode) != {} {
      var p :| p in PendingFor(s.proposals, r.episode);
    }
    if p :| p in s.proposals && s.proposals[p].episode == r.episode && s.proposals[p].pending {
      assert p in PendingFor(s.proposals, r.episode);
    }
  }

  /** The choices name pending proposals of the review in their present version, each once. */
  predicate Choosable(s: State, e: EpisodeId, cs: seq<Choice>) {
    && (forall i, j | 0 <= i < j < |cs| :: cs[i].proposal != cs[j].proposal)
    && (forall c | c in cs ::
          && c.proposal in s.proposals && s.proposals[c.proposal].episode == e && s.proposals[c.proposal].pending
          && s.proposals[c.proposal].version == c.version)
  }

  lemma {:induction false} ChoosableIff(s: State, e: EpisodeId, cs: seq<Choice>)
    ensures ChoicesRefusal(s, e, cs).None? <==> Choosable(s, e, cs)
  {
    if cs != [] {
      var rest, c := cs[..|cs| - 1], cs[|cs| - 1];
      ChoosableIff(s, e, rest);
      LastApart(cs);
      if c.proposal in ChoiceIds(rest) {
        var d :| d in rest && d.proposal == c.proposal;
        var i :| 0 <= i < |rest| && rest[i] == d;
        assert cs[i].proposal == cs[|cs| - 1].proposal;
      } else {
        forall i | 0 <= i < |rest| ensures cs[i].proposal != c.proposal { assert rest[i] in rest; }
      }
    }
  }

  /** A decision's intent is recorded exactly when its review waits for the operator at the revision the call names, its
      choices can be taken, and a bundle was prepared if anything is approved; review and topic are then held. */
  lemma IntentIff(s: State, request: RequestId, p: Payload, bundle: Option<Bundle>)
    requires request !in s.decisions
    ensures var v := DecisionIntent(s, request, p, bundle);
            && (v.Done? <==>
                  && p.choices != [] && s.revision == p.expected && p.episode in s.episodes
                  && s.episodes[p.episode].topic == p.topic && s.episodes[p.episode].state == Awaiting
                  && Choosable(s, p.episode, p.choices)
                  && ((forall c | c in p.choices :: c.action == Reject) || bundle.Some?))
            && (v.Done? ==>
                  && v.value.None? && request in v.state.intents
                  && v.state.intents == s.intents[request := v.state.intents[request]]
                  && v.state.intents[request].payload == p && v.state.intents[request].receipt.None?
                  && v.state.intents[request].prepared ==
                       (if forall c | c in p.choices :: c.action == Reject then None else bundle)
                  && v.state.episodes ==
                       s.episodes[p.episode := s.episodes[p.episode].(state := EpisodeState.Publishing)]
                  && v.state.topics == s.topics[p.topic :=
                       TopicOr(s.topics, p.topic, Unknown).(review := PublishingDecision)]
                  && v.state.proposals == s.proposals && v.state.items == s.items && v.state.decisions == s.decisions)
  {
    ChoosableIff(s, p.episode, p.choices);
    ApprovesIff(p.choices);
  }

  lemma {:induction false} ApprovesIff(cs: seq<Choice>)
    ensures Approved(cs) == [] <==> forall c | c in cs :: c.action == Reject
  {
    if cs != [] {
      ApprovesIff(cs[..|cs| - 1]);
      LastApart(cs);
    }
  }

  /** Some other choice for the same proposal. */
  predicate OnlyChoice(cs: seq<Choice>, c: Choice) {
    c in cs && forall d | d in cs && d.proposal == c.proposal :: d == c
  }

  lemma {:induction false} ActionIsChosen(cs: seq<Choice>, c: Choice)
    requires OnlyChoice(cs, c)
    ensures c.proposal in ChoiceIds(cs) && ActionFor(cs, c.proposal) == c.action
  {
    var rest, last := cs[..|cs| - 1], cs[|cs| - 1];
    LastApart(cs);
    assert c in cs;
    if last.proposal == c.proposal {
      assert last in cs;
    } else {
      assert c in rest;
      ActionIsChosen(rest, c);
    }
  }

  /** Committing a decision: its proposals are resolved as chosen and the others stay; the answer lists what is still
      pending of the review, which is complete exactly when nothing is, and names the topic's next ordinal; the
      topic's items take the published lock. */
  lemma CommitAnswers(s: State, request: RequestId, receipt: Option<Receipt>)
    requires request !in s.decisions && CommitDecision(s, request, receipt).Done?
    ensures request in s.intents
    ensures AsChosen(s, CommitDecision(s, request, receipt).state, s.intents[request].payload)
    ensures Answers(CommitDecision(s, request, receipt).state, s.intents[request].payload,
                    CommitDecision(s, request, receipt).value)
    ensures var o := CommitDecision(s, request, receipt);
            && request in o.state.decisions && o.value.revision == s.revision + 1
            && o.state.decisions == s.decisions[request := Decision(s.intents[request].payload, o.value)]
            && o.state.history == s.history && o.state.revision == s.revision
            && s.intents[request].payload.episode in s.episodes
            && o.state.episodes[s.intents[request].payload.episode].topic ==
                 s.episodes[s.intents[request].payload.episode].topic
            && |o.state.items| == |s.items|
            && forall i | 0 <= i < |s.items| :: o.state.items[i] ==
                 if receipt.Some? && s.items[i].id == s.intents[request].payload.topic
                 then s.items[i].(lock := Pinned(receipt.value.lock)) else s.items[i]
  {
    var cs := s.intents[request].payload.choices;
    forall c | OnlyChoice(cs, c) ensures ActionFor(cs, c.proposal) == c.action { ActionIsChosen(cs, c); }
  }

  ghost predicate AsChosen(s: State, o: State, p: Payload) {
    && o.proposals.Keys == s.proposals.Keys
    && (forall q | q in s.proposals && (forall c | c in p.choices :: c.proposal != q) ::
          o.proposals[q] == s.proposals[q])
    && (forall c | c in p.choices :: c.proposal in o.proposals && !o.proposals[c.proposal].pending)
    && (forall c | OnlyChoice(p.choices, c) :: o.proposals[c.proposal].decision == Some(c.action))
  }

  /** The answer to a decision speaks of this state. */
  ghost predicate Answers(o: State, p: Payload, result: DecisionResult) {
    && result.topic == p.topic && result.episode == p.episode
    && (forall q :: q in result.remaining <==>
          q in o.proposals && o.proposals[q].episode == p.episode && o.proposals[q].pending)
    && p.episode in o.episodes && p.topic in o.topics && result.next == o.topics[p.topic].next
    && (result.remaining == {} ==>
          && o.episodes[p.episode].state == CompleteWithDecisions && o.topics[p.topic].active.None?
          && o.topics[p.topic].review == Eligible)
    && (result.remaining != {} ==>
          o.episodes[p.episode].state == Awaiting && o.topics[p.topic].review == AwaitingOperator)
  }
}
