/** States some run reaches: pieces of runs to build examples from. */
module Reachability {
  import opened Common
  import opened ControlRecords
  import opened Scheduler
  import opened Checkpoints
  import opened Episodes
  import opened Ledger
  import opened Reviews
  import opened EpisodeSteps
  import opened Runs
  import Compaction
  import Dealing

  ghost predicate Reachable(s: State) {
    exists states, ops :: Execution(states, ops) && EndsAt(states, s)
  }

  /** Transactions other than queue edits and decisions. */
  predicate Plain(op: Op) { !op.Editing? && !op.Intending? && !op.Committing? }

  predicate StartsUnlocked(states: seq<State>) {
    states != [] && forall i | i in states[0].items :: !i.lock.Pinned?
  }

  /** Such a run over a queue with no lock yet. */
  ghost predicate PlainRun(states: seq<State>, ops: seq<Op>) {
    Execution(states, ops) && (forall op | op in ops :: Plain(op)) && StartsUnlocked(states)
  }

  /** Some run of plain transactions ends here. */
  ghost predicate Reached(s: State) {
    exists states, ops :: PlainRun(states, ops) && EndsAt(states, s)
  }

  lemma ReachedReachable(s: State)
    requires Reached(s)
    ensures Reachable(s)
  {
    hide Execution, EndsAt;
    var states, ops :| PlainRun(states, ops) && EndsAt(states, s);
    assert Execution(states, ops);
  }

  lemma ReachInitial(s: State)
    requires Initial(s) && forall i | i in s.items :: !i.lock.Pinned?
    ensures Reached(s)
  {
    hide Apply, Allowed;
    assert PlainRun([s], []);
    assert EndsAt([s], s);
  }

  lemma ReachableGood(s: State)
    requires Reachable(s)
    ensures Good(s) && |s.seats| == MAX_STATIONS
  {
    hide Good, Execution;
    var states, ops :| Execution(states, ops) && EndsAt(states, s);
    RunSafe(states, ops, |states| - 1);
  }

  lemma ReachGood(s: State)
    requires Reached(s)
    ensures Good(s) && |s.seats| == MAX_STATIONS
  {
    hide *;
    ReachedReachable(s);
    ReachableGood(s);
  }

  lemma ExecutionGoesOn(states: seq<State>, ops: seq<Op>, s: State, op: Op)
    requires hide *; true
    requires Execution(states, ops) && EndsAt(states, s) && |s.seats| == MAX_STATIONS && Allowed(s, op)
    ensures Execution(states + [Apply(s, op)], ops + [op]) && EndsAt(states + [Apply(s, op)], Apply(s, op))
  {
    hide Apply, Allowed, Initial;
    var states', ops' := states + [Apply(s, op)], ops + [op];
    forall i | 0 <= i < |ops'|
      ensures |states'[i].seats| == MAX_STATIONS && Allowed(states'[i], ops'[i])
              && states'[i + 1] == Apply(states'[i], ops'[i])
    {
      if i < |ops| { assert states'[i] == states[i] && ops'[i] == ops[i]; }
    }
  }

  lemma ReachableStep(s: State, op: Op)
    requires hide *; true
    requires Reachable(s) && |s.seats| == MAX_STATIONS && Allowed(s, op)
    ensures Reachable(Apply(s, op))
  {
    hide Execution, EndsAt, Apply, Allowed;
    var states, ops :| Execution(states, ops) && EndsAt(states, s);
    ExecutionGoesOn(states, ops, s, op);
  }

  lemma ReachStep(s: State, op: Op)
    requires hide *; true
    requires Reached(s) && |s.seats| == MAX_STATIONS && Allowed(s, op) && Plain(op)
    ensures Reached(Apply(s, op))
  {
    hide Execution, EndsAt, Apply, Allowed, Plain;
    var states, ops :| PlainRun(states, ops) && EndsAt(states, s);
    ExecutionGoesOn(states, ops, s, op);
    assert PlainRun(states + [Apply(s, op)], ops + [op]);
  }

  lemma ReachCommit(s: State, op: Op, t: State) returns (s': State)
    requires hide *; true
    requires Reached(s) && |s.seats| == MAX_STATIONS && Allowed(s, op) && Plain(op) && Apply(s, op) == Commit(s, t)
    ensures Reached(s') && s' == t.(revision := s'.revision)
  {
    hide *;
    ReachStep(s, op);
    s' := Commit(s, t);
    CommitFrame(s, t);
  }

  /** Transactions that callers may make at any time. */
  lemma AnyTime(s: State, op: Op)
    requires op.Finalizing? || op.Reserving? || op.Recording? || op.Compacting?
    ensures Allowed(s, op) && Plain(op)
  {
  }

  lemma ClaimFits(s: State, station: nat, now: Time, uuid: RunId)
    requires now > s.history.clock && uuid !in s.history.minted && s.intake.None?
    ensures Allowed(s, Claiming(station, now, uuid)) && Plain(Claiming(station, now, uuid))
  {
  }

  const OFF := Policy(false, 0, false)

  function Fresh(items: seq<Item>, active: nat): State {
    State(0, active, OFF, false, false, 0, items, [BlankSeat, BlankSeat, BlankSeat, BlankSeat, BlankSeat], None, map[],
      map[], map[],
          map[], map[], map[], map[], map[], map[], map[], map[], History(map[], 0, [], {}, map[], true, {}))
  }

  function WorkItem(t: TopicId): Item { Item(t, true, Queued, WantRunning, [], Unset, None) }

  // ---------- Rounds of research on one topic ----------

  predicate Rests(seats: seq<Seat>) {
    |seats| == MAX_STATIONS && seats[0].restUntil.None? && forall k | 0 <= k < |seats| :: seats[k].current.None?
  }

  predicate Unreviewed(topics: map<TopicId, Topic>) {
    1 in topics ==> topics[1].review == Eligible && topics[1].retryAt.None? && topics[1].active.None?
  }

  /** One research item, one station, no review ever; everything counted so far belongs to that item's topic. */
  predicate Quiet(s: State) {
    && s.items == [WorkItem(1)] && s.active == 1 && !s.paused && !s.stopping && s.intake.None? && s.policy == OFF
    && s.episodes == map[] && Unreviewed(s.topics)
  }

  predicate CountedOnTopic(s: State, r: RunId) {
    r in s.history.minted && s.history.minted[r].topic == 1 && exists c | c in s.history.counted :: c.run == r
  }

  ghost predicate Idle(s: State) {
    Quiet(s) && Rests(s.seats) && forall r | r in s.history.minted :: CountedOnTopic(s, r)
  }

  lemma IdleIs(s: State)
    requires Idle(s)
    ensures Quiet(s) && Rests(s.seats) && |s.seats| == MAX_STATIONS && ValidStation(1) && s.intake.None?
    ensures forall r | r in s.history.minted :: CountedOnTopic(s, r)
  {
    hide CountedOnTopic;
  }

  /** The next claim of an idle station takes the item. */
  lemma IdleDeals(s: State, now: Time)
    requires Quiet(s) && Rests(s.seats)
    ensures Reconcile(s, now).seats[0].desired == Some(Dealt(1, Research))
  {
    var cand, due := CandidateFlags(s, now), DueFlags(s);
    assert Executing(s.seats) == {};
    assert cand == [true] && due == [false];
    assert Picks(cand, due, true, 1) == Picks(cand, due, true, 0) && Picks(cand, due, false, 1) == [0];
    assert DealOrder(s, now) == [0];
    assert AvailableBelow(s, now, 0) == 0;
  }

  ghost predicate Working(s: State, uuid: RunId) {
    && Quiet(s) && |s.seats| == MAX_STATIONS && s.seats[0].restUntil.None?
    && (forall k | 1 <= k < |s.seats| :: s.seats[k].current.None?)
    && s.seats[0].current.Some? && s.seats[0].current.value.id == uuid && s.seats[0].current.value.topic == 1
    && s.seats[0].current.value.kind == Research && uuid in s.history.minted && s.history.minted[uuid].topic == 1
    && s.history.minted[uuid].station == 1
  }

  lemma IdleClaimIs(s: State, now: Time, uuid: RunId)
    requires Quiet(s) && Rests(s.seats)
    ensures var r := Reconcile(s, now);
            |r.seats| == MAX_STATIONS && Claim(s, 1, now, uuid) ==
              Done(MintLease(r, 1, now, uuid, Dealt(1, Research)),
                Minted(NewLease(r, 1, now, uuid, Dealt(1, Research))))
  {
    IdleDeals(s, now);
    Dealing.ReconcileFrame(s, now);
    var r := Reconcile(s, now);
    assert TopicOf(r.topics, 1) == TopicOf(s.topics, 1);
  }

  lemma LeaseWorks(s: State, now: Time, uuid: RunId)
    requires Idle(s)
    ensures var r := Reconcile(s, now);
            |r.seats| == MAX_STATIONS
            && var s' := MintLease(r, 1, now, uuid, Dealt(1, Research));
               Working(s', uuid) && s'.history.minted.Keys == s.history.minted.Keys + {uuid}
                 && s'.history.counted == s.history.counted
               && s'.history.clock == now && uuid in s'.runs && s'.runs[uuid].topic == 1
               && s'.runs[uuid].state == Started && s'.runs[uuid].result.None?
               && forall q | q in s.history.minted && q != uuid :: s'.history.minted[q] == s.history.minted[q]
  {
    hide Reconcile;
    Dealing.ReconcileFrame(s, now);
    assert TopicOf(Reconcile(s, now).topics, 1) == TopicOf(s.topics, 1);
  }

  lemma IdleClaims(s: State, now: Time, uuid: RunId) returns (s': State)
    requires hide *; true
    requires Reached(s) && Idle(s) && now > s.history.clock && uuid !in s.history.minted
    ensures Reached(s') && Working(s', uuid) && s'.history.minted.Keys == s.history.minted.Keys + {uuid}
    ensures uuid in s'.runs && s'.runs[uuid].topic == 1 && s'.runs[uuid].state == Started && s'.runs[uuid].result.None?
    ensures forall r | r in s'.history.minted && r != uuid :: CountedOnTopic(s', r)
    ensures s'.history.clock == now
  {
    hide *;
    IdleIs(s);
    ClaimFits(s, 1, now, uuid);
    IdleClaimIs(s, now, uuid);
    LeaseWorks(s, now, uuid);
    ApplyIs(s, Claiming(1, now, uuid));
    AfterIs(s, Claim(s, 1, now, uuid));
    var t := MintLease(Reconcile(s, now), 1, now, uuid, Dealt(1, Research));
    s' := ReachCommit(s, Claiming(1, now, uuid), t);
    StillWorking(t, s', uuid);
    StillCounted(s, s', uuid);
  }

  lemma StillWorking(s: State, s': State, uuid: RunId)
    requires Working(s, uuid) && s' == s.(revision := s'.revision)
    ensures Working(s', uuid)
  {
  }

  lemma StillCounted(s: State, s': State, uuid: RunId)
    requires forall r | r in s.history.minted :: CountedOnTopic(s, r)
    requires s'.history.minted.Keys == s.history.minted.Keys + {uuid} && s'.history.counted == s.history.counted
    requires forall q | q in s.history.minted && q != uuid :: s'.history.minted[q] == s.history.minted[q]
    ensures forall r | r in s'.history.minted && r != uuid :: CountedOnTopic(s', r)
  {
    forall r | r in s'.history.minted && r != uuid ensures CountedOnTopic(s', r) {
      assert CountedOnTopic(s, r);
    }
  }

  lemma CountWorks(s: State, uuid: RunId)
    requires Working(s, uuid) && uuid in s.runs && s.runs[uuid].topic == 1 && s.runs[uuid].state == Started
             && s.runs[uuid].result.None?
    ensures var o := Accept(s, 1, uuid, 1, Unknown, true, false, 0, 0);
            && o.Done? && Working(o.state, uuid) && o.state.history.minted == s.history.minted
            && o.state.history.clock == s.history.clock
            && o.state.history.counted == s.history.counted
                 + [Count(1, uuid, TopicOr(s.topics, 1, Unknown).completed + 1)]
  {
    assert CountedTriggers(s, 1, Unknown, false) == [];
    assert Accept(s, 1, uuid, 1, Unknown, true, false, 0, 0) == CountRun(s, 1, uuid, 1, Unknown, false, 0, 0);
  }

  lemma OneMoreCounted(s: State, s': State, uuid: RunId, n: nat)
    requires (forall r | r in s.history.minted && r != uuid :: CountedOnTopic(s, r)) && uuid in s.history.minted
             && s.history.minted[uuid].topic == 1
    requires s'.history.minted == s.history.minted && s'.history.counted == s.history.counted + [Count(1, uuid, n)]
    ensures forall r | r in s'.history.minted :: CountedOnTopic(s', r)
  {
    forall r | r in s'.history.minted ensures CountedOnTopic(s', r) {
      if r != uuid {
        assert CountedOnTopic(s, r);
        var c :| c in s.history.counted && c.run == r;
        assert c in s'.history.counted;
      } else {
        assert s'.history.counted[|s.history.counted|].run == uuid;
      }
    }
  }

  lemma WorkingCounts(s: State, uuid: RunId) returns (s': State)
    requires hide *; true
    requires Reached(s) && Working(s, uuid) && (forall r | r in s.history.minted && r != uuid :: CountedOnTopic(s, r))
    requires uuid in s.runs && s.runs[uuid].topic == 1 && s.runs[uuid].state == Started && s.runs[uuid].result.None?
    ensures Reached(s') && Working(s', uuid) && s'.history.minted == s.history.minted
            && s'.history.clock == s.history.clock
    ensures forall r | r in s'.history.minted :: CountedOnTopic(s', r)
  {
    hide *;
    var op := Accepting(1, uuid, 1, Unknown, true, false, 0, 0);
    CountFits(s, uuid);
    CountWorks(s, uuid);
    ApplyIs(s, op);
    var o := Accept(s, 1, uuid, 1, Unknown, true, false, 0, 0);
    AfterIs(s, o);
    s' := ReachCommit(s, op, o.state);
    StillWorking(o.state, s', uuid);
    OneMoreCounted(s, s', uuid, TopicOr(s.topics, 1, Unknown).completed + 1);
  }

  lemma CountFits(s: State, uuid: RunId)
    requires Working(s, uuid)
    ensures |s.seats| == MAX_STATIONS && uuid in s.history.minted && s.history.minted[uuid].topic == 1
    ensures var op := Accepting(1, uuid, 1, Unknown, true, false, 0, 0); Allowed(s, op) && Plain(op)
  {
  }

  lemma EndIdles(s: State, uuid: RunId)
    requires hide Finalize; true
    requires Working(s, uuid) && forall r | r in s.history.minted :: CountedOnTopic(s, r)
    ensures var o := Finalize(s, 1, uuid, 0, None, None); o.Done? && Idle(o.state) && o.state.history == s.history
  {
    hide Reconcile;
    var s1 := Release(s, 0, 0, None, None);
    assert s1.items == s.items by { assert FirstItem(s.items, 1) == Some(0); }
    var s2 := Compact(s1);
    Dealing.ReconcileFrame(s2, 0);
    var s3 := Reconcile(s2, 0);
    assert TopicOf(s3.topics, 1) == TopicOf(s1.topics, 1);
    forall r | r in s3.history.minted ensures CountedOnTopic(s3, r) {
      assert CountedOnTopic(s, r);
    }
  }

  lemma WorkingEnds(s: State, uuid: RunId) returns (s': State)
    requires Reached(s) && Working(s, uuid) && forall r | r in s.history.minted :: CountedOnTopic(s, r)
    ensures Reached(s') && Idle(s') && s'.history == s.history
  {
    hide *;
    var op := Finalizing(1, uuid, 0, None, None);
    AnyTime(s, op);
    CountFits(s, uuid);
    ReachStep(s, op);
    s' := Apply(s, op);
    EndIdles(s, uuid);
    ApplyIs(s, op);
    AfterIs(s, Finalize(s, 1, uuid, 0, None, None));
    IdleCommits(s, Finalize(s, 1, uuid, 0, None, None).state);
  }

  lemma IdleCommits(s: State, t: State)
    requires Idle(t)
    ensures Idle(Commit(s, t)) && Commit(s, t).history == t.history
  {
    CommitFrame(s, t);
    var u := Commit(s, t);
    forall r | r in u.history.minted ensures CountedOnTopic(u, r) {
      assert CountedOnTopic(t, r);
    }
  }

  lemma FreshRun(s: State) returns (uuid: RunId)
    ensures uuid !in s.history.minted
  {
    uuid := FreshId(s.history.minted.Keys);
  }

  lemma FreshIdle()
    ensures var s := Fresh([WorkItem(1)], 1);
            && Initial(s) && Idle(s) && (forall i | i in s.items :: !i.lock.Pinned?) && |s.seats| == MAX_STATIONS
            && s.topics == map[] && s.episodes == map[] && s.triggers == map[] && s.history.minted == map[]
  {
  }

  /** Some run of the controller counts n completions of topic 1, one after the other. */
  lemma {:induction false} Rounds(n: nat) returns (s: State)
    ensures Reached(s) && Idle(s) && |s.history.minted.Keys| == n
  {
    hide *;
    if n == 0 {
      s := Fresh([WorkItem(1)], 1);
      FreshIdle();
      ReachInitial(s);
    } else {
      var s0 := Rounds(n - 1);
      var uuid := FreshRun(s0);
      var s1 := IdleClaims(s0, s0.history.clock + 1, uuid);
      var s2 := WorkingCounts(s1, uuid);
      s := WorkingEnds(s2, uuid);
      OneMore(s0.history.minted.Keys, uuid);
    }
  }

  lemma OneMore(a: set<RunId>, r: RunId)
    requires r !in a
    ensures |a + {r}| == |a| + 1
  {
  }

  lemma NoneStarted(s: State)
    requires RunInv(Leases(s.seats), s.history.minted, s.runs)
             && forall k | 0 <= k < |s.seats| :: s.seats[k].current.None?
    ensures forall r | r in s.runs ::
            s.runs[r].state != Started && r in s.history.minted && s.runs[r].topic == s.history.minted[r].topic
  {
    forall r | r in s.runs ensures s.runs[r].state != Started && r in s.history.minted
      && s.runs[r].topic == s.history.minted[r].topic {
      assert RunRecorded(Leases(s.seats), s.history.minted, s.runs[r], r);
    }
  }

  lemma CompactSheds(s: State)
    requires Idle(s) && RunInv(Leases(s.seats), s.history.minted, s.runs)
             && |s.history.minted.Keys| > RUNS_RETAINED_PER_TOPIC
    ensures |RunsFor(Compact(s).runs, 1)| < |s.history.minted.Keys|
  {
    NoneStarted(s);
    Compaction.CompactBounds(s, 1);
    assert Referenced(s.episodes) == {};
    assert RunsFor(Compact(s).runs, 1) == Compaction.PlainRuns(Compact(s).runs, {}, 1);
  }

  lemma IdleRuns(s: State)
    requires Idle(s) && RunInv(Leases(s.seats), s.history.minted, s.runs)
    ensures forall r | r in s.runs :: s.runs[r].topic == 1
  {
    NoneStarted(s);
    forall r | r in s.runs ensures s.runs[r].topic == 1 {
      assert CountedOnTopic(s, r);
    }
  }

  /** Compaction keeps at most 200 of an idle topic's runs. */
  lemma CompactLeavesGap(s0: State, s: State)
    requires hide *; true
    requires Idle(s0) && LedgerGood(s0) && s == Commit(s0, Compact(s0))
             && |s0.history.minted.Keys| > RUNS_RETAINED_PER_TOPIC
    ensures s.history == s0.history && |RunsFor(s.runs, 1)| < |s.history.minted.Keys|
    ensures forall r | r in s.runs :: s.runs[r].topic == 1
  {
    CommitFrame(s0, Compact(s0));
    CompactSheds(s0);
    IdleRuns(s0);
  }

  lemma CountedElsewhere(s: State, r: RunId)
    requires LedgerGood(s) && r in s.history.minted && forall q | q in s.history.minted :: CountedOnTopic(s, q)
    ensures CountOr0(s.pruned, 2) == 0 && exists c | c in s.history.counted :: c.run == r && c.topic == 1
  {
    assert CountedOnTopic(s, r);
    var c :| c in s.history.counted && c.run == r;
    var k :| 0 <= k < |s.history.counted| && s.history.counted[k] == c;
    assert CountRecorded(s.history.minted, s.runs, s.history.counted[k]);
    assert MintedFor(s.history.minted, 2) == {} by { assert forall q | q in s.history.minted :: CountedOnTopic(s, q); }
    assert |RunsFor(s.runs, 2)| + CountOr0(s.pruned, 2) == |MintedFor(s.history.minted, 2)|;
  }

  predicate PrunedAndCounted(s: State, r: RunId) {
    && r in s.history.minted && s.history.minted[r].topic == 1 && r !in s.runs && CountOr0(s.pruned, 2) == 0
    && exists c | c in s.history.counted :: c.run == r && c.topic == 1
  }

  lemma GapRun(s0: State, s: State) returns (r: RunId)
    requires Idle(s0) && LedgerGood(s0) && LedgerGood(s) && s == Commit(s0, Compact(s0))
             && |s0.history.minted.Keys| > RUNS_RETAINED_PER_TOPIC
    ensures PrunedAndCounted(s, r)
  {
    hide LedgerGood, Compact;
    CompactLeavesGap(s0, s);
    r := Missing(s.history.minted.Keys, RunsFor(s.runs, 1));
    forall q | q in s.history.minted ensures CountedOnTopic(s, q) {
      assert CountedOnTopic(s0, q);
    }
    CountedElsewhere(s, r);
  }

  /** More than 200 of them leave a counted run that is no longer on the ledger, on a controller that never pruned
      another topic. */
  lemma PrunedRun() returns (s: State, r: RunId)
    ensures Reached(s) && PrunedAndCounted(s, r)
  {
    hide *;
    var s0 := Rounds(RUNS_RETAINED_PER_TOPIC + 1);
    ReachGood(s0);
    GoodParts(s0);
    CompactingIs(s0);
    ReachStep(s0, Compacting);
    s := Apply(s0, Compacting);
    ReachGood(s);
    GoodParts(s);
    r := GapRun(s0, s);
  }

  lemma CompactingIs(s: State)
    requires hide *; true
    requires |s.seats| == MAX_STATIONS
    ensures Allowed(s, Compacting) && Plain(Compacting) && Apply(s, Compacting) == Commit(s, Compact(s))
  {
    hide *;
    AnyTime(s, Compacting);
    ApplyIs(s, Compacting);
  }

  lemma Missing(all: set<RunId>, some: set<RunId>) returns (r: RunId)
    requires |some| < |all|
    ensures r in all && r !in some
  {
    if all <= some { Dealing.SubsetSize(all, some); }
    r :| r in all && r !in some;
  }

  // ---------- Reviews, one step at a time ----------

  function StallOn(t: TopicId): TriggerKey { TriggerKey(t, Stall, 0, Unknown) }
  function DueOn(e: EpisodeId): Topic { DefaultTopic(Unknown).(active := Some(e), review := CheckpointDue) }
  function OpenedOn(t: TopicId): Episode { NewEpisode(t, DefaultTopic(Unknown), [StallOn(t)]) }

  function Opened(s: State, t: TopicId, e: EpisodeId): State {
    s.(topics := s.topics[t := DueOn(e)], episodes := s.episodes[e := OpenedOn(t)],
      triggers := s.triggers[StallOn(t) := Trigger(Some(e), false)])
  }

  lemma StallOpens(s: State, t: TopicId, e: EpisodeId)
    requires t !in s.topics && e !in s.episodes && StallOn(t) !in s.triggers
    ensures StallCheckpoint(s, t, Unknown, e) == Done(Opened(s, t, e), e)
  {
    hide Reached;
    var topics := s.topics[t := DefaultTopic(Unknown)];
    assert TrippedTopics(topics, s.episodes, t, [StallOn(t)], e) == s.topics[t := DueOn(e)];
    assert AssignTriggers(s.triggers, [StallOn(t)], e) == s.triggers[StallOn(t) := Trigger(Some(e), false)];
  }

  /** A stall sends a new topic to review. */
  lemma Opens(s: State, t: TopicId, e: EpisodeId) returns (s': State)
    requires Reached(s) && |s.seats| == MAX_STATIONS && t !in s.topics && e !in s.episodes && StallOn(t) !in s.triggers
    ensures Reached(s') && s' == Opened(s, t, e).(revision := s'.revision)
  {
    hide *;
    var op := Stalling(t, Unknown, e);
    StallFits(s, t, e);
    StallOpens(s, t, e);
    ApplyIs(s, op);
    AfterIs(s, StallCheckpoint(s, t, Unknown, e));
    s' := ReachCommit(s, op, Opened(s, t, e));
  }

  lemma StallFits(s: State, t: TopicId, e: EpisodeId)
    requires e !in s.episodes
    ensures Allowed(s, Stalling(t, Unknown, e)) && Plain(Stalling(t, Unknown, e))
  {
  }

  /** What the next claim of this station gets. */
  predicate Offers(s: State, station: nat, now: Time, t: TopicId) {
    && |s.seats| == MAX_STATIONS && 1 <= station <= s.active <= MAX_STATIONS && !s.paused && !s.stopping
    && s.seats[station - 1].current.None? && s.seats[station - 1].restUntil.None?
    && DealAt(s, now, AvailableBelow(s, now, station - 1)) == Some(Dealt(t, Checkpoint))
    && t in s.topics && s.topics[t].retryAt.None? && t !in Executing(s.seats)
  }

  /** Only this station's lease is new. */
  ghost predicate LeasedOnly(s: State, s': State, station: nat, l: Lease) {
    && 1 <= station <= |s.seats| == |s'.seats|
    && (forall k | 0 <= k < |s.seats| ::
         s'.seats[k].current == (if k == station - 1 then Some(l) else s.seats[k].current)
         && s'.seats[k].restUntil == s.seats[k].restUntil)
    && ((forall i | i in s.items :: i.id in s.topics) ==> s'.topics == s.topics)
    && s' == s.(revision := s'.revision, seats := s'.seats, topics := s'.topics, runs := s'.runs, history := s'.history)
    && s'.history.concluded == s.history.concluded && s'.history.minted.Keys == s.history.minted.Keys + {l.id}
    && s'.history.clock == l.startedAt
  }

  lemma OfferedClaim(s: State, station: nat, now: Time, uuid: RunId, t: TopicId)
    requires Offers(s, station, now, t)
    ensures var r := Reconcile(s, now);
            |r.seats| == MAX_STATIONS && Claim(s, station, now, uuid) ==
              Done(MintLease(r, station, now, uuid, Dealt(t, Checkpoint)),
                Minted(NewLease(r, station, now, uuid, Dealt(t, Checkpoint))))
  {
    Dealing.ReconcileFrame(s, now);
    var r := Reconcile(s, now);
    assert r.seats[station - 1].desired == Some(Dealt(t, Checkpoint));
    assert TopicOf(r.topics, t) == TopicOf(s.topics, t);
    assert Executing(r.seats) == Executing(s.seats) by { Dealing.SameExecuting(r.seats, s.seats); }
    assert forall k | 0 <= k < |r.seats| && r.seats[k].current.Some? ::
      r.seats[k].current.value.topic in Executing(r.seats);
  }

  lemma MintedOnly(s: State, station: nat, now: Time, uuid: RunId, t: TopicId)
    requires Offers(s, station, now, t)
    ensures var r := Reconcile(s, now);
            |r.seats| == MAX_STATIONS
            && LeasedOnly(s, MintLease(r, station, now, uuid, Dealt(t, Checkpoint)), station,
                 NewLease(r, station, now, uuid, Dealt(t, Checkpoint)))
  {
    hide Reconcile, DealAt;
    Dealing.ReconcileFrame(s, now);
    if forall i | i in s.items :: i.id in s.topics { TopicsKnown(s, now); }
    MintFrame(s, Reconcile(s, now), station, now, uuid, Dealt(t, Checkpoint));
  }

  lemma MintFrame(s: State, r: State, station: nat, now: Time, uuid: RunId, d: Dealt)
    requires ValidStation(station) && |r.seats| == MAX_STATIONS && r == s.(seats := r.seats, topics := r.topics)
             && Dealing.SameLeases(r.seats, s.seats)
    requires (forall i | i in s.items :: i.id in s.topics) ==> r.topics == s.topics
    ensures LeasedOnly(s, MintLease(r, station, now, uuid, d), station, NewLease(r, station, now, uuid, d))
  {
  }

  lemma TopicsKnown(s: State, now: Time)
    requires forall i | i in s.items :: i.id in s.topics
    ensures Reconcile(s, now).topics == s.topics
  {
    Dealing.ReconcileFrame(s, now);
    assert ConsideredIds(s) <= s.topics.Keys;
  }

  /** A due review is leased to the station it is offered to. */
  lemma LeaseReview(s: State, station: nat, now: Time, uuid: RunId, t: TopicId) returns (s': State, l: Lease)
    requires Reached(s) && Offers(s, station, now, t) && now > s.history.clock && uuid !in s.history.minted
             && s.intake.None?
    ensures Reached(s') && LeasedOnly(s, s', station, l) && l.topic == t && l.kind == Checkpoint && l.id == uuid
            && l.station == station && l.startedAt == now
  {
    hide *;
    OfferedStation(s, station, now, t);
    ClaimFits(s, station, now, uuid);
    OfferedClaim(s, station, now, uuid, t);
    MintedOnly(s, station, now, uuid, t);
    ApplyIs(s, Claiming(station, now, uuid));
    AfterIs(s, Claim(s, station, now, uuid));
    var minted := MintLease(Reconcile(s, now), station, now, uuid, Dealt(t, Checkpoint));
    l := NewLease(Reconcile(s, now), station, now, uuid, Dealt(t, Checkpoint));
    LeaseIs(Reconcile(s, now), station, now, uuid, Dealt(t, Checkpoint));
    s' := ReachCommit(s, Claiming(station, now, uuid), minted);
    StillLeased(s, minted, s', station, l);
  }

  lemma OfferedStation(s: State, station: nat, now: Time, t: TopicId)
    requires Offers(s, station, now, t)
    ensures |s.seats| == MAX_STATIONS && 1 <= station <= MAX_STATIONS && ValidStation(station)
  {
    hide DealAt, AvailableBelow;
  }

  lemma LeaseIs(s: State, station: nat, now: Time, uuid: RunId, d: Dealt)
    requires 1 <= station <= MAX_STATIONS && |s.seats| == MAX_STATIONS
    ensures NewLease(s, station, now, uuid, d) ==
              Lease(d.topic, d.kind, station, uuid, s.seats[station - 1].generation + 1, now, false)
  {
  }

  lemma StillLeased(s: State, t: State, t': State, station: nat, l: Lease)
    requires LeasedOnly(s, t, station, l) && t' == t.(revision := t'.revision)
    ensures LeasedOnly(s, t', station, l)
  {
  }

  predicate Sits(s: State, k: nat, l: Lease) {
    |s.seats| == MAX_STATIONS && k < |s.seats| && s.seats[k].current == Some(l) && l.kind == Checkpoint
      && l.id !in s.history.concluded
  }

  lemma Starts(s: State, e: EpisodeId, k: nat, l: Lease) returns (s': State)
    requires hide *; true
    requires Reached(s) && Sits(s, k, l) && e in s.episodes && s.episodes[e] == OpenedOn(l.topic)
    requires forall d | d in s.episodes :: s.episodes[d].state !in {CompleteWithoutProposals, CompleteWithDecisions}
    ensures Reached(s') && s' == s.(revision := s'.revision,
            episodes := s.episodes[e := StartedEpisode(OpenedOn(l.topic), l.id, 0, None)])
  {
    hide *;
    var op := Starting(e, l.id, 0, None);
    StartFits(s, e, k, l);
    ApplyIs(s, op);
    AfterIs(s, StartCheckpoint(s, e, l.id, 0, None));
    s' := ReachCommit(s, op, s.(episodes := s.episodes[e := StartedEpisode(OpenedOn(l.topic), l.id, 0, None)]));
  }

  lemma StartFits(s: State, e: EpisodeId, k: nat, l: Lease)
    requires Sits(s, k, l) && e in s.episodes && s.episodes[e] == OpenedOn(l.topic)
    requires forall d | d in s.episodes :: s.episodes[d].state !in {CompleteWithoutProposals, CompleteWithDecisions}
    ensures |s.seats| == MAX_STATIONS
    ensures Allowed(s, Starting(e, l.id, 0, None)) && Plain(Starting(e, l.id, 0, None))
    ensures var o := StartCheckpoint(s, e, l.id, 0, None);
            o.Done? && o.state == s.(episodes := s.episodes[e := StartedEpisode(OpenedOn(l.topic), l.id, 0, None)])
  {
    assert Serving(s, l.id, l.topic);
  }

  lemma Counters(s: State, e: EpisodeId, k: nat, l: Lease) returns (s': State)
    requires hide *; true
    requires Reached(s) && Sits(s, k, l) && e in s.episodes
             && s.episodes[e] == StartedEpisode(OpenedOn(l.topic), l.id, 0, None)
    ensures Reached(s') && e in s'.episodes && s' ==
            s.(revision := s'.revision, episodes := s.episodes[e := s'.episodes[e]])
    ensures Ready(s'.episodes[e], l) && s'.episodes[e].resultOf.None?
  {
    hide Reached;
    var ep := s.episodes[e];
    var ep1 := Reserved(ep, 0, Counter, l.id);
    var s1 := CounterReserved(s, e, ep1, l);
    s' := CounterRecorded(s1, e, ep1);
    CounterCertifies(ep, l);
    TwicePut(s.episodes, e, ep1, s'.episodes[e]);
  }

  lemma TwicePut(episodes: map<EpisodeId, Episode>, e: EpisodeId, a: Episode, b: Episode)
    ensures episodes[e := a][e := b] == episodes[e := b]
  {
  }

  lemma CounterRecorded(s: State, e: EpisodeId, ep1: Episode) returns (s': State)
    requires hide *; true
    requires Reached(s) && |s.seats| == MAX_STATIONS && e in s.episodes && s.episodes[e] == ep1 && 0 in ep1.invocations
             && !ep1.invocations[0].finished
    ensures Reached(s') && s' == s.(revision := s'.revision,
            episodes := s.episodes[e := Recorded(ep1, 0, 0, true, true)])
  {
    hide *;
    var op := Recording(e, 0, 0, true, true);
    AnyTime(s, op);
    ApplyIs(s, op);
    CounterCloses(s, e);
    AfterIs(s, RecordDelegate(s, e, 0, 0, true, true));
    s' := ReachCommit(s, op, s.(episodes := s.episodes[e := Recorded(ep1, 0, 0, true, true)]));
  }

  lemma CounterCloses(s: State, e: EpisodeId)
    requires e in s.episodes && 0 in s.episodes[e].invocations && !s.episodes[e].invocations[0].finished
    ensures var o := RecordDelegate(s, e, 0, 0, true, true);
            o.Done? && o.state == s.(episodes := s.episodes[e := Recorded(s.episodes[e], 0, 0, true, true)])
  {
  }

  lemma CounterTaken(s: State, e: EpisodeId, l: Lease)
    requires e in s.episodes && s.episodes[e] == StartedEpisode(OpenedOn(l.topic), l.id, 0, None)
    ensures ReserveDelegate(s, e, l.id, 0, Counter, None).Done?
            && ReserveDelegate(s, e, l.id, 0, Counter, None).state
                 == s.(episodes := s.episodes[e := Reserved(s.episodes[e], 0, Counter, l.id)])
  {
  }

  lemma CounterReserved(s: State, e: EpisodeId, ep1: Episode, l: Lease) returns (s': State)
    requires hide Reached; true
    requires Reached(s) && |s.seats| == MAX_STATIONS && e in s.episodes
             && s.episodes[e] == StartedEpisode(OpenedOn(l.topic), l.id, 0, None)
    requires ep1 == Reserved(s.episodes[e], 0, Counter, l.id)
    ensures Reached(s') && s' == s.(revision := s'.revision, episodes := s.episodes[e := ep1])
  {
    hide *;
    var op := Reserving(e, l.id, 0, Counter, None);
    AnyTime(s, op);
    CounterTaken(s, e, l);
    ApplyIs(s, op);
    AfterIs(s, ReserveDelegate(s, e, l.id, 0, Counter, None));
    s' := ReachCommit(s, op, s.(episodes := s.episodes[e := ep1]));
  }

  /** The review as its run has it once the counter reported. */
  predicate Ready(ep: Episode, l: Lease) {
    && ep.state == InReview && ep.run == Some(l.id) && ep.topic == l.topic && ep.inventory == Unknown
    && ep.triggers == [StallOn(l.topic)]
    && Countered(ep)
  }

  lemma CounterCertifies(ep: Episode, l: Lease)
    requires ep == StartedEpisode(OpenedOn(l.topic), l.id, 0, None)
    ensures var end := Recorded(Reserved(ep, 0, Counter, l.id), 0, 0, true, true); Ready(end, l) && end.resultOf.None?
  {
    var end := Recorded(Reserved(ep, 0, Counter, l.id), 0, 0, true, true);
    assert Certifies(end.invocations[0]);
  }

  function ReportOf(e: EpisodeId, l: Lease, ds: seq<Draft>): Report {
    Report(e, l.id, Unknown, [StallOn(l.topic)], true, ds, None)
  }

  function EndOf(ds: seq<Draft>): EpisodeState { if ds == [] then CompleteWithoutProposals else Awaiting }

  lemma ReportHolds(s: State, e: EpisodeId, l: Lease, ds: seq<Draft>)
    requires e in s.episodes && Ready(s.episodes[e], l) && s.episodes[e].resultOf.None?
             && StallOn(l.topic) in s.triggers
    requires |ds| <= 1 && forall d | d in ds :: d.id !in s.proposals
    requires l.topic in s.topics && s.topics[l.topic].allowance >= 1
    ensures FinishRefusal(s, ReportOf(e, l, ds), 0).None? && WellFormed(ReportOf(e, l, ds))
            && EndState(s.episodes[e], ReportOf(e, l, ds)) == EndOf(ds)
  {
  }

  function ReportedBy(s: State, e: EpisodeId, l: Lease, ds: seq<Draft>): State
    requires e in s.episodes
  {
    Reported(Conclude(s, l.id), ReportOf(e, l, ds), EndOf(ds))
  }

  lemma Reports(s: State, e: EpisodeId, k: nat, l: Lease, ds: seq<Draft>) returns (s': State)
    requires hide *; true
    requires Reached(s) && Sits(s, k, l) && e in s.episodes && Ready(s.episodes[e], l) && s.episodes[e].resultOf.None?
             && StallOn(l.topic) in s.triggers
    requires |ds| <= 1 && forall d | d in ds :: d.id !in s.proposals
    requires l.topic in s.topics && s.topics[l.topic].allowance >= 1
    ensures Reached(s') && s' == ReportedBy(s, e, l, ds).(revision := s'.revision)
  {
    hide *;
    var op := Finishing(ReportOf(e, l, ds), 0);
    ReportLands(s, e, l, ds);
    ReportIsStep(s, e, k, l, ds);
    ApplyIs(s, op);
    AfterIs(s, FinishCheckpoint(s, ReportOf(e, l, ds), 0));
    s' := ReachCommit(s, op, ReportedBy(s, e, l, ds));
  }

  lemma ReportLands(s: State, e: EpisodeId, l: Lease, ds: seq<Draft>)
    requires e in s.episodes && Ready(s.episodes[e], l) && s.episodes[e].resultOf.None?
             && StallOn(l.topic) in s.triggers
    requires |ds| <= 1 && forall d | d in ds :: d.id !in s.proposals
    requires l.topic in s.topics && s.topics[l.topic].allowance >= 1
    ensures s.episodes[e].topic == l.topic
    ensures var o := FinishCheckpoint(s, ReportOf(e, l, ds), 0); o.Done? && o.state == ReportedBy(s, e, l, ds)
  {
    hide FinishRefusal, EndState, Reported;
    ReportHolds(s, e, l, ds);
  }

  lemma ReportIsStep(s: State, e: EpisodeId, k: nat, l: Lease, ds: seq<Draft>)
    requires Sits(s, k, l) && e in s.episodes && s.episodes[e].topic == l.topic
    ensures |s.seats| == MAX_STATIONS
    ensures Allowed(s, Finishing(ReportOf(e, l, ds), 0)) && Plain(Finishing(ReportOf(e, l, ds), 0))
  {
    assert Serving(s, l.id, l.topic);
  }

  /** What a review's run leaves: one proposal at most, the topic cleared when there is none. */
  ghost predicate ReviewedAs(s: State, s': State, e: EpisodeId, l: Lease, ds: seq<Draft>) {
    && s'.seats == s.seats && s'.items == s.items && s'.active == s.active && s'.intents == s.intents
    && s'.decisions == s.decisions
    && e in s'.episodes && s'.episodes == s.episodes[e := s'.episodes[e]] && s'.episodes[e].state == EndOf(ds)
    && s'.episodes[e].topic == l.topic
    && l.topic in s'.topics && s'.topics == s.topics[l.topic := s'.topics[l.topic]]
    && (ds == [] ==> s'.topics[l.topic].active.None? && s'.topics[l.topic].review == Eligible)
    && (|ds| == 1 ==> s'.proposals == s.proposals[ds[0].id :=
         Proposal(e, l.topic, ds[0].version, ds[0].content, true, None)])
    && s'.history.concluded == s.history.concluded + {l.id} && s'.triggers.Keys == s.triggers.Keys
    && s'.history.clock == s.history.clock
    && s'.history.minted == s.history.minted
  }

  lemma ReportSettles(s: State, e: EpisodeId, l: Lease, ds: seq<Draft>)
    requires e in s.episodes && s.episodes[e].topic == l.topic && l.topic in s.topics && |ds| <= 1
    ensures ReviewedAs(s, ReportedBy(s, e, l, ds), e, l, ds)
  {
    if |ds| == 1 {
      var d := ds[0];
      assert ds[..0] == [];
      assert IssueProposals(s.proposals, e, l.topic, ds) ==
        s.proposals[d.id := Proposal(e, l.topic, d.version, d.content, true, None)];
    }
  }

  lemma SameBut(s: State, t: State, s': State, e: EpisodeId, l: Lease, ds: seq<Draft>)
    requires e in s.episodes && e in t.episodes
             && t == s.(revision := t.revision, episodes := s.episodes[e := t.episodes[e]])
             && ReviewedAs(t, s', e, l, ds)
    ensures ReviewedAs(s, s'.(revision := s'.revision), e, l, ds)
  {
    assert s.episodes[e := t.episodes[e]][e := s'.episodes[e]] == s.episodes[e := s'.episodes[e]];
  }

  /** A leased review runs to its end. */
  lemma ReviewRuns(s: State, e: EpisodeId, k: nat, l: Lease, ds: seq<Draft>) returns (s': State)
    requires hide *; true
    requires Reached(s) && Sits(s, k, l) && e in s.episodes && s.episodes[e] == OpenedOn(l.topic)
    requires forall d | d in s.episodes :: s.episodes[d].state !in {CompleteWithoutProposals, CompleteWithDecisions}
    requires StallOn(l.topic) in s.triggers && l.topic in s.topics && s.topics[l.topic].allowance >= 1
    requires |ds| <= 1 && forall d | d in ds :: d.id !in s.proposals
    ensures Reached(s') && ReviewedAs(s, s', e, l, ds)
  {
    hide Reached;
    var s1 := Starts(s, e, k, l);
    var s2 := Counters(s1, e, k, l);
    s' := Reports(s2, e, k, l, ds);
    ReportSettles(s2, e, l, ds);
    var t := ReportedBy(s2, e, l, ds);
    assert ReviewedAs(s2, s', e, l, ds);
    SameBut(s1, s2, s', e, l, ds);
    SameBut(s, s1, s', e, l, ds);
  }

  // ---------- Two runs ----------

  lemma SingleOffer(s: State, e: EpisodeId)
    requires s.items == [WorkItem(1)] && s.active == 1 && !s.paused && !s.stopping && Rests(s.seats)
             && s.topics == map[1 := DueOn(e)]
    ensures Offers(s, 1, 1, 1)
  {
    var cand, due := CandidateFlags(s, 1), DueFlags(s);
    assert Executing(s.seats) == {};
    assert cand == [true] && due == [true];
    assert Picks(cand, due, true, 1) == [0] && Picks(cand, due, false, 1) == Picks(cand, due, false, 0);
    assert DealOrder(s, 1) == [0];
    assert AvailableBelow(s, 1, 0) == 0;
  }

  predicate OneDue(s: State) {
    && s.items == [WorkItem(1)] && s.active == 1 && !s.paused && !s.stopping && |s.seats| == MAX_STATIONS
    && s.topics == map[1 := DueOn(10)]
    && s.episodes == map[10 := OpenedOn(1)] && StallOn(1) in s.triggers && s.intake.None? && s.history.concluded == {}
    && s.proposals == map[]
  }

  lemma OpenOne() returns (s: State)
    ensures Reached(s) && OneDue(s) && Rests(s.seats) && s.history.minted == map[] && s.history.clock == 0
  {
    hide *;
    var s0 := Fresh([WorkItem(1)], 1);
    FreshIdle();
    ReachInitial(s0);
    s := Opens(s0, 1, 10);
    OpenedOnce(s);
  }

  lemma OpenedOnce(s: State)
    requires s == Opened(Fresh([WorkItem(1)], 1), 1, 10).(revision := s.revision)
    ensures OneDue(s) && Rests(s.seats) && s.history.minted == map[] && s.history.clock == 0
  {
  }

  lemma LeaseOne() returns (s: State, l: Lease)
    requires hide *; true
    ensures Reached(s) && OneDue(s) && Sits(s, 0, l) && l.topic == 1 && l.station == 1
  {
    hide Reached;
    var s0 := OpenOne();
    SingleOffer(s0, 10);
    s, l := LeaseReview(s0, 1, 1, 7, 1);
  }

  /** A review whose run has reported and cleared its topic, and whose lease was not finalized. */
  lemma ClearedReview() returns (s: State, l: Lease)
    requires hide Reached; true
    ensures Reached(s) && |s.seats| == MAX_STATIONS && s.seats[0].current == Some(l) && l.station == 1
            && l.kind == Checkpoint
    ensures l.topic in s.topics && s.topics[l.topic].active.None? && Mirrored(s.topics)
    ensures forall e | e in s.episodes :: !Open(s.episodes[e].state)
  {
    hide Reached;
    var s0;
    s0, l := LeaseOne();
    s := ReviewRuns(s0, 10, 0, l, []);
  }

  predicate TwoItems(s: State) {
    s.items == [WorkItem(1), WorkItem(2)] && s.active == 2 && !s.paused && !s.stopping && |s.seats| == MAX_STATIONS
    && 1 in s.topics && 2 in s.topics && s.topics[1] == DueOn(10) && s.topics[2] == DueOn(20)
    && (forall k | 0 <= k < |s.seats| :: s.seats[k].restUntil.None?)
  }

  lemma FirstOffer(s: State)
    requires TwoItems(s) && Rests(s.seats)
    ensures Offers(s, 1, 1, 1)
  {
    var cand, due := CandidateFlags(s, 1), DueFlags(s);
    assert Executing(s.seats) == {};
    assert cand == [true, true] && due == [true, true];
    assert Picks(cand, due, true, 1) == [0] && Picks(cand, due, true, 2) == [0, 1];
    assert AvailableBelow(s, 1, 0) == 0;
  }

  lemma SecondOffer(s: State)
    requires TwoItems(s) && s.seats[0].current.Some? && s.seats[0].current.value.topic == 1
    requires forall k | 1 <= k < |s.seats| :: s.seats[k].current.None?
    ensures Offers(s, 2, 2, 2)
  {
    var cand, due := CandidateFlags(s, 2), DueFlags(s);
    assert Executing(s.seats) == {1} by { assert s.seats[0].current.value.topic in Executing(s.seats); }
    assert cand == [false, true] && due == [true, true];
    assert Picks(cand, due, true, 1) == [] && Picks(cand, due, true, 2) == [1];
    assert AvailableBelow(s, 2, 1) == 0;
  }

  predicate TwoDue(s: State) {
    && TwoItems(s) && s.episodes == map[10 := OpenedOn(1), 20 := OpenedOn(2)] && StallOn(1) in s.triggers
    && StallOn(2) in s.triggers
    && s.proposals == map[] && s.intents == map[] && s.decisions == map[] && s.intake.None? && s.history.concluded == {}
  }

  lemma OpenTwo() returns (s: State)
    ensures Reached(s) && TwoDue(s) && Rests(s.seats) && s.history.minted == map[] && s.history.clock == 0
  {
    hide *;
    var s0 := Fresh([WorkItem(1), WorkItem(2)], 2);
    FreshTwo();
    ReachInitial(s0);
    OpenedFresh();
    var s1 := Opens(s0, 1, 10);
    s := Opens(s1, 2, 20);
    OpenedTwice(s1, s);
  }

  lemma FreshTwo()
    ensures var s := Fresh([WorkItem(1), WorkItem(2)], 2);
            && Initial(s) && (forall i | i in s.items :: !i.lock.Pinned?) && |s.seats| == MAX_STATIONS
            && s.topics == map[] && s.episodes == map[] && s.triggers == map[]
  {
  }

  lemma OpenedFresh()
    ensures var s := Opened(Fresh([WorkItem(1), WorkItem(2)], 2), 1, 10);
            |s.seats| == MAX_STATIONS && 2 !in s.topics && 20 !in s.episodes && StallOn(2) !in s.triggers
  {
  }

  lemma OpenedTwice(s1: State, s: State)
    requires s1 == Opened(Fresh([WorkItem(1), WorkItem(2)], 2), 1, 10).(revision := s1.revision)
             && s == Opened(s1, 2, 20).(revision := s.revision)
    ensures TwoDue(s) && Rests(s.seats) && s.history.minted == map[] && s.history.clock == 0
  {
  }

  lemma LeaseFirst() returns (s: State, l: Lease)
    requires hide *; true
    ensures Reached(s) && TwoDue(s) && Sits(s, 0, l) && l.topic == 1 && l.id == 7 && s.history.clock == 1
            && s.history.minted.Keys == {7}
    ensures forall k | 1 <= k < |s.seats| :: s.seats[k].current.None?
  {
    hide Reached;
    var s0 := OpenTwo();
    FirstOffer(s0);
    s, l := LeaseReview(s0, 1, 1, 7, 1);
  }

  /** Two topics under review on two stations. */
  lemma LeaseTwo() returns (s: State, l: Lease, m: Lease)
    requires hide *; true
    ensures Reached(s) && TwoDue(s) && Sits(s, 0, l) && Sits(s, 1, m) && l.topic == 1 && m.topic == 2 && l.id == 7
            && m.id == 8
  {
    hide Reached;
    var s1;
    s1, l := LeaseFirst();
    SecondOffer(s1);
    s, m := LeaseReview(s1, 2, 2, 8, 2);
  }

  function Asking(id: ProposalId): seq<Draft> { [Draft(id, 1, Addition("claim", "source"))] }

  function Pending(id: ProposalId, e: EpisodeId, t: TopicId): Proposal {
    Proposal(e, t, 1, Addition("claim", "source"), true, None)
  }

  /** The first topic waits, the second one's review runs. */
  ghost predicate OneAwaits(s: State, m: Lease) {
    && s.intents == map[] && s.decisions == map[] && s.items == [WorkItem(1), WorkItem(2)]
    && 10 in s.episodes && s.episodes[10].state == Awaiting && s.episodes[10].topic == 1
    && s.proposals == map[100 := Pending(100, 10, 1)] && 1 in s.topics
    && Sits(s, 1, m) && m.topic == 2 && 20 in s.episodes && s.episodes[20] == OpenedOn(2)
    && (forall d | d in s.episodes :: s.episodes[d].state !in {CompleteWithoutProposals, CompleteWithDecisions})
    && StallOn(2) in s.triggers && 2 in s.topics && s.topics[2].allowance >= 1
  }

  lemma FirstAwaits() returns (s: State, m: Lease)
    ensures Reached(s) && OneAwaits(s, m)
  {
    hide Reached;
    var s0, l;
    s0, l, m := LeaseTwo();
    s := ReviewRuns(s0, 10, 0, l, Asking(100));
    AwaitsFirst(s0, s, l, m);
  }

  lemma AwaitsFirst(s: State, s': State, l: Lease, m: Lease)
    requires TwoDue(s) && |s.seats| == MAX_STATIONS && Sits(s, 1, m) && l.topic == 1 && m.topic == 2 && l.id != m.id
    requires ReviewedAs(s, s', 10, l, Asking(100))
    ensures OneAwaits(s', m)
  {
  }

  /** Two topics wait for the operator, each with one proposal. */
  lemma TwoAwaiting() returns (s: State)
    requires hide *; true
    ensures Reached(s) && s.intents == map[] && s.decisions == map[] && |s.seats| == MAX_STATIONS
    ensures 10 in s.episodes && s.episodes[10].state == Awaiting && s.episodes[10].topic == 1
    ensures 20 in s.episodes && s.episodes[20].state == Awaiting && s.episodes[20].topic == 2
    ensures s.proposals == map[100 := Pending(100, 10, 1), 200 := Pending(200, 20, 2)] && 1 in s.topics && 2 in s.topics
    ensures s.items == [WorkItem(1), WorkItem(2)]
  {
    hide Reached;
    var s1, m := FirstAwaits();
    s := ReviewRuns(s1, 20, 1, m, Asking(200));
  }

  // ---------- Deciding on them ----------

  function Rejection(revision: nat, t: TopicId, e: EpisodeId, id: ProposalId): Payload {
    Payload(revision, t, e, [Choice(id, 1, Reject)])
  }

  function Approval(revision: nat, t: TopicId, e: EpisodeId, id: ProposalId): Payload {
    Payload(revision, t, e, [Choice(id, 1, Approve)])
  }

  lemma RejectionHolds(s: State, t: TopicId, e: EpisodeId, id: ProposalId, bundle: Option<Bundle>)
    requires e in s.episodes && s.episodes[e].state == Awaiting && s.episodes[e].topic == t
    requires id in s.proposals && s.proposals[id] == Pending(id, e, t)
    ensures IntentRefusal(s, Rejection(s.revision, t, e, id), bundle).None?
            && Approved(Rejection(s.revision, t, e, id).choices) == []
  {
    var cs := [Choice(id, 1, Reject)];
    assert cs[..0] == [];
    assert Approved(cs) == [] && ChoicesRefusal(s, e, cs).None?;
  }

  lemma ApprovalHolds(s: State, t: TopicId, e: EpisodeId, id: ProposalId, bundle: Option<Bundle>)
    requires e in s.episodes && s.episodes[e].state == Awaiting && s.episodes[e].topic == t && bundle.Some?
    requires id in s.proposals && s.proposals[id] == Pending(id, e, t)
    ensures IntentRefusal(s, Approval(s.revision, t, e, id), bundle).None?
    ensures Approved(Approval(s.revision, t, e, id).choices) == [(id, Approve)]
  {
    var cs := [Choice(id, 1, Approve)];
    assert cs[..0] == [];
    assert Approved(cs) == [(id, Approve)] && ChoicesRefusal(s, e, cs).None?;
  }
}
