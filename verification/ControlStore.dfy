/** The controller's store as it runs: one method for each transaction, each proved against its specification. */
module ControlStore {
  import opened Common
  import opened ControlRecords
  import opened Scheduler
  import opened Checkpoints
  import Compaction
  import Dealing

  datatype Result<+T> = Ok(value: T) | Err(error: Error)

  function ResultOf<T>(o: Outcome<T>): Result<T> {
    match o
    case Done(_, v) => Ok(v)
    case Refused(e) => Err(e)
  }

  function ConsideredBelow(s: State, i: nat): set<TopicId>
    requires i <= |s.items|
  {
    set j | 0 <= j < i && Considered(s, s.items[j]) :: s.items[j].id
  }

  lemma EnsureNext(s: State, i: nat)
    requires i < |s.items|
    ensures var below := EnsureTopics(s.topics, ConsideredBelow(s, i));
            && TopicOf(below, s.items[i].id) == TopicOf(s.topics, s.items[i].id)
            && EnsureTopics(s.topics, ConsideredBelow(s, i + 1)) ==
                 if Considered(s, s.items[i]) then below[s.items[i].id := TopicOf(s.topics, s.items[i].id)] else below
  {
    if Considered(s, s.items[i]) {
      assert ConsideredBelow(s, i + 1) == ConsideredBelow(s, i) + {s.items[i].id};
    } else {
      assert ConsideredBelow(s, i + 1) == ConsideredBelow(s, i);
    }
  }

  // ---------- Sorting a topic's runs ----------

  predicate Older(runs: map<RunId, Run>, q: RunId, r: RunId) { q in runs && r in runs && SortsBefore(runs, q, r) }

  /** The ids, oldest first. */
  ghost predicate OldestFirst(runs: map<RunId, Run>, ids: set<RunId>, order: seq<RunId>) {
    && ids <= runs.Keys && Elements(order) == ids && |order| == |ids|
    && forall i, j | 0 <= i < j < |order| :: Older(runs, order[i], order[j])
  }

  lemma ElementsSnoc(order: seq<RunId>, r: RunId)
    ensures Elements(order + [r]) == Elements(order) + {r}
  {
  }

  lemma OldestSnoc(runs: map<RunId, Run>, ids: set<RunId>, order: seq<RunId>, r: RunId)
    requires OldestFirst(runs, ids, order) && r in runs && r !in ids
    requires forall i | 0 <= i < |order| :: Older(runs, order[i], r)
    ensures OldestFirst(runs, ids + {r}, order + [r])
  {
    ElementsSnoc(order, r);
  }

  lemma OlderThanRest(runs: map<RunId, Run>, order: seq<RunId>, r: RunId, rest: set<RunId>)
    requires forall i, q | 0 <= i < |order| && q in rest :: Older(runs, order[i], q)
    requires forall q | q in rest && q != r :: Older(runs, r, q)
    ensures forall i, q | 0 <= i < |order + [r]| && q in rest - {r} :: Older(runs, (order + [r])[i], q)
  {
  }

  /** Sorting so far: what is in order is older than the rest. */
  ghost predicate Sorting(runs: map<RunId, Run>, all: set<RunId>, rest: set<RunId>, order: seq<RunId>) {
    && rest <= all && all <= runs.Keys && OldestFirst(runs, all - rest, order)
    && forall i, q | 0 <= i < |order| && q in rest :: Older(runs, order[i], q)
  }

  lemma SortNext(runs: map<RunId, Run>, all: set<RunId>, rest: set<RunId>, order: seq<RunId>, r: RunId)
    requires Sorting(runs, all, rest, order) && r in rest && forall q | q in rest && q != r :: Older(runs, r, q)
    ensures Sorting(runs, all, rest - {r}, order + [r])
  {
    OldestSnoc(runs, all - rest, order, r);
    OlderThanRest(runs, order, r, rest);
    assert all - (rest - {r}) == all - rest + {r};
  }

  lemma {:induction false} ElementsSize(order: seq<RunId>)
    requires forall i, j | 0 <= i < j < |order| :: order[i] != order[j]
    ensures |Elements(order)| == |order|
  {
    if order != [] {
      var rest := order[..|order| - 1];
      ElementsSize(rest);
      ElementsSnoc(rest, order[|order| - 1]);
      assert order == rest + [order[|order| - 1]];
    }
  }

  /** In a topic's runs, oldest first, the newer runs of one are exactly those after it. */
  lemma NewerAfter(runs: map<RunId, Run>, t: TopicId, order: seq<RunId>, i: nat)
    requires OldestFirst(runs, RunsFor(runs, t), order) && i < |order|
    ensures order[i] in RunsFor(runs, t) && |NewerRuns(runs, order[i])| == |order| - 1 - i
  {
    assert order[i] in Elements(order);
    assert forall k | 0 <= k < i :: Older(runs, order[k], order[i]);
    var later := order[i + 1..];
    forall j, k | 0 <= j < k < |later| ensures later[j] != later[k] {
      assert Older(runs, order[i + 1 + j], order[i + 1 + k]);
    }
    ElementsSize(later);
    forall q ensures q in NewerRuns(runs, order[i]) <==> q in Elements(later) {
      if q in Elements(later) {
        var k :| 0 <= k < |later| && later[k] == q;
        assert Older(runs, order[i], order[i + 1 + k]) && order[i + 1 + k] in Elements(order);
      }
      if q in NewerRuns(runs, order[i]) {
        assert q in Elements(order);
        var k :| 0 <= k < |order| && order[k] == q;
        assert k > i && later[k - i - 1] == q;
      }
    }
    assert NewerRuns(runs, order[i]) == Elements(later);
  }

  /** The runs dropped among the first n of a topic's runs: those beyond the newest 200 that nothing keeps. */
  function Dropped(runs: map<RunId, Run>, referenced: set<RunId>, order: seq<RunId>, n: nat): set<RunId>
    requires n <= |order|
  {
    set j | 0 <= j < n && j < |order| - RUNS_RETAINED_PER_TOPIC && Droppable(runs, referenced, order[j]) :: order[j]
  }

  lemma DroppedNext(runs: map<RunId, Run>, referenced: set<RunId>, t: TopicId, order: seq<RunId>, n: nat)
    requires OldestFirst(runs, RunsFor(runs, t), order) && n < |order|
    ensures order[n] !in Dropped(runs, referenced, order, n)
    ensures Dropped(runs, referenced, order, n + 1) ==
              if n < |order| - RUNS_RETAINED_PER_TOPIC && Droppable(runs, referenced, order[n])
              then Dropped(runs, referenced, order, n) + {order[n]}
              else Dropped(runs, referenced, order, n)
  {
    forall j | 0 <= j < n ensures order[j] != order[n] {
      assert Older(runs, order[j], order[n]);
    }
  }

  lemma DroppedArePrunable(runs: map<RunId, Run>, referenced: set<RunId>, t: TopicId, order: seq<RunId>)
    requires OldestFirst(runs, RunsFor(runs, t), order)
    ensures Dropped(runs, referenced, order, |order|) == PrunedFor(runs, referenced, t)
  {
    forall j | 0 <= j < |order| ensures order[j] in RunsFor(runs, t) && |NewerRuns(runs, order[j])| == |order| - 1 - j {
      NewerAfter(runs, t, order, j);
    }
    forall r | r in PrunedFor(runs, referenced, t) ensures r in Dropped(runs, referenced, order, |order|) {
      assert r in Elements(order);
    }
  }

  predicate Droppable(runs: map<RunId, Run>, referenced: set<RunId>, r: RunId) {
    r in runs && runs[r].state != Started && r !in referenced
  }

  /** The ledger after the topics in `done` were pruned. */
  function RunsAfter(runs: map<RunId, Run>, referenced: set<RunId>, done: set<TopicId>): map<RunId, Run> {
    map r | r in runs && !(runs[r].topic in done && Prunable(runs, referenced, r)) :: runs[r]
  }

  function CountsAfter(runs: map<RunId, Run>, referenced: set<RunId>, pruned: map<TopicId, nat>,
                       done: set<TopicId>): map<TopicId, nat> {
    map t | t in pruned.Keys + done && (t in pruned || PrunedFor(runs, referenced, t) != {}) ::
      CountOr0(pruned, t) + if t in done then |PrunedFor(runs, referenced, t)| else 0
  }

  lemma RunsNext(runs: map<RunId, Run>, referenced: set<RunId>, done: set<TopicId>, t: TopicId)
    ensures RunsAfter(runs, referenced, done + {t}) ==
            RunsAfter(runs, referenced, done) - PrunedFor(runs, referenced, t)
  {
  }

  /** Dropping a set of runs adds its size to the tombstone. */
  function Tombstone(pruned: map<TopicId, nat>, t: TopicId, gone: set<RunId>): map<TopicId, nat> {
    if gone == {} then pruned else pruned[t := CountOr0(pruned, t) + |gone|]
  }

  lemma CountsNext(runs: map<RunId, Run>, referenced: set<RunId>, pruned: map<TopicId, nat>, done: set<TopicId>,
                   t: TopicId)
    requires t !in done
    ensures CountsAfter(runs, referenced, pruned, done + {t}) ==
              Tombstone(CountsAfter(runs, referenced, pruned, done), t, PrunedFor(runs, referenced, t))
  {
    var a, b := CountsAfter(runs, referenced, pruned, done + {t}),
      Tombstone(CountsAfter(runs, referenced, pruned, done), t, PrunedFor(runs, referenced, t));
    assert a.Keys == b.Keys;
    forall x | x in a ensures a[x] == b[x] {
    }
  }

  lemma PruneStarts(runs: map<RunId, Run>, referenced: set<RunId>, pruned: map<TopicId, nat>)
    ensures Pruning(runs, referenced, pruned, {}, runs, pruned)
  {
  }

  /** How far pruning has come: the topics in `done` are pruned. */
  ghost predicate Pruning(ledger: map<RunId, Run>, referenced: set<RunId>, counts: map<TopicId, nat>,
                          done: set<TopicId>, runs: map<RunId, Run>, pruned: map<TopicId, nat>)
  {
    runs == RunsAfter(ledger, referenced, done) && pruned == CountsAfter(ledger, referenced, counts, done)
  }

  lemma PruneEnds(ledger: map<RunId, Run>, referenced: set<RunId>, counts: map<TopicId, nat>, runs: map<RunId, Run>,
                  pruned: map<TopicId, nat>)
    requires Pruning(ledger, referenced, counts, RunTopics(ledger), runs, pruned)
    ensures runs == CompactRuns(ledger, referenced) && pruned == CompactCounts(ledger, referenced, counts)
  {
    RunsEnd(ledger, referenced);
    CountsEnd(ledger, referenced, counts);
  }

  lemma RunsEnd(runs: map<RunId, Run>, referenced: set<RunId>)
    ensures RunsAfter(runs, referenced, RunTopics(runs)) == CompactRuns(runs, referenced)
  {
  }

  lemma CountsEnd(runs: map<RunId, Run>, referenced: set<RunId>, pruned: map<TopicId, nat>)
    ensures CountsAfter(runs, referenced, pruned, RunTopics(runs)) == CompactCounts(runs, referenced, pruned)
  {
    forall t | t !in RunTopics(runs) ensures PrunedFor(runs, referenced, t) == {} {
    }
    var a, b := CountsAfter(runs, referenced, pruned, RunTopics(runs)), CompactCounts(runs, referenced, pruned);
    assert a.Keys == b.Keys;
    forall x | x in a ensures a[x] == b[x] {
    }
  }

  lemma ReorderIsDeal(s: State, order: seq<TopicId>, expected: nat, now: Time)
    requires s.queueRevision == expected && |order| == |s.items| && Elements(order) == Elements(Ids(s.items))
             && Distinct(order)
    ensures (forall id | id in order :: ItemNamed(s.items, id).Some?)
         && Scheduler.Reorder(s, order, expected, now) ==
              Done(Reconcile(s.(items := Rearranged(s.items, order), queueRevision := expected + 1), now), expected + 1)
  {
    hide Reconcile;
    forall id | id in order ensures ItemNamed(s.items, id).Some? {
      assert id in Elements(order);
      NamedExists(s.items, id);
    }
  }

  function Shifted(at: Option<nat>, by_: nat): Option<nat> { if at.Some? then Some(at.value + by_) else None }

  class Store {
    var revision: nat
    var active: nat
    var policy: Policy
    var paused: bool
    var stopping: bool
    var queueRevision: nat
    var items: seq<Item>
    var seats: seq<Seat>
    var intake: Option<Lease>
    var topics: map<TopicId, Topic>
    var runs: map<RunId, Run>
    var pruned: map<TopicId, nat>
    var capabilities: map<Token, Capability>
    var triggers: map<TriggerKey, Trigger>
    var episodes: map<EpisodeId, Episode>
    var proposals: map<ProposalId, Proposal>
    var decisions: map<RequestId, Decision>
    var intents: map<RequestId, Intent>
    var resetRequests: map<RequestId, ResetRequest>
    var retryRequests: map<RequestId, RetryRequest>
    /** What happened so far, kept only to state properties. */
    var history: History

    function View(): State
      reads this
    {
      State(revision, active, policy, paused, stopping, queueRevision, items, seats, intake, topics, runs, pruned,
            capabilities, triggers, episodes, proposals, decisions, intents, resetRequests, retryRequests, history)
    }

    constructor (initialPolicy: Policy, stations: nat)
      requires stations <= MAX_STATIONS
      ensures View() == State(0, stations, initialPolicy, false, false, 0, [],
                              [BlankSeat, BlankSeat, BlankSeat, BlankSeat, BlankSeat], None,
                              map[], map[], map[], map[], map[], map[], map[], map[], map[], map[], map[],
                              History(map[], 0, [], {}, map[], true, {}))
    {
      revision, active, policy, paused, stopping, queueRevision := 0, stations, initialPolicy, false, false, 0;
      items, seats, intake := [], [BlankSeat, BlankSeat, BlankSeat, BlankSeat, BlankSeat], None;
      topics, runs, pruned, capabilities, triggers := map[], map[], map[], map[], map[];
      episodes, proposals, decisions, intents := map[], map[], map[], map[];
      resetRequests, retryRequests, history := map[], map[], History(map[], 0, [], {}, map[], true, {});
    }

    /** Ends a transaction: the revision moves when anything but the history changed. */
    method Save(before: State)
      requires revision == before.revision
      modifies this`revision
      ensures View() == Commit(before, old(View()))
    {
      if before.(history := history) != View() { revision := revision + 1; }
    }

    // ---------- Dealing ----------

    /** The positions of candidates in dealing order; also creates blank records for the topics it looks at. */
    method CollectCandidates(now: Time) returns (order: seq<nat>)
      modifies this`topics
      ensures order == DealOrder(old(View()), now) && topics == EnsureTopics(old(topics), ConsideredIds(old(View())))
    {
      ghost var s := View();
      ghost var cand, due := CandidateFlags(s, now), DueFlags(s);
      var executing := Executing(seats);
      var reviews, ordinary: seq<nat> := [], [];
      for i := 0 to |items|
        invariant topics == EnsureTopics(s.topics, ConsideredBelow(s, i))
        invariant reviews == Picks(cand, due, true, i) && ordinary == Picks(cand, due, false, i)
      {
        var runnable, review := LookAt(i, executing, now, s);
        if runnable {
          if review { reviews := reviews + [i]; } else { ordinary := ordinary + [i]; }
        }
      }
      order := reviews + ordinary;
    }

    /** Whether an item is a candidate, and due for review; a topic it looks at gets a record. */
    method LookAt(i: nat, executing: set<TopicId>, now: Time, ghost s: State) returns (runnable: bool, review: bool)
      requires i < |items| && items == s.items && executing == Executing(s.seats)
               && topics == EnsureTopics(s.topics, ConsideredBelow(s, i))
      modifies this`topics
      ensures topics == EnsureTopics(s.topics, ConsideredBelow(s, i + 1))
      ensures runnable == Candidate(s, now, i) && (runnable ==> review == DueReview(s, i))
    {
      var item := items[i];
      EnsureNext(s, i);
      runnable, review := false, false;
      if item.research && item.id !in executing {
        var topic := TopicOf(topics, item.id);
        topics := topics[item.id := topic];
        runnable, review := Runnable(items, item, topic, now), topic.review == CheckpointDue;
      }
    }

    /** Deals every station what it should run next. */
    method ReconcileState(now: Time)
      requires |seats| == MAX_STATIONS
      modifies this`seats, this`topics
      ensures View() == Reconcile(old(View()), now)
    {
      hide Scheduler.SeatAfter;
      ghost var s := View();
      if paused || stopping {
        for k := 0 to |seats|
          invariant topics == s.topics && |seats| == |s.seats|
          invariant forall j | 0 <= j < |seats| ::
                    seats[j] == if j < k then s.seats[j].(desired := None) else s.seats[j]
        {
          seats := seats[k := seats[k].(desired := None)];
        }
        assert seats == Undesired(s.seats);
        return;
      }
      var order := CollectCandidates(now);
      DealSeats(order, now, s);
      assert seats == Reconcile(s, now).seats;
    }

    method DealSeats(order: seq<nat>, now: Time, ghost s: State)
      requires s == View().(topics := s.topics) && order == DealOrder(s, now)
      requires forall t :: TopicOf(topics, t) == TopicOf(s.topics, t)
      modifies this`seats
      ensures |seats| == |s.seats| && forall k | 0 <= k < |seats| :: seats[k] == SeatAfter(s, now, k)
    {
      var next := 0;
      for k := 0 to |seats|
        invariant |seats| == |s.seats| && next == AvailableBelow(s, now, k)
        invariant forall j | 0 <= j < |seats| :: seats[j] == if j < k then SeatAfter(s, now, j) else s.seats[j]
      {
        var seat := seats[k];
        if k >= active {
          seat := if seat.current.Some? then seat.(desired := None, draining := true, handoff := true)
            else seat.(desired := None);
        } else if seat.current.Some? {
          seat := seat.(desired := Some(Dealt(seat.current.value.topic, seat.current.value.kind)));
        } else if Later(seat.restUntil, now) {
          seat := seat.(desired := None);
        } else {
          if next < |order| {
            var id := items[order[next]].id;
            seat := seat.(desired := Some(Dealt(id, if TopicOf(topics, id).review == CheckpointDue then Checkpoint
              else Research)));
          } else {
            seat := seat.(desired := None);
          }
          next := next + 1;
        }
        seats := seats[k := seat];
      }
    }

    // ---------- Compaction ----------

    static method FirstRun(ledger: map<RunId, Run>, t: TopicId, rest: set<RunId>) returns (r: RunId)
      requires rest <= RunsFor(ledger, t) && rest != {}
      ensures r in rest && forall q | q in rest && q != r :: Older(ledger, r, q)
    {
      ghost var u := Compaction.Oldest(ledger, t, rest);
      forall q | q in rest && q != u ensures SortsBefore(ledger, u, q) {
        assert q in rest - {u};
      }
      r :| r in rest && forall q | q in rest && q != r :: SortsBefore(ledger, r, q);
    }

    /** A topic's run ids, oldest first. */
    static method SortRuns(ledger: map<RunId, Run>, t: TopicId) returns (order: seq<RunId>)
      ensures OldestFirst(ledger, RunsFor(ledger, t), order)
    {
      order := [];
      var rest := RunsFor(ledger, t);
      while rest != {}
        invariant Sorting(ledger, RunsFor(ledger, t), rest, order)
        decreases rest
      {
        var r := FirstRun(ledger, t, rest);
        SortNext(ledger, RunsFor(ledger, t), rest, order, r);
        order := order + [r];
        rest := rest - {r};
      }
      assert RunsFor(ledger, t) - {} == RunsFor(ledger, t);
    }

    /** Which of a topic's runs go: all but the newest 200, less those that are started or referred to. */
    static method RunsToDrop(ledger: map<RunId, Run>, t: TopicId, referenced: set<RunId>) returns (gone: set<RunId>)
      ensures gone == PrunedFor(ledger, referenced, t)
    {
      var order := SortRuns(ledger, t);
      gone := {};
      for i := 0 to |order|
        invariant gone == Dropped(ledger, referenced, order, i)
      {
        NewerAfter(ledger, t, order, i);
        DroppedNext(ledger, referenced, t, order, i);
        if i < |order| - RUNS_RETAINED_PER_TOPIC && ledger[order[i]].state != Started && order[i] !in referenced {
          gone := gone + {order[i]};
        }
      }
      DroppedArePrunable(ledger, referenced, t, order);
    }

    /** Drops what may be dropped of one more topic's runs, counting it on the tombstone. */
    method PruneTopic(ledger: map<RunId, Run>, t: TopicId, referenced: set<RunId>, ghost counts: map<TopicId, nat>,
                      ghost done: set<TopicId>)
      requires t !in done && Pruning(ledger, referenced, counts, done, runs, pruned)
      modifies this`runs, this`pruned
      ensures Pruning(ledger, referenced, counts, done + {t}, runs, pruned)
    {
      var gone := RunsToDrop(ledger, t, referenced);
      RunsNext(ledger, referenced, done, t);
      CountsNext(ledger, referenced, counts, done, t);
      runs := runs - gone;
      if gone != {} { pruned := pruned[t := CountOr0(pruned, t) + |gone|]; }
    }

    method PruneLedger()
      modifies this`runs, this`pruned
      ensures View() == old(View()).(runs := CompactRuns(old(runs), Referenced(episodes)),
              pruned := CompactCounts(old(runs), Referenced(episodes), old(pruned)))
    {
      PruneTopics(Referenced(episodes));
    }

    method PruneTopics(referenced: set<RunId>)
      modifies this`runs, this`pruned
      ensures runs == CompactRuns(old(runs), referenced) && pruned == CompactCounts(old(runs), referenced, old(pruned))
    {
      var ledger, rest := runs, RunTopics(runs);
      ghost var counts := pruned;
      ghost var done: set<TopicId> := {};
      PruneStarts(ledger, referenced, counts);
      while rest != {}
        invariant done == RunTopics(ledger) - rest && rest <= RunTopics(ledger)
        invariant Pruning(ledger, referenced, counts, done, runs, pruned)
        decreases rest
      {
        var t :| t in rest;
        PruneTopic(ledger, t, referenced, counts, done);
        rest, done := rest - {t}, done + {t};
      }
      assert done == RunTopics(ledger);
      PruneEnds(ledger, referenced, counts, runs, pruned);
    }

    /** Drops capabilities that are revoked or whose lease is not current in its generation. */
    method PurgeCapabilities()
      modifies this`capabilities
      ensures View() == old(View()).(capabilities := LiveCapabilities(old(View())))
    {
      var pairs := LeasePairs(seats, intake);
      var dead := set d | d in capabilities && (capabilities[d].revoked
        || (capabilities[d].lease, capabilities[d].generation) !in pairs);
      capabilities := capabilities - dead;
    }

    /** Bounds the run ledger and drops dead capabilities. */
    method CompactLedger()
      modifies this`runs, this`pruned, this`capabilities
      ensures View() == Compact(old(View()))
    {
      PurgeCapabilities();
      PruneLedger();
    }

    // ---------- Scheduling transactions ----------

    method ReconcileTransaction(now: Time)
      requires |seats| == MAX_STATIONS
      modifies this
      ensures View() == Commit(old(View()), Reconcile(old(View()), now))
    {
      var before := View();
      ReconcileState(now);
      Save(before);
    }

    /** A station asks for work. */
    method Claim(station: nat, now: Time, uuid: RunId) returns (r: Result<Claimed>)
      requires |seats| == MAX_STATIONS
      modifies this
      ensures View() == After(old(View()), Scheduler.Claim(old(View()), station, now, uuid))
      ensures r == ResultOf(Scheduler.Claim(old(View()), station, now, uuid))
    {
      hide Scheduler.Reconcile;
      var before := View();
      if !ValidStation(station) { return Err(ValidationError); }
      if station > active || Later(seats[station - 1].restUntil, now) { return Ok(NoLease); }
      ReconcileState(now);
      var claimed := ClaimDealt(station, now, uuid);
      Save(before);
      r := Ok(claimed);
    }

    /** After dealing: resumes the station's lease or mints one for what it was dealt. */
    method ClaimDealt(station: nat, now: Time, uuid: RunId) returns (claimed: Claimed)
      requires |seats| == MAX_STATIONS && ValidStation(station)
      modifies this`seats, this`runs, this`history
      ensures Done(View(), claimed) == Granted(old(View()), station, now, uuid)
    {
      var seat := seats[station - 1];
      if seat.current.Some? {
        return if seat.desired.Some? && seat.desired.value.topic == seat.current.value.topic
          then Resumed(seat.current.value) else NoLease;
      }
      if seat.desired.None? { return NoLease; }
      var d := seat.desired.value;
      if Later(TopicOf(topics, d.topic).retryAt, now) || TakenElsewhere(seats, station, d.topic) { return NoLease; }
      var lease := MintFor(station, now, uuid, d);
      claimed := Minted(lease);
    }

    method MintFor(station: nat, now: Time, uuid: RunId, d: Dealt) returns (lease: Lease)
      requires |seats| == MAX_STATIONS && ValidStation(station)
      modifies this`seats, this`runs, this`history
      ensures View() == MintLease(old(View()), station, now, uuid, d)
              && lease == NewLease(old(View()), station, now, uuid, d)
    {
      var seat := seats[station - 1];
      lease := Lease(d.topic, d.kind, station, uuid, seat.generation + 1, now, false);
      seats := seats[station - 1 := seat.(generation := lease.generation, current := Some(lease), draining := false)];
      runs := runs[uuid := Run(d.topic, station, Some(lease.generation), Some(d.kind), Started, Some(now), None, None,
        None, false, None, false)];
      history := history.(clock := now, minted :=
        history.minted[uuid := Mint(d.topic, d.kind, station, lease.generation, now)]);
    }

    /** The position of the first item with this id. */
    method FindItem(id: TopicId) returns (at: Option<nat>)
      ensures at == FirstItem(items, id)
    {
      var i := 0;
      while i < |items|
        invariant i <= |items| && FirstItem(items, id) == Shifted(FirstItem(items[i..], id), i)
      {
        assert items[i..][1..] == items[i + 1..];
        if items[i].id == id { return Some(i); }
        i := i + 1;
      }
      assert items[i..] == [];
      return None;
    }

    method RevokeFor(lease: RunId)
      modifies this`capabilities
      ensures capabilities == Revoke(old(capabilities), lease)
    {
      var rest := capabilities.Keys;
      while rest != {}
        invariant rest <= old(capabilities).Keys && capabilities.Keys == old(capabilities).Keys
        invariant forall d | d in capabilities ::
          capabilities[d] == if d !in rest && old(capabilities)[d].lease == lease
            then old(capabilities)[d].(revoked := true) else old(capabilities)[d]
        decreases rest
      {
        var d :| d in rest;
        if capabilities[d].lease == lease { capabilities := capabilities[d := capabilities[d].(revoked := true)]; }
        rest := rest - {d};
      }
    }

    method EndRun(id: RunId, now: Time)
      modifies this`runs
      ensures runs == FinishRun(old(runs), id, now)
    {
      if id in runs && runs[id].state == Started {
        runs := runs[id := runs[id].(state := Finished, endedAt := Some(now),
          withoutAccounting := runs[id].result.None?)];
      }
    }

    /** The topic's record, with the retry deadline the run asked for, if any. */
    method PaceTopic(t: TopicId, retry: Option<Time>)
      modifies this`topics
      ensures topics == WithRetry(old(topics), t, retry)
    {
      var topic := TopicOf(topics, t);
      topics := topics[t := if retry.Some? then topic.(retryAt := retry) else topic];
    }

    /** The first queue item of the lease's topic stops being claimed. */
    method ReturnItem(lease: Lease)
      modifies this`items
      ensures items == ReleaseItem(old(items), lease)
    {
      var at := FindItem(lease.topic);
      FirstItemIndex(items, lease.topic);
      if at.Some? { items := items[at.value := ReleasedItem(items[at.value], lease.kind)]; }
    }

    method ReleaseLease(k: nat, now: Time, pacing: Option<Time>, retry: Option<Time>)
      requires k < |seats| && seats[k].current.Some?
      modifies this`items, this`seats, this`topics, this`runs, this`capabilities
      ensures View() == Release(old(View()), k, now, pacing, retry)
    {
      var lease := seats[k].current.value;
      LeaveStation(k, pacing, retry);
      CloseLease(lease.id, now);
    }

    method LeaveStation(k: nat, pacing: Option<Time>, retry: Option<Time>)
      requires k < |seats| && seats[k].current.Some?
      modifies this`topics, this`seats, this`items
      ensures var seat, lease, s := old(seats)[k], old(seats)[k].current.value, old(View());
              View() == s.(seats := s.seats[k := seat.(current := None, handoff := false, draining := false,
                                                       restUntil := if pacing.Some? then pacing else seat.restUntil)],
                           topics := WithRetry(s.topics, lease.topic, retry), items := ReleaseItem(s.items, lease))
    {
      var lease := seats[k].current.value;
      EmptySeat(k, pacing);
      PaceTopic(lease.topic, retry);
      ReturnItem(lease);
    }

    method EmptySeat(k: nat, pacing: Option<Time>)
      requires k < |seats|
      modifies this`seats
      ensures var seat := old(seats)[k];
              seats == old(seats)[k := seat.(current := None, handoff := false, draining := false,
                                             restUntil := if pacing.Some? then pacing else seat.restUntil)]
    {
      var seat := seats[k];
      if pacing.Some? { seat := seat.(restUntil := pacing); }
      seats := seats[k := seat.(current := None, handoff := false, draining := false)];
    }

    /** A lease's run finishes and its capabilities die. */
    method CloseLease(id: RunId, now: Time)
      modifies this`runs, this`capabilities
      ensures View() == old(View()).(runs := FinishRun(old(runs), id, now),
              capabilities := Revoke(old(capabilities), id))
    {
      EndRun(id, now);
      RevokeFor(id);
    }

    /** A station's lease ends. */
    method Finalize(station: nat, lease: RunId, now: Time, pacing: Option<Time>, retry: Option<Time>)
      returns (r: Result<Seat>)
      requires |seats| == MAX_STATIONS
      modifies this
      ensures View() == After(old(View()), Scheduler.Finalize(old(View()), station, lease, now, pacing, retry))
      ensures r == ResultOf(Scheduler.Finalize(old(View()), station, lease, now, pacing, retry))
    {
      if !ValidStation(station) { return Err(ValidationError); }
      if seats[station - 1].current.None? || seats[station - 1].current.value.id != lease {
        return Err(RevisionConflict);
      }
      var seat := FinalizeSeat(station - 1, now, pacing, retry);
      r := Ok(seat);
    }

    method FinalizeSeat(k: nat, now: Time, pacing: Option<Time>, retry: Option<Time>) returns (seat: Seat)
      requires |seats| == MAX_STATIONS && k < MAX_STATIONS && seats[k].current.Some?
      modifies this
      ensures var after := Reconcile(Compact(Release(old(View()), k, now, pacing, retry)), now);
              View() == Commit(old(View()), after) && |after.seats| == MAX_STATIONS && seat == after.seats[k]
    {
      var before := View();
      FinalizeLease(k, now, pacing, retry);
      seat := seats[k];
      Save(before);
    }

    method FinalizeLease(k: nat, now: Time, pacing: Option<Time>, retry: Option<Time>)
      requires |seats| == MAX_STATIONS && k < MAX_STATIONS && seats[k].current.Some?
      modifies this`items, this`seats, this`topics, this`runs, this`pruned, this`capabilities
      ensures View() == Reconcile(Compact(Release(old(View()), k, now, pacing, retry)), now)
    {
      ReleaseLease(k, now, pacing, retry);
      CompactLedger();
      ReconcileState(now);
    }

    method ConfirmLaunch(station: nat, lease: RunId) returns (r: Result<Lease>)
      requires |seats| == MAX_STATIONS
      modifies this
      ensures View() == After(old(View()), Scheduler.ConfirmLaunch(old(View()), station, lease))
      ensures r == ResultOf(Scheduler.ConfirmLaunch(old(View()), station, lease))
    {
      var before := View();
      if !ValidStation(station) { return Err(ValidationError); }
      if station > active || seats[station - 1].current.None? || seats[station - 1].current.value.id != lease {
        return Err(RevisionConflict);
      }
      var l := seats[station - 1].current.value.(confirmed := true);
      seats := seats[station - 1 := seats[station - 1].(current := Some(l))];
      r := Ok(l);
      Save(before);
    }

    method Configure(count: Option<nat>, checkpoints: Option<Policy>)
      modifies this`active, this`policy, this`history
      ensures View() == Configured(old(View()), count, checkpoints)
    {
      if checkpoints.Some? {
        policy := checkpoints.value;
        history := history.(steady := false);
      }
      if count.Some? { active := count.value; }
    }

    /** The operator changes how many stations run, the checkpoint policy, or both. */
    method UpdateStations(count: Option<nat>, checkpoints: Option<Policy>, now: Time) returns (r: Result<nat>)
      requires |seats| == MAX_STATIONS
      modifies this
      ensures View() == After(old(View()), Scheduler.UpdateStations(old(View()), count, checkpoints, now))
      ensures r == ResultOf(Scheduler.UpdateStations(old(View()), count, checkpoints, now))
    {
      var before := View();
      if count.Some? && count.value > MAX_STATIONS { return Err(ValidationError); }
      Configure(count, checkpoints);
      r := Ok(active);
      ReconcileState(now);
      Save(before);
    }

    /** Rearranges the queue; the order must name every item exactly once. */
    method Reorder(order: seq<TopicId>, expected: nat, now: Time) returns (r: Result<nat>)
      requires |seats| == MAX_STATIONS
      modifies this
      ensures View() == After(old(View()), Scheduler.Reorder(old(View()), order, expected, now))
      ensures r == ResultOf(Scheduler.Reorder(old(View()), order, expected, now))
    {
      hide Scheduler.Reconcile;
      var before := View();
      if queueRevision != expected { return Err(RevisionConflict); }
      if |order| != |items| || Elements(order) != Elements(Ids(items)) || !Distinct(order) {
        return Err(ValidationError);
      }
      ReorderIsDeal(before, order, expected, now);
      RearrangeQueue(order, now);
      r := Ok(queueRevision);
      Save(before);
    }

    method RearrangeQueue(order: seq<TopicId>, now: Time)
      requires |seats| == MAX_STATIONS && Elements(order) == Elements(Ids(items))
      modifies this`queueRevision, this`items, this`seats, this`topics
      ensures (forall id | id in order :: ItemNamed(old(items), id).Some?)
      ensures View() == Reconcile(old(View()).(items := Rearranged(old(items), order),
              queueRevision := old(queueRevision) + 1), now)
      ensures queueRevision == old(queueRevision) + 1
    {
      ReplaceItems(order);
      ReconcileState(now);
    }

    method ReplaceItems(order: seq<TopicId>)
      requires Elements(order) == Elements(Ids(items))
      modifies this`queueRevision, this`items
      ensures (forall id | id in order :: ItemNamed(old(items), id).Some?)
      ensures View() == old(View()).(items := Rearranged(old(items), order), queueRevision := old(queueRevision) + 1)
    {
      var arranged := Arrange(order);
      items := arranged;
      queueRevision := queueRevision + 1;
    }

    method Arrange(order: seq<TopicId>) returns (arranged: seq<Item>)
      requires Elements(order) == Elements(Ids(items))
      ensures (forall id | id in order :: ItemNamed(items, id).Some?) && arranged == Rearranged(items, order)
    {
      forall id | id in order ensures ItemNamed(items, id).Some? {
        assert id in Elements(order);
        NamedExists(items, id);
      }
      arranged := [];
      for i := 0 to |order|
        invariant |arranged| == i && forall j | 0 <= j < i :: arranged[j] == Rearranged(items, order)[j]
      {
        assert order[i] in order;
        arranged := arranged + [ItemNamed(items, order[i]).value];
      }
    }

    // ---------- Capabilities ----------

    method IssueCapability(token: Token, topic: TopicId, lease: RunId, uid: nat) returns (r: Result<Token>)
      modifies this
      ensures View() == After(old(View()), Scheduler.IssueCapability(old(View()), token, topic, lease, uid))
      ensures r == ResultOf(Scheduler.IssueCapability(old(View()), token, topic, lease, uid))
    {
      var before := View();
      match LeaseOf(before, topic, lease) {
        case None => r := Err(AccessDenied);
        case Some(l) =>
          capabilities := capabilities[token := Capability(topic, lease, uid, l.generation, l.kind, false)];
          Save(before);
          r := Ok(token);
      }
    }

    method RevokeLease(lease: RunId)
      modifies this
      ensures View() == Commit(old(View()), old(View()).(capabilities := Revoke(old(capabilities), lease)))
    {
      var before := View();
      RevokeFor(lease);
      Save(before);
    }

    method AuthenticateToken(token: Token, uid: nat, topic: TopicId) returns (good: bool)
      ensures good <==> Authenticates(View(), token, uid, topic)
    {
      if token !in capabilities { return false; }
      var c := capabilities[token];
      if c.revoked || c.uid != uid || c.topic != topic { return false; }
      var l := LeaseOf(View(), topic, c.lease);
      return l.Some? && l.value.generation == c.generation;
    }
  }
}
