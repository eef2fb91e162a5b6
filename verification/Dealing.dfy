/** What the reconciler deals: the rank specification, and dealing twice changes nothing. */
module Dealing {
  import opened Common
  import opened ControlRecords
  import opened Scheduler

  // ---------- Rank ----------

  /** Position i is dealt before position j: due reviews first, then queue order. */
  predicate Precedes(due: seq<bool>, i: nat, j: nat)
    requires i < |due| && j < |due|
  {
    if due[i] != due[j] then due[i] else i < j
  }

  /** The candidates dealt before queue position i. */
  function Ahead(cand: seq<bool>, due: seq<bool>, i: nat): set<nat>
    requires i < |cand| == |due|
  {
    set j | 0 <= j < |cand| && cand[j] && Precedes(due, j, i)
  }

  function Chosen(cand: seq<bool>): set<nat> { set j | 0 <= j < |cand| && cand[j] }

  function PickSet(cand: seq<bool>, due: seq<bool>, wanted: bool, n: nat): set<nat>
    requires n <= |cand| == |due|
  {
    set j | 0 <= j < n && cand[j] && due[j] == wanted
  }

  lemma {:induction false} PicksSpec(cand: seq<bool>, due: seq<bool>, wanted: bool, n: nat)
    requires n <= |cand| == |due|
    ensures var r := Picks(cand, due, wanted, n);
            && |r| == |PickSet(cand, due, wanted, n)|
            && (forall k | 0 <= k < |r| :: cand[r[k]] && due[r[k]] == wanted && |PickSet(cand, due, wanted, r[k])| == k)
  {
    if n > 0 {
      PicksSpec(cand, due, wanted, n - 1);
      var small := PickSet(cand, due, wanted, n - 1);
      if cand[n - 1] && due[n - 1] == wanted {
        assert PickSet(cand, due, wanted, n) == small + {n - 1};
      } else {
        assert PickSet(cand, due, wanted, n) == small;
      }
    }
  }

  lemma SubsetSize<T>(a: set<T>, b: set<T>)
    requires a <= b
    ensures |a| <= |b|
  {
    if a != {} {
      var x :| x in a;
      SubsetSize(a - {x}, b - {x});
    }
  }

  function Order(cand: seq<bool>, due: seq<bool>): seq<nat>
    requires |cand| == |due|
  {
    Picks(cand, due, true, |cand|) + Picks(cand, due, false, |cand|)
  }

  /** The dealing order lists each candidate once, at the position that counts those ahead of it. */
  lemma OrderRanks(cand: seq<bool>, due: seq<bool>)
    requires |cand| == |due|
    ensures |Order(cand, due)| == |Chosen(cand)|
    ensures forall k | 0 <= k < |Order(cand, due)| ::
              var i := Order(cand, due)[k]; i < |cand| && cand[i] && |Ahead(cand, due, i)| == k
  {
    var n := |cand|;
    PicksSpec(cand, due, true, n);
    PicksSpec(cand, due, false, n);
    var first, rest := PickSet(cand, due, true, n), PickSet(cand, due, false, n);
    assert Chosen(cand) == first + rest && first !! rest;
    var order := Order(cand, due);
    forall k | 0 <= k < |order| ensures order[k] < |cand| && cand[order[k]] && |Ahead(cand, due, order[k])| == k {
      var i := order[k];
      if k < |first| {
        assert Ahead(cand, due, i) == PickSet(cand, due, true, i);
      } else {
        assert Ahead(cand, due, i) == first + PickSet(cand, due, false, i);
        assert first !! PickSet(cand, due, false, i);
      }
    }
  }

  lemma RankInRange(cand: seq<bool>, due: seq<bool>, i: nat)
    requires i < |cand| == |due| && cand[i]
    ensures |Ahead(cand, due, i)| < |Chosen(cand)|
  {
    assert Ahead(cand, due, i) <= Chosen(cand) - {i};
    SubsetSize(Ahead(cand, due, i), Chosen(cand) - {i});
  }

  lemma PrecedingRanksLower(cand: seq<bool>, due: seq<bool>, i: nat, j: nat)
    requires i < |cand| == |due| && j < |cand| && cand[i] && Precedes(due, i, j)
    ensures |Ahead(cand, due, i)| < |Ahead(cand, due, j)|
  {
    assert Ahead(cand, due, i) <= Ahead(cand, due, j) - {i};
    SubsetSize(Ahead(cand, due, i), Ahead(cand, due, j) - {i});
  }

  /** Ranks name candidates. */
  lemma SameRankSame(cand: seq<bool>, due: seq<bool>, i: nat, j: nat)
    requires i < |cand| == |due| && j < |cand| && cand[i] && cand[j]
    requires |Ahead(cand, due, i)| == |Ahead(cand, due, j)|
    ensures i == j
  {
    if i != j {
      if Precedes(due, i, j) { PrecedingRanksLower(cand, due, i, j); } else { PrecedingRanksLower(cand, due, j, i); }
    }
  }

  function AvailableSeats(s: State, now: Time, k: nat): set<nat>
    requires k <= |s.seats|
  {
    set m | 0 <= m < k && Available(s, now, m)
  }

  lemma {:induction false} AvailableCount(s: State, now: Time, k: nat)
    requires k <= |s.seats|
    ensures AvailableBelow(s, now, k) == |AvailableSeats(s, now, k)|
  {
    if k > 0 {
      AvailableCount(s, now, k - 1);
      if Available(s, now, k - 1) {
        assert AvailableSeats(s, now, k) == AvailableSeats(s, now, k - 1) + {k - 1};
      } else {
        assert AvailableSeats(s, now, k) == AvailableSeats(s, now, k - 1);
      }
    }
  }

  /** Queue position i is a candidate and this many candidates go before it. */
  predicate HasRank(s: State, now: Time, i: nat, rank: nat) {
    var cand, due := CandidateFlags(s, now), DueFlags(s);
    i < |cand| && cand[i] && |Ahead(cand, due, i)| == rank
  }

  predicate DealtAs(s: State, d: Option<Dealt>, i: nat)
    requires i < |s.items|
  {
    d == Some(Dealt(s.items[i].id, if DueReview(s, i) then Checkpoint else Research))
  }

  /** The station is dealt the candidate of this rank, and nothing exactly when there are no more candidates. */
  ghost predicate DealtByRank(s: State, now: Time, d: Option<Dealt>, rank: nat) {
    && (d.None? <==> rank >= |Chosen(CandidateFlags(s, now))|)
    && (forall i: nat | HasRank(s, now, i, rank) :: DealtAs(s, d, i))
    && (d.Some? ==> exists i: nat :: HasRank(s, now, i, rank))
  }

  lemma DealAtRank(s: State, now: Time, rank: nat)
    ensures DealtByRank(s, now, DealAt(s, now, rank), rank)
  {
    var cand, due := CandidateFlags(s, now), DueFlags(s);
    OrderRanks(cand, due);
    var order := Order(cand, due);
    assert DealOrder(s, now) == order;
    if rank < |order| {
      assert HasRank(s, now, order[rank], rank);
      forall i: nat | HasRank(s, now, i, rank) ensures DealtAs(s, DealAt(s, now, rank), i) {
        SameRankSame(cand, due, i, order[rank]);
      }
    } else {
      forall i: nat | HasRank(s, now, i, rank) ensures false { RankInRange(cand, due, i); }
    }
  }

  /** Dealing by rank: when the queue runs, an available station is dealt exactly the candidate whose
      rank is the number of available stations numbered below it, and nothing when there is none;
      rank puts due reviews first and then follows the queue. Any other station is dealt only the
      lease it already holds, and nothing when it rests or is beyond the active count. */
  lemma DealsByRank(s: State, now: Time, k: nat)
    requires k < |s.seats| && !s.paused && !s.stopping
    ensures Available(s, now, k) ==>
              DealtByRank(s, now, Reconcile(s, now).seats[k].desired, |AvailableSeats(s, now, k)|)
    ensures !Available(s, now, k) ==>
              Reconcile(s, now).seats[k].desired ==
                if k < s.active && s.seats[k].current.Some?
                then Some(Dealt(s.seats[k].current.value.topic, s.seats[k].current.value.kind)) else None
  {
    assert Reconcile(s, now).seats[k] == SeatAfter(s, now, k);
    if Available(s, now, k) {
      AvailableCount(s, now, k);
      DealAtRank(s, now, |AvailableSeats(s, now, k)|);
    }
  }

  /** Every candidate has all its dependencies completed and nobody executing it. */
  lemma DealtIsRunnable(s: State, now: Time, k: nat)
    requires k < |s.seats| && !s.paused && !s.stopping && Available(s, now, k)
    requires Reconcile(s, now).seats[k].desired.Some?
    ensures var d := Reconcile(s, now).seats[k].desired.value;
            && d.topic !in Executing(s.seats) && !Later(TopicOf(s.topics, d.topic).retryAt, now)
            && !Holding(TopicOf(s.topics, d.topic).review)
            && (d.kind == Checkpoint <==> TopicOf(s.topics, d.topic).review == CheckpointDue)
            && exists i :: 0 <= i < |s.items| && s.items[i].id == d.topic && Candidate(s, now, i)
                           && forall dep | dep in s.items[i].dependsOn :: DependencyDone(s.items, dep)
  {
    DealsByRank(s, now, k);
    var i: nat :| HasRank(s, now, i, |AvailableSeats(s, now, k)|);
    assert DealtAs(s, Reconcile(s, now).seats[k].desired, i);
  }

  /** When queue ids are unique, no topic is dealt to two available stations. */
  lemma DealsDistinct(s: State, now: Time, k: nat, m: nat)
    requires k < m < |s.seats| && !s.paused && !s.stopping && Available(s, now, k) && Available(s, now, m)
    requires Distinct(Ids(s.items))
    requires Reconcile(s, now).seats[k].desired.Some? && Reconcile(s, now).seats[m].desired.Some?
    ensures Reconcile(s, now).seats[k].desired.value.topic != Reconcile(s, now).seats[m].desired.value.topic
  {
    hide Reconcile;
    DealsByRank(s, now, k);
    DealsByRank(s, now, m);
    var a, b := AvailableSeats(s, now, k), AvailableSeats(s, now, m);
    assert a <= b - {k};
    SubsetSize(a, b - {k});
    var i: nat :| HasRank(s, now, i, |a|);
    var j: nat :| HasRank(s, now, j, |b|);
    assert DealtAs(s, Reconcile(s, now).seats[k].desired, i) && DealtAs(s, Reconcile(s, now).seats[m].desired, j);
    assert i != j && Ids(s.items)[i] != Ids(s.items)[j];
  }

  // ---------- Dealing changes no lease, and dealing twice changes nothing ----------

  predicate SameLeases(a: seq<Seat>, b: seq<Seat>) {
    && |a| == |b|
    && forall k | 0 <= k < |a| ::
         a[k].current == b[k].current && a[k].generation == b[k].generation && a[k].restUntil == b[k].restUntil
  }

  /** The reconciler touches assignments and creates blank topic records, nothing else. */
  lemma ReconcileFrame(s: State, now: Time)
    ensures var r := Reconcile(s, now);
            && r == s.(seats := r.seats, topics := r.topics) && SameLeases(r.seats, s.seats)
            && s.topics.Keys <= r.topics.Keys
            && (forall t :: TopicOf(r.topics, t) == TopicOf(s.topics, t))
  {
  }

  lemma SameExecuting(a: seq<Seat>, b: seq<Seat>)
    requires SameLeases(a, b)
    ensures Executing(a) == Executing(b)
  {
    forall t ensures t in Executing(a) <==> t in Executing(b) {
      if t in Executing(a) {
        var i :| 0 <= i < |a| && a[i].current.Some? && a[i].current.value.topic == t;
        assert b[i].current.Some?;
      }
      if t in Executing(b) {
        var i :| 0 <= i < |b| && b[i].current.Some? && b[i].current.value.topic == t;
        assert a[i].current.Some?;
      }
    }
  }

  lemma FlagsAgree(s: State, r: State, now: Time)
    requires s.items == r.items && Executing(s.seats) == Executing(r.seats)
    requires forall t :: TopicOf(s.topics, t) == TopicOf(r.topics, t)
    ensures CandidateFlags(s, now) == CandidateFlags(r, now) && DueFlags(s) == DueFlags(r)
    ensures DealOrder(s, now) == DealOrder(r, now)
  {
  }

  lemma {:induction false} AvailableAgree(s: State, r: State, now: Time, k: nat)
    requires SameLeases(s.seats, r.seats) && s.active == r.active && k <= |s.seats|
    ensures AvailableBelow(s, now, k) == AvailableBelow(r, now, k)
  {
    if k > 0 { AvailableAgree(s, r, now, k - 1); }
  }

  /** Reconciling twice at the same time is reconciling once. */
  lemma ReconcileTwice(s: State, now: Time)
    ensures Reconcile(Reconcile(s, now), now) == Reconcile(s, now)
  {
    var r := Reconcile(s, now);
    ReconcileFrame(s, now);
    if s.paused || s.stopping {
      assert Undesired(r.seats) == r.seats;
    } else {
      SameExecuting(r.seats, s.seats);
      FlagsAgree(s, r, now);
      forall k | 0 <= k < |s.seats| ensures SeatAfter(r, now, k) == r.seats[k] {
        AvailableAgree(s, r, now, k);
        assert DealAt(r, now, AvailableBelow(r, now, k)) == DealAt(s, now, AvailableBelow(s, now, k));
      }
      assert Reconcile(r, now).seats == r.seats;
      assert ConsideredIds(r) == ConsideredIds(s);
      assert EnsureTopics(r.topics, ConsideredIds(r)) == r.topics;
    }
  }
}
