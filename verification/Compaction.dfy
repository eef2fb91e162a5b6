/** Compaction: what it keeps, what it counts, and that it cannot be observed. */
module Compaction {
  import opened Common
  import opened ControlRecords
  import opened Scheduler
  import Dealing

  /** Live runs plus the tombstone count of a topic do not change. */
  lemma CompactConserves(runs: map<RunId, Run>, referenced: set<RunId>, pruned: map<TopicId, nat>, t: TopicId)
    ensures |RunsFor(CompactRuns(runs, referenced), t)| + CountOr0(CompactCounts(runs, referenced, pruned), t)
            == |RunsFor(runs, t)| + CountOr0(pruned, t)
  {
    var gone := PrunedFor(runs, referenced, t);
    assert RunsFor(runs, t) == RunsFor(CompactRuns(runs, referenced), t) + gone;
    assert RunsFor(CompactRuns(runs, referenced), t) !! gone;
    if gone != {} {
      var r :| r in gone;
      assert t in RunTopics(runs);
    }
  }

  lemma RetainedNewest(runs: map<RunId, Run>, r: RunId)
    requires r in runs
    requires forall q | q in runs && q != r && runs[q].topic == runs[r].topic :: !SortsBefore(runs, r, q)
    ensures |NewerRuns(runs, r)| < RUNS_RETAINED_PER_TOPIC
  {
    assert NewerRuns(runs, r) == {};
  }

  /** Survivors keep their record; a started run, a referenced run and a run with fewer than 200 newer
      runs of its topic survive; a topic loses a run only to its tombstone count. */
  lemma CompactKeeps(s: State, r: RunId)
    requires r in s.runs
    ensures var s' := Compact(s);
            && (r in s'.runs ==> s'.runs[r] == s.runs[r])
            && (r in s'.runs <==> s.runs[r].state == Started || r in Referenced(s.episodes)
                                  || |NewerRuns(s.runs, r)| < RUNS_RETAINED_PER_TOPIC)
            && (r !in s'.runs ==> CountOr0(s'.pruned, s.runs[r].topic) > CountOr0(s.pruned, s.runs[r].topic))
  {
    if r !in Compact(s).runs {
      assert r in PrunedFor(s.runs, Referenced(s.episodes), s.runs[r].topic);
      assert s.runs[r].topic in RunTopics(s.runs);
      assert |PrunedFor(s.runs, Referenced(s.episodes), s.runs[r].topic)| > 0;
    }
  }

  /** The oldest run of a non-empty set of one topic's runs. */
  lemma Oldest(runs: map<RunId, Run>, t: TopicId, us: set<RunId>) returns (u: RunId)
    requires us != {} && us <= RunsFor(runs, t)
    ensures u in us && us - {u} <= NewerRuns(runs, u)
    decreases |us|
  {
    u :| u in us;
    if us != {u} {
      var v := Oldest(runs, t, us - {u});
      if SortsBefore(runs, v, u) {
        u := v;
      } else {
        assert SortsBefore(runs, u, v);
        forall w | w in us - {u} ensures w in NewerRuns(runs, u) {
          if w != v { assert w in NewerRuns(runs, v); }
        }
      }
    }
  }

  /** Runs of a topic that nothing but their age can keep. */
  function PlainRuns(runs: map<RunId, Run>, referenced: set<RunId>, t: TopicId): set<RunId> {
    set r | r in runs && runs[r].topic == t && runs[r].state != Started && r !in referenced
  }

  /** After compaction a topic keeps at most 200 runs that are neither started nor referenced. */
  lemma CompactBounds(s: State, t: TopicId)
    ensures |PlainRuns(Compact(s).runs, Referenced(s.episodes), t)| <= RUNS_RETAINED_PER_TOPIC
  {
    var plain := PlainRuns(Compact(s).runs, Referenced(s.episodes), t);
    if plain != {} {
      assert plain <= RunsFor(s.runs, t);
      var u := Oldest(s.runs, t, plain);
      Dealing.SubsetSize(plain - {u}, NewerRuns(s.runs, u));
      assert !Prunable(s.runs, Referenced(s.episodes), u);
    }
  }

  lemma FewerNewer(runs: map<RunId, Run>, kept: map<RunId, Run>, r: RunId)
    requires r in kept && forall q | q in kept :: q in runs && runs[q] == kept[q]
    ensures |NewerRuns(kept, r)| <= |NewerRuns(runs, r)|
  {
    Dealing.SubsetSize(NewerRuns(kept, r), NewerRuns(runs, r));
  }

  lemma CompactRunsTwice(runs: map<RunId, Run>, referenced: set<RunId>, pruned: map<TopicId, nat>)
    ensures var kept := CompactRuns(runs, referenced);
            CompactRuns(kept, referenced) == kept && CompactCounts(kept, referenced, pruned) == pruned
  {
    var kept := CompactRuns(runs, referenced);
    forall r | r in kept ensures !Prunable(kept, referenced, r) {
      FewerNewer(runs, kept, r);
    }
    forall t ensures PrunedFor(kept, referenced, t) == {} {
    }
  }

  /** Compacting twice is compacting once. */
  lemma CompactTwice(s: State)
    ensures Compact(Compact(s)) == Compact(s)
  {
    var s1 := Compact(s);
    CompactRunsTwice(s.runs, Referenced(s.episodes), s1.pruned);
    assert Compact(s1).capabilities == s1.capabilities;
  }

  lemma {:induction false} LeaseIsPaired(seats: seq<Seat>, intake: Option<Lease>, t: TopicId, id: RunId)
    ensures var l := CurrentLease(seats, intake, t, id);
            l.Some? ==> l.value.topic == t && l.value.id == id && (id, l.value.generation) in LeasePairs(seats, intake)
  {
    if seats != [] {
      LeaseIsPaired(seats[1..], intake, t, id);
      var l := CurrentLease(seats, intake, t, id);
      if l.Some? && !HoldsLease(seats[0].current, t, id) && (id, l.value.generation) in LeasePairs(seats[1..], intake) {
        if !(intake.Some? && intake.value.id == id && intake.value.generation == l.value.generation) {
          var k :| 0 <= k < |seats[1..]| && seats[1..][k].current.Some?
                   && (seats[1..][k].current.value.id, seats[1..][k].current.value.generation) ==
                        (id, l.value.generation);
          assert seats[k + 1].current == seats[1..][k].current;
        }
      }
    }
  }

  /** Every token authenticates after compaction exactly when it did before. */
  lemma CompactInvisible(s: State, token: Token, uid: nat, topic: TopicId)
    ensures Authenticates(Compact(s), token, uid, topic) <==> Authenticates(s, token, uid, topic)
  {
    if token in s.capabilities {
      LeaseIsPaired(s.seats, s.intake, topic, s.capabilities[token].lease);
    }
  }

  lemma {:induction false} NoLeaseNoAuthority(seats: seq<Seat>, intake: Option<Lease>, t: TopicId, id: RunId)
    requires forall k | 0 <= k < |seats| && seats[k].current.Some? :: seats[k].current.value.id != id
    requires intake.Some? ==> intake.value.id != id
    ensures CurrentLease(seats, intake, t, id).None?
  {
    if seats != [] { NoLeaseNoAuthority(seats[1..], intake, t, id); }
  }

  /** A token issued under a lease authenticates its own caller and topic at once, and no one else. */
  lemma IssuedAuthenticates(s: State, token: Token, topic: TopicId, lease: RunId, uid: nat, who: nat, where_: TopicId)
    requires IssueCapability(s, token, topic, lease, uid).Done?
    ensures Authenticates(IssueCapability(s, token, topic, lease, uid).state, token, who, where_) <==>
            who == uid && where_ == topic
  {
  }

  /** Once a lease is revoked or gone, none of its tokens authenticates. */
  lemma RevokedNeverAuthenticates(s: State, token: Token, lease: RunId, uid: nat, topic: TopicId)
    requires token in s.capabilities && s.capabilities[token].lease == lease
    ensures !Authenticates(s.(capabilities := Revoke(s.capabilities, lease)), token, uid, topic)
  {
  }
}
