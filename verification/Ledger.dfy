/** Lease exclusion, the run ledger, compaction, and exactly-once accounting. */
module Ledger {
  import opened Common
  import opened ControlRecords
  import opened Scheduler
  import opened Checkpoints
  import Compaction
  import Dealing

  // ---------- The invariants ----------

  function Leases(seats: seq<Seat>): seq<Option<Lease>> {
    seq(|seats|, k requires 0 <= k < |seats| => seats[k].current)
  }
  function Generations(seats: seq<Seat>): seq<nat> { seq(|seats|, k requires 0 <= k < |seats| => seats[k].generation) }

  type Minted = map<RunId, Mint>

  predicate LeaseRecorded(ls: seq<Option<Lease>>, gs: seq<nat>, minted: Minted, k: nat)
    requires k < |ls| == |gs| && ls[k].Some?
  {
    var l := ls[k].value;
    l.station == k + 1 && l.generation == gs[k] && l.id in minted
    && minted[l.id] == Mint(l.topic, l.kind, l.station, l.generation, l.startedAt)
  }

  predicate MintRecorded(gs: seq<nat>, minted: Minted, clock: Time, q: RunId)
    requires q in minted
  {
    ValidStation(minted[q].station) && |gs| == MAX_STATIONS
    && 1 <= minted[q].generation <= gs[minted[q].station - 1] && minted[q].startedAt <= clock
  }

  predicate MintsOrdered(minted: Minted, p: RunId, q: RunId)
    requires p in minted && q in minted
  {
    && minted[p].startedAt != minted[q].startedAt
    && (minted[p].station == minted[q].station && minted[p].startedAt < minted[q].startedAt ==>
          minted[p].generation < minted[q].generation)
  }

  /** A topic is leased by at most one station; a lease carries its station's generation counter, and
      generations grow with time; the current lease of a topic is the latest ever minted for it. */
  ghost predicate LeaseInv(ls: seq<Option<Lease>>, gs: seq<nat>, minted: Minted, clock: Time, intake: Option<Lease>) {
    && |ls| == |gs| == MAX_STATIONS
    && (forall k | 0 <= k < |ls| && ls[k].Some? :: LeaseRecorded(ls, gs, minted, k))
    && (forall j, k | 0 <= j < k < |ls| && ls[j].Some? && ls[k].Some? :: ls[j].value.topic != ls[k].value.topic)
    && (forall q | q in minted :: MintRecorded(gs, minted, clock, q))
    && (forall p, q | p in minted && q in minted && p != q :: MintsOrdered(minted, p, q))
    && (forall k, q | 0 <= k < |ls| && ls[k].Some? && q in minted && q != ls[k].value.id
         && minted[q].topic == ls[k].value.topic ::
          minted[q].startedAt < ls[k].value.startedAt)
    && (intake.Some? ==> intake.value.id !in minted)
  }

  predicate IsCurrent(ls: seq<Option<Lease>>, r: RunId) {
    exists k | 0 <= k < |ls| :: ls[k].Some? && ls[k].value.id == r
  }

  predicate RunRecorded(ls: seq<Option<Lease>>, minted: Minted, run: Run, r: RunId) {
    && r in minted
    && run.topic == minted[r].topic && run.station == minted[r].station && run.generation == Some(minted[r].generation)
    && run.kind == Some(minted[r].kind) && run.startedAt == Some(minted[r].startedAt)
    && (run.state == Started ==> IsCurrent(ls, r) && run.result.None?)
  }

  /** Every run record agrees with the lease that made it; a run is started only while its lease is
      current; a current lease has its run record. */
  ghost predicate RunInv(ls: seq<Option<Lease>>, minted: Minted, runs: map<RunId, Run>) {
    && (forall r | r in runs :: RunRecorded(ls, minted, runs[r], r))
    && (forall k | 0 <= k < |ls| && ls[k].Some? :: ls[k].value.id in runs)
  }

  function MintedFor(minted: Minted, t: TopicId): set<RunId> { set r | r in minted && minted[r].topic == t }

  predicate CountRecorded(minted: Minted, runs: map<RunId, Run>, c: Count) {
    && c.run in minted && minted[c.run].topic == c.topic
    && (c.run in runs ==>
          var a := runs[c.run].result;
          a.Some? && a.value.accepted && a.value.ordinal == Some(c.ordinal))
  }

  /** Per topic, live runs and pruned runs make up all leases ever minted; an accepted completion stays on
      its run record as long as the record lives, and no run was ever counted twice. */
  ghost predicate LedgerInv(minted: Minted, runs: map<RunId, Run>, pruned: map<TopicId, nat>, counted: seq<Count>) {
    && (forall t :: |RunsFor(runs, t)| + CountOr0(pruned, t) == |MintedFor(minted, t)|)
    && (forall k | 0 <= k < |counted| :: CountRecorded(minted, runs, counted[k]))
    && (forall j, k | 0 <= j < k < |counted| :: counted[j].run != counted[k].run)
  }

  function CountFor(counted: seq<Count>, t: TopicId): nat {
    if counted == [] then 0
    else CountFor(counted[..|counted| - 1], t) + if counted[|counted| - 1].topic == t then 1 else 0
  }

  /** A topic's completed count is the number of its accepted completions, and their ordinals are 1, 2, 3, ... */
  ghost predicate CountInv(counted: seq<Count>, topics: map<TopicId, Topic>) {
    && (forall t | t in topics ::
         topics[t].completed == CountFor(counted, t) && topics[t].next == topics[t].completed + 1)
    && (forall t | t !in topics :: CountFor(counted, t) == 0)
    && (forall k | 0 <= k < |counted| :: counted[k].ordinal == CountFor(counted[..k], counted[k].topic) + 1)
  }

  ghost predicate LedgerGood(s: State) {
    && LeaseInv(Leases(s.seats), Generations(s.seats), s.history.minted, s.history.clock, s.intake)
    && RunInv(Leases(s.seats), s.history.minted, s.runs)
    && LedgerInv(s.history.minted, s.runs, s.pruned, s.history.counted)
    && CountInv(s.history.counted, s.topics)
  }

  /** The parts of the state these invariants read, topics apart. */
  predicate SameLedger(s: State, t: State) {
    && Leases(s.seats) == Leases(t.seats) && Generations(s.seats) == Generations(t.seats) && s.intake == t.intake
    && s.history.minted == t.history.minted && s.history.clock == t.history.clock
    && s.history.counted == t.history.counted
    && s.runs == t.runs && s.pruned == t.pruned
  }

  /** Topic records keep their counts, and new ones start at zero. */
  predicate SameCounts(a: map<TopicId, Topic>, b: map<TopicId, Topic>) {
    && a.Keys <= b.Keys
    && (forall t | t in a :: a[t].completed == b[t].completed && a[t].next == b[t].next)
    && (forall t | t in b && t !in a :: b[t].completed == 0 && b[t].next == 1)
  }

  lemma LedgerFrame(s: State, t: State)
    requires LedgerGood(s) && SameLedger(s, t) && SameCounts(s.topics, t.topics)
    ensures LedgerGood(t)
  {
  }

  // ---------- Reconciling and claiming ----------

  lemma SameLeasesViews(a: seq<Seat>, b: seq<Seat>)
    requires Dealing.SameLeases(a, b)
    ensures Leases(a) == Leases(b) && Generations(a) == Generations(b)
  {
  }

  lemma ReconcileKeepsLedger(s: State, now: Time)
    requires LedgerGood(s)
    ensures LedgerGood(Reconcile(s, now)) && SameLedger(s, Reconcile(s, now))
            && SameCounts(s.topics, Reconcile(s, now).topics)
  {
    hide LedgerGood, Reconcile;
    var r := Reconcile(s, now);
    Dealing.ReconcileFrame(s, now);
    SameLeasesViews(r.seats, s.seats);
    forall t | t in r.topics ensures r.topics[t] == TopicOf(s.topics, t) {
      assert TopicOf(r.topics, t) == TopicOf(s.topics, t);
    }
    LedgerFrame(s, r);
  }

  lemma SeatUpdateViews(seats: seq<Seat>, k: nat, seat: Seat)
    requires k < |seats|
    ensures Leases(seats[k := seat]) == Leases(seats)[k := seat.current]
    ensures Generations(seats[k := seat]) == Generations(seats)[k := seat.generation]
  {
  }

  lemma MintKeepsLeases(ls: seq<Option<Lease>>, gs: seq<nat>, minted: Minted, clock: Time, intake: Option<Lease>,
                        l: Lease)
    requires LeaseInv(ls, gs, minted, clock, intake)
    requires ValidStation(l.station) && ls[l.station - 1].None? && l.generation == gs[l.station - 1] + 1
    requires l.startedAt > clock && l.id !in minted && (intake.Some? ==> intake.value.id != l.id)
    requires forall k | 0 <= k < |ls| && ls[k].Some? :: ls[k].value.topic != l.topic
    ensures LeaseInv(ls[l.station - 1 := Some(l)], gs[l.station - 1 := l.generation],
                     minted[l.id := Mint(l.topic, l.kind, l.station, l.generation, l.startedAt)], l.startedAt, intake)
  {
    var minted' := minted[l.id := Mint(l.topic, l.kind, l.station, l.generation, l.startedAt)];
    forall p, q | p in minted' && q in minted' && p != q ensures MintsOrdered(minted', p, q) {
      if p != l.id { assert MintRecorded(gs, minted, clock, p); }
      if q != l.id { assert MintRecorded(gs, minted, clock, q); }
      if p != l.id && q != l.id { assert MintsOrdered(minted, p, q); }
    }
    forall q | q in minted' ensures MintRecorded(gs[l.station - 1 := l.generation], minted', l.startedAt, q) {
      if q != l.id { assert MintRecorded(gs, minted, clock, q); }
    }
    var ls', gs' := ls[l.station - 1 := Some(l)], gs[l.station - 1 := l.generation];
    forall k | 0 <= k < |ls'| && ls'[k].Some? ensures LeaseRecorded(ls', gs', minted', k) {
      if k != l.station - 1 { assert LeaseRecorded(ls, gs, minted, k); }
    }
    forall k, q | 0 <= k < |ls'| && ls'[k].Some? && q in minted' && q != ls'[k].value.id
      && minted'[q].topic == ls'[k].value.topic
      ensures minted'[q].startedAt < ls'[k].value.startedAt
    {
      if k == l.station - 1 { assert MintRecorded(gs, minted, clock, q); }
    }
  }

  lemma AddRunCount(runs: map<RunId, Run>, r: RunId, run: Run, t: TopicId)
    requires r !in runs
    ensures |RunsFor(runs[r := run], t)| == |RunsFor(runs, t)| + (if run.topic == t then 1 else 0)
  {
    if run.topic == t {
      assert RunsFor(runs[r := run], t) == RunsFor(runs, t) + {r};
    } else {
      assert RunsFor(runs[r := run], t) == RunsFor(runs, t);
    }
  }

  lemma AddMintCount(minted: Minted, r: RunId, m: Mint, t: TopicId)
    requires r !in minted
    ensures |MintedFor(minted[r := m], t)| == |MintedFor(minted, t)| + (if m.topic == t then 1 else 0)
  {
    if m.topic == t {
      assert MintedFor(minted[r := m], t) == MintedFor(minted, t) + {r};
    } else {
      assert MintedFor(minted[r := m], t) == MintedFor(minted, t);
    }
  }

  /** A new run and its lease enter the ledger together. */
  lemma MintKeepsRuns(ls: seq<Option<Lease>>, k: nat, minted: Minted, runs: map<RunId, Run>, pruned: map<TopicId, nat>,
                      counted: seq<Count>, l: Lease, m: Mint, run: Run)
    requires RunInv(ls, minted, runs) && LedgerInv(minted, runs, pruned, counted)
    requires k < |ls| && ls[k].None? && l.id !in minted && run.topic == m.topic
    requires RunRecorded(ls[k := Some(l)], minted[l.id := m], run, l.id)
    ensures RunInv(ls[k := Some(l)], minted[l.id := m], runs[l.id := run])
    ensures LedgerInv(minted[l.id := m], runs[l.id := run], pruned, counted)
  {
    var ls', minted', runs' := ls[k := Some(l)], minted[l.id := m], runs[l.id := run];
    assert l.id !in runs;
    forall q | q in runs' ensures RunRecorded(ls', minted', runs'[q], q) {
      if q != l.id {
        assert RunRecorded(ls, minted, runs[q], q);
        if runs[q].state == Started {
          var j :| 0 <= j < |ls| && ls[j].Some? && ls[j].value.id == q;
          assert ls'[j] == ls[j];
        }
      }
    }
    forall t ensures |RunsFor(runs', t)| + CountOr0(pruned, t) == |MintedFor(minted', t)| {
      AddRunCount(runs, l.id, run, t);
      AddMintCount(minted, l.id, m, t);
    }
    forall c | 0 <= c < |counted| ensures CountRecorded(minted', runs', counted[c]) {
      assert CountRecorded(minted, runs, counted[c]);
    }
  }

  lemma MintKeepsLedger(s: State, station: nat, now: Time, uuid: RunId, d: Dealt)
    requires LedgerGood(s) && ValidStation(station) && |s.seats| == MAX_STATIONS
    requires now > s.history.clock && uuid !in s.history.minted && (s.intake.Some? ==> s.intake.value.id != uuid)
    requires s.seats[station - 1].current.None? && !TakenElsewhere(s.seats, station, d.topic)
    ensures LedgerGood(MintLease(s, station, now, uuid, d))
  {
    var s' := MintLease(s, station, now, uuid, d);
    var l, k := NewLease(s, station, now, uuid, d), station - 1;
    var ls := Leases(s.seats);
    SeatUpdateViews(s.seats, k, s'.seats[k]);
    forall j | 0 <= j < |ls| && ls[j].Some? ensures ls[j].value.topic != l.topic {
      assert ls[j] == s.seats[j].current;
    }
    assert Generations(s.seats)[k] == s.seats[k].generation;
    MintKeepsLeases(ls, Generations(s.seats), s.history.minted, s.history.clock, s.intake, l);
    assert ls[k := Some(l)][k] == Some(l);
    MintKeepsRuns(ls, k, s.history.minted, s.runs, s.pruned, s.history.counted, l, s'.history.minted[uuid],
      s'.runs[uuid]);
  }

  /** A claim at a later time than every claim before it, with a fresh id, keeps the ledger. */
  lemma ClaimKeepsLedger(s: State, station: nat, now: Time, uuid: RunId)
    requires hide *; true
    requires LedgerGood(s) && |s.seats| == MAX_STATIONS
    requires now > s.history.clock && uuid !in s.history.minted && (s.intake.Some? ==> s.intake.value.id != uuid)
    ensures Claim(s, station, now, uuid).Done? ==> LedgerGood(Claim(s, station, now, uuid).state)
  {
    hide LedgerGood, Reconcile;
    var o := Claim(s, station, now, uuid);
    ReconcileKeepsLedger(s, now);
    if o.Done? && o.value.Minted? {
      var r := Reconcile(s, now);
      MintKeepsLedger(r, station, now, uuid, r.seats[station - 1].desired.value);
    }
  }

  // ---------- Ending a lease ----------

  lemma DropLeaseKeeps(ls: seq<Option<Lease>>, gs: seq<nat>, minted: Minted, clock: Time, intake: Option<Lease>,
                       runs: map<RunId, Run>, k: nat, now: Time)
    requires LeaseInv(ls, gs, minted, clock, intake) && RunInv(ls, minted, runs) && k < |ls| && ls[k].Some?
    ensures LeaseInv(ls[k := None], gs, minted, clock, intake)
    ensures RunInv(ls[k := None], minted, FinishRun(runs, ls[k].value.id, now))
  {
    var ls', runs' := ls[k := None], FinishRun(runs, ls[k].value.id, now);
    forall j | 0 <= j < |ls'| && ls'[j].Some? ensures LeaseRecorded(ls', gs, minted, j) {
      assert LeaseRecorded(ls, gs, minted, j);
    }
    assert LeaseRecorded(ls, gs, minted, k);
    forall r | r in runs' ensures RunRecorded(ls', minted, runs'[r], r) {
      assert RunRecorded(ls, minted, runs[r], r);
      if runs'[r].state == Started {
        var j :| 0 <= j < |ls| && ls[j].Some? && ls[j].value.id == r;
        assert ls'[j] == ls[j];
      }
    }
  }

  lemma FinishKeepsLedger(minted: Minted, runs: map<RunId, Run>, pruned: map<TopicId, nat>, counted: seq<Count>,
                          id: RunId, now: Time)
    requires LedgerInv(minted, runs, pruned, counted)
    ensures LedgerInv(minted, FinishRun(runs, id, now), pruned, counted)
  {
    var runs' := FinishRun(runs, id, now);
    forall t ensures RunsFor(runs', t) == RunsFor(runs, t) {
    }
    forall c | 0 <= c < |counted| ensures CountRecorded(minted, runs', counted[c]) {
      assert CountRecorded(minted, runs, counted[c]);
    }
  }

  /** The run of a current lease is the newest of its topic, so compaction never takes it. */
  lemma CurrentRunNewest(ls: seq<Option<Lease>>, gs: seq<nat>, minted: Minted, clock: Time, intake: Option<Lease>,
                         runs: map<RunId, Run>, k: nat)
    requires LeaseInv(ls, gs, minted, clock, intake) && RunInv(ls, minted, runs) && k < |ls| && ls[k].Some?
    ensures |NewerRuns(runs, ls[k].value.id)| == 0
  {
    var id := ls[k].value.id;
    assert RunRecorded(ls, minted, runs[id], id) && LeaseRecorded(ls, gs, minted, k);
    forall q | q in runs && runs[q].topic == runs[id].topic ensures !SortsBefore(runs, id, q) {
      assert RunRecorded(ls, minted, runs[q], q);
    }
    assert NewerRuns(runs, id) == {};
  }

  lemma CompactKeepsRuns(ls: seq<Option<Lease>>, gs: seq<nat>, minted: Minted, clock: Time, intake: Option<Lease>,
                         runs: map<RunId, Run>, pruned: map<TopicId, nat>, counted: seq<Count>, referenced: set<RunId>)
    requires LeaseInv(ls, gs, minted, clock, intake) && RunInv(ls, minted, runs)
             && LedgerInv(minted, runs, pruned, counted)
    ensures RunInv(ls, minted, CompactRuns(runs, referenced))
    ensures LedgerInv(minted, CompactRuns(runs, referenced), CompactCounts(runs, referenced, pruned), counted)
  {
    var runs' := CompactRuns(runs, referenced);
    forall k | 0 <= k < |ls| && ls[k].Some? ensures ls[k].value.id in runs' {
      CurrentRunNewest(ls, gs, minted, clock, intake, runs, k);
    }
    forall t ensures |RunsFor(runs', t)| + CountOr0(CompactCounts(runs, referenced, pruned), t) ==
      |MintedFor(minted, t)| {
      Compaction.CompactConserves(runs, referenced, pruned, t);
    }
    forall c | 0 <= c < |counted| ensures CountRecorded(minted, runs', counted[c]) {
      assert CountRecorded(minted, runs, counted[c]);
    }
  }

  lemma CompactKeepsLedger(s: State)
    requires LedgerGood(s)
    ensures LedgerGood(Compact(s))
  {
    CompactKeepsRuns(Leases(s.seats), Generations(s.seats), s.history.minted, s.history.clock, s.intake,
                     s.runs, s.pruned, s.history.counted, Referenced(s.episodes));
  }

  lemma ReleaseKeepsLedger(s: State, k: nat, now: Time, pacing: Option<Time>, retry: Option<Time>)
    requires LedgerGood(s) && k < |s.seats| && s.seats[k].current.Some?
    ensures LedgerGood(Release(s, k, now, pacing, retry))
  {
    var s' := Release(s, k, now, pacing, retry);
    SeatUpdateViews(s.seats, k, s'.seats[k]);
    assert Leases(s.seats)[k] == s.seats[k].current;
    DropLeaseKeeps(Leases(s.seats), Generations(s.seats), s.history.minted, s.history.clock, s.intake, s.runs, k, now);
    FinishKeepsLedger(s.history.minted, s.runs, s.pruned, s.history.counted, s.seats[k].current.value.id, now);
    assert Generations(s'.seats) == Generations(s.seats);
  }

  lemma FinalizeKeepsLedger(s: State, station: nat, lease: RunId, now: Time, pacing: Option<Time>, retry: Option<Time>)
    requires hide *; true
    requires LedgerGood(s) && |s.seats| == MAX_STATIONS
    ensures Finalize(s, station, lease, now, pacing, retry).Done? ==>
            LedgerGood(Finalize(s, station, lease, now, pacing, retry).state)
  {
    hide LedgerGood, Reconcile, Compact;
    if Finalize(s, station, lease, now, pacing, retry).Done? {
      FinalizingKeepsLedger(s, station - 1, now, pacing, retry);
    }
  }

  lemma FinalizingKeepsLedger(s: State, k: nat, now: Time, pacing: Option<Time>, retry: Option<Time>)
    requires hide *; true
    requires LedgerGood(s) && k < |s.seats| && s.seats[k].current.Some?
    ensures LedgerGood(Reconcile(Compact(Release(s, k, now, pacing, retry)), now))
  {
    hide *;
    var s1 := Release(s, k, now, pacing, retry);
    ReleaseKeepsLedger(s, k, now, pacing, retry);
    CompactKeepsLedger(s1);
    ReconcileKeepsLedger(Compact(s1), now);
  }

  lemma ConfirmKeepsLeases(ls: seq<Option<Lease>>, gs: seq<nat>, minted: Minted, clock: Time, intake: Option<Lease>,
                           runs: map<RunId, Run>, k: nat)
    requires LeaseInv(ls, gs, minted, clock, intake) && RunInv(ls, minted, runs) && k < |ls| && ls[k].Some?
    ensures var ls' := ls[k := Some(ls[k].value.(confirmed := true))];
            LeaseInv(ls', gs, minted, clock, intake) && RunInv(ls', minted, runs)
  {
    var ls' := ls[k := Some(ls[k].value.(confirmed := true))];
    forall j | 0 <= j < |ls'| && ls'[j].Some? ensures LeaseRecorded(ls', gs, minted, j) {
      assert LeaseRecorded(ls, gs, minted, j);
    }
    forall r | r in runs ensures RunRecorded(ls', minted, runs[r], r) {
      assert RunRecorded(ls, minted, runs[r], r);
      if runs[r].state == Started {
        var j :| 0 <= j < |ls| && ls[j].Some? && ls[j].value.id == r;
        assert ls'[j].Some? && ls'[j].value.id == r;
      }
    }
  }

  lemma ConfirmKeepsLedger(s: State, station: nat, lease: RunId)
    requires LedgerGood(s) && |s.seats| == MAX_STATIONS
    ensures ConfirmLaunch(s, station, lease).Done? ==> LedgerGood(ConfirmLaunch(s, station, lease).state)
  {
    var o := ConfirmLaunch(s, station, lease);
    if o.Done? {
      var k := station - 1;
      SeatUpdateViews(s.seats, k, o.state.seats[k]);
      assert Leases(s.seats)[k] == s.seats[k].current;
      ConfirmKeepsLeases(Leases(s.seats), Generations(s.seats), s.history.minted, s.history.clock, s.intake, s.runs, k);
      assert Generations(o.state.seats) == Generations(s.seats);
    }
  }

  // ---------- Exactly-once accounting ----------

  lemma {:induction false} CountForSnoc(counted: seq<Count>, c: Count, t: TopicId)
    ensures CountFor(counted + [c], t) == CountFor(counted, t) + (if c.topic == t then 1 else 0)
  {
    assert (counted + [c])[..|counted|] == counted;
  }

  lemma {:induction false} StrictSubsetSize<T>(a: set<T>, b: set<T>, x: T)
    requires a <= b && x in b && x !in a
    ensures |a| < |b|
  {
    Dealing.SubsetSize(a, b - {x});
  }

  /** A run ever leased for a topic either is on record or was pruned, and then the topic says so. */
  lemma MissingMeansPruned(ls: seq<Option<Lease>>, minted: Minted, runs: map<RunId, Run>, pruned: map<TopicId, nat>,
                           counted: seq<Count>, r: RunId)
    requires RunInv(ls, minted, runs) && LedgerInv(minted, runs, pruned, counted) && r in minted && r !in runs
    ensures CountOr0(pruned, minted[r].topic) > 0
  {
    var t := minted[r].topic;
    forall q | q in RunsFor(runs, t) ensures q in MintedFor(minted, t) {
      assert RunRecorded(ls, minted, runs[q], q);
    }
    StrictSubsetSize(RunsFor(runs, t), MintedFor(minted, t), r);
  }

  /** A replay of a pruned run is refused: its lease is gone and its topic has pruned runs. */
  lemma PrunedReplayRefused(s: State, t: TopicId, run: RunId)
    requires LedgerGood(s) && run in s.history.minted && s.history.minted[run].topic == t && run !in s.runs
    ensures AcceptRefusal(s, t, run) == Some(RevisionConflict)
  {
    var ls := Leases(s.seats);
    MissingMeansPruned(ls, s.history.minted, s.runs, s.pruned, s.history.counted, run);
    forall k | 0 <= k < |s.seats| && s.seats[k].current.Some? ensures s.seats[k].current.value.id != run {
      assert ls[k] == s.seats[k].current;
    }
    Compaction.NoLeaseNoAuthority(s.seats, s.intake, t, run);
  }

  predicate Counts(s: State, t: TopicId, run: RunId, v: Version, accepted: bool) {
    accepted && v != Unset && AcceptRefusal(s, t, run).None? && !(run in s.runs && s.runs[run].result.Some?)
  }

  /** Only this topic's record may change, by this many completions. */
  predicate CountMoves(before: map<TopicId, Topic>, after: map<TopicId, Topic>, t: TopicId, step: nat) {
    && after.Keys == before.Keys + {t}
    && after[t].completed == TopicOf(before, t).completed + step
    && after[t].next == TopicOf(before, t).next + step
    && (forall q | q in before && q != t :: after[q] == before[q])
  }

  /** The call left its result on the run record and moved the topic's count by this much. */
  predicate Accounted(s: State, o: Outcome<Accounting>, t: TopicId, run: RunId, step: nat) {
    && o.Done? && run in o.state.runs && o.state.runs == s.runs[run := o.state.runs[run]]
    && o.state.runs[run].result == Some(o.value)
    && CountMoves(s.topics, o.state.topics, t, step)
    && o.state.history == s.history.(counted := s.history.counted +
                            (if step == 1 then [Count(t, run, TopicOf(s.topics, t).completed + 1)] else []))
    && o.state.seats == s.seats && o.state.intake == s.intake && o.state.pruned == s.pruned
  }

  lemma CountRunAccounts(s: State, t: TopicId, run: RunId, station: nat, v: Version, deepening: bool, now: Time,
                         uuid: EpisodeId)
    requires TopicOf(s.topics, t).next == TopicOf(s.topics, t).completed + 1
    ensures var o := CountRun(s, t, run, station, v, deepening, now, uuid);
            Accounted(s, o, t, run, 1) && o.value.accepted
              && o.value.ordinal == Some(TopicOf(s.topics, t).completed + 1)
            && o.state.runs[run] == FinishedRun(PriorRun(s, run), t, station, now, o.value)
  {
  }

  lemma RejectRunAccounts(s: State, t: TopicId, run: RunId, station: nat, v: Version, now: Time)
    ensures var o := RejectRun(s, t, run, station, v, now);
            Accounted(s, o, t, run, 0) && o.state.runs[run] == FinishedRun(PriorRun(s, run), t, station, now, o.value)
  {
  }

  /** What an accounting call does, in every state: it is refused, or returns the result already on the
      record and changes nothing, or moves its topic's count, and no other, by one when the completion is
      accepted and by zero when it is not. */
  lemma AcceptCountsExactly(s: State, t: TopicId, run: RunId, station: nat, v: Version, accepted: bool, deepening: bool,
                            now: Time, uuid: EpisodeId)
    requires TopicOf(s.topics, t).next == TopicOf(s.topics, t).completed + 1
    ensures var o := Accept(s, t, run, station, v, accepted, deepening, now, uuid);
            if v == Unset then o.Refused?
            else if AcceptRefusal(s, t, run).Some? then o.Refused?
            else if run in s.runs && s.runs[run].result.Some? then o == Done(s, s.runs[run].result.value)
            else Accounted(s, o, t, run, if accepted then 1 else 0)
  {
    hide CountRun;
    if accepted {
      CountRunAccounts(s, t, run, station, v, deepening, now, uuid);
    } else {
      RejectRunAccounts(s, t, run, station, v, now);
    }
  }

  /** Replaying an accounting call returns the stored result and changes nothing. */
  lemma ReplayReturnsStored(s: State, t: TopicId, run: RunId, station: nat, v: Version, accepted: bool, deepening: bool,
                            now: Time, uuid: EpisodeId, station': nat, v': Version, accepted': bool, deepening': bool,
                            now': Time, uuid': EpisodeId)
    requires Accept(s, t, run, station, v, accepted, deepening, now, uuid).Done? && v' != Unset
    ensures var o := Accept(s, t, run, station, v, accepted, deepening, now, uuid);
            Accept(o.state, t, run, station', v', accepted', deepening', now', uuid') == Done(o.state, o.value)
  {
    var o := Accept(s, t, run, station, v, accepted, deepening, now, uuid);
    AcceptStores(s, t, run, station, v, accepted, deepening, now, uuid);
    StoredReplays(o.state, t, run, o.value, station', v', accepted', deepening', now', uuid');
  }

  predicate Stores(s: State, t: TopicId, run: RunId, a: Accounting) {
    run in s.runs && s.runs[run].topic == t && s.runs[run].result == Some(a)
  }

  lemma CountStores(s: State, t: TopicId, run: RunId, station: nat, v: Version, deepening: bool, now: Time,
                    uuid: EpisodeId)
    ensures var o := CountRun(s, t, run, station, v, deepening, now, uuid); Stores(o.state, t, run, o.value)
  {
  }

  lemma RejectStores(s: State, t: TopicId, run: RunId, station: nat, v: Version, now: Time)
    ensures var o := RejectRun(s, t, run, station, v, now); Stores(o.state, t, run, o.value)
  {
  }

  lemma AcceptStores(s: State, t: TopicId, run: RunId, station: nat, v: Version, accepted: bool, deepening: bool,
                     now: Time, uuid: EpisodeId)
    requires Accept(s, t, run, station, v, accepted, deepening, now, uuid).Done?
    ensures var o := Accept(s, t, run, station, v, accepted, deepening, now, uuid); Stores(o.state, t, run, o.value)
  {
    if accepted {
      CountStores(s, t, run, station, v, deepening, now, uuid);
    } else {
      RejectStores(s, t, run, station, v, now);
    }
  }

  lemma StoredReplays(s: State, t: TopicId, run: RunId, a: Accounting, station: nat, v: Version, accepted: bool,
                      deepening: bool, now: Time, uuid: EpisodeId)
    requires Stores(s, t, run, a) && v != Unset
    ensures Accept(s, t, run, station, v, accepted, deepening, now, uuid) == Done(s, a)
  {
  }

  lemma StoreRunKeeps(ls: seq<Option<Lease>>, minted: Minted, runs: map<RunId, Run>, pruned: map<TopicId, nat>,
                      counted: seq<Count>, r: RunId, run: Run)
    requires RunInv(ls, minted, runs) && LedgerInv(minted, runs, pruned, counted)
    requires r in runs && runs[r].result.None? && run.topic == runs[r].topic && RunRecorded(ls, minted, run, r)
    ensures RunInv(ls, minted, runs[r := run]) && LedgerInv(minted, runs[r := run], pruned, counted)
    ensures forall k | 0 <= k < |counted| :: counted[k].run != r
  {
    var runs' := runs[r := run];
    forall q | q in runs' ensures RunRecorded(ls, minted, runs'[q], q) {
      if q != r { assert RunRecorded(ls, minted, runs[q], q); }
    }
    forall t ensures RunsFor(runs', t) == RunsFor(runs, t) {
    }
    forall c | 0 <= c < |counted| ensures counted[c].run != r && CountRecorded(minted, runs', counted[c]) {
      assert CountRecorded(minted, runs, counted[c]);
    }
  }

  lemma CountKeeps(minted: Minted, runs: map<RunId, Run>, pruned: map<TopicId, nat>, counted: seq<Count>,
                   topics: map<TopicId, Topic>, topics': map<TopicId, Topic>, c: Count)
    requires LedgerInv(minted, runs, pruned, counted) && CountInv(counted, topics)
    requires CountRecorded(minted, runs, c) && forall k | 0 <= k < |counted| :: counted[k].run != c.run
    requires c.ordinal == CountFor(counted, c.topic) + 1
    requires topics'.Keys == topics.Keys + {c.topic}
    requires topics'[c.topic].completed == c.ordinal && topics'[c.topic].next == c.ordinal + 1
    requires forall q | q in topics && q != c.topic :: topics'[q] == topics[q]
    ensures LedgerInv(minted, runs, pruned, counted + [c]) && CountInv(counted + [c], topics')
  {
    CountGoesUp(counted, topics, topics', c);
  }

  lemma CountGoesUp(counted: seq<Count>, topics: map<TopicId, Topic>, topics': map<TopicId, Topic>, c: Count)
    requires CountInv(counted, topics) && c.ordinal == CountFor(counted, c.topic) + 1
    requires topics'.Keys == topics.Keys + {c.topic}
    requires topics'[c.topic].completed == c.ordinal && topics'[c.topic].next == c.ordinal + 1
    requires forall q | q in topics && q != c.topic :: topics'[q] == topics[q]
    ensures CountInv(counted + [c], topics')
  {
    forall t | t in topics' ensures topics'[t].completed == CountFor(counted + [c], t)
      && topics'[t].next == topics'[t].completed + 1 {
      TopicGoesUp(counted, topics, topics', c, t);
    }
    forall t | t !in topics' ensures CountFor(counted + [c], t) == 0 {
      CountForSnoc(counted, c, t);
    }
    OrdinalsGoOn(counted, c);
  }

  lemma TopicGoesUp(counted: seq<Count>, topics: map<TopicId, Topic>, topics': map<TopicId, Topic>, c: Count,
                    t: TopicId)
    requires t in topics ==> topics[t].completed == CountFor(counted, t) && topics[t].next == topics[t].completed + 1
    requires t in topics' && c.ordinal == CountFor(counted, c.topic) + 1
    requires t == c.topic ==> topics'[t].completed == c.ordinal && topics'[t].next == c.ordinal + 1
    requires t != c.topic ==> t in topics && topics'[t] == topics[t]
    ensures topics'[t].completed == CountFor(counted + [c], t) && topics'[t].next == topics'[t].completed + 1
  {
    CountForSnoc(counted, c, t);
  }

  lemma OrdinalsGoOn(counted: seq<Count>, c: Count)
    requires c.ordinal == CountFor(counted, c.topic) + 1
    requires forall k | 0 <= k < |counted| :: counted[k].ordinal == CountFor(counted[..k], counted[k].topic) + 1
    ensures forall k | 0 <= k < |counted + [c]| ::
            (counted + [c])[k].ordinal == CountFor((counted + [c])[..k], (counted + [c])[k].topic) + 1
  {
    forall k | 0 <= k < |counted + [c]| ensures (counted + [c])[k].ordinal ==
      CountFor((counted + [c])[..k], (counted + [c])[k].topic) + 1 {
      if k < |counted| { assert (counted + [c])[..k] == counted[..k]; } else { assert (counted + [c])[..k] == counted; }
    }
  }

  lemma NextFollowsCount(s: State, t: TopicId)
    requires CountInv(s.history.counted, s.topics)
    ensures TopicOf(s.topics, t).completed == CountFor(s.history.counted, t)
    ensures TopicOf(s.topics, t).next == TopicOf(s.topics, t).completed + 1
  {
  }

  predicate Unaccounted(s: State, t: TopicId, run: RunId) {
    && run in s.runs && s.runs[run].result.None? && s.runs[run].topic == t
    && run in s.history.minted && s.history.minted[run].topic == t
  }

  lemma ZeroCountKeeps(counted: seq<Count>, topics: map<TopicId, Topic>, topics': map<TopicId, Topic>, t: TopicId)
    requires CountInv(counted, topics) && CountMoves(topics, topics', t, 0)
    ensures CountInv(counted, topics')
  {
  }

  lemma AccountedKeepsLedger(ls: seq<Option<Lease>>, minted: Minted, runs: map<RunId, Run>, pruned: map<TopicId, nat>,
                             counted: seq<Count>, topics: map<TopicId, Topic>, topics': map<TopicId, Topic>, t: TopicId,
                             r: RunId, run: Run, a: Accounting, step: nat)
    requires RunInv(ls, minted, runs) && LedgerInv(minted, runs, pruned, counted) && CountInv(counted, topics)
    requires r in runs && runs[r].result.None? && run.topic == runs[r].topic == t && RunRecorded(ls, minted, run, r)
    requires CountMoves(topics, topics', t, step) && step <= 1 && run.result == Some(a)
    requires step == 1 ==> a.accepted && a.ordinal == Some(TopicOf(topics, t).completed + 1)
    ensures RunInv(ls, minted, runs[r := run])
    ensures var counted' := if step == 1 then counted + [Count(t, r, TopicOf(topics, t).completed + 1)] else counted;
            LedgerInv(minted, runs[r := run], pruned, counted') && CountInv(counted', topics')
  {
    assert RunRecorded(ls, minted, runs[r], r);
    StoreRunKeeps(ls, minted, runs, pruned, counted, r, run);
    if step == 1 {
      CountKeeps(minted, runs[r := run], pruned, counted, topics, topics',
        Count(t, r, TopicOf(topics, t).completed + 1));
    } else {
      ZeroCountKeeps(counted, topics, topics', t);
    }
  }

  lemma FinishedRunRecorded(ls: seq<Option<Lease>>, minted: Minted, prior: Run, t: TopicId, run: RunId, station: nat,
                            now: Time, a: Accounting)
    requires RunRecorded(ls, minted, prior, run) && prior.topic == t && minted[run].station == station
    ensures RunRecorded(ls, minted, FinishedRun(Some(prior), t, station, now, a), run)
  {
  }

  lemma RecordedRun(s: State, o: Outcome<Accounting>, t: TopicId, run: RunId, station: nat, now: Time)
    requires LedgerGood(s) && Unaccounted(s, t, run) && s.history.minted[run].station == station
    requires o.Done? && run in o.state.runs && o.state.runs[run] ==
             FinishedRun(PriorRun(s, run), t, station, now, o.value)
    ensures RunRecorded(Leases(s.seats), s.history.minted, o.state.runs[run], run) && o.state.runs[run].topic == t
  {
    assert RunRecorded(Leases(s.seats), s.history.minted, s.runs[run], run);
    FinishedRunRecorded(Leases(s.seats), s.history.minted, s.runs[run], t, run, station, now, o.value);
  }

  lemma OutcomeKeepsLedger(s: State, o: Outcome<Accounting>, t: TopicId, run: RunId, station: nat, now: Time, step: nat)
    requires LedgerGood(s) && Unaccounted(s, t, run) && s.history.minted[run].station == station
    requires Accounted(s, o, t, run, step) && step <= 1
    requires o.state.runs[run] == FinishedRun(PriorRun(s, run), t, station, now, o.value)
    requires step == 1 ==> o.value.accepted && o.value.ordinal == Some(TopicOf(s.topics, t).completed + 1)
    ensures LedgerGood(o.state)
  {
    var ls, h := Leases(s.seats), s.history;
    RecordedRun(s, o, t, run, station, now);
    AccountedKeepsLedger(ls, h.minted, s.runs, s.pruned, h.counted, s.topics, o.state.topics, t, run, o.state.runs[run],
      o.value, step);
    assert h.counted + [] == h.counted;
  }

  lemma CountRunKeepsLedger(s: State, t: TopicId, run: RunId, station: nat, v: Version, deepening: bool, now: Time,
                            uuid: EpisodeId)
    requires hide LedgerGood, Tallied; true
    requires LedgerGood(s) && Unaccounted(s, t, run) && s.history.minted[run].station == station
    ensures LedgerGood(CountRun(s, t, run, station, v, deepening, now, uuid).state)
  {
    NextFollowsCount(s, t);
    CountRunAccounts(s, t, run, station, v, deepening, now, uuid);
    OutcomeKeepsLedger(s, CountRun(s, t, run, station, v, deepening, now, uuid), t, run, station, now, 1);
  }

  lemma RejectRunKeepsLedger(s: State, t: TopicId, run: RunId, station: nat, v: Version, now: Time)
    requires LedgerGood(s) && Unaccounted(s, t, run) && s.history.minted[run].station == station
    ensures LedgerGood(RejectRun(s, t, run, station, v, now).state)
  {
    hide *;
    RejectRunAccounts(s, t, run, station, v, now);
    OutcomeKeepsLedger(s, RejectRun(s, t, run, station, v, now), t, run, station, now, 0);
  }

  /** Accounting either leaves the state, or counts or rejects a run that had no result. */
  lemma AcceptEffect(s: State, t: TopicId, run: RunId, station: nat, v: Version, accepted: bool, deepening: bool,
                     now: Time, uuid: EpisodeId)
    ensures var o := Accept(s, t, run, station, v, accepted, deepening, now, uuid);
            o.Done? ==>
              && AcceptRefusal(s, t, run).None?
              && (o.state == s || (!(run in s.runs && s.runs[run].result.Some?)
                                   && o == if accepted then CountRun(s, t, run, station, v, deepening, now, uuid)
                                           else RejectRun(s, t, run, station, v, now)))
  {
  }

  /** Accounting for a leased run of its own topic, replayed or not, keeps the ledger. */
  lemma AcceptKeepsLedger(s: State, t: TopicId, run: RunId, station: nat, v: Version, accepted: bool, deepening: bool,
                          now: Time, uuid: EpisodeId)
    requires hide *; true
    requires LedgerGood(s) && run in s.history.minted && s.history.minted[run].topic == t
             && s.history.minted[run].station == station
    ensures var o := Accept(s, t, run, station, v, accepted, deepening, now, uuid);
            o.Done? ==> LedgerGood(o.state)
  {
    hide Accept, CountRun, LedgerGood;
    var o := Accept(s, t, run, station, v, accepted, deepening, now, uuid);
    AcceptEffect(s, t, run, station, v, accepted, deepening, now, uuid);
    if run !in s.runs { PrunedReplayRefused(s, t, run); }
    if o.Done? && o.state != s {
      if accepted {
        CountRunKeepsLedger(s, t, run, station, v, deepening, now, uuid);
      } else {
        RejectRunKeepsLedger(s, t, run, station, v, now);
      }
    }
  }
}
