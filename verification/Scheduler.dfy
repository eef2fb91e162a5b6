/** Station scheduling: dealing, claiming, finalizing and compaction, as functions on the state. */
module Scheduler {
  import opened Common
  import opened ControlRecords

  // ---------- Dealing ----------

  function Executing(seats: seq<Seat>): set<TopicId> {
    set i | 0 <= i < |seats| && seats[i].current.Some? :: seats[i].current.value.topic
  }

  /** The item an id names when items are read into a dictionary: the last one. */
  function ItemNamed(items: seq<Item>, id: TopicId): Option<Item> {
    if items == [] then None
    else if items[|items| - 1].id == id then Some(items[|items| - 1])
    else ItemNamed(items[..|items| - 1], id)
  }

  predicate DependencyDone(items: seq<Item>, id: TopicId) {
    ItemNamed(items, id).Some? && ItemNamed(items, id).value.status == Completed
  }

  predicate Holding(r: Review) {
    r in {AwaitingOperator, PublishingDecision, CheckpointRunning, RetryWaiting, NeedsAttention}
  }

  predicate Later(t: Option<Time>, now: Time) { t.Some? && t.value > now }

  /** The item is scheduled by the reconciler at all: a research topic nobody is executing. */
  predicate Considered(s: State, item: Item) {
    item.research && item.id !in Executing(s.seats)
  }

  predicate Runnable(items: seq<Item>, item: Item, topic: Topic, now: Time) {
    && (forall d | d in item.dependsOn :: DependencyDone(items, d))
    && !Later(topic.retryAt, now)
    && item.status in {Queued, Backoff, Running} && item.wanted == WantRunning
    && !Holding(topic.review)
  }

  predicate Candidate(s: State, now: Time, i: nat)
    requires i < |s.items|
  {
    Considered(s, s.items[i]) && Runnable(s.items, s.items[i], TopicOf(s.topics, s.items[i].id), now)
  }

  predicate DueReview(s: State, i: nat)
    requires i < |s.items|
  {
    TopicOf(s.topics, s.items[i].id).review == CheckpointDue
  }

  function CandidateFlags(s: State, now: Time): seq<bool> {
    seq(|s.items|, i requires 0 <= i < |s.items| => Candidate(s, now, i))
  }

  function DueFlags(s: State): seq<bool> {
    seq(|s.items|, i requires 0 <= i < |s.items| => DueReview(s, i))
  }

  /** Positions below n that are candidates and are, or are not, due for review. */
  function Picks(cand: seq<bool>, due: seq<bool>, wanted: bool, n: nat): (r: seq<nat>)
    requires n <= |cand| == |due|
    ensures forall k | 0 <= k < |r| :: r[k] < n
  {
    if n == 0 then []
    else if cand[n - 1] && due[n - 1] == wanted then Picks(cand, due, wanted, n - 1) + [n - 1]
    else Picks(cand, due, wanted, n - 1)
  }

  /** Candidates in dealing order: due reviews first, then queue order. */
  function DealOrder(s: State, now: Time): (r: seq<nat>)
    ensures forall k | 0 <= k < |r| :: r[k] < |s.items|
  {
    var cand, due := CandidateFlags(s, now), DueFlags(s);
    Picks(cand, due, true, |cand|) + Picks(cand, due, false, |cand|)
  }

  predicate Available(s: State, now: Time, k: nat)
    requires k < |s.seats|
  {
    k < s.active && s.seats[k].current.None? && !Later(s.seats[k].restUntil, now)
  }

  function AvailableBelow(s: State, now: Time, k: nat): nat
    requires k <= |s.seats|
  {
    if k == 0 then 0 else AvailableBelow(s, now, k - 1) + if Available(s, now, k - 1) then 1 else 0
  }

  function DealAt(s: State, now: Time, position: nat): Option<Dealt> {
    var order := DealOrder(s, now);
    if position < |order| then
      Some(Dealt(s.items[order[position]].id, if DueReview(s, order[position]) then Checkpoint else Research))
    else None
  }

  function SeatAfter(s: State, now: Time, k: nat): Seat
    requires k < |s.seats|
  {
    var seat := s.seats[k];
    if k >= s.active then
      if seat.current.Some? then seat.(desired := None, draining := true, handoff := true) else seat.(desired := None)
    else if seat.current.Some? then
      seat.(desired := Some(Dealt(seat.current.value.topic, seat.current.value.kind)))
    else if Later(seat.restUntil, now) then seat.(desired := None)
    else seat.(desired := DealAt(s, now, AvailableBelow(s, now, k)))
  }

  function ConsideredIds(s: State): set<TopicId> {
    set i | 0 <= i < |s.items| && Considered(s, s.items[i]) :: s.items[i].id
  }

  function EnsureTopics(topics: map<TopicId, Topic>, ids: set<TopicId>): map<TopicId, Topic> {
    map t | t in topics.Keys + ids :: TopicOf(topics, t)
  }

  function Undesired(seats: seq<Seat>): seq<Seat> {
    seq(|seats|, k requires 0 <= k < |seats| => seats[k].(desired := None))
  }

  /** Deals every station what it should run next; no lease changes. */
  function Reconcile(s: State, now: Time): (r: State)
    ensures |r.seats| == |s.seats|
  {
    if s.paused || s.stopping then s.(seats := Undesired(s.seats))
    else s.(seats := seq(|s.seats|, k requires 0 <= k < |s.seats| => SeatAfter(s, now, k)),
            topics := EnsureTopics(s.topics, ConsideredIds(s)))
  }

  // ---------- Claiming ----------

  datatype Claimed = NoLease | Resumed(lease: Lease) | Minted(lease: Lease)

  predicate TakenElsewhere(seats: seq<Seat>, station: nat, topic: TopicId) {
    exists k | 0 <= k < |seats| :: k + 1 != station && seats[k].current.Some? && seats[k].current.value.topic == topic
  }

  function NewLease(s: State, station: nat, now: Time, uuid: RunId, d: Dealt): Lease
    requires ValidStation(station) && |s.seats| == MAX_STATIONS
  {
    Lease(d.topic, d.kind, station, uuid, s.seats[station - 1].generation + 1, now, false)
  }

  function MintLease(s: State, station: nat, now: Time, uuid: RunId, d: Dealt): State
    requires ValidStation(station) && |s.seats| == MAX_STATIONS
  {
    var lease := NewLease(s, station, now, uuid, d);
    s.(seats := s.seats[station - 1 := s.seats[station - 1].(generation := lease.generation, current := Some(lease),
      draining := false)],
       runs := s.runs[uuid := Run(d.topic, station, Some(lease.generation), Some(d.kind), Started, Some(now), None,
         None, None, false, None, false)],
       history := s.history.(clock := now, minted :=
         s.history.minted[uuid := Mint(d.topic, d.kind, station, lease.generation, now)]))
  }

  /** What a claim gives, once the stations have been dealt. */
  function Granted(s: State, station: nat, now: Time, uuid: RunId): Outcome<Claimed>
    requires |s.seats| == MAX_STATIONS && ValidStation(station)
  {
    var seat := s.seats[station - 1];
    if seat.current.Some? then
      Done(s, if seat.desired.Some? && seat.desired.value.topic == seat.current.value.topic
        then Resumed(seat.current.value) else NoLease)
    else if seat.desired.None? || Later(TopicOf(s.topics, seat.desired.value.topic).retryAt, now)
         || TakenElsewhere(s.seats, station, seat.desired.value.topic) then Done(s, NoLease)
    else Done(MintLease(s, station, now, uuid, seat.desired.value),
      Minted(NewLease(s, station, now, uuid, seat.desired.value)))
  }

  /** A station asks for work: it resumes its lease, gets a new one, or gets nothing. */
  function Claim(s: State, station: nat, now: Time, uuid: RunId): Outcome<Claimed>
    requires |s.seats| == MAX_STATIONS
  {
    if !ValidStation(station) then Refused(ValidationError)
    else if station > s.active then Done(s, NoLease)
    else if Later(s.seats[station - 1].restUntil, now) then Done(s, NoLease)
    else Granted(Reconcile(s, now), station, now, uuid)
  }

  // ---------- Compaction ----------

  /** Runs sort by start time, else end time, else first of all; ties go by id. */
  function SortTime(run: Run): Option<Time> {
    if run.startedAt.Some? then run.startedAt else run.endedAt
  }
  predicate TimeBefore(a: Option<Time>, b: Option<Time>) {
    b.Some? && (a.None? || a.value < b.value)
  }
  predicate SortsBefore(runs: map<RunId, Run>, q: RunId, r: RunId)
    requires q in runs && r in runs
  {
    TimeBefore(SortTime(runs[q]), SortTime(runs[r])) || (SortTime(runs[q]) == SortTime(runs[r]) && q < r)
  }

  function RunsFor(runs: map<RunId, Run>, t: TopicId): set<RunId> {
    set r | r in runs && runs[r].topic == t
  }

  /** The runs of the same topic that sort after this one. */
  function NewerRuns(runs: map<RunId, Run>, r: RunId): set<RunId>
    requires r in runs
  {
    set q | q in runs && runs[q].topic == runs[r].topic && SortsBefore(runs, r, q)
  }

  function Mentions(e: Episode): set<RunId> {
    (if e.run.Some? then {e.run.value} else {}) + (set r | r in e.attempts) + e.results
  }

  /** Every run an episode points at: its live run, its attempts, its recorded results. */
  function Referenced(episodes: map<EpisodeId, Episode>): set<RunId> {
    set e, r | e in episodes && r in Mentions(episodes[e]) :: r
  }

  /** A run is pruned when 200 runs of its topic are newer, it is not started, and no episode refers to it. */
  predicate Prunable(runs: map<RunId, Run>, referenced: set<RunId>, r: RunId)
    requires r in runs
  {
    |NewerRuns(runs, r)| >= RUNS_RETAINED_PER_TOPIC && runs[r].state != Started && r !in referenced
  }

  function PrunedFor(runs: map<RunId, Run>, referenced: set<RunId>, t: TopicId): set<RunId> {
    set r | r in runs && runs[r].topic == t && Prunable(runs, referenced, r)
  }

  function CompactRuns(runs: map<RunId, Run>, referenced: set<RunId>): map<RunId, Run> {
    map r | r in runs && !Prunable(runs, referenced, r) :: runs[r]
  }

  function RunTopics(runs: map<RunId, Run>): set<TopicId> {
    set r | r in runs :: runs[r].topic
  }

  function CompactCounts(runs: map<RunId, Run>, referenced: set<RunId>, pruned: map<TopicId, nat>): map<TopicId, nat> {
    map t | t in pruned.Keys + RunTopics(runs) && (t in pruned || PrunedFor(runs, referenced, t) != {}) ::
      CountOr0(pruned, t) + |PrunedFor(runs, referenced, t)|
  }

  function LeasePairs(seats: seq<Seat>, intake: Option<Lease>): set<(RunId, nat)> {
    (set k | 0 <= k < |seats| && seats[k].current.Some? ::
      (seats[k].current.value.id, seats[k].current.value.generation)) +
    (if intake.Some? then {(intake.value.id, intake.value.generation)} else {})
  }

  predicate CapabilityLive(s: State, c: Capability) {
    !c.revoked && (c.lease, c.generation) in LeasePairs(s.seats, s.intake)
  }

  function LiveCapabilities(s: State): map<Token, Capability> {
    map d | d in s.capabilities && CapabilityLive(s, s.capabilities[d]) :: s.capabilities[d]
  }

  /** Bounds the run ledger and drops dead capabilities. */
  function Compact(s: State): State {
    var referenced := Referenced(s.episodes);
    s.(runs := CompactRuns(s.runs, referenced),
       pruned := CompactCounts(s.runs, referenced, s.pruned),
       capabilities := LiveCapabilities(s))
  }

  // ---------- Finalizing ----------

  function FirstItem(items: seq<Item>, id: TopicId): Option<nat> {
    if items == [] then None
    else if items[0].id == id then Some(0)
    else match FirstItem(items[1..], id) case None => None case Some(i) => Some(i + 1)
  }

  lemma {:induction false} FirstItemIndex(items: seq<Item>, id: TopicId)
    ensures FirstItem(items, id).Some? ==>
            FirstItem(items, id).value < |items| && items[FirstItem(items, id).value].id == id
  {
    if items != [] { FirstItemIndex(items[1..], id); }
  }

  function ReleasedItem(item: Item, kind: Kind): Item {
    if kind == Research then item.(claimedBy := None)
    else if item.wanted in {WantPaused, WantStopping}
      then item.(claimedBy := None, status := Paused, wanted := WantPaused)
    else item.(claimedBy := None, status := Queued)
  }

  function ReleaseItem(items: seq<Item>, lease: Lease): seq<Item> {
    FirstItemIndex(items, lease.topic);
    match FirstItem(items, lease.topic)
    case None => items
    case Some(i) => items[i := ReleasedItem(items[i], lease.kind)]
  }

  function FinishRun(runs: map<RunId, Run>, id: RunId, now: Time): map<RunId, Run> {
    if id in runs && runs[id].state == Started
    then runs[id := runs[id].(state := Finished, endedAt := Some(now), withoutAccounting := runs[id].result.None?)]
    else runs
  }

  function Revoke(capabilities: map<Token, Capability>, lease: RunId): map<Token, Capability> {
    map d | d in capabilities ::
      if capabilities[d].lease == lease then capabilities[d].(revoked := true) else capabilities[d]
  }

  function WithRetry(topics: map<TopicId, Topic>, t: TopicId, retry: Option<Time>): map<TopicId, Topic> {
    var topic := TopicOf(topics, t);
    topics[t := if retry.Some? then topic.(retryAt := retry) else topic]
  }

  /** The lease ends: its run finishes, its capabilities die, the ledger is compacted, stations are dealt anew. */
  function Release(s: State, k: nat, now: Time, pacing: Option<Time>, retry: Option<Time>): State
    requires k < |s.seats| && s.seats[k].current.Some?
  {
    var seat, lease := s.seats[k], s.seats[k].current.value;
    s.(seats := s.seats[k := seat.(current := None, handoff := false, draining := false,
                                   restUntil := if pacing.Some? then pacing else seat.restUntil)],
       topics := WithRetry(s.topics, lease.topic, retry),
       items := ReleaseItem(s.items, lease),
       runs := FinishRun(s.runs, lease.id, now),
       capabilities := Revoke(s.capabilities, lease.id))
  }

  function Finalize(s: State, station: nat, lease: RunId, now: Time, pacing: Option<Time>,
                    retry: Option<Time>): Outcome<Seat>
    requires |s.seats| == MAX_STATIONS
  {
    if !ValidStation(station) then Refused(ValidationError)
    else if s.seats[station - 1].current.None?
      || s.seats[station - 1].current.value.id != lease then Refused(RevisionConflict)
    else
      var r := Reconcile(Compact(Release(s, station - 1, now, pacing, retry)), now);
      Done(r, r.seats[station - 1])
  }

  // ---------- Other scheduler transactions ----------

  function ConfirmLaunch(s: State, station: nat, lease: RunId): Outcome<Lease>
    requires |s.seats| == MAX_STATIONS
  {
    if !ValidStation(station) then Refused(ValidationError)
    else if station > s.active then Refused(RevisionConflict)
    else if s.seats[station - 1].current.None?
      || s.seats[station - 1].current.value.id != lease then Refused(RevisionConflict)
    else
      var l := s.seats[station - 1].current.value.(confirmed := true);
      Done(s.(seats := s.seats[station - 1 := s.seats[station - 1].(current := Some(l))]), l)
  }

  function Ids(items: seq<Item>): seq<TopicId> { seq(|items|, i requires 0 <= i < |items| => items[i].id) }

  function Rearranged(items: seq<Item>, order: seq<TopicId>): seq<Item>
    requires forall id | id in order :: ItemNamed(items, id).Some?
  {
    seq(|order|, i requires 0 <= i < |order| => assert order[i] in order; ItemNamed(items, order[i]).value)
  }

  lemma {:induction false} NamedExists(items: seq<Item>, id: TopicId)
    ensures id in Ids(items) <==> ItemNamed(items, id).Some?
    ensures ItemNamed(items, id).Some? ==> ItemNamed(items, id).value in items && ItemNamed(items, id).value.id == id
  {
    if items != [] {
      NamedExists(items[..|items| - 1], id);
      assert Ids(items) == Ids(items[..|items| - 1]) + [items[|items| - 1].id];
    }
  }

  function Reorder(s: State, order: seq<TopicId>, expected: nat, now: Time): Outcome<nat> {
    if s.queueRevision != expected then Refused(RevisionConflict)
    else if |order| != |s.items| || Elements(order) != Elements(Ids(s.items))
      || !Distinct(order) then Refused(ValidationError)
    else
      assert forall id | id in order :: ItemNamed(s.items, id).Some? by {
        forall id | id in order ensures ItemNamed(s.items, id).Some? {
          assert id in Elements(order);
          NamedExists(s.items, id);
        }
      }
      Done(Reconcile(s.(items := Rearranged(s.items, order), queueRevision := s.queueRevision + 1), now),
        s.queueRevision + 1)
  }

  function Or<T>(o: Option<T>, default: T): T { if o.Some? then o.value else default }

  /** The operator changes how many stations run, the checkpoint policy, or both. */
  function Configured(s: State, active: Option<nat>, policy: Option<Policy>): State {
    s.(active := Or(active, s.active), policy := Or(policy, s.policy),
      history := s.history.(steady := s.history.steady && policy.None?))
  }

  function UpdateStations(s: State, active: Option<nat>, policy: Option<Policy>, now: Time): Outcome<nat> {
    if active.Some? && active.value > MAX_STATIONS then Refused(ValidationError)
    else Done(Reconcile(Configured(s, active, policy), now), Or(active, s.active))
  }

  // ---------- Capabilities ----------

  function IssueCapability(s: State, token: Token, topic: TopicId, lease: RunId, uid: nat): Outcome<Token> {
    match LeaseOf(s, topic, lease)
    case None => Refused(AccessDenied)
    case Some(l) =>
      Done(s.(capabilities := s.capabilities[token := Capability(topic, lease, uid, l.generation, l.kind, false)]),
        token)
  }

  /** Whether a token authenticates its caller for a topic. */
  predicate Authenticates(s: State, token: Token, uid: nat, topic: TopicId) {
    && token in s.capabilities
    && var c := s.capabilities[token];
       && !c.revoked && c.uid == uid && c.topic == topic
       && var l := LeaseOf(s, topic, c.lease);
          l.Some? && l.value.generation == c.generation
  }
}
