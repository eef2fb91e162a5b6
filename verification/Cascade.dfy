/** Claiming in the legacy queue: strict order with a cascade from slower stations to faster ones. */
module Cascade {
  import opened Common

  type Id = string
  type Worker = string
  type Lane = string
  datatype Status = Queued | Backoff | Running | Paused | Completed | Attention
  /** Unset is a record from before items had holders. */
  datatype Holder = Unset | Nobody | Held(worker: Worker)
  datatype Item = Item(id: Id, status: Status, wanted: bool, lane: Lane, dependsOn: seq<Id>, claimedBy: Holder,
                       reservedFor: Option<Worker>, nextEligible: Option<int>, accepted: set<Worker>, attempts: nat,
                         startedAt: Option<int>)
  datatype Policy = Policy(limit: Option<nat>, used: nat)
  /** The caps a lane has, the interval of each station in seconds; an unlisted station has interval zero. */
  datatype Setup = Setup(limits: map<Lane, Option<nat>>, intervals: map<Worker, nat>)
  datatype Queue = Queue(items: seq<Item>, policies: map<Worker, Policy>, halted: bool)

  /** `wanted` means the desired state is running; `halted` that the queue is paused or stopping. */
  datatype Claimed = Nothing | Resumed(id: Id) | Started(at: nat) | Raised

  // ---------- Conditions on one item ----------

  datatype Check = Satisfied | Unsatisfied | Malformed

  /** The item an id names when items are read into a dictionary. */
  function Named(items: seq<Item>, id: Id): Option<Item> {
    if items == [] then None
    else if items[|items| - 1].id == id then Some(items[|items| - 1])
    else Named(items[..|items| - 1], id)
  }

  /** Dependencies are read in order: a self or missing dependency raises, an unfinished one settles the matter. */
  function CheckDeps(items: seq<Item>, id: Id, deps: seq<Id>): Check {
    if deps == [] then Satisfied
    else if deps[0] == id || Named(items, deps[0]).None? then Malformed
    else if Named(items, deps[0]).value.status != Completed then Unsatisfied
    else CheckDeps(items, id, deps[1..])
  }

  function Dependencies(items: seq<Item>, i: Item): Check { CheckDeps(items, i.id, i.dependsOn) }

  function Interval(s: Setup, w: Worker): nat { if w in s.intervals then s.intervals[w] else 0 }

  function CapOf(s: Setup, lane: Lane): Option<nat> {
    if lane in s.limits then s.limits[lane] else if lane == "intake" then Some(1) else None
  }

  const DEFAULT_WORKER := "worker-1"

  /** Who runs a running item; a record without a holder counts as the default worker's. */
  function RunningHolder(i: Item): Option<Worker> {
    match i.claimedBy case Unset => Some(DEFAULT_WORKER) case Nobody => None case Held(w) => Some(w)
  }

  /** Running items of a lane, or of a worker. */
  datatype Query = InLane(lane: Lane) | ByWorker(worker: Worker)

  predicate Matches(q: Query, i: Item) {
    i.status == Running && match q case InLane(l) => i.lane == l case ByWorker(w) => RunningHolder(i) == Some(w)
  }

  function CountOf(items: seq<Item>, q: Query): nat {
    if items == [] then 0 else CountOf(items[..|items| - 1], q) + if Matches(q, items[|items| - 1]) then 1 else 0
  }

  predicate HasCapacity(s: Setup, items: seq<Item>, lane: Lane) {
    CapOf(s, lane).None? || CountOf(items, InLane(lane)) < CapOf(s, lane).value
  }

  predicate Waiting(i: Item) { i.status in {Queued, Backoff} }

  predicate DueNow(i: Item, now: int) { i.nextEligible.None? || i.nextEligible.value <= now }

  /** Capacity is asked before dependencies, so a full lane hides a malformed dependency. */
  function Eligible(s: Setup, items: seq<Item>, i: Item, now: int): Check {
    if !Waiting(i) || !i.wanted || !HasCapacity(s, items, i.lane) then Unsatisfied
    else if Dependencies(items, i) != Satisfied then Dependencies(items, i)
    else if DueNow(i, now) then Satisfied else Unsatisfied
  }

  /** In its lane, wanted, and with every dependency completed. */
  predicate Runnable(items: seq<Item>, lanes: set<Lane>, i: Item) {
    i.status in {Queued, Backoff, Running} && i.wanted && i.lane in lanes && Dependencies(items, i) == Satisfied
  }

  // ---------- Scans ----------

  function First(flags: seq<bool>): (r: Option<nat>)
    ensures r.Some? ==> r.value < |flags| && flags[r.value] && forall j | 0 <= j < r.value :: !flags[j]
    ensures r.None? ==> forall j | 0 <= j < |flags| :: !flags[j]
  {
    if flags == [] then None
    else if flags[0] then Some(0)
    else match First(flags[1..])
      case None => assert flags == [flags[0]] + flags[1..]; None
      case Some(i) => Some(i + 1)
  }

  predicate OwnRunning(i: Item, w: Worker) { i.status == Running && RunningHolder(i) == Some(w) }
  predicate Stray(i: Item, w: Worker, lanes: set<Lane>) { i.claimedBy == Held(w) && Waiting(i) && i.lane !in lanes }
  predicate Own(i: Item, w: Worker, lanes: set<Lane>) {
    i.claimedBy == Held(w) && Waiting(i) && i.wanted && i.lane in lanes
  }

  function OwnRunningFlags(items: seq<Item>, w: Worker): seq<bool> {
    seq(|items|, i requires 0 <= i < |items| => OwnRunning(items[i], w))
  }
  function StrayFlags(items: seq<Item>, w: Worker, lanes: set<Lane>): seq<bool> {
    seq(|items|, i requires 0 <= i < |items| => Stray(items[i], w, lanes))
  }
  function OwnFlags(items: seq<Item>, w: Worker, lanes: set<Lane>): seq<bool> {
    seq(|items|, i requires 0 <= i < |items| => Own(items[i], w, lanes))
  }

  function OwnRunningAt(items: seq<Item>, w: Worker): Option<nat> { First(OwnRunningFlags(items, w)) }
  function StrayAt(items: seq<Item>, w: Worker, lanes: set<Lane>): Option<nat> { First(StrayFlags(items, w, lanes)) }
  function OwnAt(items: seq<Item>, w: Worker, lanes: set<Lane>): Option<nat> { First(OwnFlags(items, w, lanes)) }

  /** Releases the first item the worker holds outside its lanes. */
  function Released(items: seq<Item>, w: Worker, lanes: set<Lane>): seq<Item> {
    match StrayAt(items, w, lanes)
    case None => items
    case Some(i) => items[i := items[i].(claimedBy := Nobody)]
  }

  function Unreserved(items: seq<Item>, w: Worker): seq<Item> {
    seq(|items|, i requires 0 <= i < |items| =>
      if items[i].reservedFor == Some(w) && items[i].status != Running then items[i].(reservedFor := None)
        else items[i])
  }

  predicate AwaitsBoundary(items: seq<Item>, w: Worker) {
    exists i | i in items :: i.reservedFor == Some(w) && i.status == Running
  }

  datatype Found = Head(at: nat) | Takeover(at: nat) | Reserve(at: nat) | Full(at: nat) | NoneLeft | Bad

  /** The walk down the queue from position k. */
  function Walk(s: Setup, items: seq<Item>, w: Worker, lanes: set<Lane>, k: nat): Found
    requires k <= |items|
    decreases |items| - k
  {
    if k == |items| then NoneLeft
    else
      var i := items[k];
      if i.status !in {Queued, Backoff, Running} || !i.wanted || i.lane !in lanes then Walk(s, items, w, lanes, k + 1)
      else match Dependencies(items, i)
        case Malformed => Bad
        case Unsatisfied => Walk(s, items, w, lanes, k + 1)
        case Satisfied =>
          if !i.claimedBy.Held? then Head(k)
          else if i.claimedBy.worker == w then Walk(s, items, w, lanes, k + 1)
          else if Interval(s, w) < Interval(s, i.claimedBy.worker) then
            if i.status == Running then Reserve(k)
            else if !HasCapacity(s, items, i.lane) then Full(k)
            else Takeover(k)
          else Walk(s, items, w, lanes, k + 1)
  }

  /** The first unclaimed item whose dependencies are complete, in a lane the worker serves. */
  function Candidate(items: seq<Item>, lanes: set<Lane>, k: nat): Found
    requires k <= |items|
    decreases |items| - k
  {
    if k == |items| then NoneLeft
    else
      var i := items[k];
      if i.claimedBy.Held? || !Waiting(i) || !i.wanted then Candidate(items, lanes, k + 1)
      else match Dependencies(items, i)
        case Malformed => Bad
        case Unsatisfied => Candidate(items, lanes, k + 1)
        case Satisfied => if i.lane in lanes then Head(k) else Candidate(items, lanes, k + 1)
  }

  // ---------- Claiming ----------

  function PolicyOf(q: Queue, w: Worker): Policy { if w in q.policies then q.policies[w] else Policy(None, 0) }

  /** The item starts under this worker; taking new work counts against its limit. */
  function Start(q: Queue, k: nat, w: Worker, now: int): (Queue, Claimed)
    requires k < |q.items|
  {
    var i, p := q.items[k], PolicyOf(q, w);
    var novel := i.claimedBy != Held(w) && w !in i.accepted;
    if novel && p.limit.Some? && p.used >= p.limit.value then (q, Nothing)
    else
      (q.(items := q.items[k := i.(status := Running, claimedBy := Held(w), attempts := i.attempts + 1,
        startedAt := Some(now), accepted := i.accepted + {w})],
          policies := if novel && p.limit.Some? && w in q.policies then q.policies[w := p.(used := p.used + 1)]
            else q.policies), Started(k))
  }

  function StartIf(q: Queue, c: Check, k: nat, w: Worker, now: int): (Queue, Claimed)
    requires k < |q.items|
  {
    match c
    case Satisfied => Start(q, k, w, now)
    case Unsatisfied => (q, Nothing)
    case Malformed => (q, Raised)
  }

  function TakeCandidate(s: Setup, q: Queue, w: Worker, lanes: set<Lane>, now: int): (Queue, Claimed) {
    match Candidate(q.items, lanes, 0)
    case Head(k) => if k < |q.items| then StartIf(q, Eligible(s, q.items, q.items[k], now), k, w, now) else (q, Nothing)
    case Bad => (q, Raised)
    case _ => (q, Nothing)
  }

  function Descend(s: Setup, q: Queue, w: Worker, lanes: set<Lane>, now: int): (Queue, Claimed) {
    match Walk(s, q.items, w, lanes, 0)
    case Bad => (q, Raised)
    case Reserve(k) =>
      if k < |q.items| then (q.(items := q.items[k := q.items[k].(reservedFor := Some(w))]), Nothing) else (q, Nothing)
    case Full(_) => (q, Nothing)
    case Takeover(k) =>
      if k < |q.items|
      then Start(q.(items := q.items[k := q.items[k].(claimedBy := Held(w), nextEligible := None)]), k, w, now)
      else (q, Nothing)
    case _ => TakeCandidate(s, q, w, lanes, now)
  }

  /** A worker without a running item: the item it holds, else a slower station's boundary, else the walk down the
      queue. */
  function Dispatch(s: Setup, q: Queue, w: Worker, lanes: set<Lane>, now: int): (Queue, Claimed) {
    match OwnAt(q.items, w, lanes)
    case Some(k) => StartIf(q, Eligible(s, q.items, q.items[k], now), k, w, now)
    case None =>
      if AwaitsBoundary(q.items, w) then (q, Nothing)
      else Descend(s, q.(items := Unreserved(q.items, w)), w, lanes, now)
  }

  /** A worker asks for work. A malformed dependency raises, and then nothing is saved. */
  function ClaimNext(s: Setup, q: Queue, w: Worker, lanes: set<Lane>, now: int): (Queue, Claimed) {
    if q.halted then (q, Nothing)
    else match OwnRunningAt(q.items, w)
      case Some(k) =>
        (q.(items := q.items[k := q.items[k].(accepted := q.items[k].accepted + {w})]), Resumed(q.items[k].id))
      case None =>
        var r := Dispatch(s, q.(items := Released(q.items, w, lanes)), w, lanes, now);
        if r.1 == Raised then (q, Raised) else r
  }

  // ---------- The walk keeps queue order ----------

  /** Some other station at least as fast holds the item. */
  predicate HeldByFaster(s: Setup, i: Item, w: Worker) {
    i.claimedBy.Held? && i.claimedBy.worker != w && Interval(s, i.claimedBy.worker) <= Interval(s, w)
  }

  predicate Passed(s: Setup, items: seq<Item>, w: Worker, lanes: set<Lane>, j: nat)
    requires j < |items|
  {
    Runnable(items, lanes, items[j]) ==> items[j].claimedBy == Held(w) || HeldByFaster(s, items[j], w)
  }

  /** A runnable item that a slower station holds. */
  predicate SlowerHolds(s: Setup, items: seq<Item>, w: Worker, lanes: set<Lane>, h: nat)
    requires h < |items|
  {
    Runnable(items, lanes, items[h]) && items[h].claimedBy.Held? && items[h].claimedBy.worker != w
      && Interval(s, w) < Interval(s, items[h].claimedBy.worker)
  }

  /** Everything the walk passes over is held by the worker itself or by a station at least as fast; it stops where a
      slower station holds a runnable item. */
  lemma {:induction false} WalkPasses(s: Setup, items: seq<Item>, w: Worker, lanes: set<Lane>, k: nat)
    requires k <= |items|
    ensures match Walk(s, items, w, lanes, k)
            case Head(h) =>
              k <= h < |items| && Runnable(items, lanes, items[h]) && !items[h].claimedBy.Held?
                && forall j: nat | k <= j < h :: Passed(s, items, w, lanes, j)
            case Takeover(h) =>
              k <= h < |items| && SlowerHolds(s, items, w, lanes, h) && Waiting(items[h])
                && HasCapacity(s, items, items[h].lane) && forall j: nat | k <= j < h :: Passed(s, items, w, lanes, j)
            case Reserve(h) =>
              k <= h < |items| && SlowerHolds(s, items, w, lanes, h) && items[h].status == Running
                && forall j: nat | k <= j < h :: Passed(s, items, w, lanes, j)
            case Full(h) =>
              k <= h < |items| && SlowerHolds(s, items, w, lanes, h) && Waiting(items[h])
                && !HasCapacity(s, items, items[h].lane) && forall j: nat | k <= j < h :: Passed(s, items, w, lanes, j)
            case NoneLeft => forall j: nat | k <= j < |items| :: Passed(s, items, w, lanes, j)
            case _ => true
    decreases |items| - k
  {
    if k < |items| { WalkPasses(s, items, w, lanes, k + 1); }
  }

  /** The walk comes past every earlier item. */
  predicate Clear(s: Setup, items: seq<Item>, w: Worker, lanes: set<Lane>, j: nat)
    requires j < |items|
  {
    Passed(s, items, w, lanes, j) && Dependencies(items, items[j]) != Malformed
  }

  /** Where the walk meets a slower station's item: a running one it reserves, a waiting one it takes over, if the lane
      has room. */
  lemma {:induction false} WalkMeets(s: Setup, items: seq<Item>, w: Worker, lanes: set<Lane>, k: nat, h: nat)
    requires k <= h < |items| && SlowerHolds(s, items, w, lanes, h)
    requires forall j: nat | k <= j < h :: Clear(s, items, w, lanes, j)
    ensures Walk(s, items, w, lanes, k) ==
              if items[h].status == Running then Reserve(h)
              else if HasCapacity(s, items, items[h].lane) then Takeover(h) else Full(h)
    decreases h - k
  {
    if k < h {
      assert Clear(s, items, w, lanes, k);
      WalkMeets(s, items, w, lanes, k + 1, h);
    }
  }

  /** The worker runs, holds and awaits nothing. */
  predicate Empty(items: seq<Item>, w: Worker) {
    forall i | i in items ::
      i.claimedBy != Held(w) && i.reservedFor != Some(w) && (i.status == Running ==> RunningHolder(i) != Some(w))
  }

  lemma EmptyStays(items: seq<Item>, w: Worker, lanes: set<Lane>)
    requires Empty(items, w)
    ensures OwnRunningAt(items, w).None? && Released(items, w, lanes) == items && OwnAt(items, w, lanes).None?
    ensures !AwaitsBoundary(items, w) && Unreserved(items, w) == items
  {
    assert forall i | 0 <= i < |items| :: items[i] in items;
    assert forall i | 0 <= i < |items| ::
      !OwnRunningFlags(items, w)[i] && !StrayFlags(items, w, lanes)[i] && !OwnFlags(items, w, lanes)[i];
    assert Unreserved(items, w) == items;
  }

  /** A claim that meets a slower station's running item leaves it running there, reserved for the claimant, who gets
      nothing yet; a waiting one it takes over and starts at once, or leaves alone while its lane is full. */
  lemma ClaimMeetsSlower(s: Setup, q: Queue, w: Worker, lanes: set<Lane>, now: int, h: nat)
    requires !q.halted && Empty(q.items, w) && h < |q.items| && SlowerHolds(s, q.items, w, lanes, h)
    requires forall j: nat | j < h :: Clear(s, q.items, w, lanes, j)
    ensures var r, i := ClaimNext(s, q, w, lanes, now), q.items[h];
            && (i.status == Running ==> r == (q.(items := q.items[h := i.(reservedFor := Some(w))]), Nothing))
            && (i.status != Running && !HasCapacity(s, q.items, i.lane) ==> r == (q, Nothing))
            && (i.status != Running && HasCapacity(s, q.items, i.lane) ==>
                  && r.1 == Started(h)
                  && r.0 == q.(items := q.items[h :=
                       i.(status := Running, claimedBy := Held(w), nextEligible := None, attempts := i.attempts + 1,
                          startedAt := Some(now), accepted := i.accepted + {w})]))
  {
    EmptyStays(q.items, w, lanes);
    WalkMeets(s, q.items, w, lanes, 0, h);
    hide Walk, First, OwnRunningFlags, StrayFlags, OwnFlags, Unreserved, AwaitsBoundary, HasCapacity, SlowerHolds;
    assert q.(items := q.items) == q;
  }

  /** Up to the first takable item the scan for candidates finds nothing. */
  lemma {:induction false} CandidateMeets(s: Setup, items: seq<Item>, w: Worker, lanes: set<Lane>, k: nat, c: nat)
    requires k <= c < |items| && Takable(items, lanes, items[c])
    requires forall j: nat | k <= j < c :: Clear(s, items, w, lanes, j)
    ensures Candidate(items, lanes, k) == Head(c) && Walk(s, items, w, lanes, k) == Head(c)
    decreases c - k
  {
    if k < c {
      assert Clear(s, items, w, lanes, k);
      CandidateMeets(s, items, w, lanes, k + 1, c);
    }
  }

  /** The worker may not start another new item. */
  predicate Spent(q: Queue, w: Worker) {
    w in q.policies && q.policies[w].limit.Some? && q.policies[w].used >= q.policies[w].limit.value
  }

  /** A claim whose walk comes past everything else gets the first unheld item of its lanes: at once when the lane has
      room, the item is due and the worker may start new work, which counts against its limit; else nothing. */
  lemma ClaimTakesNext(s: Setup, q: Queue, w: Worker, lanes: set<Lane>, now: int, c: nat)
    requires !q.halted && Empty(q.items, w) && c < |q.items| && Takable(q.items, lanes, q.items[c])
    requires forall j: nat | j < c :: Clear(s, q.items, w, lanes, j)
    ensures var r, i := ClaimNext(s, q, w, lanes, now), q.items[c];
            var starts := HasCapacity(s, q.items, i.lane) && DueNow(i, now) && (w in i.accepted || !Spent(q, w));
            && (!starts ==> r == (q, Nothing))
            && (starts ==>
                  && r.1 == Started(c)
                  && r.0.items == q.items[c :=
                       i.(status := Running, claimedBy := Held(w), attempts := i.attempts + 1, startedAt := Some(now),
                          accepted := i.accepted + {w})]
                  && r.0.policies ==
                       if w !in i.accepted && w in q.policies && q.policies[w].limit.Some?
                       then q.policies[w := q.policies[w].(used := q.policies[w].used + 1)] else q.policies)
  {
    EmptyStays(q.items, w, lanes);
    CandidateMeets(s, q.items, w, lanes, 0, c);
    hide Walk, Candidate, First, OwnRunningFlags, StrayFlags, OwnFlags, Unreserved, AwaitsBoundary, HasCapacity;
    assert q.(items := q.items) == q && q.items[c] in q.items;
  }

  /** A worker that runs an item resumes the first one it runs. */
  lemma ClaimResumes(s: Setup, q: Queue, w: Worker, lanes: set<Lane>, now: int, k: nat)
    requires !q.halted && k < |q.items| && OwnRunning(q.items[k], w)
    requires forall j | 0 <= j < k :: !OwnRunning(q.items[j], w)
    ensures ClaimNext(s, q, w, lanes, now) ==
              (q.(items := q.items[k := q.items[k].(accepted := q.items[k].accepted + {w})]), Resumed(q.items[k].id))
  {
    assert OwnRunningFlags(q.items, w)[k];
    assert forall j | 0 <= j < |q.items| :: OwnRunningFlags(q.items, w)[j] == OwnRunning(q.items[j], w);
  }

  /** A worker that runs nothing first gets the item it holds in its lanes, or waits for it: until the lane has room,
      its dependencies are complete and it is due; its limit does not matter. */
  lemma ClaimStartsOwn(s: Setup, q: Queue, w: Worker, lanes: set<Lane>, now: int, k: nat)
    requires !q.halted && k < |q.items| && Own(q.items[k], w, lanes)
    requires forall j | 0 <= j < k :: !Own(q.items[j], w, lanes)
    requires forall i | i in q.items :: !OwnRunning(i, w) && !Stray(i, w, lanes)
    ensures var r, i := ClaimNext(s, q, w, lanes, now), q.items[k];
            var room, deps := HasCapacity(s, q.items, i.lane), Dependencies(q.items, i);
            && (room && deps == Satisfied && DueNow(i, now) ==>
                  r == (q.(items := q.items[k := i.(status := Running, attempts := i.attempts + 1,
                             startedAt := Some(now), accepted := i.accepted + {w})]), Started(k)))
            && (room && deps == Malformed ==> r == (q, Raised))
            && (!room || deps == Unsatisfied || (deps == Satisfied && !DueNow(i, now)) ==> r == (q, Nothing))
  {
    assert forall j | 0 <= j < |q.items| ::
      !OwnRunningFlags(q.items, w)[j] && !StrayFlags(q.items, w, lanes)[j]
      && OwnFlags(q.items, w, lanes)[j] == Own(q.items[j], w, lanes);
    assert OwnAt(q.items, w, lanes) == Some(k);
    hide First, OwnRunningFlags, StrayFlags, OwnFlags, HasCapacity, Dependencies;
    assert q.(items := q.items) == q;
  }

  predicate Takable(items: seq<Item>, lanes: set<Lane>, i: Item) {
    !i.claimedBy.Held? && Waiting(i) && i.wanted && i.lane in lanes && Dependencies(items, i) == Satisfied
  }

  lemma {:induction false} CandidateIsFirst(items: seq<Item>, lanes: set<Lane>, k: nat)
    requires k <= |items|
    ensures match Candidate(items, lanes, k)
            case Head(c) =>
              k <= c < |items| && Takable(items, lanes, items[c])
                && forall j | k <= j < c :: !Takable(items, lanes, items[j])
            case NoneLeft => forall j | k <= j < |items| :: !Takable(items, lanes, items[j])
            case Bad => true
            case _ => false
    decreases |items| - k
  {
    if k < |items| { CandidateIsFirst(items, lanes, k + 1); }
  }

  lemma TakableNotPassed(s: Setup, items: seq<Item>, w: Worker, lanes: set<Lane>, j: nat)
    requires j < |items| && Takable(items, lanes, items[j])
    ensures !Passed(s, items, w, lanes, j)
  {
  }

  /** What the descent starts comes after nothing that was the worker's to take. */
  lemma DescentKeepsOrder(s: Setup, q: Queue, w: Worker, lanes: set<Lane>, now: int, k: nat)
    requires Descend(s, q, w, lanes, now).1 == Started(k)
    requires forall i | i in q.items && !i.claimedBy.Held? :: i.status != Running
    ensures k < |q.items| && Runnable(q.items, lanes, q.items[k]) && Waiting(q.items[k])
            && HasCapacity(s, q.items, q.items[k].lane)
    ensures forall j: nat | j < k :: Passed(s, q.items, w, lanes, j)
  {
    WalkPasses(s, q.items, w, lanes, 0);
    CandidateIsFirst(q.items, lanes, 0);
    match Walk(s, q.items, w, lanes, 0)
    case Head(h) =>
      assert q.items[h] in q.items;
      assert Takable(q.items, lanes, q.items[h]);
      var c := Candidate(q.items, lanes, 0).at;
      assert c <= h;
      TakableNotPassed(s, q.items, w, lanes, c);
    case NoneLeft =>
      TakableNotPassed(s, q.items, w, lanes, Candidate(q.items, lanes, 0).at);
    case _ =>
  }

  /** Only holders and reservations changed, so no dependency check changes. */
  predicate SameWork(a: seq<Item>, b: seq<Item>) {
    |a| == |b| && forall i | 0 <= i < |a| :: b[i] == a[i].(claimedBy := b[i].claimedBy, reservedFor := b[i].reservedFor)
  }

  lemma {:induction false} SameNamed(a: seq<Item>, b: seq<Item>, id: Id)
    requires SameWork(a, b)
    ensures Named(a, id).Some? <==> Named(b, id).Some?
    ensures Named(a, id).Some? ==> Named(a, id).value.status == Named(b, id).value.status
  {
    if a != [] { SameNamed(a[..|a| - 1], b[..|b| - 1], id); }
  }

  lemma {:induction false} SameDeps(a: seq<Item>, b: seq<Item>, id: Id, deps: seq<Id>)
    requires SameWork(a, b)
    ensures CheckDeps(a, id, deps) == CheckDeps(b, id, deps)
  {
    if deps != [] {
      SameNamed(a, b, deps[0]);
      SameDeps(a, b, id, deps[1..]);
    }
  }

  function Prepared(items: seq<Item>, w: Worker, lanes: set<Lane>): seq<Item> {
    Unreserved(Released(items, w, lanes), w)
  }

  lemma PreparedSame(items: seq<Item>, w: Worker, lanes: set<Lane>, j: nat)
    requires j < |items|
    ensures SameWork(items, Prepared(items, w, lanes)) && SameWork(items, Released(items, w, lanes))
    ensures items[j].lane in lanes ==> Prepared(items, w, lanes)[j].claimedBy == items[j].claimedBy
    ensures Runnable(items, lanes, items[j]) <==>
            Runnable(Prepared(items, w, lanes), lanes, Prepared(items, w, lanes)[j])
  {
    SameDeps(items, Prepared(items, w, lanes), items[j].id, items[j].dependsOn);
  }

  /** No leapfrogging. When no running item is unclaimed, a worker that holds nothing and is given the item at position
      k finds every runnable item of its lanes before k held by another station that is at least as fast. */
  lemma NoLeapfrog(s: Setup, q: Queue, w: Worker, lanes: set<Lane>, now: int, k: nat, j: nat)
    requires ClaimNext(s, q, w, lanes, now).1 == Started(k) && OwnAt(Released(q.items, w, lanes), w, lanes).None?
    requires forall i | i in q.items && !i.claimedBy.Held? :: i.status != Running
    requires j < k
    ensures k < |q.items| && Runnable(q.items, lanes, q.items[k])
            && (Runnable(q.items, lanes, q.items[j]) ==> HeldByFaster(s, q.items[j], w))
  {
    var items := Prepared(q.items, w, lanes);
    var q2 := q.(items := items);
    assert q.(items := Released(q.items, w, lanes)).(items := items) == q2;
    forall i | i in items && !i.claimedBy.Held? ensures i.status != Running {
      var n :| 0 <= n < |items| && items[n] == i;
      assert q.items[n] in q.items;
    }
    DescentKeepsOrder(s, q2, w, lanes, now, k);
    PreparedSame(q.items, w, lanes, k);
    PreparedSame(q.items, w, lanes, j);
    assert Passed(s, items, w, lanes, j);
    NotOwn(q.items, w, lanes, j);
  }

  /** A worker that holds nothing is not the holder of any runnable item of its lanes. */
  lemma NotOwn(items: seq<Item>, w: Worker, lanes: set<Lane>, j: nat)
    requires OwnRunningAt(items, w).None? && OwnAt(Released(items, w, lanes), w, lanes).None? && j < |items|
    ensures Runnable(items, lanes, items[j]) ==> items[j].claimedBy != Held(w)
  {
    var rs := Released(items, w, lanes);
    assert !OwnRunningFlags(items, w)[j] && !OwnFlags(rs, w, lanes)[j];
  }

  // ---------- One running item per worker, and lane caps ----------

  lemma {:induction false} CountConcat(a: seq<Item>, b: seq<Item>, q: Query)
    ensures CountOf(a + b, q) == CountOf(a, q) + CountOf(b, q)
  {
    if b == [] {
      assert a + b == a;
    } else {
      CountConcat(a, b[..|b| - 1], q);
      assert (a + b)[..|a + b| - 1] == a + b[..|b| - 1];
    }
  }

  lemma CountUpdate(items: seq<Item>, k: nat, i: Item, q: Query)
    requires k < |items|
    ensures CountOf(items[k := i], q) + (if Matches(q, items[k]) then 1 else 0) == CountOf(items, q)
            + (if Matches(q, i) then 1 else 0)
  {
    assert items == items[..k] + ([items[k]] + items[k + 1..]);
    assert items[k := i] == items[..k] + ([i] + items[k + 1..]);
    CountConcat(items[..k], [items[k]] + items[k + 1..], q);
    CountConcat([items[k]], items[k + 1..], q);
    CountConcat(items[..k], [i] + items[k + 1..], q);
    CountConcat([i], items[k + 1..], q);
    assert [i][..0] == [] && [items[k]][..0] == [];
  }

  lemma {:induction false} CountSame(a: seq<Item>, b: seq<Item>, q: Query)
    requires |a| == |b| && forall i | 0 <= i < |a| :: Matches(q, a[i]) <==> Matches(q, b[i])
    ensures CountOf(a, q) == CountOf(b, q)
  {
    if a != [] { CountSame(a[..|a| - 1], b[..|b| - 1], q); }
  }

  lemma {:induction false} CountNone(items: seq<Item>, q: Query)
    requires forall i | i in items :: !Matches(q, i)
    ensures CountOf(items, q) == 0
  {
    if items != [] {
      CountNone(items[..|items| - 1], q);
      assert items[|items| - 1] in items;
    }
  }

  /** A worker runs at most one item; a capped lane runs no more than its cap. */
  predicate Within(s: Setup, items: seq<Item>, q: Query) {
    match q
    case ByWorker(_) => CountOf(items, q) <= 1
    case InLane(l) => CapOf(s, l).Some? ==> CountOf(items, q) <= CapOf(s, l).value
  }

  /** Starting an item in a lane with room, for a worker that runs nothing, keeps every bound that holds. */
  lemma StartKeeps(s: Setup, q: Queue, k: nat, w: Worker, now: int, x: Query)
    requires Within(s, q.items, x) && k < |q.items| && HasCapacity(s, q.items, q.items[k].lane)
             && q.items[k].status != Running
    requires forall i | i in q.items :: !OwnRunning(i, w)
    ensures Within(s, Start(q, k, w, now).0.items, x)
  {
    var r := Start(q, k, w, now).0.items;
    if r != q.items {
      CountUpdate(q.items, k, r[k], x);
      if x == ByWorker(w) { CountNone(q.items, x); }
    }
  }

  lemma QuietKeeps(s: Setup, a: seq<Item>, b: seq<Item>, x: Query)
    requires Within(s, a, x) && |a| == |b|
    requires forall i | 0 <= i < |a| ::
             b[i].status == a[i].status && b[i].lane == a[i].lane
             && (a[i].status == Running ==> b[i].claimedBy == a[i].claimedBy)
    ensures Within(s, b, x)
  {
    CountSame(a, b, x);
  }

  lemma DescendKeeps(s: Setup, q: Queue, w: Worker, lanes: set<Lane>, now: int, x: Query)
    requires Within(s, q.items, x) && forall i | i in q.items :: !OwnRunning(i, w)
    ensures Within(s, Descend(s, q, w, lanes, now).0.items, x)
  {
    WalkPasses(s, q.items, w, lanes, 0);
    CandidateIsFirst(q.items, lanes, 0);
    match Walk(s, q.items, w, lanes, 0)
    case Reserve(k) => QuietKeeps(s, q.items, q.items[k := q.items[k].(reservedFor := Some(w))], x);
    case Takeover(k) =>
      var taken := q.(items := q.items[k := q.items[k].(claimedBy := Held(w), nextEligible := None)]);
      QuietKeeps(s, q.items, taken.items, x);
      CountSame(q.items, taken.items, InLane(q.items[k].lane));
      StartKeeps(s, taken, k, w, now, x);
    case Head(_) => CandidateKeeps(s, q, w, lanes, now, x);
    case NoneLeft => CandidateKeeps(s, q, w, lanes, now, x);
    case _ =>
  }

  lemma CandidateKeeps(s: Setup, q: Queue, w: Worker, lanes: set<Lane>, now: int, x: Query)
    requires Within(s, q.items, x) && forall i | i in q.items :: !OwnRunning(i, w)
    ensures Within(s, TakeCandidate(s, q, w, lanes, now).0.items, x)
  {
    CandidateIsFirst(q.items, lanes, 0);
    match Candidate(q.items, lanes, 0)
    case Head(k) =>
      if Eligible(s, q.items, q.items[k], now) == Satisfied { StartKeeps(s, q, k, w, now, x); }
    case _ =>
  }

  /** A claim, whatever the worker and its lanes, keeps every bound that holds. */
  lemma ClaimKeeps(s: Setup, q: Queue, w: Worker, lanes: set<Lane>, now: int, x: Query)
    requires Within(s, q.items, x)
    ensures Within(s, ClaimNext(s, q, w, lanes, now).0.items, x)
  {
    hide Descend;
    match OwnRunningAt(q.items, w)
    case Some(k) => QuietKeeps(s, q.items, q.items[k := q.items[k].(accepted := q.items[k].accepted + {w})], x);
    case None =>
      var rs := Released(q.items, w, lanes);
      QuietKeeps(s, q.items, rs, x);
      var us := Unreserved(rs, w);
      QuietKeeps(s, q.items, us, x);
      forall i | i in rs || i in us ensures !OwnRunning(i, w) {
        NothingRunning(q.items, w, lanes, i);
      }
      match OwnAt(rs, w, lanes)
      case Some(k) =>
        if Eligible(s, rs, rs[k], now) == Satisfied { StartKeeps(s, q.(items := rs), k, w, now, x); }
      case None => DescendKeeps(s, q.(items := rs).(items := us), w, lanes, now, x);
  }

  lemma NothingRunning(items: seq<Item>, w: Worker, lanes: set<Lane>, i: Item)
    requires OwnRunningAt(items, w).None? && (i in Released(items, w, lanes) || i in Prepared(items, w, lanes))
    ensures !OwnRunning(i, w)
  {
    var flags := OwnRunningFlags(items, w);
    var rs, us := Released(items, w, lanes), Prepared(items, w, lanes);
    if i in rs {
      var n :| 0 <= n < |rs| && rs[n] == i;
      assert !flags[n];
    } else {
      var n :| 0 <= n < |us| && us[n] == i;
      assert !flags[n];
    }
  }

  // ---------- Manifest sync moves items between lanes ----------

  /** The lane of an item once the manifest is applied; a running item moves like any other. */
  function LaneUnder(i: Item, manifest: map<Id, Lane>): Lane { if i.id in manifest then manifest[i.id] else i.lane }

  function Relaned(items: seq<Item>, manifest: map<Id, Lane>): seq<Item> {
    seq(|items|, k requires 0 <= k < |items| => items[k].(lane := LaneUnder(items[k], manifest)))
  }

  /** The running items the manifest leaves in a lane or moves into it. */
  function RunningUnder(items: seq<Item>, manifest: map<Id, Lane>, lane: Lane): set<nat> {
    set k | 0 <= k < |items| && items[k].status == Running && LaneUnder(items[k], manifest) == lane
  }

  lemma RelanedPrefix(items: seq<Item>, manifest: map<Id, Lane>)
    requires items != []
    ensures Relaned(items, manifest)[..|items| - 1] == Relaned(items[..|items| - 1], manifest)
  {
  }

  lemma RunningUnderRest(items: seq<Item>, manifest: map<Id, Lane>, lane: Lane)
    requires items != []
    ensures RunningUnder(items[..|items| - 1], manifest, lane) == RunningUnder(items, manifest, lane) - {|items| - 1}
  {
    var rest := items[..|items| - 1];
    assert forall k | 0 <= k < |rest| :: rest[k] == items[k];
  }

  lemma RunningUnderLast(items: seq<Item>, manifest: map<Id, Lane>, lane: Lane)
    requires items != []
    ensures var last := |items| - 1;
            |RunningUnder(items, manifest, lane)| ==
              |RunningUnder(items[..last], manifest, lane)| + if items[last].status == Running
                && LaneUnder(items[last], manifest) == lane then 1 else 0
  {
    var last, all := |items| - 1, RunningUnder(items, manifest, lane);
    RunningUnderRest(items, manifest, lane);
    if last in all { assert all == (all - {last}) + {last}; } else { assert all == all - {last}; }
  }

  lemma {:induction false} CountRelaned(items: seq<Item>, manifest: map<Id, Lane>, lane: Lane)
    ensures CountOf(Relaned(items, manifest), InLane(lane)) == |RunningUnder(items, manifest, lane)|
  {
    if items != [] {
      CountRelaned(items[..|items| - 1], manifest, lane);
      RelanedPrefix(items, manifest);
      RunningUnderLast(items, manifest, lane);
    }
  }

  /** A sync leaves a capped lane within its cap exactly when the running items the manifest leaves in it or moves into
      it are no more than the cap. */
  lemma SyncKeepsCapIff(s: Setup, items: seq<Item>, manifest: map<Id, Lane>, lane: Lane)
    requires CapOf(s, lane).Some?
    ensures Within(s, Relaned(items, manifest), InLane(lane)) <==>
            |RunningUnder(items, manifest, lane)| <= CapOf(s, lane).value
  {
    CountRelaned(items, manifest, lane);
  }

  lemma SyncKeepsWorkers(s: Setup, items: seq<Item>, manifest: map<Id, Lane>, w: Worker)
    requires Within(s, items, ByWorker(w))
    ensures Within(s, Relaned(items, manifest), ByWorker(w))
  {
    CountSame(items, Relaned(items, manifest), ByWorker(w));
  }

  // ---------- Runs of the queue ----------

  /** The queue's operations: a claim; a sync's change of lanes; any other change of one item, of the list or of the
      pause flag. */
  datatype Step = Claim(worker: Worker, lanes: set<Lane>, now: int) | Sync(manifest: map<Id, Lane>)
                        | Rewrite(at: nat, item: Item) | Append(item: Item)
                | Remove(at: nat) | Swap(at: nat, with_: nat) | Halt(halted: bool)

  /** Only a claim starts an item. A running item keeps its lane outside a sync; resuming or restarting it clears its
      holder. */
  predicate StartsNothing(a: Item, b: Item) {
    b.status == Running ==>
      a.status == Running && (b.claimedBy == a.claimedBy || b.claimedBy == Nobody) && b.lane == a.lane
  }

  predicate Allowed(q: Queue, step: Step) {
    match step
    case Rewrite(k, i) => k < |q.items| && StartsNothing(q.items[k], i)
    case Append(i) => i.status != Running
    case Remove(k) => k < |q.items|
    case Swap(j, k) => j < k < |q.items|
    case _ => true
  }

  function Next(s: Setup, q: Queue, step: Step): Queue
    requires Allowed(q, step)
  {
    match step
    case Claim(w, lanes, now) => ClaimNext(s, q, w, lanes, now).0
    case Sync(manifest) => q.(items := Relaned(q.items, manifest))
    case Rewrite(k, i) => q.(items := q.items[k := i])
    case Append(i) => q.(items := q.items + [i])
    case Remove(k) => q.(items := q.items[..k] + q.items[k + 1..])
    case Swap(j, k) => q.(items := q.items[j := q.items[k]][k := q.items[j]])
    case Halt(h) => q.(halted := h)
  }

  lemma RemoveCount(items: seq<Item>, k: nat, x: Query)
    requires k < |items|
    ensures CountOf(items[..k] + items[k + 1..], x) <= CountOf(items, x)
  {
    assert items == items[..k] + ([items[k]] + items[k + 1..]);
    CountConcat(items[..k], [items[k]] + items[k + 1..], x);
    CountConcat([items[k]], items[k + 1..], x);
    CountConcat(items[..k], items[k + 1..], x);
  }

  lemma StepKeeps(s: Setup, q: Queue, step: Step, x: Query)
    requires Within(s, q.items, x) && Allowed(q, step) && (step.Sync? ==> x.ByWorker?)
    ensures Within(s, Next(s, q, step).items, x)
  {
    hide ClaimNext;
    match step
    case Claim(w, lanes, now) => ClaimKeeps(s, q, w, lanes, now, x);
    case Sync(manifest) => SyncKeepsWorkers(s, q.items, manifest, x.worker);
    case Rewrite(k, i) => CountUpdate(q.items, k, i, x);
    case Append(i) => CountConcat(q.items, [i], x); assert [i][..0] == [];
    case Remove(k) => RemoveCount(q.items, k, x);
    case Swap(j, k) =>
      CountUpdate(q.items, j, q.items[k], x);
      CountUpdate(q.items[j := q.items[k]], k, q.items[j], x);
    case _ =>
  }

  ghost predicate Execution(s: Setup, qs: seq<Queue>, steps: seq<Step>) {
    && |qs| == |steps| + 1 && qs[0].items == []
    && (forall i | 0 <= i < |steps| :: Allowed(qs[i], steps[i]) && qs[i + 1] == Next(s, qs[i], steps[i]))
  }

  // ---------- A run that overfills a lane ----------

  const PLAIN := Setup(map[], map[])
  const FREE := Item("a", Queued, true, "research", [], Nobody, None, None, {}, 0, None)
  const FREE_TOO := FREE.(id := "b")
  const BUSY := FREE.(status := Running, claimedBy := Held("station-1"), accepted := {"station-1"}, attempts := 1,
    startedAt := Some(0))
  const BUSY_TOO := FREE_TOO.(status := Running, claimedBy := Held("station-2"), accepted := {"station-2"},
    attempts := 1, startedAt := Some(0))
  const MOVED := map["a" := "intake", "b" := "intake"]

  function Work(items: seq<Item>): Queue { Queue(items, map[], false) }

  lemma NothingHeld(items: seq<Item>, w: Worker, lanes: set<Lane>)
    requires forall i | i in items :: RunningHolder(i) != Some(w) && i.claimedBy != Held(w)
    ensures OwnRunningAt(items, w).None? && StrayAt(items, w, lanes).None? && OwnAt(items, w, lanes).None?
  {
    FirstNone(OwnRunningFlags(items, w));
    FirstNone(StrayFlags(items, w, lanes));
    FirstNone(OwnFlags(items, w, lanes));
  }

  lemma FirstTakes()
    ensures ClaimNext(PLAIN, Work([FREE]), "station-1", {"research"}, 0).0 == Work([BUSY])
  {
    var items := [FREE];
    NothingHeld(items, "station-1", {"research"});
    assert Unreserved(items, "station-1") == items;
    assert Walk(PLAIN, items, "station-1", {"research"}, 0) == Head(0) && Candidate(items, {"research"}, 0) == Head(0);
    assert FREE.accepted + {"station-1"} == {"station-1"} && items[0 := BUSY] == [BUSY];
  }

  lemma SecondTakes()
    ensures ClaimNext(PLAIN, Work([BUSY, FREE_TOO]), "station-2", {"research"}, 0).0 == Work([BUSY, BUSY_TOO])
  {
    var items := [BUSY, FREE_TOO];
    NothingHeld(items, "station-2", {"research"});
    assert Unreserved(items, "station-2") == items;
    assert Walk(PLAIN, items, "station-2", {"research"}, 1) == Head(1) && Candidate(items, {"research"}, 1) == Head(1);
    assert Walk(PLAIN, items, "station-2", {"research"}, 0) == Head(1) && Candidate(items, {"research"}, 0) == Head(1);
    assert FREE_TOO.accepted + {"station-2"} == {"station-2"} && items[1 := BUSY_TOO] == [BUSY, BUSY_TOO];
  }

  lemma MovedOverfills()
    ensures Within(PLAIN, [BUSY, BUSY_TOO], InLane("intake"))
            && CountOf(Relaned([BUSY, BUSY_TOO], MOVED), InLane("intake")) == 2
  {
    CountNone([BUSY, BUSY_TOO], InLane("intake"));
    CountRelaned([BUSY, BUSY_TOO], MOVED, "intake");
    assert RunningUnder([BUSY, BUSY_TOO], MOVED, "intake") == {0, 1};
  }

  lemma Appended(items: seq<Item>, i: Item)
    requires i.status != Running
    ensures Allowed(Work(items), Append(i)) && Next(PLAIN, Work(items), Append(i)) == Work(items + [i])
  {
  }

  /** Some run of the queue ends here. */
  ghost predicate Reached(q: Queue) {
    exists qs, steps :: Execution(PLAIN, qs, steps) && qs[|qs| - 1] == q
  }

  lemma RunEnds(qs: seq<Queue>, steps: seq<Step>)
    requires Execution(PLAIN, qs, steps)
    ensures Reached(qs[|qs| - 1])
  {
  }

  lemma ReachNext(q: Queue, step: Step)
    requires Reached(q) && Allowed(q, step)
    ensures Reached(Next(PLAIN, q, step))
  {
    hide Next;
    var qs, steps :| Execution(PLAIN, qs, steps) && qs[|qs| - 1] == q;
    RunEnds(qs + [Next(PLAIN, q, step)], steps + [step]);
  }

  /** Two stations claim two research items, and a sync then moves both to the intake lane: two items run in a lane
      capped at one. */
  lemma SyncMayOverfill() returns (q: Queue)
    ensures Reached(q) && CapOf(PLAIN, "intake") == Some(1)
    ensures Within(PLAIN, q.items, InLane("intake"))
            && CountOf(Next(PLAIN, q, Sync(MOVED)).items, InLane("intake")) == 2
    ensures Reached(Next(PLAIN, q, Sync(MOVED)))
  {
    hide ClaimNext;
    RunEnds([Work([])], []);
    Appended([], FREE);
    ReachNext(Work([]), Append(FREE));
    FirstTakes();
    ReachNext(Work([FREE]), Claim("station-1", {"research"}, 0));
    Appended([BUSY], FREE_TOO);
    ReachNext(Work([BUSY]), Append(FREE_TOO));
    SecondTakes();
    ReachNext(Work([BUSY, FREE_TOO]), Claim("station-2", {"research"}, 0));
    q := Work([BUSY, BUSY_TOO]);
    ReachNext(q, Sync(MOVED));
    MovedOverfills();
  }

  /** Along every run of the queue, syncs, resumes and restarts included, each worker has at most one running item. */
  lemma {:induction false} OneRunningEach(s: Setup, qs: seq<Queue>, steps: seq<Step>, i: nat, w: Worker)
    requires Execution(s, qs, steps) && i < |qs|
    ensures CountOf(qs[i].items, ByWorker(w)) <= 1
    decreases i
  {
    if i > 0 {
      OneRunningEach(s, qs, steps, i - 1, w);
      StepKeeps(s, qs[i - 1], steps[i - 1], ByWorker(w));
    }
  }

  /** Every sync of the run so far left the lane no more running items than its cap. */
  ghost predicate SyncsFit(s: Setup, qs: seq<Queue>, steps: seq<Step>, i: nat, lane: Lane)
    requires i < |qs| == |steps| + 1 && CapOf(s, lane).Some?
  {
    forall k | 0 <= k < i && steps[k].Sync? ::
      |RunningUnder(qs[k].items, steps[k].manifest, lane)| <= CapOf(s, lane).value
  }

  /** Along a run, a lane with a fixed cap never runs more than its cap exactly when no sync leaves it or moves into it
      more running items than that. */
  lemma CapHoldsIff(s: Setup, qs: seq<Queue>, steps: seq<Step>, i: nat, lane: Lane)
    requires Execution(s, qs, steps) && i < |qs| && CapOf(s, lane).Some?
    ensures (forall k | 0 <= k <= i :: CountOf(qs[k].items, InLane(lane)) <= CapOf(s, lane).value) <==>
            SyncsFit(s, qs, steps, i, lane)
  {
    if forall k | 0 <= k <= i :: CountOf(qs[k].items, InLane(lane)) <= CapOf(s, lane).value {
      forall k | 0 <= k < i && steps[k].Sync? ensures |RunningUnder(qs[k].items, steps[k].manifest, lane)| <= CapOf(s,
        lane).value {
        SyncKeepsCapIff(s, qs[k].items, steps[k].manifest, lane);
        assert CountOf(qs[k + 1].items, InLane(lane)) <= CapOf(s, lane).value;
      }
    }
    if SyncsFit(s, qs, steps, i, lane) {
      forall k | 0 <= k <= i ensures CountOf(qs[k].items, InLane(lane)) <= CapOf(s, lane).value {
        CapHolds(s, qs, steps, k, lane);
      }
    }
  }

  lemma {:induction false} CapHolds(s: Setup, qs: seq<Queue>, steps: seq<Step>, i: nat, lane: Lane)
    requires Execution(s, qs, steps) && i < |qs| && CapOf(s, lane).Some? && SyncsFit(s, qs, steps, i, lane)
    ensures Within(s, qs[i].items, InLane(lane))
    decreases i
  {
    hide ClaimNext;
    if i > 0 {
      CapHolds(s, qs, steps, i - 1, lane);
      if steps[i - 1].Sync? {
        SyncKeepsCapIff(s, qs[i - 1].items, steps[i - 1].manifest, lane);
      } else {
        StepKeeps(s, qs[i - 1], steps[i - 1], InLane(lane));
      }
    }
  }

  // ---------- The claim as it runs ----------

  lemma FirstIs(flags: seq<bool>, k: nat)
    requires k < |flags| && flags[k] && forall j | 0 <= j < k :: !flags[j]
    ensures First(flags) == Some(k)
  {
  }

  lemma FirstNone(flags: seq<bool>)
    requires forall j | 0 <= j < |flags| :: !flags[j]
    ensures First(flags) == None
  {
  }

  class LegacyQueue {
    var items: seq<Item>
    var policies: map<Worker, Policy>
    var halted: bool

    function View(): Queue
      reads this
    {
      Queue(items, policies, halted)
    }

    constructor ()
      ensures View() == Queue([], map[], false)
    {
      items, policies, halted := [], map[], false;
    }

    method FindFirst(flags: seq<bool>) returns (at: Option<nat>)
      ensures at == First(flags)
    {
      for i := 0 to |flags|
        invariant forall j | 0 <= j < i :: !flags[j]
      {
        if flags[i] {
          FirstIs(flags, i);
          return Some(i);
        }
      }
      FirstNone(flags);
      return None;
    }

    /** Walks down the queue to the first item that settles the claim. */
    method WalkDown(s: Setup, w: Worker, lanes: set<Lane>) returns (found: Found)
      ensures found == Walk(s, items, w, lanes, 0)
    {
      var k := 0;
      while k < |items|
        invariant k <= |items| && Walk(s, items, w, lanes, 0) == Walk(s, items, w, lanes, k)
      {
        var i := items[k];
        if i.status in {Queued, Backoff, Running} && i.wanted && i.lane in lanes {
          var check := Dependencies(items, i);
          if check == Malformed { return Bad; }
          if check == Satisfied {
            if !i.claimedBy.Held? { return Head(k); }
            if i.claimedBy.worker != w && Interval(s, w) < Interval(s, i.claimedBy.worker) {
              if i.status == Running { return Reserve(k); }
              if !HasCapacity(s, items, i.lane) { return Full(k); }
              return Takeover(k);
            }
          }
        }
        k := k + 1;
      }
      return NoneLeft;
    }

    method FindCandidate(lanes: set<Lane>) returns (found: Found)
      ensures found == Candidate(items, lanes, 0)
    {
      var k := 0;
      while k < |items|
        invariant k <= |items| && Candidate(items, lanes, 0) == Candidate(items, lanes, k)
      {
        var i := items[k];
        if !i.claimedBy.Held? && Waiting(i) && i.wanted {
          var check := Dependencies(items, i);
          if check == Malformed { return Bad; }
          if check == Satisfied && i.lane in lanes { return Head(k); }
        }
        k := k + 1;
      }
      return NoneLeft;
    }

    /** Drops the worker's reservations on items that no longer run. */
    method DropReservations(w: Worker)
      modifies this`items
      ensures items == Unreserved(old(items), w)
    {
      for i := 0 to |items|
        invariant |items| == |old(items)|
        invariant forall k | 0 <= k < |items| ::
                  items[k] == if k < i then Unreserved(old(items), w)[k] else old(items)[k]
      {
        if items[i].reservedFor == Some(w) && items[i].status != Running {
          items := items[i := items[i].(reservedFor := None)];
        }
      }
    }

    /** Starts an item; refused when the worker is out of new claims. */
    method StartItem(k: nat, w: Worker, now: int) returns (claimed: Claimed)
      requires k < |items|
      modifies this
      ensures (View(), claimed) == Start(old(View()), k, w, now)
    {
      var i, p := items[k], PolicyOf(View(), w);
      if i.claimedBy != Held(w) && w !in i.accepted && p.limit.Some? {
        if p.used >= p.limit.value { return Nothing; }
        if w in policies { policies := policies[w := p.(used := p.used + 1)]; }
      }
      items := items[k := i.(status := Running, claimedBy := Held(w), attempts := i.attempts + 1,
        startedAt := Some(now), accepted := i.accepted + {w})];
      return Started(k);
    }

    method StartWhen(c: Check, k: nat, w: Worker, now: int) returns (claimed: Claimed)
      requires k < |items|
      modifies this
      ensures (View(), claimed) == StartIf(old(View()), c, k, w, now)
    {
      match c {
        case Satisfied => claimed := StartItem(k, w, now);
        case Unsatisfied => claimed := Nothing;
        case Malformed => claimed := Raised;
      }
    }

    /** The cascade and, failing that, the first unclaimed item. */
    method TakeNext(s: Setup, w: Worker, lanes: set<Lane>, now: int) returns (claimed: Claimed)
      modifies this
      ensures (View(), claimed) == Descend(s, old(View()), w, lanes, now)
    {
      WalkPasses(s, items, w, lanes, 0);
      var found := WalkDown(s, w, lanes);
      match found {
        case Bad => return Raised;
        case Full(_) => return Nothing;
        case Reserve(k) =>
          items := items[k := items[k].(reservedFor := Some(w))];
          return Nothing;
        case Takeover(k) =>
          items := items[k := items[k].(claimedBy := Held(w), nextEligible := None)];
          claimed := StartItem(k, w, now);
          return;
        case _ =>
      }
      CandidateIsFirst(items, lanes, 0);
      var candidate := FindCandidate(lanes);
      match candidate {
        case Head(k) => claimed := StartWhen(Eligible(s, items, items[k], now), k, w, now);
        case Bad => claimed := Raised;
        case _ => claimed := Nothing;
      }
    }

    /** Gives the worker its own item, or the next one. */
    method DispatchTo(s: Setup, w: Worker, lanes: set<Lane>, now: int) returns (claimed: Claimed)
      modifies this
      ensures (View(), claimed) == Dispatch(s, old(View()), w, lanes, now)
    {
      var own := FindFirst(OwnFlags(items, w, lanes));
      if own.Some? {
        claimed := StartWhen(Eligible(s, items, items[own.value], now), own.value, w, now);
      } else if AwaitsBoundary(items, w) {
        claimed := Nothing;
      } else {
        DropReservations(w);
        claimed := TakeNext(s, w, lanes, now);
      }
    }

    method ReleaseStray(w: Worker, lanes: set<Lane>)
      modifies this`items
      ensures items == Released(old(items), w, lanes)
    {
      var stray := FindFirst(StrayFlags(items, w, lanes));
      if stray.Some? { items := items[stray.value := items[stray.value].(claimedBy := Nobody)]; }
    }

    /** A worker asks for work; the queue is saved unless the claim raised. */
    method Claim(s: Setup, w: Worker, lanes: set<Lane>, now: int) returns (claimed: Claimed)
      modifies this
      ensures (View(), claimed) == ClaimNext(s, old(View()), w, lanes, now)
    {
      if halted { return Nothing; }
      var running := FindFirst(OwnRunningFlags(items, w));
      if running.Some? {
        var k := running.value;
        items := items[k := items[k].(accepted := items[k].accepted + {w})];
        return Resumed(items[k].id);
      }
      var saved := View();
      ReleaseStray(w, lanes);
      assert View() == saved.(items := Released(saved.items, w, lanes));
      claimed := DispatchTo(s, w, lanes, now);
      if claimed == Raised { items, policies, halted := saved.items, saved.policies, saved.halted; }
    }
  }
}
