/** Whole runs of the controller: any sequence of its transactions, in any order, keeps every invariant. */
module Runs {
  import opened Common
  import opened ControlRecords
  import opened Scheduler
  import opened Checkpoints
  import opened Episodes
  import opened Ledger
  import opened Reviews
  import opened ReviewSteps
  import opened EpisodeSteps
  import opened OperatorSteps
  import opened LedgerSteps
  import Compaction
  import Dealing

  // ---------- Transactions ----------

  datatype Op =
    | Reconciling(now: Time)
    | Claiming(station: nat, now: Time, uuid: RunId)
    | Finalizing(station: nat, lease: RunId, now: Time, pacing: Option<Time>, retry: Option<Time>)
    | Confirming(station: nat, lease: RunId)
    | Compacting
    | Reordering(order: seq<TopicId>, expected: nat, now: Time)
    | Scaling(active: Option<nat>, policy: Option<Policy>, now: Time)
    | Editing(items: seq<Item>, paused: bool, stopping: bool)
    | Issuing(token: Token, topic: TopicId, lease: RunId, uid: nat)
    | Revoking(lease: RunId)
    | Accepting(topic: TopicId, run: RunId, station: nat, version: Version, accepted: bool, deepening: bool, now: Time,
      episode: EpisodeId)
    | Stalling(topic: TopicId, version: Version, episode: EpisodeId)
    | Starting(episode: EpisodeId, run: RunId, digest: Digest, prior: Option<EpisodeId>)
    | Reserving(episode: EpisodeId, lease: RunId, k: InvocationId, role: Role, authority: Option<Token>)
    | Recording(episode: EpisodeId, k: InvocationId, exit: int, output: bool, complete: bool)
    | Finishing(report: Report, digest: Digest)
    | Failing(topic: TopicId, lease: RunId, known: Option<EpisodeId>, infra: bool, now: Time)
    | Orphaning(orphan: Lease, now: Time)
    | Resetting(request: RequestId, reset: ResetRequest)
    | Retrying(request: RequestId, retrying: RetryRequest)
    | Intending(request: RequestId, payload: Payload, bundle: Option<Bundle>)
    | Committing(request: RequestId, receipt: Option<Receipt>)

  /** One transaction. `Editing` stands for every other queue transaction: it may change items and pause flags at
      will. */
  function Apply(s: State, op: Op): State
    requires |s.seats| == MAX_STATIONS
  {
    match op
    case Reconciling(now) => Commit(s, Reconcile(s, now))
    case Claiming(station, now, uuid) => After(s, Claim(s, station, now, uuid))
    case Finalizing(station, lease, now, pacing, retry) => After(s, Finalize(s, station, lease, now, pacing, retry))
    case Confirming(station, lease) => After(s, ConfirmLaunch(s, station, lease))
    case Compacting => Commit(s, Compact(s))
    case Reordering(order, expected, now) => After(s, Reorder(s, order, expected, now))
    case Scaling(active, policy, now) => After(s, UpdateStations(s, active, policy, now))
    case Editing(items, paused, stopping) => Commit(s, s.(items := items, paused := paused, stopping := stopping))
    case Issuing(token, topic, lease, uid) => After(s, IssueCapability(s, token, topic, lease, uid))
    case Revoking(lease) => Commit(s, s.(capabilities := Revoke(s.capabilities, lease)))
    case Accepting(t, run, station, v, accepted, deepening, now, e) =>
      After(s, Accept(s, t, run, station, v, accepted, deepening, now, e))
    case Stalling(t, v, e) => After(s, StallCheckpoint(s, t, v, e))
    case Starting(e, run, digest, prior) => After(s, StartCheckpoint(s, e, run, digest, prior))
    case Reserving(e, lease, k, role, token) => After(s, ReserveDelegate(s, e, lease, k, role, token))
    case Recording(e, k, exit, output, complete) => After(s, RecordDelegate(s, e, k, exit, output, complete))
    case Finishing(report, digest) => After(s, FinishCheckpoint(s, report, digest))
    case Failing(t, lease, known, infra, now) => Commit(s, ParkFailed(s, t, lease, known, infra, now))
    case Orphaning(orphan, now) => Commit(s, ParkOrphan(s, orphan, now))
    case Resetting(request, r) => After(s, ResetAllowance(s, request, r))
    case Retrying(request, r) => After(s, RetryCheckpoint(s, request, r))
    case Intending(request, p, bundle) => After(s, DecisionIntent(s, request, p, bundle))
    case Committing(request, receipt) => After(s, CommitDecision(s, request, receipt))
  }

  /** The transaction of each operation. */
  lemma ApplyIs(s: State, op: Op)
    requires hide *; true
    requires |s.seats| == MAX_STATIONS
    ensures match op
            case Reconciling(now) => Apply(s, op) == Commit(s, Reconcile(s, now))
            case Claiming(station, now, uuid) => Apply(s, op) == After(s, Claim(s, station, now, uuid))
            case Finalizing(station, lease, now, pacing, retry) =>
              Apply(s, op) == After(s, Finalize(s, station, lease, now, pacing, retry))
            case Confirming(station, lease) => Apply(s, op) == After(s, ConfirmLaunch(s, station, lease))
            case Compacting => Apply(s, op) == Commit(s, Compact(s))
            case Reordering(order, expected, now) => Apply(s, op) == After(s, Reorder(s, order, expected, now))
            case Scaling(active, policy, now) => Apply(s, op) == After(s, UpdateStations(s, active, policy, now))
            case Editing(items, paused, stopping) =>
              Apply(s, op) == Commit(s, s.(items := items, paused := paused, stopping := stopping))
            case Issuing(token, topic, lease, uid) =>
              Apply(s, op) == After(s, IssueCapability(s, token, topic, lease, uid))
            case Revoking(lease) => Apply(s, op) == Commit(s, s.(capabilities := Revoke(s.capabilities, lease)))
            case Accepting(t, run, station, v, accepted, deepening, now, e) =>
              Apply(s, op) == After(s, Accept(s, t, run, station, v, accepted, deepening, now, e))
            case Stalling(t, v, e) => Apply(s, op) == After(s, StallCheckpoint(s, t, v, e))
            case Starting(e, run, digest, prior) => Apply(s, op) == After(s, StartCheckpoint(s, e, run, digest, prior))
            case Reserving(e, lease, k, role, token) =>
              Apply(s, op) == After(s, ReserveDelegate(s, e, lease, k, role, token))
            case Recording(e, k, exit, output, complete) =>
              Apply(s, op) == After(s, RecordDelegate(s, e, k, exit, output, complete))
            case Finishing(report, digest) => Apply(s, op) == After(s, FinishCheckpoint(s, report, digest))
            case Failing(t, lease, known, infra, now) =>
              Apply(s, op) == Commit(s, ParkFailed(s, t, lease, known, infra, now))
            case Orphaning(orphan, now) => Apply(s, op) == Commit(s, ParkOrphan(s, orphan, now))
            case Resetting(request, r) => Apply(s, op) == After(s, ResetAllowance(s, request, r))
            case Retrying(request, r) => Apply(s, op) == After(s, RetryCheckpoint(s, request, r))
            case Intending(request, p, bundle) => Apply(s, op) == After(s, DecisionIntent(s, request, p, bundle))
            case Committing(request, receipt) => Apply(s, op) == After(s, CommitDecision(s, request, receipt))
  {
    hide After, Commit, Reconcile, Claim, Finalize, ConfirmLaunch, Compact, Reorder, UpdateStations, IssueCapability,
      Revoke, Accept, StallCheckpoint, StartCheckpoint, ReserveDelegate, RecordDelegate, FinishCheckpoint, ParkFailed,
      ParkOrphan, ResetAllowance, RetryCheckpoint, DecisionIntent, CommitDecision;
  }

  /** What callers keep to. Claims come later and later and with new ids; a completion is reported for its own lease's
      topic and station; new episodes have new ids; a checkpoint is started, finished or failed by the lease that serves
      it, once; an orphan is parked while its lease sits on its station. */
  predicate Allowed(s: State, op: Op) {
    match op
    case Claiming(_, now, uuid) =>
      now > s.history.clock && uuid !in s.history.minted && (s.intake.Some? ==> s.intake.value.id != uuid)
    case Accepting(t, run, station, _, _, _, _, e) =>
      run in s.history.minted && s.history.minted[run].topic == t && s.history.minted[run].station == station
        && e !in s.episodes
    case Stalling(_, _, e) => e !in s.episodes
    case Starting(e, run, digest, prior) =>
      e in s.episodes ==> Serving(s, run, s.episodes[e].topic) && OffersPrior(s, s.episodes[e].topic, digest, prior)
    case Finishing(r, _) => r.episode in s.episodes ==> Serving(s, r.run, s.episodes[r.episode].topic)
    case Failing(t, lease, known, _, _) =>
      Serving(s, lease, t) && (known.Some? ==> t in s.topics && s.topics[t].active == known)
    case Orphaning(orphan, _) => SitsAt(s, orphan) && s.seats[orphan.station - 1].current == Some(orphan)
    case _ => true
  }

  ghost predicate Good(s: State) { LedgerGood(s) && ReviewGood(s) }

  lemma GoodParts(s: State)
    requires Good(s)
    ensures LedgerGood(s) && ReviewGood(s)
  {
    hide LedgerGood, ReviewGood;
  }

  lemma GoodWhole(s: State)
    requires LedgerGood(s) && ReviewGood(s)
    ensures Good(s)
  {
    hide LedgerGood, ReviewGood;
  }

  /** What callers keep to, case by case. */
  lemma AllowedIs(s: State, op: Op)
    requires Allowed(s, op)
    ensures match op
            case Claiming(_, now, uuid) =>
              now > s.history.clock && uuid !in s.history.minted && (s.intake.Some? ==> s.intake.value.id != uuid)
            case Accepting(t, run, station, _, _, _, _, e) =>
              run in s.history.minted && s.history.minted[run].topic == t && s.history.minted[run].station == station
                && e !in s.episodes
            case Stalling(_, _, e) => e !in s.episodes
            case Starting(e, run, digest, prior) =>
              e in s.episodes ==>
                Serving(s, run, s.episodes[e].topic) && OffersPrior(s, s.episodes[e].topic, digest, prior)
            case Finishing(r, _) => r.episode in s.episodes ==> Serving(s, r.run, s.episodes[r.episode].topic)
            case Failing(t, lease, known, _, _) =>
              Serving(s, lease, t) && (known.Some? ==> t in s.topics && s.topics[t].active == known)
            case Orphaning(orphan, _) => SitsAt(s, orphan) && s.seats[orphan.station - 1].current == Some(orphan)
            case _ => true
  {
    hide Serving, OffersPrior;
  }

  lemma GoodSeats(s: State)
    requires LedgerGood(s)
    ensures |s.seats| == MAX_STATIONS
  {
    assert |Leases(s.seats)| == |s.seats|;
  }

  lemma CommitKeepsLedger(s: State, t: State)
    requires LedgerGood(t)
    ensures LedgerGood(Commit(s, t))
  {
    hide LedgerGood;
    LedgerFrame(t, Commit(s, t));
  }

  lemma CommitIsQuiet(s: State, t: State)
    ensures QuietStep(t, Commit(s, t))
  {
    CommitFrame(s, t);
    hide *;
    RevisionIsQuiet(t, Commit(s, t).revision);
  }

  lemma CommitFrame(s: State, t: State)
    ensures Commit(s, t) == t.(revision := Commit(s, t).revision)
  {
  }

  lemma RevisionIsQuiet(t: State, n: nat)
    ensures QuietStep(t, t.(revision := n))
  {
    hide Mentions;
  }

  lemma CommitKeepsReview(s: State, t: State)
    requires ReviewGood(t)
    ensures ReviewGood(Commit(s, t))
  {
    CommitIsQuiet(s, t);
    hide *;
    QuietKeeps(t, Commit(s, t));
  }

  lemma AfterIs<T>(s: State, o: Outcome<T>)
    ensures After(s, o) == if o.Done? then Commit(s, o.state) else s
  {
    hide Commit;
  }

  lemma AfterKeepsGood<T>(s: State, o: Outcome<T>)
    requires hide *; true
    requires Good(s) && (o.Done? ==> LedgerGood(o.state) && ReviewGood(o.state))
    ensures Good(After(s, o))
  {
    hide *;
    GoodParts(s);
    AfterKeepsLedger(s, o);
    AfterKeepsReview(s, o);
    GoodWhole(After(s, o));
  }

  lemma AfterKeepsLedger<T>(s: State, o: Outcome<T>)
    requires LedgerGood(s) && (o.Done? ==> LedgerGood(o.state))
    ensures LedgerGood(After(s, o))
  {
    AfterIs(s, o);
    hide *;
    if o.Done? { CommitKeepsLedger(s, o.state); }
  }

  lemma AfterKeepsReview<T>(s: State, o: Outcome<T>)
    requires hide *; true
    requires ReviewGood(s) && (o.Done? ==> ReviewGood(o.state))
    ensures ReviewGood(After(s, o))
  {
    AfterIs(s, o);
    hide *;
    if o.Done? { CommitKeepsReview(s, o.state); }
  }

  // ---------- Scheduling transactions ----------

  lemma QueueKeepsLedger(s: State, t: State)
    requires LedgerGood(s) && t == s.(items := t.items, paused := t.paused, stopping := t.stopping,
               queueRevision := t.queueRevision, active := t.active, capabilities := t.capabilities)
    ensures LedgerGood(t)
  {
  }

  lemma QueueKeepsReviews(s: State, t: State)
    requires ReviewGood(s) && t == s.(items := t.items, paused := t.paused, stopping := t.stopping,
               queueRevision := t.queueRevision, active := t.active, capabilities := t.capabilities)
    ensures ReviewGood(t)
  {
  }

  lemma IssueKeepsReviews(s: State, token: Token, topic: TopicId, lease: RunId, uid: nat)
    requires hide *; true
    requires ReviewGood(s)
    ensures var o := IssueCapability(s, token, topic, lease, uid); o.Done? ==> ReviewGood(o.state)
  {
    hide ReviewGood;
    var o := IssueCapability(s, token, topic, lease, uid);
    if o.Done? { QueueKeepsReviews(s, o.state); }
  }

  /** Dealing again after a queue change. */
  lemma QueueThenReconcile(s: State, t: State, now: Time)
    requires Good(s) && t == s.(items := t.items, queueRevision := t.queueRevision, active := t.active)
    ensures Good(Reconcile(t, now))
  {
    hide *;
    GoodParts(s);
    QueueKeepsLedger(s, t);
    QueueKeepsReviews(s, t);
    ReconcileKeepsLedger(t, now);
    ReconcileKeepsReviews(t, now);
    GoodWhole(Reconcile(t, now));
  }

  lemma ReorderIsReconcile(s: State, order: seq<TopicId>, expected: nat, now: Time) returns (items: seq<Item>)
    requires Reorder(s, order, expected, now).Done?
    ensures Reorder(s, order, expected, now).state ==
            Reconcile(s.(items := items, queueRevision := s.queueRevision + 1), now)
  {
    hide Reconcile;
    forall id | id in order ensures ItemNamed(s.items, id).Some? {
      assert id in Elements(order);
      NamedExists(s.items, id);
    }
    items := Rearranged(s.items, order);
  }

  lemma ReorderKeepsGood(s: State, order: seq<TopicId>, expected: nat, now: Time)
    requires hide *; true
    requires Good(s) && Reorder(s, order, expected, now).Done?
    ensures Good(Reorder(s, order, expected, now).state)
  {
    hide *;
    var items := ReorderIsReconcile(s, order, expected, now);
    QueueThenReconcile(s, s.(items := items, queueRevision := s.queueRevision + 1), now);
  }

  // ---------- One transaction ----------

  lemma CommitKeepsGood(s: State, t: State)
    requires Good(t)
    ensures Good(Commit(s, t))
  {
    hide *;
    GoodParts(t);
    CommitKeepsLedger(s, t);
    CommitKeepsReview(s, t);
    GoodWhole(Commit(s, t));
  }

  lemma ReconcilingKeepsGood(s: State, now: Time)
    requires Good(s)
    ensures Good(Commit(s, Reconcile(s, now)))
  {
    hide *;
    QueueThenReconcile(s, s, now);
    CommitKeepsGood(s, Reconcile(s, now));
  }

  lemma CompactingKeepsGood(s: State)
    requires Good(s)
    ensures Good(Commit(s, Compact(s)))
  {
    hide *;
    GoodParts(s);
    CompactKeepsLedger(s);
    CompactKeepsReviews(s);
    GoodWhole(Compact(s));
    CommitKeepsGood(s, Compact(s));
  }

  lemma PolicyKeepsGood(s: State, active: Option<nat>, policy: Option<Policy>)
    requires Good(s)
    ensures Good(Configured(s, active, policy))
  {
  }

  lemma ScalingKeepsGood(s: State, active: Option<nat>, policy: Option<Policy>, now: Time)
    requires Good(s)
    ensures Good(After(s, UpdateStations(s, active, policy, now)))
  {
    var t := Configured(s, active, policy);
    ScalingIs(s, active, policy, now);
    hide *;
    PolicyKeepsGood(s, active, policy);
    GoodParts(t);
    ReconcileKeepsLedger(t, now);
    ReconcileKeepsReviews(t, now);
    GoodWhole(Reconcile(t, now));
    AfterKeepsGood(s, UpdateStations(s, active, policy, now));
  }

  lemma ScalingIs(s: State, active: Option<nat>, policy: Option<Policy>, now: Time)
    ensures var o := UpdateStations(s, active, policy, now);
            o.Done? ==> o.state == Reconcile(Configured(s, active, policy), now)
  {
    hide Reconcile;
  }

  lemma ReorderingKeepsGood(s: State, order: seq<TopicId>, expected: nat, now: Time)
    requires Good(s)
    ensures Good(After(s, Reorder(s, order, expected, now)))
  {
    hide *;
    var o := Reorder(s, order, expected, now);
    if o.Done? {
      ReorderKeepsGood(s, order, expected, now);
      GoodParts(o.state);
    }
    AfterKeepsGood(s, o);
  }

  lemma AsideCommit(s: State, t: State)
    requires Aside(s, t)
    ensures Aside(s, Commit(s, t))
  {
  }

  lemma AsideAfter<T>(s: State, o: Outcome<T>)
    requires o.Done? ==> Aside(s, o.state)
    ensures Aside(s, After(s, o))
  {
    if o.Done? { AsideCommit(s, o.state); } else { EpisodesAside(s, s.episodes); }
  }

  predicate LeavesLedger(op: Op) {
    op.Issuing? || op.Stalling? || op.Starting? || op.Reserving? || op.Recording? || op.Finishing? || op.Failing?
    || op.Resetting? || op.Retrying? || op.Intending? || op.Committing?
  }

  /** Reviews, decisions and capabilities leave the ledger aside. */
  lemma ReviewAside(s: State, op: Op)
    requires hide *; true
    requires |s.seats| == MAX_STATIONS && LeavesLedger(op)
    ensures Aside(s, Apply(s, op))
  {
    hide *;
    ApplyIs(s, op);
    LeavesIs(op);
    match op
    case Issuing(token, topic, lease, uid) =>
      IssueAside(s, token, topic, lease, uid); AsideAfter(s, IssueCapability(s, token, topic, lease, uid));
    case Stalling(t, v, e) => StallAside(s, t, v, e); AsideAfter(s, StallCheckpoint(s, t, v, e));
    case Starting(e, run, digest, prior) =>
      StartAside(s, e, run, digest, prior); AsideAfter(s, StartCheckpoint(s, e, run, digest, prior));
    case Reserving(e, lease, k, role, token) =>
      ReserveAside(s, e, lease, k, role, token); AsideAfter(s, ReserveDelegate(s, e, lease, k, role, token));
    case Recording(e, k, exit, output, complete) =>
      RecordAside(s, e, k, exit, output, complete); AsideAfter(s, RecordDelegate(s, e, k, exit, output, complete));
    case Finishing(r, digest) => FinishAside(s, r, digest); AsideAfter(s, FinishCheckpoint(s, r, digest));
    case Failing(t, lease, known, infra, now) =>
      FailAside(s, t, lease, known, infra, now); AsideCommit(s, ParkFailed(s, t, lease, known, infra, now));
    case Resetting(request, r) => ResetAside(s, request, r); AsideAfter(s, ResetAllowance(s, request, r));
    case Retrying(request, r) => RetryAside(s, request, r); AsideAfter(s, RetryCheckpoint(s, request, r));
    case Intending(request, p, bundle) =>
      IntentAside(s, request, p, bundle); AsideAfter(s, DecisionIntent(s, request, p, bundle));
    case Committing(request, receipt) =>
      CommitAside(s, request, receipt); AsideAfter(s, CommitDecision(s, request, receipt));
    case _ =>
  }

  lemma LeavesIs(op: Op)
    requires LeavesLedger(op)
    ensures op.Issuing? || op.Stalling? || op.Starting? || op.Reserving? || op.Recording? || op.Finishing?
            || op.Failing? || op.Resetting? || op.Retrying? || op.Intending? || op.Committing?
  {
  }

  lemma AcceptKeepsGood(s: State, t: TopicId, run: RunId, station: nat, v: Version, accepted: bool, deepening: bool,
                        now: Time, e: EpisodeId)
    requires hide *; true
    requires Good(s) && run in s.history.minted && s.history.minted[run].topic == t
             && s.history.minted[run].station == station
    requires e !in s.episodes
    ensures Good(After(s, Accept(s, t, run, station, v, accepted, deepening, now, e)))
  {
    hide *;
    GoodParts(s);
    AcceptKeepsLedger(s, t, run, station, v, accepted, deepening, now, e);
    AcceptKeepsReviews(s, t, run, station, v, accepted, deepening, now, e);
    AfterKeepsGood(s, Accept(s, t, run, station, v, accepted, deepening, now, e));
  }

  /** A seated lease names its own station. */
  lemma SeatedStation(s: State, k: nat)
    requires LedgerGood(s) && k < |s.seats| && s.seats[k].current.Some?
    ensures s.seats[k].current.value.station == k + 1
  {
    assert Leases(s.seats)[k] == s.seats[k].current;
    assert LeaseRecorded(Leases(s.seats), Generations(s.seats), s.history.minted, k);
  }

  lemma FailKeepsReview(s: State, t: TopicId, lease: RunId, known: Option<EpisodeId>, infra: bool, now: Time)
    requires hide *; true
    requires Good(s) && Serving(s, lease, t) && (known.Some? ==> t in s.topics && s.topics[t].active == known)
    ensures ReviewGood(Commit(s, ParkFailed(s, t, lease, known, infra, now)))
  {
    hide *;
    GoodParts(s);
    ParkFailedKeepsReviews(s, t, lease, known, infra, now);
    CommitKeepsReview(s, ParkFailed(s, t, lease, known, infra, now));
  }

  lemma OrphanKeepsGood(s: State, orphan: Lease, now: Time)
    requires hide Good, ParkOrphan; true
    requires Good(s) && SitsAt(s, orphan) && s.seats[orphan.station - 1].current == Some(orphan)
    ensures Good(Commit(s, ParkOrphan(s, orphan, now)))
  {
    SeatIs(s, orphan);
    hide *;
    GoodParts(s);
    SeatedStation(s, orphan.station - 1);
    OrphanKeepsLedger(s, orphan.station - 1, now);
    OrphanKeepsReviews(s, orphan.station - 1, now);
    GoodWhole(ParkOrphan(s, orphan, now));
    CommitKeepsGood(s, ParkOrphan(s, orphan, now));
  }

  lemma SeatIs(s: State, orphan: Lease)
    requires SitsAt(s, orphan)
    ensures 1 <= orphan.station <= |s.seats|
  {
  }

  lemma LedgerStep(s: State, op: Op)
    requires hide *; true
    requires Good(s) && |s.seats| == MAX_STATIONS && LeavesLedger(op)
    ensures LedgerGood(Apply(s, op))
  {
    hide *;
    GoodParts(s);
    ReviewAside(s, op);
    AsideKeepsLedger(s, Apply(s, op));
  }

  /** The transactions of the review service, of the operator, and about capabilities keep what reviews promise. */
  lemma ReviewStep(s: State, op: Op)
    requires hide *; true
    requires Good(s) && |s.seats| == MAX_STATIONS && Allowed(s, op) && LeavesLedger(op)
    ensures ReviewGood(Apply(s, op))
  {
    hide *;
    ApplyIs(s, op);
    AllowedIs(s, op);
    LeavesIs(op);
    GoodParts(s);
    match op
    case Issuing(token, topic, lease, uid) =>
      IssueKeepsReviews(s, token, topic, lease, uid); AfterKeepsReview(s, IssueCapability(s, token, topic, lease, uid));
    case Stalling(t, v, e) => StallKeepsReviews(s, t, v, e); AfterKeepsReview(s, StallCheckpoint(s, t, v, e));
    case Starting(e, run, digest, prior) =>
      StartKeepsReviews(s, e, run, digest, prior); AfterKeepsReview(s, StartCheckpoint(s, e, run, digest, prior));
    case Reserving(e, lease, k, role, token) =>
      ReserveKeepsReviews(s, e, lease, k, role, token);
      AfterKeepsReview(s, ReserveDelegate(s, e, lease, k, role, token));
    case Recording(e, k, exit, output, complete) =>
      RecordKeepsReviews(s, e, k, exit, output, complete);
      AfterKeepsReview(s, RecordDelegate(s, e, k, exit, output, complete));
    case Finishing(r, digest) => FinishKeepsReviews(s, r, digest); AfterKeepsReview(s, FinishCheckpoint(s, r, digest));
    case Failing(t, lease, known, infra, now) => FailKeepsReview(s, t, lease, known, infra, now);
    case Resetting(request, r) => ResetKeepsReviews(s, request, r); AfterKeepsReview(s, ResetAllowance(s, request, r));
    case Retrying(request, r) => RetryKeepsReviews(s, request, r); AfterKeepsReview(s, RetryCheckpoint(s, request, r));
    case Intending(request, p, bundle) =>
      IntentKeepsReviews(s, request, p, bundle); AfterKeepsReview(s, DecisionIntent(s, request, p, bundle));
    case Committing(request, receipt) =>
      CommitKeepsReviews(s, request, receipt); AfterKeepsReview(s, CommitDecision(s, request, receipt));
    case _ =>
  }

  lemma ClaimKeepsGood(s: State, station: nat, now: Time, uuid: RunId)
    requires hide *; true
    requires Good(s) && |s.seats| == MAX_STATIONS && now > s.history.clock && uuid !in s.history.minted
             && (s.intake.Some? ==> s.intake.value.id != uuid)
    ensures Good(After(s, Claim(s, station, now, uuid)))
  {
    hide *;
    GoodParts(s);
    ClaimKeepsLedger(s, station, now, uuid);
    ClaimKeepsReviews(s, station, now, uuid);
    AfterKeepsGood(s, Claim(s, station, now, uuid));
  }

  lemma FinalizeKeepsGood(s: State, station: nat, lease: RunId, now: Time, pacing: Option<Time>, retry: Option<Time>)
    requires hide *; true
    requires Good(s) && |s.seats| == MAX_STATIONS
    ensures Good(After(s, Finalize(s, station, lease, now, pacing, retry)))
  {
    hide *;
    GoodParts(s);
    FinalizeKeepsLedger(s, station, lease, now, pacing, retry);
    FinalizeKeepsReviews(s, station, lease, now, pacing, retry);
    AfterKeepsGood(s, Finalize(s, station, lease, now, pacing, retry));
  }

  lemma ConfirmKeepsGood(s: State, station: nat, lease: RunId)
    requires hide *; true
    requires Good(s) && |s.seats| == MAX_STATIONS
    ensures Good(After(s, ConfirmLaunch(s, station, lease)))
  {
    hide *;
    GoodParts(s);
    ConfirmKeepsLedger(s, station, lease);
    ConfirmKeepsReviews(s, station, lease);
    AfterKeepsGood(s, ConfirmLaunch(s, station, lease));
  }

  lemma EditKeepsGood(s: State, t: State)
    requires Good(s) && t == s.(items := t.items, paused := t.paused, stopping := t.stopping,
               queueRevision := t.queueRevision, active := t.active, capabilities := t.capabilities)
    ensures Good(Commit(s, t))
  {
    hide *;
    GoodParts(s);
    QueueKeepsLedger(s, t);
    QueueKeepsReviews(s, t);
    GoodWhole(t);
    CommitKeepsGood(s, t);
  }

  /** Every transaction keeps every invariant. */
  lemma StepKeepsGood(s: State, op: Op)
    requires hide *; true
    requires Good(s) && |s.seats| == MAX_STATIONS && Allowed(s, op)
    ensures Good(Apply(s, op))
  {
    hide *;
    ApplyIs(s, op);
    AllowedIs(s, op);
    match op
    case Reconciling(now) => ReconcilingKeepsGood(s, now);
    case Claiming(station, now, uuid) => ClaimKeepsGood(s, station, now, uuid);
    case Finalizing(station, lease, now, pacing, retry) => FinalizeKeepsGood(s, station, lease, now, pacing, retry);
    case Confirming(station, lease) => ConfirmKeepsGood(s, station, lease);
    case Compacting => CompactingKeepsGood(s);
    case Reordering(order, expected, now) => ReorderingKeepsGood(s, order, expected, now);
    case Scaling(active, policy, now) => ScalingKeepsGood(s, active, policy, now);
    case Editing(items, paused, stopping) =>
      EditKeepsGood(s, s.(items := items, paused := paused, stopping := stopping));
    case Revoking(lease) => EditKeepsGood(s, s.(capabilities := Revoke(s.capabilities, lease)));
    case Accepting(t, run, station, v, accepted, deepening, now, e) =>
      AcceptKeepsGood(s, t, run, station, v, accepted, deepening, now, e);
    case Orphaning(orphan, now) => OrphanKeepsGood(s, orphan, now);
    case _ =>
      LeavesOthers(op);
      LedgerStep(s, op);
      ReviewStep(s, op);
      GoodWhole(Apply(s, op));
  }

  lemma LeavesOthers(op: Op)
    requires !op.Reconciling? && !op.Claiming? && !op.Finalizing? && !op.Confirming? && !op.Compacting?
             && !op.Reordering? && !op.Scaling? && !op.Editing? && !op.Revoking? && !op.Accepting? && !op.Orphaning?
    ensures LeavesLedger(op)
  {
  }

  // ---------- Runs ----------

  /** Nothing has happened yet: no lease, no run, no topic record; queue, first policy and pause flags are arbitrary. */
  predicate Initial(s: State) {
    && s.seats == [BlankSeat, BlankSeat, BlankSeat, BlankSeat, BlankSeat] && s.intake.None?
    && s.topics == map[] && s.runs == map[] && s.pruned == map[] && s.capabilities == map[] && s.triggers == map[]
    && s.episodes == map[] && s.proposals == map[] && s.decisions == map[] && s.intents == map[]
    && s.history == History(map[], s.history.clock, [], {}, map[], true, {})
  }

  lemma InitialGood(s: State)
    requires Initial(s)
    ensures Good(s)
  {
    assert forall t :: MintedFor(s.history.minted, t) == {} && RunsFor(s.runs, t) == {};
    assert forall t :: CadenceTriggers(s.triggers, t) == {};
  }

  /** A run: states joined by allowed transactions, from an initial state. */
  ghost predicate Execution(states: seq<State>, ops: seq<Op>) {
    && |states| == |ops| + 1 && Initial(states[0])
    && (forall i | 0 <= i < |ops| ::
         |states[i].seats| == MAX_STATIONS && Allowed(states[i], ops[i]) && states[i + 1] == Apply(states[i], ops[i]))
  }

  lemma RunShape(states: seq<State>, ops: seq<Op>, i: nat)
    requires hide *; true
    requires Execution(states, ops) && i < |states|
    ensures |states| == |ops| + 1 && Initial(states[0])
    ensures i > 0 ==>
              && |states[i - 1].seats| == MAX_STATIONS && Allowed(states[i - 1], ops[i - 1])
              && states[i] == Apply(states[i - 1], ops[i - 1])
  {
    hide Apply, Allowed, Initial;
  }

  /** Every state of every run satisfies every invariant. */
  lemma {:induction false} RunSafe(states: seq<State>, ops: seq<Op>, i: nat)
    requires hide *; true
    requires Execution(states, ops) && i < |states|
    ensures Good(states[i]) && |states[i].seats| == MAX_STATIONS
    decreases i
  {
    hide *;
    RunShape(states, ops, i);
    if i == 0 {
      InitialGood(states[0]);
    } else {
      RunSafe(states, ops, i - 1);
      StepKeepsGood(states[i - 1], ops[i - 1]);
    }
    GoodParts(states[i]);
    GoodSeats(states[i]);
  }
}
