/** The controller at work: every transaction on the store is a step of a run, so the store stays valid and what is
    proved of runs holds of it. */
module Controller {
  import opened Common
  import opened ControlRecords
  import opened Scheduler
  import opened Checkpoints
  import opened ControlStore
  import opened Runs
  import CheckpointService

  ghost predicate Valid(c: Store)
    reads c
  {
    Good(c.View())
  }

  lemma ValidSeats(c: Store)
    requires hide *; true
    requires Valid(c)
    ensures |c.seats| == MAX_STATIONS
  {
    hide Good;
    StoreParts(c);
    GoodParts(c.View());
    hide *;
    GoodSeats(c.View());
  }

  /** A new store is valid. */
  method Open(policy: Policy, stations: nat) returns (c: Store)
    requires hide *; true
    requires stations <= MAX_STATIONS
    ensures fresh(c) && Valid(c) && Initial(c.View())
  {
    hide Good;
    c := new Store(policy, stations);
    InitialGood(c.View());
  }

  method CompactTransaction(c: Store)
    modifies c
    ensures c.View() == Commit(old(c.View()), Compact(old(c.View())))
  {
    var before := c.View();
    c.CompactLedger();
    c.Save(before);
  }

  /** Any other queue transaction. */
  method EditQueue(c: Store, items: seq<Item>, paused: bool, stopping: bool)
    modifies c
    ensures c.View() == Commit(old(c.View()), old(c.View()).(items := items, paused := paused, stopping := stopping))
  {
    hide Commit;
    var before := c.View();
    c.items, c.paused, c.stopping := items, paused, stopping;
    c.Save(before);
  }

  lemma StoreParts(c: Store)
    ensures c.View().seats == c.seats && c.View().capabilities == c.capabilities && c.View().episodes == c.episodes
  {
  }

  lemma StartAllowed(s: State, op: Op, prior: Option<EpisodeId>)
    requires Allowed(s, op) && op.Starting?
    requires op.episode in s.episodes ==> OffersPrior(s, s.episodes[op.episode].topic, op.digest, prior)
    ensures Allowed(s, op.(prior := prior))
  {
    hide OffersPrior;
  }

  /** One transaction. A checkpoint that starts picks the review it offers for reuse itself. */
  method Dispatch(c: Store, op: Op) returns (ghost did: Op)
    requires hide Apply; true
    requires |c.seats| == MAX_STATIONS && Allowed(c.View(), op)
    modifies c
    ensures |old(c.seats)| == MAX_STATIONS && Allowed(old(c.View()), did) && c.View() == Apply(old(c.View()), did)
    ensures if op.Starting? then did.Starting? && did.(prior := op.prior) == op else did == op
  {
    hide *;
    StoreParts(c);
    did := op;
    ghost var s := c.View();
    ApplyIs(s, op);
    match op {
      case Reconciling(now) => c.ReconcileTransaction(now);
      case Claiming(station, now, uuid) => var _ := c.Claim(station, now, uuid);
      case Finalizing(station, lease, now, pacing, retry) => var _ := c.Finalize(station, lease, now, pacing, retry);
      case Confirming(station, lease) => var _ := c.ConfirmLaunch(station, lease);
      case Compacting => CompactTransaction(c);
      case Reordering(order, expected, now) => var _ := c.Reorder(order, expected, now);
      case Scaling(active, policy, now) => var _ := c.UpdateStations(active, policy, now);
      case Editing(items, paused, stopping) => EditQueue(c, items, paused, stopping);
      case Issuing(token, topic, lease, uid) => var _ := c.IssueCapability(token, topic, lease, uid);
      case Revoking(lease) => c.RevokeLease(lease);
      case Accepting(t, run, station, v, accepted, deepening, now, e) =>
        var _ := CheckpointService.AcceptResearchCompletion(c, t, run, station, v, accepted, deepening, now, e);
      case Stalling(t, v, e) => var _ := CheckpointService.TriggerStallCheckpoint(c, t, v, e);
      case Starting(e, run, digest, _) =>
        var _, offered := CheckpointService.BeginCheckpoint(c, e, run, digest);
        did := op.(prior := offered);
        StartAllowed(s, op, offered);
        ApplyIs(s, did);
      case Reserving(e, lease, k, role, token) => var _ := CheckpointService.ReserveLaunch(c, e, lease, k, role, token);
      case Recording(e, k, exit, output, complete) =>
        var _ := CheckpointService.RecordResult(c, e, k, exit, output, complete);
      case Finishing(r, digest) => var _ := CheckpointService.FinishCheckpoint(c, r, digest);
      case Failing(t, lease, known, infra, now) => CheckpointService.ParkFailed(c, t, lease, known, infra, now);
      case Orphaning(orphan, now) => CheckpointService.ParkOrphan(c, orphan, now);
      case Resetting(request, r) => var _ := CheckpointService.ResetAllowance(c, request, r);
      case Retrying(request, r) => var _ := CheckpointService.RetryCheckpoint(c, request, r);
      case Intending(request, p, bundle) => var _ := CheckpointService.RecordIntent(c, request, p, bundle);
      case Committing(request, receipt) => var _ := CheckpointService.CommitDecision(c, request, receipt);
    }
  }

  /** Any transaction, called as its callers keep to, is one step of a run and keeps the store valid. */
  method Perform(c: Store, op: Op) returns (ghost did: Op)
    requires hide Apply, Valid; true
    requires Valid(c) && Allowed(c.View(), op)
    modifies c
    ensures |old(c.seats)| == MAX_STATIONS && Allowed(old(c.View()), did) && c.View() == Apply(old(c.View()), did)
    ensures if op.Starting? then did.Starting? && did.(prior := op.prior) == op else did == op
    ensures Valid(c)
  {
    hide Apply, Good;
    ghost var before := c.View();
    ValidSeats(c);
    did := Dispatch(c, op);
    StepKeepsGood(before, did);
  }
}
