/** Research accounting, checkpoint episodes and operator decisions as they run on the store. */
module CheckpointService {
  import opened Common
  import opened ControlRecords
  import opened Scheduler
  import opened Checkpoints
  import opened ControlStore

  // ---------- Triggers ----------

  lemma AppendNext(r: seq<TriggerKey>, keys: seq<TriggerKey>, i: nat)
    requires i < |keys|
    ensures AppendNew(r, keys[i..]) == AppendNew(if keys[i] in r then r else r + [keys[i]], keys[i + 1..])
  {
    assert keys[i..][1..] == keys[i + 1..];
  }

  /** Appends the keys an episode does not list yet. */
  method AppendKeys(listed: seq<TriggerKey>, keys: seq<TriggerKey>) returns (r: seq<TriggerKey>)
    ensures r == AppendNew(listed, keys)
  {
    r := listed;
    for i := 0 to |keys|
      invariant AppendNew(listed, keys) == AppendNew(r, keys[i..])
    {
      AppendNext(r, keys, i);
      if keys[i] !in r { r := r + [keys[i]]; }
    }
    assert keys[|keys|..] == [];
  }

  /** New triggers go to the topic's open episode, or open one. */
  method Coalesce(c: Store, t: TopicId, keys: seq<TriggerKey>, uuid: EpisodeId) returns (e: EpisodeId)
    requires t in c.topics && keys != []
    modifies c`topics, c`episodes
    ensures e == TargetEpisode(old(c.topics), old(c.episodes), t, uuid)
    ensures c.topics == TrippedTopics(old(c.topics), old(c.episodes), t, keys, uuid)
    ensures c.episodes == TrippedEpisodes(old(c.topics), old(c.episodes), t, keys, uuid)
  {
    var active := c.topics[t].active;
    if active.Some? && active.value in c.episodes && Open(c.episodes[active.value].state) {
      e := active.value;
      var listed := AppendKeys(c.episodes[e].triggers, keys);
      c.episodes := c.episodes[e := c.episodes[e].(triggers := listed)];
    } else {
      e := uuid;
      c.episodes := c.episodes[uuid := NewEpisode(t, c.topics[t], keys)];
      c.topics := c.topics[t := c.topics[t].(active := Some(uuid), review := CheckpointDue)];
    }
  }

  /** Records each trigger once and points it at the episode. */
  method PointTriggers(c: Store, keys: seq<TriggerKey>, e: EpisodeId)
    modifies c`triggers
    ensures c.triggers == AssignTriggers(old(c.triggers), keys, e)
  {
    for i := 0 to |keys|
      invariant c.triggers == AssignTriggers(old(c.triggers), keys[..i], e)
    {
      AssignNext(old(c.triggers), keys, i, e);
      var key := keys[i];
      var trigger := if key in c.triggers then c.triggers[key] else Trigger(None, false);
      c.triggers := c.triggers[key := trigger.(episode := Some(e))];
    }
    Whole(keys);
  }

  lemma AssignNext(triggers: map<TriggerKey, Trigger>, keys: seq<TriggerKey>, i: nat, e: EpisodeId)
    requires i < |keys|
    ensures var before, key := AssignTriggers(triggers, keys[..i], e), keys[i];
            AssignTriggers(triggers, keys[..i + 1], e) ==
              before[key := (if key in before then before[key] else Trigger(None, false)).(episode := Some(e))]
  {
    TakeNext(keys, i);
  }

  /** Sends triggers, if there are any, to the topic's review. */
  method Trip(c: Store, t: TopicId, keys: seq<TriggerKey>, uuid: EpisodeId)
    requires t in c.topics
    modifies c`topics, c`episodes, c`triggers
    ensures c.topics == TrippedTopics(old(c.topics), old(c.episodes), t, keys, uuid)
    ensures c.episodes == TrippedEpisodes(old(c.topics), old(c.episodes), t, keys, uuid)
    ensures c.triggers == TrippedTriggers(old(c.topics), old(c.episodes), old(c.triggers), t, keys, uuid)
  {
    if keys != [] {
      var e := Coalesce(c, t, keys, uuid);
      PointTriggers(c, keys, e);
    }
  }

  // ---------- Accounting ----------

  /** Accounts for one research completion. */
  method AcceptResearchCompletion(c: Store, t: TopicId, run: RunId, station: nat, v: Version, accepted: bool,
                                  deepening: bool, now: Time, uuid: EpisodeId)
    returns (r: Result<Accounting>)
    modifies c
    ensures c.View() == After(old(c.View()), Accept(old(c.View()), t, run, station, v, accepted, deepening, now, uuid))
    ensures r == ResultOf(Accept(old(c.View()), t, run, station, v, accepted, deepening, now, uuid))
  {
    hide CountRun;
    var before := c.View();
    if v == Unset { return Err(ValidationError); }
    if run in c.runs {
      if c.runs[run].topic != t { return Err(DuplicateRequest); }
      if c.runs[run].result.Some? { return Ok(c.runs[run].result.value); }
      if c.runs[run].state != Started { return Err(RevisionConflict); }
    } else if CountOr0(c.pruned, t) > 0 && LeaseOf(before, t, run).None? {
      return Err(RevisionConflict);
    }
    var a;
    if accepted {
      a := CountCompletion(c, t, run, station, v, deepening, now, uuid);
    } else {
      a := RejectCompletion(c, t, run, station, v, now);
    }
    c.Save(before);
    r := Ok(a);
  }

  /** A completion that does not count still closes its run. */
  method RejectCompletion(c: Store, t: TopicId, run: RunId, station: nat, v: Version, now: Time) returns (a: Accounting)
    modifies c`topics, c`runs
    ensures Done(c.View(), a) == RejectRun(old(c.View()), t, run, station, v, now)
  {
    var topic := TopicOr(c.topics, t, v).(inventory := v);
    c.topics := c.topics[t := topic];
    a := Accounting(t, run, false, None, topic.completed, topic.next, topic.active);
    var prior := if run in c.runs then Some(c.runs[run]) else None;
    c.runs := c.runs[run := FinishedRun(prior, t, station, now, a)];
  }

  /** The triggers an accepted completion sets off. */
  method DueTriggers(p: Policy, t: TopicId, topic: Topic, deepening: bool, v: Version) returns (keys: seq<TriggerKey>)
    ensures keys == CompletionTriggers(p, t, topic, topic.completed + 1, deepening, v)
  {
    var ordinal := topic.completed + 1;
    keys := [];
    if p.enabled {
      if p.every > 0 && ordinal % p.every == 0 { keys := keys + [TriggerKey(t, Cadence, ordinal, v)]; }
      if p.onDeepening && deepening && v !in topic.deepening { keys := keys + [TriggerKey(t, Deepening, ordinal, v)]; }
    }
  }

  /** An accepted completion moves the count and closes its run; cadence or deepening may open a review. */
  method CountCompletion(c: Store, t: TopicId, run: RunId, station: nat, v: Version, deepening: bool, now: Time,
                         uuid: EpisodeId)
    returns (a: Accounting)
    modifies c`topics, c`runs, c`triggers, c`episodes, c`history
    ensures Done(c.View(), a) == CountRun(old(c.View()), t, run, station, v, deepening, now, uuid)
  {
    hide Tallied;
    var ordinal := CountOnTopic(c, t, run, v, deepening, uuid);
    a := Accounting(t, run, true, Some(ordinal), ordinal, ordinal + 1, c.topics[t].active);
    var prior := if run in c.runs then Some(c.runs[run]) else None;
    c.runs := c.runs[run := FinishedRun(prior, t, station, now, a)];
    c.history := c.history.(counted := c.history.counted + [Count(t, run, ordinal)]);
  }

  method CountOnTopic(c: Store, t: TopicId, run: RunId, v: Version, deepening: bool, uuid: EpisodeId)
    returns (ordinal: nat)
    modifies c`topics, c`triggers, c`episodes
    ensures ordinal == TopicOr(old(c.topics), t, v).completed + 1
    ensures c.View() == Tallied(old(c.View()), t, run, v, deepening, uuid)
  {
    ghost var s := c.View();
    var topic := TopicOr(c.topics, t, v);
    ordinal := topic.completed + 1;
    var keys := DueTriggers(c.policy, t, topic, deepening, v);
    assert keys == CountedTriggers(s, t, v, deepening);
    c.topics := c.topics[t := AcceptedTopic(c.policy, topic, run, deepening, v)];
    assert c.topics == CountedTopics(s, t, run, v, deepening);
    Trip(c, t, keys, uuid);
  }

  /** Sends a stalled topic to review. */
  method TriggerStallCheckpoint(c: Store, t: TopicId, v: Version, uuid: EpisodeId) returns (r: Result<EpisodeId>)
    modifies c
    ensures c.View() == After(old(c.View()), StallCheckpoint(old(c.View()), t, v, uuid))
    ensures r == ResultOf(StallCheckpoint(old(c.View()), t, v, uuid))
  {
    var before := c.View();
    if v == Unset { return Err(ValidationError); }
    var e := StallTrips(c, t, v, uuid);
    c.Save(before);
    r := Ok(e);
  }

  method StallTrips(c: Store, t: TopicId, v: Version, uuid: EpisodeId) returns (e: EpisodeId)
    requires v != Unset
    modifies c`topics, c`triggers, c`episodes
    ensures Done(c.View(), e) == StallCheckpoint(old(c.View()), t, v, uuid)
  {
    c.topics := c.topics[t := TopicOr(c.topics, t, v).(inventory := v)];
    var key := TriggerKey(t, Stall, c.topics[t].completed, v);
    e := Coalesce(c, t, [key], uuid);
    PointTriggers(c, [key], e);
  }

  // ---------- Checkpoint runs ----------

  /** Some completed review of the topic over the same material, if there is one. */
  method FindPrior(c: Store, t: TopicId, digest: Digest) returns (prior: Option<EpisodeId>)
    ensures OffersPrior(c.View(), t, digest, prior)
  {
    var rest := c.episodes.Keys;
    while rest != {}
      invariant rest <= c.episodes.Keys && forall e | e in c.episodes && e !in rest :: !Reusable(c.View(), t, digest, e)
      decreases rest
    {
      var e :| e in rest;
      if Reusable(c.View(), t, digest, e) { return Some(e); }
      rest := rest - {e};
    }
    return None;
  }

  /** Starts a due review under a lease, offering a completed review over the same material for reuse. */
  method BeginCheckpoint(c: Store, e: EpisodeId, run: RunId, digest: Digest)
    returns (r: Result<Episode>, ghost prior: Option<EpisodeId>)
    modifies c
    ensures e in old(c.episodes) ==> OffersPrior(old(c.View()), old(c.episodes)[e].topic, digest, prior)
    ensures c.View() == After(old(c.View()), StartCheckpoint(old(c.View()), e, run, digest, prior))
    ensures r == ResultOf(StartCheckpoint(old(c.View()), e, run, digest, prior))
  {
    var before := c.View();
    prior := None;
    if e !in c.episodes { return Err(ValidationError), None; }
    var ep := c.episodes[e];
    var found := FindPrior(c, ep.topic, digest);
    prior := found;
    if ep.state == InReview && ep.run == Some(run) { return Ok(ep), prior; }
    if ep.state !in {Due, RetryWait} { return Err(NotAwaiting), prior; }
    var started := StartedEpisode(ep, run, digest, found);
    c.episodes := c.episodes[e := started];
    c.Save(before);
    r := Ok(started);
  }

  /** Spends one delegate slot of a running review, once per invocation id. */
  method ReserveLaunch(c: Store, e: EpisodeId, lease: RunId, k: InvocationId, role: Role, digest: Option<Token>)
    returns (r: Result<(Invocation, bool)>)
    modifies c
    ensures c.View() == After(old(c.View()), ReserveDelegate(old(c.View()), e, lease, k, role, digest))
    ensures r == ResultOf(ReserveDelegate(old(c.View()), e, lease, k, role, digest))
  {
    var before := c.View();
    if e !in c.episodes || c.episodes[e].state != InReview { return Err(NotAwaiting); }
    var ep := c.episodes[e];
    if ep.run != Some(lease) || !StillAuthorised(before, ep, lease, digest) { return Err(RevisionConflict); }
    if k in ep.invocations {
      return if ep.invocations[k].role != role then Err(DuplicateRequest) else Ok((ep.invocations[k], false));
    }
    var refusal := ReserveRefusal(ep, role);
    if refusal.Some? { return Err(refusal.value); }
    var next := ep.(launches := ep.launches - 1);
    if role == Response {
      next := next.(exchanges := next.exchanges - 1, phase := ResponseReserved);
    } else if role == Assessment {
      next := next.(phase := AssessmentReserved);
    }
    next := next.(invocations := next.invocations[k := Invocation(role, lease, false, 0, false, false, false)]);
    assert next == Reserved(ep, k, role, lease);
    c.episodes := c.episodes[e := next];
    c.Save(before);
    r := Ok((next.invocations[k], true));
  }

  method CloseInvocation(ep: Episode, k: InvocationId, exit: int, output: bool, complete: bool) returns (next: Episode)
    requires k in ep.invocations
    ensures next == Recorded(ep, k, exit, output, complete)
  {
    var record := ep.invocations[k].(finished := true, exit := exit, output := output, complete := complete,
      refunded := false);
    next := ep;
    if record.role == Response {
      next := next.(phase := if exit == 0 then ResponseFinished else ResponseFailed);
    } else if record.role == Assessment {
      next := next.(phase := if exit == 0 then AssessmentFinished else AssessmentFailed);
    }
    if InfraExit(exit) && ep.refunds > 0 {
      next := next.(refunds := ep.refunds - 1, launches := ep.launches + 1);
      record := record.(refunded := true);
      if record.role == Response {
        next := next.(exchanges := ep.exchanges + 1, phase := NoPhase);
      } else if record.role == Assessment {
        next := next.(phase := ResponseFinished);
      }
    }
    next := next.(invocations := next.invocations[k := record]);
  }

  /** Closes a reserved invocation; infrastructure failures give the slot back while refunds last. */
  method RecordResult(c: Store, e: EpisodeId, k: InvocationId, exit: int, output: bool, complete: bool)
    returns (r: Result<Invocation>)
    modifies c
    ensures c.View() == After(old(c.View()), RecordDelegate(old(c.View()), e, k, exit, output, complete))
    ensures r == ResultOf(RecordDelegate(old(c.View()), e, k, exit, output, complete))
  {
    var before := c.View();
    if e !in c.episodes || k !in c.episodes[e].invocations { return Err(ValidationError); }
    var ep := c.episodes[e];
    if ep.invocations[k].finished { return Ok(ep.invocations[k]); }
    var next := CloseInvocation(ep, k, exit, output, complete);
    c.episodes := c.episodes[e := next];
    c.Save(before);
    r := Ok(next.invocations[k]);
  }

  // ---------- Finishing a checkpoint ----------

  method MarkHandled(c: Store, keys: seq<TriggerKey>)
    requires forall k | k in keys :: k in c.triggers
    modifies c`triggers
    ensures c.triggers == HandleTriggers(old(c.triggers), keys)
  {
    for i := 0 to |keys|
      invariant c.triggers == HandleTriggers(old(c.triggers), keys[..i])
    {
      TakeNext(keys, i);
      c.triggers := c.triggers[keys[i] := c.triggers[keys[i]].(handled := true)];
    }
    Whole(keys);
  }

  method IssueDrafts(c: Store, e: EpisodeId, t: TopicId, ds: seq<Draft>)
    modifies c`proposals
    ensures c.proposals == IssueProposals(old(c.proposals), e, t, ds)
  {
    for i := 0 to |ds|
      invariant c.proposals == IssueProposals(old(c.proposals), e, t, ds[..i])
    {
      assert ds[..i + 1][..i] == ds[..i];
      c.proposals := c.proposals[ds[i].id := Proposal(e, t, ds[i].version, ds[i].content, true, None)];
    }
    Whole(ds);
  }

  /** Persists the report of a checkpoint run. */
  method FinishCheckpoint(c: Store, r: Report, digest: Digest) returns (res: Result<Verdict>)
    modifies c
    ensures c.View() == After(old(c.View()), Checkpoints.FinishCheckpoint(old(c.View()), r, digest))
    ensures res == ResultOf(Checkpoints.FinishCheckpoint(old(c.View()), r, digest))
  {
    var before := c.View();
    if !WellFormed(r) || r.episode !in c.episodes { return Err(ValidationError); }
    var ep := c.episodes[r.episode];
    if ep.resultOf == Some(r.run) {
      MarkConcluded(c, r.run);
      c.Save(before);
      return Ok(Verdict(r.episode, ep.state, 0));
    }
    var refusal := CheckReport(c, r, digest);
    if refusal.Some? { return Err(refusal.value); }
    var st := ConcludeReview(c, r);
    c.Save(before);
    res := Ok(Verdict(r.episode, st, if st == Awaiting then |r.drafts| else 0));
  }

  /** A report that passed every check ends its run and settles its review. */
  method ConcludeReview(c: Store, r: Report) returns (st: EpisodeState)
    requires r.episode in c.episodes
    requires r.complete && (Countered(c.episodes[r.episode]) || r.reuseOf.Some?) ==>
             forall k | k in c.episodes[r.episode].triggers :: k in c.triggers
    modifies c`topics, c`triggers, c`episodes, c`proposals, c`history
    ensures st == EndState(old(c.episodes)[r.episode], r)
    ensures c.View() == Reported(Conclude(old(c.View()), r.run), r, st)
  {
    var ep := c.episodes[r.episode];
    MarkConcluded(c, r.run);
    if !r.complete {
      st := Parked;
    } else if !Countered(ep) && r.reuseOf.None? {
      st := RetryWait;
    } else if r.drafts == [] {
      st := CompleteWithoutProposals;
    } else {
      st := Awaiting;
    }
    SettleReview(c, r, st);
  }

  method MarkConcluded(c: Store, run: RunId)
    modifies c`history
    ensures c.View() == Conclude(old(c.View()), run)
  {
    c.history := c.history.(concluded := c.history.concluded + {run});
  }

  /** Everything that can make a report be refused, in order. */
  method CheckReport(c: Store, r: Report, digest: Digest) returns (refusal: Option<Error>)
    requires r.episode in c.episodes
    ensures refusal == FinishRefusal(c.View(), r, digest)
  {
    var ep := c.episodes[r.episode];
    if ep.state != InReview || ep.run != Some(r.run) { return Some(RevisionConflict); }
    if r.inventory != ep.inventory || Elements(r.triggers) != Elements(ep.triggers) { return Some(RevisionConflict); }
    if !r.complete { return None; }
    if r.reuseOf.Some? && (r.reuseOf != ep.prior || ep.digest != Some(digest)) { return Some(RevisionConflict); }
    if !Countered(ep) && r.reuseOf.None? { return None; }
    if exists d | d in r.drafts :: d.id in c.proposals { return Some(DuplicateRequest); }
    if exists k | k in ep.triggers :: k !in c.triggers { return Some(ValidationError); }
    if |r.drafts| > TopicOr(c.topics, ep.topic, Unknown).allowance { return Some(BudgetExhausted); }
    return None;
  }

  /** The review and its topic take their new state; a review that is over handles its triggers and issues its
      proposals. */
  method SettleReview(c: Store, r: Report, st: EpisodeState)
    requires r.episode in c.episodes
    requires st in {Parked, RetryWait, CompleteWithoutProposals, Awaiting}
    requires st in {CompleteWithoutProposals, Awaiting} ==>
             forall k | k in c.episodes[r.episode].triggers :: k in c.triggers
    modifies c`topics, c`triggers, c`episodes, c`proposals, c`history
    ensures c.View() == Reported(old(c.View()), r, st)
  {
    var ep := c.episodes[r.episode];
    CloseReview(c, r, st);
    if st in {Parked, RetryWait} { return; }
    MarkHandled(c, ep.triggers);
    if st == Awaiting { Issue(c, r.episode, ep.topic, r.drafts); }
  }

  method CloseReview(c: Store, r: Report, st: EpisodeState)
    requires r.episode in c.episodes
    requires st in {Parked, RetryWait, CompleteWithoutProposals, Awaiting}
    modifies c`topics, c`episodes
    ensures c.View() == FinishedState(old(c.View()), r, st)
  {
    var ep := c.episodes[r.episode];
    var topic := TopicOr(c.topics, ep.topic, Unknown);
    var next := ep.(results := ep.results + {r.run}, state := st);
    if st in {CompleteWithoutProposals, Awaiting} { next := next.(resultOf := Some(r.run), reused := r.reuseOf); }
    match st {
      case Parked => topic := topic.(review := NeedsAttention);
      case RetryWait => topic := topic.(review := CheckpointDue);
      case Awaiting => topic := topic.(review := AwaitingOperator);
      case CompleteWithoutProposals => topic := topic.(active := None, review := Eligible);
    }
    c.episodes := c.episodes[r.episode := next];
    c.topics := c.topics[ep.topic := topic];
  }

  method Issue(c: Store, e: EpisodeId, t: TopicId, ds: seq<Draft>)
    modifies c`topics, c`proposals, c`history
    ensures c.View() == WithIssued(old(c.View()), e, t, ds)
  {
    var topic := TopicOr(c.topics, t, Unknown);
    c.topics := c.topics[t := Spent(topic, |ds|)];
    IssueDrafts(c, e, t, ds);
    c.history := c.history.(issued := c.history.issued[t := CountOr0(c.history.issued, t) + |ds|]);
  }

  // ---------- Parking ----------

  /** A failed checkpoint run is parked or scheduled for retry; `known` is the episode the run resolved, if any. */
  method ParkFailed(c: Store, t: TopicId, lease: RunId, known: Option<EpisodeId>, infra: bool, now: Time)
    modifies c
    ensures c.View() == Commit(old(c.View()), Checkpoints.ParkFailed(old(c.View()), t, lease, known, infra, now))
  {
    var before := c.View();
    FailReview(c, t, lease, known, infra, now);
    c.Save(before);
  }

  method FailReview(c: Store, t: TopicId, lease: RunId, known: Option<EpisodeId>, infra: bool, now: Time)
    modifies c`episodes, c`topics, c`history
    ensures c.View() == Checkpoints.ParkFailed(old(c.View()), t, lease, known, infra, now)
  {
    var resolved := known;
    if known.None? && t in c.topics { resolved := c.topics[t].active; }
    MarkConcluded(c, lease);
    var retry := FailEpisode(c, resolved, infra);
    FailTopic(c, t, retry, now);
  }

  method FailEpisode(c: Store, resolved: Option<EpisodeId>, infra: bool) returns (retry: bool)
    modifies c`episodes
    ensures retry == Retries(old(c.episodes), resolved, infra)
            && c.episodes == FailedEpisodes(old(c.episodes), resolved, infra)
  {
    retry := infra;
    if resolved.Some? && resolved.value in c.episodes {
      var ep := c.episodes[resolved.value];
      if infra {
        ep := ep.(infraFailures := ep.infraFailures + 1);
        if ep.infraFailures >= INFRA_RETRY_LIMIT { retry := false; }
      }
      c.episodes := c.episodes[resolved.value := ep.(state := if retry then RetryWait else Parked)];
    }
  }

  method FailTopic(c: Store, t: TopicId, retry: bool, now: Time)
    modifies c`topics
    ensures c.topics == FailedTopics(old(c.topics), t, retry, now)
  {
    if t in c.topics {
      var topic := c.topics[t].(review := if retry then CheckpointDue else NeedsAttention);
      if retry { topic := topic.(retryAt := Some(now + INFRA_RETRY_SECONDS)); }
      c.topics := c.topics[t := topic];
    }
  }

  /** The topic goes to the operator: its item is paused, and so is its review when a checkpoint was running. */
  method Sideline(c: Store, t: TopicId, kind: Kind)
    modifies c`items, c`topics, c`episodes
    ensures c.View() == Sidelined(old(c.View()), t, kind)
  {
    if kind == Checkpoint { ParkReview(c, t); }
    PauseItem(c, t);
  }

  method PauseItem(c: Store, t: TopicId)
    modifies c`items
    ensures c.items == ParkItem(old(c.items), t)
  {
    var at := c.FindItem(t);
    FirstItemIndex(c.items, t);
    if at.Some? { c.items := c.items[at.value := c.items[at.value].(status := Attention, wanted := WantPaused)]; }
  }

  method ParkReview(c: Store, t: TopicId)
    modifies c`topics, c`episodes
    ensures c.View() == ReviewParked(old(c.View()), t)
  {
    if t in c.topics {
      var active := c.topics[t].active;
      c.topics := c.topics[t := c.topics[t].(review := NeedsAttention)];
      if active.Some? && active.value in c.episodes {
        c.episodes := c.episodes[active.value := c.episodes[active.value].(state := Parked)];
      }
    }
  }

  /** After a restart, a lease whose child cannot be observed is parked and its station freed. */
  method ParkOrphan(c: Store, lease: Lease, now: Time)
    requires |c.seats| == MAX_STATIONS
    modifies c
    ensures c.View() == Commit(old(c.View()), Checkpoints.ParkOrphan(old(c.View()), lease, now))
  {
    hide Checkpoints.ParkOrphan;
    var before := c.View();
    RetireOrphan(c, lease, now);
    c.Save(before);
  }

  method RetireOrphan(c: Store, lease: Lease, now: Time)
    requires |c.seats| == MAX_STATIONS
    modifies c`seats, c`topics, c`items, c`episodes, c`runs, c`capabilities
    ensures c.View() == Checkpoints.ParkOrphan(old(c.View()), lease, now)
  {
    hide Vacancy;
    VacateOrphan(c, lease, now);
    c.CloseLease(lease.id, now);
  }

  method VacateOrphan(c: Store, lease: Lease, now: Time)
    requires |c.seats| == MAX_STATIONS
    modifies c`seats, c`topics, c`items, c`episodes
    ensures c.View() == Vacancy(old(c.View()), lease, now)
  {
    hide Reconcile;
    var k := lease.station;
    if 1 <= k <= |c.seats| && c.seats[k - 1].current.Some? && c.seats[k - 1].current.value.id == lease.id {
      ReplaceOrphan(c, k - 1, lease, now);
    } else {
      Sideline(c, lease.topic, lease.kind);
    }
  }

  /** The station gives up the lease and is dealt anew once the topic is sidelined. */
  method ReplaceOrphan(c: Store, k: nat, lease: Lease, now: Time)
    requires |c.seats| == MAX_STATIONS && k < MAX_STATIONS
    modifies c`seats, c`topics, c`items, c`episodes
    ensures c.View() == Reconcile(Sidelined(old(c.View()).(seats := Vacated(old(c.seats), k)), lease.topic, lease.kind),
            now)
  {
    hide Reconcile;
    FreeStation(c, k);
    Sideline(c, lease.topic, lease.kind);
    c.ReconcileState(now);
  }

  method FreeStation(c: Store, k: nat)
    requires k < |c.seats|
    modifies c`seats
    ensures c.View() == old(c.View()).(seats := Vacated(old(c.seats), k))
  {
    c.seats := c.seats[k := c.seats[k].(current := None, handoff := false, draining := false)];
  }

  // ---------- Operator steps ----------

  method ResetAllowance(c: Store, request: RequestId, q: ResetRequest) returns (r: Result<nat>)
    modifies c
    ensures c.View() == After(old(c.View()), Checkpoints.ResetAllowance(old(c.View()), request, q))
    ensures r == ResultOf(Checkpoints.ResetAllowance(old(c.View()), request, q))
  {
    var before := c.View();
    if request in c.resetRequests {
      return if c.resetRequests[request] != q then Err(AccessDenied) else Ok(2);
    }
    if c.revision != q.expected || q.topic !in c.topics { return Err(AccessDenied); }
    RestoreAllowance(c, request, q);
    c.Save(before);
    r := Ok(2);
  }

  method RestoreAllowance(c: Store, request: RequestId, q: ResetRequest)
    requires q.topic in c.topics
    modifies c`topics, c`resetRequests, c`history
    ensures var s := old(c.View());
            c.View() == s.(topics := s.topics[q.topic := s.topics[q.topic].(allowance := 2)],
              resetRequests := s.resetRequests[request := q],
                           history := s.history.(issued := s.history.issued[q.topic := 0]))
  {
    c.topics := c.topics[q.topic := c.topics[q.topic].(allowance := 2)];
    c.resetRequests := c.resetRequests[request := q];
    c.history := c.history.(issued := c.history.issued[q.topic := 0]);
  }

  method RetryCheckpoint(c: Store, request: RequestId, q: RetryRequest) returns (r: Result<EpisodeId>)
    modifies c
    ensures c.View() == After(old(c.View()), Checkpoints.RetryCheckpoint(old(c.View()), request, q))
    ensures r == ResultOf(Checkpoints.RetryCheckpoint(old(c.View()), request, q))
  {
    var before := c.View();
    if request in c.retryRequests {
      return if c.retryRequests[request] != q then Err(AccessDenied) else Ok(q.episode);
    }
    if c.revision != q.expected || q.topic !in c.topics || q.episode !in c.episodes { return Err(AccessDenied); }
    var topic, ep := c.topics[q.topic], c.episodes[q.episode];
    if ep.topic != q.topic || topic.active != Some(q.episode) || ep.state !in {Parked, RetryWait} {
      return Err(AccessDenied);
    }
    if PendingFor(c.proposals, q.episode) != {} || LeasedAnywhere(before, q.topic) || AnyReserved(ep) {
      return Err(AccessDenied);
    }
    ScheduleRetry(c, request, q);
    c.Save(before);
    r := Ok(q.episode);
  }

  method ScheduleRetry(c: Store, request: RequestId, q: RetryRequest)
    requires q.topic in c.topics && q.episode in c.episodes
    modifies c`topics, c`episodes, c`retryRequests
    ensures var s := old(c.View());
            c.View() == MovedTo(s, q.episode, s.episodes[q.episode].(state := RetryWait), q.topic,
              s.topics[q.topic].(review := CheckpointDue)).(
                          retryRequests := s.retryRequests[request := q])
  {
    c.episodes := c.episodes[q.episode := c.episodes[q.episode].(state := RetryWait)];
    c.topics := c.topics[q.topic := c.topics[q.topic].(review := CheckpointDue)];
    c.retryRequests := c.retryRequests[request := q];
  }

  /** Once a choice is refused, the choices after it do not matter. */
  lemma {:induction false} FirstRefusal(s: State, e: EpisodeId, cs: seq<Choice>, i: nat)
    requires i <= |cs| && ChoicesRefusal(s, e, cs[..i]).Some?
    ensures ChoicesRefusal(s, e, cs) == ChoicesRefusal(s, e, cs[..i])
    decreases |cs|
  {
    if i < |cs| {
      assert cs[..|cs| - 1][..i] == cs[..i];
      FirstRefusal(s, e, cs[..|cs| - 1], i);
    } else {
      assert cs[..i] == cs;
    }
  }

  lemma NextChoice(s: State, e: EpisodeId, cs: seq<Choice>, i: nat)
    requires i < |cs| && ChoicesRefusal(s, e, cs[..i]).None?
    ensures ChoiceIds(cs[..i + 1]) == ChoiceIds(cs[..i]) + {cs[i].proposal}
    ensures ChoicesRefusal(s, e, cs[..i + 1]) ==
              if cs[i].proposal in ChoiceIds(cs[..i]) then Some(ValidationError)
              else if cs[i].proposal !in s.proposals || s.proposals[cs[i].proposal].episode != e
                || !s.proposals[cs[i].proposal].pending
                   || cs[i].version != s.proposals[cs[i].proposal].version then Some(RevisionConflict)
              else None
  {
    assert cs[..i + 1] == cs[..i] + [cs[i]] && cs[..i + 1][..i] == cs[..i];
  }

  method CheckChoices(c: Store, e: EpisodeId, cs: seq<Choice>) returns (refusal: Option<Error>)
    ensures refusal == ChoicesRefusal(c.View(), e, cs)
  {
    ghost var s := c.View();
    var seen: set<ProposalId> := {};
    for i := 0 to |cs|
      invariant seen == ChoiceIds(cs[..i]) && ChoicesRefusal(s, e, cs[..i]).None?
    {
      NextChoice(s, e, cs, i);
      var choice := cs[i];
      if choice.proposal in seen {
        FirstRefusal(s, e, cs, i + 1);
        return Some(ValidationError);
      }
      seen := seen + {choice.proposal};
      if choice.proposal !in c.proposals || c.proposals[choice.proposal].episode != e
        || !c.proposals[choice.proposal].pending
         || choice.version != c.proposals[choice.proposal].version
      {
        FirstRefusal(s, e, cs, i + 1);
        return Some(RevisionConflict);
      }
    }
    Whole(cs);
    return None;
  }

  /** Records the intent to publish a decision; an already committed request returns its result. */
  method RecordIntent(c: Store, request: RequestId, p: Payload, bundle: Option<Bundle>)
    returns (r: Result<Option<DecisionResult>>)
    modifies c
    ensures c.View() == After(old(c.View()), DecisionIntent(old(c.View()), request, p, bundle))
    ensures r == ResultOf(DecisionIntent(old(c.View()), request, p, bundle))
  {
    var before := c.View();
    if request in c.decisions {
      return if c.decisions[request].payload != p then Err(DuplicateRequest) else Ok(Some(c.decisions[request].result));
    }
    var refusal := CheckIntent(c, p, bundle);
    if refusal.Some? { return Err(refusal.value); }
    HoldForPublication(c, request, p, bundle);
    c.Save(before);
    r := Ok(None);
  }

  method CheckIntent(c: Store, p: Payload, bundle: Option<Bundle>) returns (refusal: Option<Error>)
    ensures refusal == IntentRefusal(c.View(), p, bundle)
  {
    if p.choices == [] { return Some(ValidationError); }
    if c.revision != p.expected { return Some(RevisionConflict); }
    if p.episode !in c.episodes || c.episodes[p.episode].topic != p.topic || c.episodes[p.episode].state != Awaiting {
      return Some(NotAwaiting);
    }
    refusal := CheckChoices(c, p.episode, p.choices);
    if refusal.None? && Approved(p.choices) != [] && bundle.None? { refusal := Some(PublicationPending); }
  }

  method HoldForPublication(c: Store, request: RequestId, p: Payload, bundle: Option<Bundle>)
    requires p.episode in c.episodes
    modifies c`episodes, c`topics, c`intents, c`history
    ensures var s := old(c.View());
            c.View() == MovedTo(s, p.episode, s.episodes[p.episode].(state := Publishing), p.topic,
                                TopicOr(s.topics, p.topic, Unknown).(review := PublishingDecision)).(
                          intents := s.intents[request := IntentFor(p, bundle)],
                            history := s.history.(replaced := Displaced(s, request)))
  {
    c.episodes := c.episodes[p.episode := c.episodes[p.episode].(state := Publishing)];
    c.topics := c.topics[p.topic := TopicOr(c.topics, p.topic, Unknown).(review := PublishingDecision)];
    c.history := c.history.(replaced := Displaced(c.View(), request));
    c.intents := c.intents[request := IntentFor(p, bundle)];
  }

  /** Resolves the chosen proposals, one by one. */
  method ResolveChosen(c: Store, cs: seq<Choice>)
    requires ChoiceIds(cs) <= c.proposals.Keys
    modifies c`proposals
    ensures c.View() == old(c.View()).(proposals := ResolveProposals(old(c.proposals), cs))
  {
    ghost var proposals := c.proposals;
    for i := 0 to |cs|
      invariant c.proposals == ResolveProposals(proposals, cs[..i])
    {
      assert cs[i].proposal in ChoiceIds(cs);
      ResolveNext(proposals, cs, i);
      c.proposals := c.proposals[cs[i].proposal :=
        c.proposals[cs[i].proposal].(pending := false, decision := Some(cs[i].action))];
    }
    Whole(cs);
  }

  lemma ResolveNext(proposals: map<ProposalId, Proposal>, cs: seq<Choice>, i: nat)
    requires i < |cs| && cs[i].proposal in proposals
    ensures var before, p := ResolveProposals(proposals, cs[..i]), cs[i].proposal;
            ResolveProposals(proposals, cs[..i + 1]) ==
              before[p := before[p].(pending := false, decision := Some(cs[i].action))]
  {
    var some := cs[..i + 1];
    assert some == cs[..i] + [cs[i]] && some[..i] == cs[..i];
    assert forall p | p in ChoiceIds(some) && p != cs[i].proposal ::
      p in ChoiceIds(cs[..i]) && ActionFor(some, p) == ActionFor(cs[..i], p);
  }

  /** Every queue item of the topic takes the published lock. */
  method LockQueue(c: Store, t: TopicId, lock: Lock)
    modifies c`items
    ensures c.items == LockItems(old(c.items), t, lock)
  {
    for i := 0 to |c.items|
      invariant |c.items| == |old(c.items)|
      invariant forall j | 0 <= j < |c.items| ::
                c.items[j] == if j < i then LockItems(old(c.items), t, lock)[j] else old(c.items)[j]
    {
      if c.items[i].id == t { c.items := c.items[i := c.items[i].(lock := Pinned(lock))]; }
    }
  }

  /** Commits the decision of the intent on record, once; the receipt says what its publisher published, if anything. */
  method CommitDecision(c: Store, request: RequestId, receipt: Option<Receipt>) returns (r: Result<DecisionResult>)
    modifies c
    ensures c.View() == After(old(c.View()), Checkpoints.CommitDecision(old(c.View()), request, receipt))
    ensures r == ResultOf(Checkpoints.CommitDecision(old(c.View()), request, receipt))
  {
    var before := c.View();
    if request !in c.intents { return Err(ValidationError); }
    if request in c.decisions { return Ok(c.decisions[request].result); }
    var p := c.intents[request].payload;
    if p.episode !in c.episodes || !(ChoiceIds(p.choices) <= c.proposals.Keys) { return Err(ValidationError); }
    var result := Resolve(c, request, receipt);
    c.Save(before);
    r := Ok(result);
  }

  method Resolve(c: Store, request: RequestId, receipt: Option<Receipt>) returns (result: DecisionResult)
    requires request in c.intents && c.intents[request].payload.episode in c.episodes
    requires ChoiceIds(c.intents[request].payload.choices) <= c.proposals.Keys
    modifies c`items, c`topics, c`episodes, c`proposals, c`decisions, c`intents
    ensures Done(c.View(), result) == Resolution(old(c.View()), request, receipt)
  {
    ghost var s := c.View();
    var p := c.intents[request].payload;
    var topic := TopicOr(c.topics, p.topic, Unknown);
    ResolveChosen(c, p.choices);
    var remaining := PendingFor(c.proposals, p.episode);
    result := DecisionResult(p.topic, p.episode, remaining, topic.next, c.revision + 1);
    FileDecision(c, request, p, receipt, result);
    assert c.View() == Decided(s, request, receipt, result);
    ReleaseTopic(c, p, remaining == {}, LockOf(receipt));
  }

  method FileDecision(c: Store, request: RequestId, p: Payload, receipt: Option<Receipt>, result: DecisionResult)
    requires request in c.intents
    modifies c`intents, c`decisions
    ensures c.View() == old(c.View()).(intents :=
            old(c.intents)[request := old(c.intents)[request].(published := true, receipt := receipt)],
                                       decisions := old(c.decisions)[request := Decision(p, result)])
  {
    c.intents := c.intents[request := c.intents[request].(published := true, receipt := receipt)];
    c.decisions := c.decisions[request := Decision(p, result)];
  }

  /** The ledger and the queue take the published lock, and the review moves on. */
  method ReleaseTopic(c: Store, p: Payload, done: bool, lock: Option<Lock>)
    requires p.episode in c.episodes
    modifies c`topics, c`episodes, c`items
    ensures var s := old(c.View());
            c.View() == MovedTo(s, p.episode,
              s.episodes[p.episode].(state := if done then CompleteWithDecisions else Awaiting),
                                p.topic, DecidedTopic(TopicOr(s.topics, p.topic, Unknown), lock, done)).(
                          items := DecidedItems(s.items, p.topic, lock))
  {
    var topic := Relock(c, p.topic, lock);
    topic := if done then topic.(active := None, review := Eligible) else topic.(review := AwaitingOperator);
    MoveReview(c, p.episode, c.episodes[p.episode].(state := if done then CompleteWithDecisions else Awaiting), p.topic,
      topic);
  }

  /** A review and its topic's record change together. */
  method MoveReview(c: Store, e: EpisodeId, ep: Episode, t: TopicId, topic: Topic)
    modifies c`topics, c`episodes
    ensures c.View() == MovedTo(old(c.View()), e, ep, t, topic)
  {
    c.episodes := c.episodes[e := ep];
    c.topics := c.topics[t := topic];
  }

  method Relock(c: Store, t: TopicId, lock: Option<Lock>) returns (topic: Topic)
    modifies c`items
    ensures var before := TopicOr(c.topics, t, Unknown);
            topic == if lock.Some? then before.(inventory := Pinned(lock.value)) else before
    ensures c.items == DecidedItems(old(c.items), t, lock)
  {
    topic := TopicOr(c.topics, t, Unknown);
    if lock.Some? {
      topic := topic.(inventory := Pinned(lock.value));
      LockQueue(c, t, lock.value);
    }
  }
}
