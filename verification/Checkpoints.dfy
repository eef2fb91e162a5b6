/** Research accounting, checkpoint episodes and operator decisions, as functions on the state. */
module Checkpoints {
  import opened Common
  import opened ControlRecords
  import opened Scheduler

  predicate Open(st: EpisodeState) {
    st in {Due, InReview, RetryWait, Awaiting, Publishing, Parked}
  }

  function TopicOr(topics: map<TopicId, Topic>, t: TopicId, v: Version): Topic {
    if t in topics then topics[t] else DefaultTopic(v)
  }

  // ---------- Triggers and episodes ----------

  /** Appends each trigger not already listed. */
  function AppendNew(xs: seq<TriggerKey>, ys: seq<TriggerKey>): (r: seq<TriggerKey>)
    ensures xs <= r
    ensures forall x :: x in r <==> x in xs || x in ys
    decreases |ys|
  {
    if ys == [] then xs
    else
      assert ys == [ys[0]] + ys[1..];
      AppendNew(if ys[0] in xs then xs else xs + [ys[0]], ys[1..])
  }

  function NewEpisode(t: TopicId, topic: Topic, keys: seq<TriggerKey>): Episode {
    Episode(t, topic.completed, keys, topic.inventory, Due, None, [], {}, None, 4, 2, 1, NoPhase, map[], None, None,
      None, 0)
  }

  predicate HasOpenEpisode(topics: map<TopicId, Topic>, episodes: map<EpisodeId, Episode>, t: TopicId)
    requires t in topics
  {
    topics[t].active.Some? && topics[t].active.value in episodes && Open(episodes[topics[t].active.value].state)
  }

  /** The episode new triggers of a topic go to: its open one, else a new one. */
  function TargetEpisode(topics: map<TopicId, Topic>, episodes: map<EpisodeId, Episode>, t: TopicId,
                         uuid: EpisodeId): EpisodeId
    requires t in topics
  {
    if HasOpenEpisode(topics, episodes, t) then topics[t].active.value else uuid
  }

  function TrippedEpisodes(topics: map<TopicId, Topic>, episodes: map<EpisodeId, Episode>, t: TopicId,
                           keys: seq<TriggerKey>, uuid: EpisodeId): map<EpisodeId, Episode>
    requires t in topics
  {
    if keys == [] then episodes
    else if HasOpenEpisode(topics, episodes, t) then
      var e := topics[t].active.value;
      episodes[e := episodes[e].(triggers := AppendNew(episodes[e].triggers, keys))]
    else episodes[uuid := NewEpisode(t, topics[t], keys)]
  }

  function TrippedTopics(topics: map<TopicId, Topic>, episodes: map<EpisodeId, Episode>, t: TopicId,
                         keys: seq<TriggerKey>, uuid: EpisodeId): map<TopicId, Topic>
    requires t in topics
  {
    if keys == [] || HasOpenEpisode(topics, episodes, t) then topics
    else topics[t := topics[t].(active := Some(uuid), review := CheckpointDue)]
  }

  /** Records the triggers, keeping any record already there, and points them at the episode. */
  function AssignTriggers(triggers: map<TriggerKey, Trigger>, keys: seq<TriggerKey>,
                          e: EpisodeId): map<TriggerKey, Trigger> {
    map k | k in triggers.Keys + Elements(keys) ::
      if k in keys then (if k in triggers then triggers[k].(episode := Some(e)) else Trigger(Some(e), false))
        else triggers[k]
  }

  function TrippedTriggers(topics: map<TopicId, Topic>, episodes: map<EpisodeId, Episode>,
                           triggers: map<TriggerKey, Trigger>, t: TopicId, keys: seq<TriggerKey>,
                           uuid: EpisodeId): map<TriggerKey, Trigger>
    requires t in topics
  {
    if keys == [] then triggers else AssignTriggers(triggers, keys, TargetEpisode(topics, episodes, t, uuid))
  }

  // ---------- Research accounting ----------

  function CadenceDue(p: Policy, ordinal: nat): bool {
    p.enabled && p.every > 0 && ordinal % p.every == 0
  }

  function DeepeningDue(p: Policy, topic: Topic, deepening: bool, v: Version): bool {
    p.enabled && p.onDeepening && deepening && v !in topic.deepening
  }

  function CompletionTriggers(p: Policy, t: TopicId, topic: Topic, ordinal: nat, deepening: bool,
                              v: Version): seq<TriggerKey> {
    (if CadenceDue(p, ordinal) then [TriggerKey(t, Cadence, ordinal, v)] else []) +
    (if DeepeningDue(p, topic, deepening, v) then [TriggerKey(t, Deepening, ordinal, v)] else [])
  }

  function AcceptedTopic(p: Policy, topic: Topic, run: RunId, deepening: bool, v: Version): Topic {
    topic.(completed := topic.completed + 1, next := topic.completed + 2, inventory := v, lastAccepted := Some(run),
           rowRevision := topic.rowRevision + 1,
           deepening := if p.enabled && deepening && v !in topic.deepening
                        then topic.deepening[v := DeepeningDue(p, topic, deepening, v)] else topic.deepening)
  }

  function FinishedRun(prior: Option<Run>, t: TopicId, station: nat, now: Time, a: Accounting): Run {
    Run(t, station,
        if prior.Some? then prior.value.generation else None,
        if prior.Some? then prior.value.kind else None,
        Finished,
        if prior.Some? then prior.value.startedAt else None,
        Some(now), Some(a.accepted), a.ordinal, a.accepted, Some(a), prior.Some? && prior.value.withoutAccounting)
  }

  /** Why an accounting call cannot count now, if it cannot. */
  function AcceptRefusal(s: State, t: TopicId, run: RunId): Option<Error> {
    if run in s.runs then
      if s.runs[run].topic != t then Some(DuplicateRequest)
      else if s.runs[run].result.None? && s.runs[run].state != Started then Some(RevisionConflict)
      else None
    else if CountOr0(s.pruned, t) > 0 && LeaseOf(s, t, run).None? then Some(RevisionConflict)
    else None
  }

  function PriorRun(s: State, run: RunId): Option<Run> { if run in s.runs then Some(s.runs[run]) else None }

  /** A completion that was not accepted: its run finishes and nothing is counted. */
  function RejectRun(s: State, t: TopicId, run: RunId, station: nat, v: Version, now: Time): Outcome<Accounting> {
    var topic := TopicOr(s.topics, t, v).(inventory := v);
    var a := Accounting(t, run, false, None, topic.completed, topic.next, topic.active);
    Done(s.(topics := s.topics[t := topic],
            runs := s.runs[run := FinishedRun(PriorRun(s, run), t, station, now, a)]), a)
  }

  function CountedTopics(s: State, t: TopicId, run: RunId, v: Version, deepening: bool): map<TopicId, Topic> {
    s.topics[t := AcceptedTopic(s.policy, TopicOr(s.topics, t, v), run, deepening, v)]
  }

  function CountedTriggers(s: State, t: TopicId, v: Version, deepening: bool): seq<TriggerKey> {
    var topic := TopicOr(s.topics, t, v);
    CompletionTriggers(s.policy, t, topic, topic.completed + 1, deepening, v)
  }

  /** An accepted completion on its topic's record, with what it sets off. */
  function Tallied(s: State, t: TopicId, run: RunId, v: Version, deepening: bool, uuid: EpisodeId): (r: State)
    ensures t in r.topics
  {
    var topics, keys := CountedTopics(s, t, run, v, deepening), CountedTriggers(s, t, v, deepening);
    s.(topics := TrippedTopics(topics, s.episodes, t, keys, uuid),
       episodes := TrippedEpisodes(topics, s.episodes, t, keys, uuid),
       triggers := TrippedTriggers(topics, s.episodes, s.triggers, t, keys, uuid))
  }

  /** An accepted completion: the count moves, and cadence or deepening may open a review. */
  function CountRun(s: State, t: TopicId, run: RunId, station: nat, v: Version, deepening: bool, now: Time,
                    uuid: EpisodeId): Outcome<Accounting> {
    var ordinal, s' := TopicOr(s.topics, t, v).completed + 1, Tallied(s, t, run, v, deepening, uuid);
    var a := Accounting(t, run, true, Some(ordinal), ordinal, ordinal + 1, s'.topics[t].active);
    Done(s'.(runs := s.runs[run := FinishedRun(PriorRun(s, run), t, station, now, a)],
             history := s.history.(counted := s.history.counted + [Count(t, run, ordinal)])), a)
  }

  /** Accounts for one research completion. */
  function Accept(s: State, t: TopicId, run: RunId, station: nat, v: Version, accepted: bool, deepening: bool,
                  now: Time, uuid: EpisodeId): Outcome<Accounting>
  {
    if v == Unset then Refused(ValidationError)
    else if AcceptRefusal(s, t, run).Some? then Refused(AcceptRefusal(s, t, run).value)
    else if run in s.runs && s.runs[run].result.Some? then Done(s, s.runs[run].result.value)
    else if accepted then CountRun(s, t, run, station, v, deepening, now, uuid)
    else RejectRun(s, t, run, station, v, now)
  }

  function StallKey(s: State, t: TopicId, v: Version): TriggerKey {
    TriggerKey(t, Stall, TopicOr(s.topics, t, v).completed, v)
  }

  /** A stalled topic is sent to review. */
  function StallCheckpoint(s: State, t: TopicId, v: Version, uuid: EpisodeId): Outcome<EpisodeId> {
    if v == Unset then Refused(ValidationError)
    else
      var topics := s.topics[t := TopicOr(s.topics, t, v).(inventory := v)];
      var key := StallKey(s, t, v);
      var e := TargetEpisode(topics, s.episodes, t, uuid);
      Done(s.(topics := TrippedTopics(topics, s.episodes, t, [key], uuid),
              episodes := TrippedEpisodes(topics, s.episodes, t, [key], uuid),
              triggers := AssignTriggers(s.triggers, [key], e)), e)
  }

  /** A review and its topic's record change together. */
  function MovedTo(s: State, e: EpisodeId, ep: Episode, t: TopicId, topic: Topic): State {
    s.(episodes := s.episodes[e := ep], topics := s.topics[t := topic])
  }

  // ---------- Running a checkpoint ----------

  predicate Reusable(s: State, t: TopicId, digest: Digest, e: EpisodeId) {
    && e in s.episodes && s.episodes[e].topic == t
    && s.episodes[e].state in {CompleteWithoutProposals, CompleteWithDecisions}
    && s.episodes[e].digest == Some(digest)
  }

  /** The prior review offered for reuse is a completed one over the same material, if there is any. */
  predicate OffersPrior(s: State, t: TopicId, digest: Digest, prior: Option<EpisodeId>) {
    match prior
    case Some(e) => Reusable(s, t, digest, e)
    case None => forall e | e in s.episodes :: !Reusable(s, t, digest, e)
  }

  function StartedEpisode(ep: Episode, run: RunId, digest: Digest, prior: Option<EpisodeId>): Episode {
    ep.(state := InReview, run := Some(run), attempts := ep.attempts + [run], digest := Some(digest), prior := prior)
  }

  function StartCheckpoint(s: State, e: EpisodeId, run: RunId, digest: Digest,
                           prior: Option<EpisodeId>): Outcome<Episode> {
    if e !in s.episodes then Refused(ValidationError)
    else
      var ep := s.episodes[e];
      if ep.state == InReview && ep.run == Some(run) then Done(s, ep)
      else if ep.state !in {Due, RetryWait} then Refused(NotAwaiting)
      else
        var started := StartedEpisode(ep, run, digest, prior);
        Done(s.(episodes := s.episodes[e := started]), started)
  }

  predicate Succeeded(i: Invocation) { i.finished && i.exit == 0 }
  predicate Successful(ep: Episode, role: Role) {
    exists k | k in ep.invocations :: ep.invocations[k].role == role && Succeeded(ep.invocations[k])
  }
  predicate AnyReserved(ep: Episode) { exists k | k in ep.invocations :: !ep.invocations[k].finished }

  /** The capability that authorised the call is still good at the moment the slot is spent. */
  predicate StillAuthorised(s: State, ep: Episode, lease: RunId, digest: Option<Token>) {
    digest.Some? ==>
      && digest.value in s.capabilities
      && !s.capabilities[digest.value].revoked && s.capabilities[digest.value].lease == lease
      && LeaseOf(s, ep.topic, lease).Some?
      && LeaseOf(s, ep.topic, lease).value.generation == s.capabilities[digest.value].generation
  }

  /** Why a new delegate slot cannot be spent, if it cannot. */
  function ReserveRefusal(ep: Episode, role: Role): Option<Error> {
    if AnyReserved(ep) then Some(RevisionConflict)
    else if ep.launches == 0 then Some(BudgetExhausted)
    else if Successful(ep, role) then Some(RevisionConflict)
    else if role == Response then
      if Successful(ep, Assessment) then Some(RevisionConflict)
      else if !Successful(ep, Counter) || ep.launches < 2 || ep.exchanges == 0 then Some(BudgetExhausted)
      else None
    else if role == Assessment && ep.phase != ResponseFinished then Some(RevisionConflict)
    else None
  }

  function Reserved(ep: Episode, k: InvocationId, role: Role, lease: RunId): Episode
    requires ReserveRefusal(ep, role).None?
  {
    ep.(launches := ep.launches - 1,
        exchanges := if role == Response then ep.exchanges - 1 else ep.exchanges,
        phase := if role == Response then ResponseReserved else if role == Assessment then AssessmentReserved
          else ep.phase,
        invocations := ep.invocations[k := Invocation(role, lease, false, 0, false, false, false)])
  }

  function ReserveDelegate(s: State, e: EpisodeId, lease: RunId, k: InvocationId, role: Role,
                           digest: Option<Token>): Outcome<(Invocation, bool)> {
    if e !in s.episodes || s.episodes[e].state != InReview then Refused(NotAwaiting)
    else
      var ep := s.episodes[e];
      if ep.run != Some(lease) then Refused(RevisionConflict)
      else if !StillAuthorised(s, ep, lease, digest) then Refused(RevisionConflict)
      else if k in ep.invocations then
        if ep.invocations[k].role != role then Refused(DuplicateRequest) else Done(s, (ep.invocations[k], false))
      else if ReserveRefusal(ep, role).Some? then Refused(ReserveRefusal(ep, role).value)
      else
        var next := Reserved(ep, k, role, lease);
        Done(s.(episodes := s.episodes[e := next]), (next.invocations[k], true))
  }

  /** Exit codes that mean the infrastructure failed. */
  predicate InfraExit(exit: int) { exit == 70 || exit == 124 }

  function PhaseAfter(ep: Episode, role: Role, exit: int, refund: bool): Phase {
    match role
    case Response => if refund then NoPhase else if exit == 0 then ResponseFinished else ResponseFailed
    case Assessment => if refund then ResponseFinished else if exit == 0 then AssessmentFinished else AssessmentFailed
    case _ => ep.phase
  }

  function Recorded(ep: Episode, k: InvocationId, exit: int, output: bool, complete: bool): Episode
    requires k in ep.invocations
  {
    var role := ep.invocations[k].role;
    var refund := InfraExit(exit) && ep.refunds > 0;
    ep.(invocations := ep.invocations[k := ep.invocations[k].(finished := true, exit := exit, output := output,
      complete := complete, refunded := refund)],
        phase := PhaseAfter(ep, role, exit, refund),
        refunds := if refund then ep.refunds - 1 else ep.refunds,
        launches := if refund then ep.launches + 1 else ep.launches,
        exchanges := if refund && role == Response then ep.exchanges + 1 else ep.exchanges)
  }

  function RecordDelegate(s: State, e: EpisodeId, k: InvocationId, exit: int, output: bool,
                          complete: bool): Outcome<Invocation> {
    if e !in s.episodes || k !in s.episodes[e].invocations then Refused(ValidationError)
    else if s.episodes[e].invocations[k].finished then Done(s, s.episodes[e].invocations[k])
    else
      var next := Recorded(s.episodes[e], k, exit, output, complete);
      Done(s.(episodes := s.episodes[e := next]), next.invocations[k])
  }

  // ---------- Finishing a checkpoint ----------

  datatype Draft = Draft(id: ProposalId, version: nat, content: Content)
  datatype Report = Report(episode: EpisodeId, run: RunId, inventory: Version, triggers: seq<TriggerKey>,
                           complete: bool,
                           drafts: seq<Draft>, reuseOf: Option<EpisodeId>)

  function DraftIds(ds: seq<Draft>): seq<ProposalId> { seq(|ds|, i requires 0 <= i < |ds| => ds[i].id) }

  predicate WellFormed(r: Report) {
    && (!r.complete ==> r.drafts == [])
    && (r.reuseOf.Some? ==> r.complete && r.drafts == [])
    && |r.drafts| <= 2
    && r.triggers != [] && Distinct(r.triggers) && Distinct(DraftIds(r.drafts))
  }

  /** A counter invocation that finished well, with its report on record. */
  predicate Certifies(i: Invocation) { i.role == Counter && Succeeded(i) && i.output && i.complete }
  predicate Countered(ep: Episode) { exists k | k in ep.invocations :: Certifies(ep.invocations[k]) }

  function HandleTriggers(triggers: map<TriggerKey, Trigger>, keys: seq<TriggerKey>): map<TriggerKey, Trigger> {
    map k | k in triggers :: if k in keys then triggers[k].(handled := true) else triggers[k]
  }

  function IssueProposals(proposals: map<ProposalId, Proposal>, e: EpisodeId, t: TopicId,
                          ds: seq<Draft>): map<ProposalId, Proposal> {
    if ds == [] then proposals
    else
      var d := ds[|ds| - 1];
      IssueProposals(proposals, e, t, ds[..|ds| - 1])[d.id := Proposal(e, t, d.version, d.content, true, None)]
  }

  datatype Verdict = Verdict(episode: EpisodeId, state: EpisodeState, issued: nat)

  function Conclude(s: State, run: RunId): State {
    s.(history := s.history.(concluded := s.history.concluded + {run}))
  }

  /** Why a report is refused, if it is. `digest` is the material digest at this moment. */
  function FinishRefusal(s: State, r: Report, digest: Digest): Option<Error>
    requires r.episode in s.episodes
  {
    var ep := s.episodes[r.episode];
    if ep.state != InReview || ep.run != Some(r.run) then Some(RevisionConflict)
    else if r.inventory != ep.inventory || Elements(r.triggers) != Elements(ep.triggers) then Some(RevisionConflict)
    else if !r.complete then None
    else if r.reuseOf.Some? && r.reuseOf != ep.prior then Some(RevisionConflict)
    else if r.reuseOf.Some? && ep.digest != Some(digest) then Some(RevisionConflict)
    else if !Countered(ep) && r.reuseOf.None? then None
    else if exists d | d in r.drafts :: d.id in s.proposals then Some(DuplicateRequest)
    else if exists k | k in ep.triggers :: k !in s.triggers then Some(ValidationError)
    else if |r.drafts| > TopicOr(s.topics, ep.topic, Unknown).allowance then Some(BudgetExhausted)
    else None
  }

  /** What the report leaves on the episode. */
  function FinishedEpisode(ep: Episode, r: Report, st: EpisodeState): Episode {
    var ep1 := ep.(results := ep.results + {r.run}, state := st);
    if st in {CompleteWithoutProposals, Awaiting} then ep1.(resultOf := Some(r.run), reused := r.reuseOf) else ep1
  }

  function FinishedTopic(topic: Topic, st: EpisodeState): Topic {
    match st
    case Parked => topic.(review := NeedsAttention)
    case RetryWait => topic.(review := CheckpointDue)
    case Awaiting => topic.(review := AwaitingOperator)
    case _ => topic.(active := None, review := Eligible)
  }

  function FinishedState(s: State, r: Report, st: EpisodeState): State
    requires r.episode in s.episodes
  {
    var ep := s.episodes[r.episode];
    s.(episodes := s.episodes[r.episode := FinishedEpisode(ep, r, st)],
       topics := s.topics[ep.topic := FinishedTopic(TopicOr(s.topics, ep.topic, Unknown), st)])
  }

  function Handled(s: State, keys: seq<TriggerKey>): State {
    s.(triggers := HandleTriggers(s.triggers, keys))
  }

  function Spent(topic: Topic, n: nat): Topic {
    topic.(allowance := if n <= topic.allowance then topic.allowance - n else 0)
  }

  function WithIssued(s: State, e: EpisodeId, t: TopicId, ds: seq<Draft>): State {
    s.(topics := s.topics[t := Spent(TopicOr(s.topics, t, Unknown), |ds|)],
       proposals := IssueProposals(s.proposals, e, t, ds),
       history := s.history.(issued := s.history.issued[t := CountOr0(s.history.issued, t) + |ds|]))
  }

  /** The state a report that gets past every check leaves its review in. */
  function EndState(ep: Episode, r: Report): EpisodeState {
    if !r.complete then Parked
    else if !Countered(ep) && r.reuseOf.None? then RetryWait
    else if r.drafts == [] then CompleteWithoutProposals
    else Awaiting
  }

  function Reported(s: State, r: Report, st: EpisodeState): State
    requires r.episode in s.episodes
  {
    var ep, after := s.episodes[r.episode], FinishedState(s, r, st);
    if st in {Parked, RetryWait} then after
    else if st == CompleteWithoutProposals then Handled(after, ep.triggers)
    else WithIssued(Handled(after, ep.triggers), r.episode, ep.topic, r.drafts)
  }

  /** Persists the report of a checkpoint run. */
  function FinishCheckpoint(s: State, r: Report, digest: Digest): Outcome<Verdict> {
    if !WellFormed(r) || r.episode !in s.episodes then Refused(ValidationError)
    else if s.episodes[r.episode].resultOf == Some(r.run) then
      Done(Conclude(s, r.run), Verdict(r.episode, s.episodes[r.episode].state, 0))
    else if FinishRefusal(s, r, digest).Some? then Refused(FinishRefusal(s, r, digest).value)
    else
      var st := EndState(s.episodes[r.episode], r);
      Done(Reported(Conclude(s, r.run), r, st), Verdict(r.episode, st, if st == Awaiting then |r.drafts| else 0))
  }

  // ---------- Parking ----------

  const INFRA_RETRY_LIMIT: nat := 3
  const INFRA_RETRY_SECONDS: nat := 600

  function FailedEpisode(ep: Episode, retry: bool, failures: nat): Episode {
    ep.(state := if retry then RetryWait else Parked, infraFailures := failures)
  }

  function FailedTopic(topic: Topic, retry: bool, now: Time): Topic {
    if retry then topic.(review := CheckpointDue, retryAt := Some(now + INFRA_RETRY_SECONDS))
      else topic.(review := NeedsAttention)
  }

  /** The review a failed run was about: the one it resolved, else its topic's active one. */
  function Resolved(topics: map<TopicId, Topic>, t: TopicId, known: Option<EpisodeId>): Option<EpisodeId> {
    if known.Some? then known else if t in topics then topics[t].active else None
  }

  function FailuresBefore(episodes: map<EpisodeId, Episode>, resolved: Option<EpisodeId>): nat {
    if resolved.Some? && resolved.value in episodes then episodes[resolved.value].infraFailures else 0
  }

  /** An infrastructure failure is retried until the third in a row on the same review. */
  predicate Retries(episodes: map<EpisodeId, Episode>, resolved: Option<EpisodeId>, infra: bool) {
    infra && (resolved.Some? && resolved.value in episodes ==>
      FailuresBefore(episodes, resolved) + 1 < INFRA_RETRY_LIMIT)
  }

  function FailedEpisodes(episodes: map<EpisodeId, Episode>, resolved: Option<EpisodeId>,
                          infra: bool): map<EpisodeId, Episode> {
    if resolved.None? || resolved.value !in episodes then episodes
    else
      var before := FailuresBefore(episodes, resolved);
      episodes[resolved.value := FailedEpisode(episodes[resolved.value], Retries(episodes, resolved, infra), if infra
        then before + 1 else before)]
  }

  function FailedTopics(topics: map<TopicId, Topic>, t: TopicId, retry: bool, now: Time): map<TopicId, Topic> {
    if t in topics then topics[t := FailedTopic(topics[t], retry, now)] else topics
  }

  /** A failed checkpoint run is parked or scheduled for retry; `known` is the episode the run resolved, if any. */
  function ParkFailed(s: State, t: TopicId, lease: RunId, known: Option<EpisodeId>, infra: bool, now: Time): State {
    var resolved := Resolved(s.topics, t, known);
    Conclude(s, lease).(episodes := FailedEpisodes(s.episodes, resolved, infra),
                        topics := FailedTopics(s.topics, t, Retries(s.episodes, resolved, infra), now))
  }

  function ParkItem(items: seq<Item>, t: TopicId): seq<Item> {
    FirstItemIndex(items, t);
    match FirstItem(items, t)
    case None => items
    case Some(i) => items[i := items[i].(status := Attention, wanted := WantPaused)]
  }

  function ParkedTopics(topics: map<TopicId, Topic>, t: TopicId): map<TopicId, Topic> {
    if t in topics then topics[t := topics[t].(review := NeedsAttention)] else topics
  }

  function ParkedEpisodes(topics: map<TopicId, Topic>, episodes: map<EpisodeId, Episode>,
                          t: TopicId): map<EpisodeId, Episode> {
    if t in topics && topics[t].active.Some? && topics[t].active.value in episodes
    then episodes[topics[t].active.value := episodes[topics[t].active.value].(state := Parked)]
    else episodes
  }

  function ReviewParked(s: State, t: TopicId): State {
    s.(topics := ParkedTopics(s.topics, t), episodes := ParkedEpisodes(s.topics, s.episodes, t))
  }

  function Sidelined(s: State, t: TopicId, kind: Kind): State {
    (if kind == Checkpoint then ReviewParked(s, t) else s).(items := ParkItem(s.items, t))
  }

  function Vacated(seats: seq<Seat>, k: nat): seq<Seat>
    requires k < |seats|
  {
    seats[k := seats[k].(current := None, handoff := false, draining := false)]
  }

  predicate SitsAt(s: State, lease: Lease) {
    1 <= lease.station <= |s.seats| && s.seats[lease.station - 1].current.Some?
      && s.seats[lease.station - 1].current.value.id == lease.id
  }

  /** The state once the orphan's topic is sidelined and its station, if it still sits there, is free. */
  function Vacancy(s: State, lease: Lease, now: Time): State {
    if SitsAt(s, lease) then Reconcile(Sidelined(s.(seats := Vacated(s.seats, lease.station - 1)), lease.topic,
      lease.kind), now)
    else Sidelined(s, lease.topic, lease.kind)
  }

  /** After a restart, a lease whose child cannot be observed is parked and its station freed. */
  function ParkOrphan(s: State, lease: Lease, now: Time): State {
    var s2 := Vacancy(s, lease, now);
    s2.(capabilities := Revoke(s2.capabilities, lease.id), runs := FinishRun(s2.runs, lease.id, now))
  }

  // ---------- Operator steps ----------

  function ResetAllowance(s: State, request: RequestId, r: ResetRequest): Outcome<nat> {
    if request in s.resetRequests then
      if s.resetRequests[request] != r then Refused(AccessDenied) else Done(s, 2)
    else if s.revision != r.expected || r.topic !in s.topics then Refused(AccessDenied)
    else Done(s.(topics := s.topics[r.topic := s.topics[r.topic].(allowance := 2)],
                 resetRequests := s.resetRequests[request := r],
                 history := s.history.(issued := s.history.issued[r.topic := 0])), 2)
  }

  function PendingFor(proposals: map<ProposalId, Proposal>, e: EpisodeId): set<ProposalId> {
    set p | p in proposals && proposals[p].episode == e && proposals[p].pending
  }

  predicate LeasedAnywhere(s: State, t: TopicId) {
    t in Executing(s.seats) || (s.intake.Some? && s.intake.value.topic == t)
  }

  function RetryCheckpoint(s: State, request: RequestId, r: RetryRequest): Outcome<EpisodeId> {
    if request in s.retryRequests then
      if s.retryRequests[request] != r then Refused(AccessDenied) else Done(s, r.episode)
    else if s.revision != r.expected || r.topic !in s.topics || r.episode !in s.episodes then Refused(AccessDenied)
    else if s.episodes[r.episode].topic != r.topic || s.topics[r.topic].active != Some(r.episode)
    then Refused(AccessDenied)
    else if s.episodes[r.episode].state !in {Parked, RetryWait} then Refused(AccessDenied)
    else if PendingFor(s.proposals, r.episode) != {} || LeasedAnywhere(s, r.topic) || AnyReserved(s.episodes[r.episode])
    then Refused(AccessDenied)
    else Done(MovedTo(s, r.episode, s.episodes[r.episode].(state := RetryWait), r.topic,
                      s.topics[r.topic].(review := CheckpointDue)).(retryRequests := s.retryRequests[request := r]),
              r.episode)
  }

  function Approved(cs: seq<Choice>): Identity {
    if cs == [] then []
    else Approved(cs[..|cs| - 1]) + if cs[|cs| - 1].action == Reject then []
      else [(cs[|cs| - 1].proposal, cs[|cs| - 1].action)]
  }

  function ChoiceIds(cs: seq<Choice>): set<ProposalId> { set c | c in cs :: c.proposal }

  /** The first choice that cannot be taken gives the error. */
  function ChoicesRefusal(s: State, e: EpisodeId, cs: seq<Choice>): Option<Error> {
    if cs == [] then None
    else
      var rest, c := cs[..|cs| - 1], cs[|cs| - 1];
      if ChoicesRefusal(s, e, rest).Some? then ChoicesRefusal(s, e, rest)
      else if c.proposal in ChoiceIds(rest) then Some(ValidationError)
      else if c.proposal !in s.proposals || s.proposals[c.proposal].episode != e
        || !s.proposals[c.proposal].pending then Some(RevisionConflict)
      else if c.version != s.proposals[c.proposal].version then Some(RevisionConflict)
      else None
  }

  function IntentRefusal(s: State, p: Payload, bundle: Option<Bundle>): Option<Error> {
    if p.choices == [] then Some(ValidationError)
    else if s.revision != p.expected then Some(RevisionConflict)
    else if p.episode !in s.episodes || s.episodes[p.episode].topic != p.topic
      || s.episodes[p.episode].state != Awaiting then Some(NotAwaiting)
    else if ChoicesRefusal(s, p.episode, p.choices).Some? then ChoicesRefusal(s, p.episode, p.choices)
    else if Approved(p.choices) != [] && bundle.None? then Some(PublicationPending)
    else None
  }

  /** The payloads that lost their intent, with the one that this request's next intent would replace. */
  function Displaced(s: State, request: RequestId): set<(RequestId, Payload)> {
    if request in s.intents then s.history.replaced + {(request, s.intents[request].payload)} else s.history.replaced
  }

  /** The intent to publish this decision. */
  function IntentFor(p: Payload, bundle: Option<Bundle>): Intent {
    Intent(p, if Approved(p.choices) != [] then bundle else None, false, None)
  }

  /** Records the intent to publish a decision; an already committed request returns its result. Only decisions are
      looked at: an undecided intent of the same request is replaced. */
  function DecisionIntent(s: State, request: RequestId, p: Payload,
                          bundle: Option<Bundle>): Outcome<Option<DecisionResult>> {
    if request in s.decisions then
      if s.decisions[request].payload != p then Refused(DuplicateRequest)
        else Done(s, Some(s.decisions[request].result))
    else if IntentRefusal(s, p, bundle).Some? then Refused(IntentRefusal(s, p, bundle).value)
    else
      Done(MovedTo(s, p.episode, s.episodes[p.episode].(state := Publishing), p.topic,
        TopicOr(s.topics, p.topic, Unknown).(review := PublishingDecision)).(
             intents := s.intents[request := IntentFor(p, bundle)],
               history := s.history.(replaced := Displaced(s, request))), None)
  }

  function ActionFor(cs: seq<Choice>, p: ProposalId): Action
    requires p in ChoiceIds(cs)
  {
    if cs[|cs| - 1].proposal == p then cs[|cs| - 1].action
    else
      LastApart(cs);
      ActionFor(cs[..|cs| - 1], p)
  }

  function ResolveProposals(proposals: map<ProposalId, Proposal>, cs: seq<Choice>): map<ProposalId, Proposal> {
    map p | p in proposals ::
      if p in ChoiceIds(cs) then proposals[p].(pending := false, decision := Some(ActionFor(cs, p))) else proposals[p]
  }

  function LockItems(items: seq<Item>, t: TopicId, lock: Lock): seq<Item> {
    seq(|items|, i requires 0 <= i < |items| => if items[i].id == t then items[i].(lock := Pinned(lock)) else items[i])
  }

  function LockOf(receipt: Option<Receipt>): Option<Lock> { if receipt.Some? then Some(receipt.value.lock) else None }

  /** The decision goes on record: its proposals are resolved, its intent is published. */
  function Decided(s: State, request: RequestId, receipt: Option<Receipt>, result: DecisionResult): State
    requires request in s.intents
  {
    var i := s.intents[request];
    s.(proposals := ResolveProposals(s.proposals, i.payload.choices),
       intents := s.intents[request := i.(published := true, receipt := receipt)],
       decisions := s.decisions[request := Decision(i.payload, result)])
  }

  function DecidedTopic(topic: Topic, lock: Option<Lock>, done: bool): Topic {
    var locked := if lock.Some? then topic.(inventory := Pinned(lock.value)) else topic;
    if done then locked.(active := None, review := Eligible) else locked.(review := AwaitingOperator)
  }

  function DecidedItems(items: seq<Item>, t: TopicId, lock: Option<Lock>): seq<Item> {
    if lock.Some? then LockItems(items, t, lock.value) else items
  }

  /** What a decision that can commit leaves. */
  function Resolution(s: State, request: RequestId, receipt: Option<Receipt>): Outcome<DecisionResult>
    requires request in s.intents && s.intents[request].payload.episode in s.episodes
  {
    var p := s.intents[request].payload;
    var remaining := PendingFor(ResolveProposals(s.proposals, p.choices), p.episode);
    var topic := TopicOr(s.topics, p.topic, Unknown);
    var result := DecisionResult(p.topic, p.episode, remaining, topic.next, s.revision + 1);
    var ep := s.episodes[p.episode].(state := if remaining == {} then CompleteWithDecisions else Awaiting);
    Done(MovedTo(Decided(s, request, receipt, result), p.episode, ep, p.topic,
      DecidedTopic(topic, LockOf(receipt), remaining == {})).(
           items := DecidedItems(s.items, p.topic, LockOf(receipt))), result)
  }

  /** Commits the decision of the intent on record, once; the receipt says what its publisher published, if anything. */
  function CommitDecision(s: State, request: RequestId, receipt: Option<Receipt>): Outcome<DecisionResult> {
    if request !in s.intents then Refused(ValidationError)
    else if request in s.decisions then Done(s, s.decisions[request].result)
    else
      var p := s.intents[request].payload;
      if p.episode !in s.episodes || !(ChoiceIds(p.choices) <= s.proposals.Keys) then Refused(ValidationError)
      else Resolution(s, request, receipt)
  }
}
