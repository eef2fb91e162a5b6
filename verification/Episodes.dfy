/** The checkpoint episode machine and the delegate budget. */
module Episodes {
  import opened Common
  import opened ControlRecords
  import opened Scheduler
  import opened Checkpoints

  // ---------- The episode machine ----------

  function Mirror(st: EpisodeState): Review
    requires Open(st)
  {
    match st
    case Due => CheckpointDue
    case InReview => CheckpointDue
    case RetryWait => CheckpointDue
    case Awaiting => AwaitingOperator
    case Publishing => PublishingDecision
    case Parked => NeedsAttention
  }

  predicate EpisodePlaced(topics: map<TopicId, Topic>, e: EpisodeId, ep: Episode) {
    ep.topic in topics && (Open(ep.state) ==> topics[ep.topic].active == Some(e))
  }

  predicate TopicPlaced(episodes: map<EpisodeId, Episode>, t: TopicId, topic: Topic) {
    match topic.active
    case None => topic.review in {Eligible, NeedsAttention}
    case Some(e) =>
      e in episodes && episodes[e].topic == t && Open(episodes[e].state) && topic.review == Mirror(episodes[e].state)
  }

  /** Each topic has at most one open episode, which is its active one, and its review state mirrors it. */
  ghost predicate EpisodeInv(topics: map<TopicId, Topic>, episodes: map<EpisodeId, Episode>) {
    && (forall e {:trigger EpisodePlaced(topics, e, episodes[e])} | e in episodes ::
         EpisodePlaced(topics, e, episodes[e]))
    && (forall t {:trigger TopicPlaced(episodes, t, topics[t])} | t in topics :: TopicPlaced(episodes, t, topics[t]))
  }

  /** A topic with no open episode is eligible. Orphan parking can break this part alone. */
  ghost predicate Mirrored(topics: map<TopicId, Topic>) {
    forall t | t in topics && topics[t].active.None? :: topics[t].review == Eligible
  }

  /** At most one open episode per topic. */
  lemma OneOpenEpisode(topics: map<TopicId, Topic>, episodes: map<EpisodeId, Episode>, d: EpisodeId, e: EpisodeId)
    requires EpisodeInv(topics, episodes) && d in episodes && e in episodes
    requires Open(episodes[d].state) && Open(episodes[e].state) && episodes[d].topic == episodes[e].topic
    ensures d == e
  {
    assert EpisodePlaced(topics, d, episodes[d]) && EpisodePlaced(topics, e, episodes[e]);
  }

  /** The topic record that goes with an episode in this state. */
  predicate Attends(topic: Topic, e: EpisodeId, st: EpisodeState) {
    if Open(st) then topic.active == Some(e) && topic.review == Mirror(st)
    else topic.active == None && topic.review == Eligible
  }

  lemma SetEpisode(topics: map<TopicId, Topic>, episodes: map<EpisodeId, Episode>, e: EpisodeId, ep: Episode,
                   topic: Topic)
    requires EpisodeInv(topics, episodes) && e in episodes && Open(episodes[e].state) && ep.topic == episodes[e].topic
    requires Attends(topic, e, ep.state)
    ensures EpisodeInv(topics[ep.topic := topic], episodes[e := ep])
    ensures Mirrored(topics) ==> Mirrored(topics[ep.topic := topic])
  {
    var topics', episodes' := topics[ep.topic := topic], episodes[e := ep];
    forall d | d in episodes' ensures EpisodePlaced(topics', d, episodes'[d]) {
      if d != e {
        assert EpisodePlaced(topics, d, episodes[d]);
        if Open(episodes[d].state) && episodes[d].topic == ep.topic { OneOpenEpisode(topics, episodes, d, e); }
      }
    }
    forall t | t in topics' ensures TopicPlaced(episodes', t, topics'[t]) {
      if t != ep.topic { assert TopicPlaced(episodes, t, topics[t]); }
    }
  }

  lemma ActiveIsOpen(topics: map<TopicId, Topic>, episodes: map<EpisodeId, Episode>, e: EpisodeId)
    requires EpisodeInv(topics, episodes) && e in episodes && Open(episodes[e].state)
    ensures var t := episodes[e].topic;
            t in topics && topics[t].active == Some(e) && topics[t].review == Mirror(episodes[e].state)
  {
    assert EpisodePlaced(topics, e, episodes[e]);
    assert TopicPlaced(episodes, episodes[e].topic, topics[episodes[e].topic]);
  }

  /** The episode keeps its topic and state, so the machine does not move. */
  lemma KeepEpisode(topics: map<TopicId, Topic>, episodes: map<EpisodeId, Episode>, e: EpisodeId, ep: Episode)
    requires EpisodeInv(topics, episodes) && e in episodes && ep.topic == episodes[e].topic
             && ep.state == episodes[e].state
    ensures EpisodeInv(topics, episodes[e := ep])
  {
    var episodes' := episodes[e := ep];
    forall d | d in episodes' ensures EpisodePlaced(topics, d, episodes'[d]) {
      assert EpisodePlaced(topics, d, episodes[d]);
    }
    forall t | t in topics ensures TopicPlaced(episodes', t, topics[t]) {
      assert TopicPlaced(episodes, t, topics[t]);
    }
  }

  predicate SameReview(a: Topic, b: Topic) { a.active == b.active && a.review == b.review }

  /** Topic records may change anything but review and active episode, and eligible ones may be added. */
  predicate SameReviews(a: map<TopicId, Topic>, b: map<TopicId, Topic>) {
    && a.Keys <= b.Keys
    && (forall t | t in a :: SameReview(a[t], b[t]))
    && (forall t | t in b && t !in a :: b[t].active.None? && b[t].review == Eligible)
  }

  lemma KeepTopics(topics: map<TopicId, Topic>, topics': map<TopicId, Topic>, episodes: map<EpisodeId, Episode>)
    requires EpisodeInv(topics, episodes) && SameReviews(topics, topics')
    ensures EpisodeInv(topics', episodes)
    ensures Mirrored(topics) ==> Mirrored(topics')
  {
    forall e | e in episodes ensures EpisodePlaced(topics', e, episodes[e]) {
      assert EpisodePlaced(topics, e, episodes[e]);
    }
    forall t | t in topics' ensures TopicPlaced(episodes, t, topics'[t]) {
      if t in topics { assert TopicPlaced(episodes, t, topics[t]); }
    }
  }

  /** New triggers coalesce into the open episode or open the topic's one new episode. */
  lemma TripKeepsMachine(topics: map<TopicId, Topic>, episodes: map<EpisodeId, Episode>, t: TopicId,
                         keys: seq<TriggerKey>, uuid: EpisodeId)
    requires EpisodeInv(topics, episodes) && t in topics && uuid !in episodes
    ensures EpisodeInv(TrippedTopics(topics, episodes, t, keys, uuid), TrippedEpisodes(topics, episodes, t, keys, uuid))
    ensures Mirrored(topics) ==> Mirrored(TrippedTopics(topics, episodes, t, keys, uuid))
  {
    assert TopicPlaced(episodes, t, topics[t]);
    if keys != [] {
      if HasOpenEpisode(topics, episodes, t) {
        var e := topics[t].active.value;
        KeepEpisode(topics, episodes, e, episodes[e].(triggers := AppendNew(episodes[e].triggers, keys)));
      } else {
        var topics', episodes' := TrippedTopics(topics, episodes, t, keys, uuid),
          TrippedEpisodes(topics, episodes, t, keys, uuid);
        forall d | d in episodes' ensures EpisodePlaced(topics', d, episodes'[d]) {
          if d != uuid { assert EpisodePlaced(topics, d, episodes[d]); }
        }
        forall q | q in topics' ensures TopicPlaced(episodes', q, topics'[q]) {
          if q != t { assert TopicPlaced(episodes, q, topics[q]); }
        }
      }
    }
  }

  lemma ParkUnattended(topics: map<TopicId, Topic>, episodes: map<EpisodeId, Episode>, t: TopicId)
    requires EpisodeInv(topics, episodes) && t in topics && topics[t].active.None?
    ensures EpisodeInv(topics[t := topics[t].(review := NeedsAttention)], episodes)
    ensures !Mirrored(topics[t := topics[t].(review := NeedsAttention)])
  {
    var topics' := topics[t := topics[t].(review := NeedsAttention)];
    forall e | e in episodes ensures EpisodePlaced(topics', e, episodes[e]) {
      assert EpisodePlaced(topics, e, episodes[e]);
    }
    forall q | q in topics' ensures TopicPlaced(episodes, q, topics'[q]) {
      assert TopicPlaced(episodes, q, topics[q]);
    }
    assert topics'[t].review != Eligible;
  }

  /** Orphan parking keeps the machine; it keeps the full mirror exactly when the topic has no record or
      still has an active episode. */
  lemma ParkReviewMirrorsIff(topics: map<TopicId, Topic>, episodes: map<EpisodeId, Episode>, t: TopicId)
    requires EpisodeInv(topics, episodes)
    ensures EpisodeInv(ParkedTopics(topics, t), ParkedEpisodes(topics, episodes, t))
    ensures Mirrored(topics) ==> (Mirrored(ParkedTopics(topics, t)) <==> t !in topics || topics[t].active.Some?)
  {
    if t in topics {
      assert TopicPlaced(episodes, t, topics[t]);
      if topics[t].active.Some? {
        var e := topics[t].active.value;
        SetEpisode(topics, episodes, e, episodes[e].(state := Parked), topics[t].(review := NeedsAttention));
      } else {
        ParkUnattended(topics, episodes, t);
      }
    }
  }

  /** A stall trigger replayed at the same count opens a second episode exactly when the first is closed. */
  lemma StallMintsIff(s: State, t: TopicId, v: Version, uuid: EpisodeId)
    requires EpisodeInv(s.topics, s.episodes) && uuid !in s.episodes && v != Unset
    requires StallKey(s, t, v) in s.triggers
    ensures var o := StallCheckpoint(s, t, v, uuid);
            o.Done? && (uuid in o.state.episodes <==> t !in s.topics || s.topics[t].active.None?)
            && StallKey(o.state, t, v) == StallKey(s, t, v)
  {
    if t in s.topics { assert TopicPlaced(s.episodes, t, s.topics[t]); }
  }

  // ---------- The delegate budget ----------

  function UnrefundedResponses(ep: Episode): set<InvocationId> {
    set k | k in ep.invocations && ep.invocations[k].role == Response && !ep.invocations[k].refunded
  }

  ghost predicate HasRole(ep: Episode, role: Role) { exists k | k in ep.invocations :: ep.invocations[k].role == role }

  /** Slots spent, left and refundable always total six; the one repair exchange is left or used. */
  ghost predicate Conserved(ep: Episode) {
    && |ep.invocations| + ep.launches + ep.refunds == 6
    && ep.exchanges + |UnrefundedResponses(ep)| == 1
  }

  /** The invocations that ended with an exit code of the infrastructure. */
  function InfraEnded(ep: Episode): set<InvocationId> {
    set k | k in ep.invocations && ep.invocations[k].finished && ep.invocations[k].exit in {70, 124}
  }

  function Refunded(ep: Episode): set<InvocationId> { set k | k in ep.invocations && ep.invocations[k].refunded }

  /** Refunds go to infrastructure failures, to each of them while they last, and two are there. */
  ghost predicate Refunding(ep: Episode) {
    && Refunded(ep) <= InfraEnded(ep) && |Refunded(ep)| + ep.refunds == 2
    && (ep.refunds > 0 ==> Refunded(ep) == InfraEnded(ep))
  }

  /** At most one invocation is reserved, and each role succeeds at most once. */
  ghost predicate OneAtATime(ep: Episode) {
    && (forall j, k | j in ep.invocations && k in ep.invocations && !ep.invocations[j].finished
         && !ep.invocations[k].finished :: j == k)
    && (forall j, k | j in ep.invocations && k in ep.invocations && ep.invocations[j].role == ep.invocations[k].role
                      && Succeeded(ep.invocations[j]) ::
                           j == k || (ep.invocations[k].finished && !Succeeded(ep.invocations[k])))
  }

  /** Every assessment so far was refunded. */
  predicate Unassessed(ep: Episode) {
    forall k | k in ep.invocations && ep.invocations[k].role == Assessment :: ep.invocations[k].refunded
  }

  /** A response is asked for only after a successful counter, an assessment only after a successful response and once,
      refunds apart. */
  ghost predicate InOrder(ep: Episode) {
    && (HasRole(ep, Response) ==> Successful(ep, Counter))
    && (HasRole(ep, Assessment) ==> Successful(ep, Response))
    && (forall j, k | j in ep.invocations && k in ep.invocations && ep.invocations[j].role == Assessment
          && ep.invocations[k].role == Assessment && !ep.invocations[j].refunded && !ep.invocations[k].refunded ::
          j == k)
    && (ep.phase == ResponseFinished <==> Successful(ep, Response) && Unassessed(ep))
  }

  ghost predicate DelegateInv(ep: Episode) { Conserved(ep) && Refunding(ep) && OneAtATime(ep) && InOrder(ep) }

  /** Exactly the first two infrastructure failures are refunded. */
  lemma RefundsCounted(ep: Episode)
    requires Refunding(ep)
    ensures |Refunded(ep)| == (if |InfraEnded(ep)| < 2 then |InfraEnded(ep)| else 2)
    ensures ep.refunds == 2 - |Refunded(ep)|
  {
    var rest := InfraEnded(ep) - Refunded(ep);
    assert InfraEnded(ep) == Refunded(ep) + rest && |InfraEnded(ep)| == |Refunded(ep)| + |rest|;
  }

  /** A successful assessment implies a successful response, which implies a successful counter. */
  lemma RolesInOrder(ep: Episode)
    requires DelegateInv(ep)
    ensures Successful(ep, Assessment) ==> Successful(ep, Response)
    ensures Successful(ep, Response) ==> Successful(ep, Counter)
    ensures |ep.invocations| <= 6
  {
    if Successful(ep, Assessment) {
      var k :| k in ep.invocations && ep.invocations[k].role == Assessment && Succeeded(ep.invocations[k]);
      assert HasRole(ep, Assessment);
    }
    if Successful(ep, Response) {
      var k :| k in ep.invocations && ep.invocations[k].role == Response && Succeeded(ep.invocations[k]);
      assert HasRole(ep, Response);
    }
  }

  /** Every success of a is kept in b. */
  predicate KeepsSuccess(a: Episode, b: Episode) {
    forall k | k in a.invocations && Succeeded(a.invocations[k]) ::
      k in b.invocations && b.invocations[k] == a.invocations[k]
  }

  lemma SuccessKept(a: Episode, b: Episode, role: Role)
    requires KeepsSuccess(a, b)
    ensures Successful(a, role) ==> Successful(b, role)
  {
  }

  lemma ReserveConserves(ep: Episode, k: InvocationId, role: Role, lease: RunId)
    requires Conserved(ep) && k !in ep.invocations && ReserveRefusal(ep, role).None?
    ensures Conserved(Reserved(ep, k, role, lease))
  {
    var next := Reserved(ep, k, role, lease);
    assert next.invocations.Keys == ep.invocations.Keys + {k};
    if role == Response {
      assert UnrefundedResponses(next) == UnrefundedResponses(ep) + {k};
    } else {
      assert UnrefundedResponses(next) == UnrefundedResponses(ep);
    }
  }

  lemma ReserveKeepsRefunds(ep: Episode, k: InvocationId, role: Role, lease: RunId)
    requires Refunding(ep) && k !in ep.invocations && ReserveRefusal(ep, role).None?
    ensures Refunding(Reserved(ep, k, role, lease))
  {
    var next := Reserved(ep, k, role, lease);
    assert Refunded(next) == Refunded(ep) && InfraEnded(next) == InfraEnded(ep);
  }

  lemma ReserveKeepsSlots(ep: Episode, k: InvocationId, role: Role, lease: RunId)
    requires OneAtATime(ep) && k !in ep.invocations && ReserveRefusal(ep, role).None?
    ensures OneAtATime(Reserved(ep, k, role, lease))
  {
  }

  lemma ReserveKeepsOrder(ep: Episode, k: InvocationId, role: Role, lease: RunId)
    requires InOrder(ep) && k !in ep.invocations && ReserveRefusal(ep, role).None?
    ensures InOrder(Reserved(ep, k, role, lease))
  {
    var next := Reserved(ep, k, role, lease);
    assert KeepsSuccess(ep, next);
    SuccessKept(ep, next, Counter);
    assert Successful(next, Response) <==> Successful(ep, Response) by {
      SuccessKept(ep, next, Response);
      assert forall j | j in next.invocations && Succeeded(next.invocations[j]) :: j in ep.invocations;
    }
    assert forall j | j in ep.invocations :: next.invocations[j] == ep.invocations[j];
    if role == Assessment {
      assert Unassessed(ep) && !next.invocations[k].refunded;
    } else {
      assert HasRole(next, Assessment) ==> HasRole(ep, Assessment);
      assert Unassessed(next) <==> Unassessed(ep);
    }
    if role != Response { assert HasRole(next, Response) ==> HasRole(ep, Response); }
  }

  lemma NotRefunded(ep: Episode, k: InvocationId)
    requires Refunding(ep) && k in ep.invocations && !ep.invocations[k].finished
    ensures !ep.invocations[k].refunded
  {
    assert k !in InfraEnded(ep) && k !in Refunded(ep);
  }

  lemma RecordConserves(ep: Episode, k: InvocationId, exit: int, output: bool, complete: bool)
    requires Conserved(ep) && Refunding(ep) && k in ep.invocations && !ep.invocations[k].finished
    ensures Conserved(Recorded(ep, k, exit, output, complete))
  {
    var next := Recorded(ep, k, exit, output, complete);
    assert next.invocations.Keys == ep.invocations.Keys;
    NotRefunded(ep, k);
    if ep.invocations[k].role == Response && next.invocations[k].refunded {
      assert UnrefundedResponses(ep) == UnrefundedResponses(next) + {k};
    } else {
      assert UnrefundedResponses(ep) == UnrefundedResponses(next);
    }
  }

  lemma RecordKeepsRefunds(ep: Episode, k: InvocationId, exit: int, output: bool, complete: bool)
    requires Refunding(ep) && k in ep.invocations && !ep.invocations[k].finished
    ensures Refunding(Recorded(ep, k, exit, output, complete))
  {
    var next := Recorded(ep, k, exit, output, complete);
    NotRefunded(ep, k);
    assert InfraEnded(next) == if exit in {70, 124} then InfraEnded(ep) + {k} else InfraEnded(ep);
    assert Refunded(next) == if next.invocations[k].refunded then Refunded(ep) + {k} else Refunded(ep);
  }

  lemma RecordKeepsSlots(ep: Episode, k: InvocationId, exit: int, output: bool, complete: bool)
    requires OneAtATime(ep) && k in ep.invocations && !ep.invocations[k].finished
    ensures OneAtATime(Recorded(ep, k, exit, output, complete))
  {
  }

  lemma RecordedShape(ep: Episode, k: InvocationId, exit: int, output: bool, complete: bool)
    requires k in ep.invocations && !ep.invocations[k].finished
    ensures var next, role := Recorded(ep, k, exit, output, complete), ep.invocations[k].role;
            && next.invocations.Keys == ep.invocations.Keys && next.invocations[k].role == role
            && (forall j | j in ep.invocations && j != k :: next.invocations[j] == ep.invocations[j])
            && (role == Response ==> (next.phase == ResponseFinished <==> Succeeded(next.invocations[k])))
            && (role == Assessment ==> (next.phase == ResponseFinished <==> next.invocations[k].refunded))
            && (role !in {Response, Assessment} ==> next.phase == ep.phase) && KeepsSuccess(ep, next)
  {
  }

  lemma RecordKeepsOrder(ep: Episode, k: InvocationId, exit: int, output: bool, complete: bool)
    requires InOrder(ep) && Refunding(ep) && OneAtATime(ep) && k in ep.invocations && !ep.invocations[k].finished
    ensures InOrder(Recorded(ep, k, exit, output, complete))
  {
    var next := Recorded(ep, k, exit, output, complete);
    NotRefunded(ep, k);
    RecordedShape(ep, k, exit, output, complete);
    hide Recorded, HasRole, Successful, Unassessed, Succeeded, KeepsSuccess;
    SuccessKept(ep, next, Counter);
    SameRoles(ep, next);
    match ep.invocations[k].role
    case Response => RespondedOrder(ep, next, k);
    case Assessment => AssessedOrder(ep, next, k);
    case _ => OtherOrder(ep, next, k);
  }

  lemma SameRoles(ep: Episode, next: Episode)
    requires next.invocations.Keys == ep.invocations.Keys
    requires forall j | j in ep.invocations :: next.invocations[j].role == ep.invocations[j].role
    ensures forall role :: HasRole(next, role) <==> HasRole(ep, role)
  {
    forall role ensures HasRole(next, role) <==> HasRole(ep, role) {
      if HasRole(ep, role) {
        var j :| j in ep.invocations && ep.invocations[j].role == role;
        assert next.invocations[j].role == role;
      }
    }
  }

  lemma OtherOrder(ep: Episode, next: Episode, k: InvocationId)
    requires InOrder(ep) && KeepsSuccess(ep, next) && k in ep.invocations && next.phase == ep.phase
    requires ep.invocations[k].role !in {Response, Assessment} && next.invocations.Keys == ep.invocations.Keys
             && next.invocations[k].role == ep.invocations[k].role
    requires forall j | j in ep.invocations && j != k :: next.invocations[j] == ep.invocations[j]
    ensures next.phase == ResponseFinished <==> Successful(next, Response) && Unassessed(next)
  {
    SuccessKept(ep, next, Response);
    assert Successful(next, Response) ==> Successful(ep, Response);
    assert Unassessed(next) <==> Unassessed(ep);
  }

  /** A response just closed: no response had succeeded before, so no assessment had been asked for. */
  lemma RespondedOrder(ep: Episode, next: Episode, k: InvocationId)
    requires InOrder(ep) && OneAtATime(ep) && k in ep.invocations && !ep.invocations[k].finished
    requires ep.invocations[k].role == Response && next.invocations.Keys == ep.invocations.Keys
             && next.invocations[k].role == Response
    requires forall j | j in ep.invocations && j != k :: next.invocations[j] == ep.invocations[j]
    requires next.phase == ResponseFinished <==> Succeeded(next.invocations[k])
    ensures next.phase == ResponseFinished <==> Successful(next, Response) && Unassessed(next)
    ensures !HasRole(next, Assessment)
  {
    assert !Successful(ep, Response) && !HasRole(ep, Assessment);
    assert Successful(next, Response) ==> Succeeded(next.invocations[k]);
  }

  /** An assessment just closed: it was the only one not refunded. */
  lemma AssessedOrder(ep: Episode, next: Episode, k: InvocationId)
    requires InOrder(ep) && k in ep.invocations && !ep.invocations[k].refunded
    requires ep.invocations[k].role == Assessment && next.invocations.Keys == ep.invocations.Keys
             && next.invocations[k].role == Assessment
    requires forall j | j in ep.invocations && j != k :: next.invocations[j] == ep.invocations[j]
    requires next.phase == ResponseFinished <==> next.invocations[k].refunded
    ensures next.phase == ResponseFinished <==> Successful(next, Response) && Unassessed(next)
  {
    assert HasRole(ep, Assessment);
    var r :| r in ep.invocations && ep.invocations[r].role == Response && Succeeded(ep.invocations[r]);
    assert next.invocations[r] == ep.invocations[r];
  }

  lemma ReserveKeepsBudget(ep: Episode, k: InvocationId, role: Role, lease: RunId)
    requires DelegateInv(ep) && k !in ep.invocations && ReserveRefusal(ep, role).None?
    ensures DelegateInv(Reserved(ep, k, role, lease))
  {
    ReserveConserves(ep, k, role, lease);
    ReserveKeepsRefunds(ep, k, role, lease);
    ReserveKeepsSlots(ep, k, role, lease);
    ReserveKeepsOrder(ep, k, role, lease);
  }

  lemma RecordKeepsBudget(ep: Episode, k: InvocationId, exit: int, output: bool, complete: bool)
    requires DelegateInv(ep) && k in ep.invocations && !ep.invocations[k].finished
    ensures DelegateInv(Recorded(ep, k, exit, output, complete))
  {
    RecordConserves(ep, k, exit, output, complete);
    RecordKeepsRefunds(ep, k, exit, output, complete);
    RecordKeepsSlots(ep, k, exit, output, complete);
    RecordKeepsOrder(ep, k, exit, output, complete);
  }

  // ---------- What one delegate step does ----------

  /** Closing a reserved invocation gives its slot back exactly when it ended with an infrastructure exit code and a
      refund is left; a refunded response gets its exchange back. Nothing else about the review but its phase moves. */
  lemma RefundedIff(s: State, e: EpisodeId, k: InvocationId, exit: int, output: bool, complete: bool)
    requires e in s.episodes && k in s.episodes[e].invocations && !s.episodes[e].invocations[k].finished
    ensures var o := RecordDelegate(s, e, k, exit, output, complete);
            && o.Done? && e in o.state.episodes && k in o.state.episodes[e].invocations
            && var a, b := s.episodes[e], o.state.episodes[e];
               var i, j := a.invocations[k], b.invocations[k];
               && (j.refunded <==> (exit == 70 || exit == 124) && a.refunds > 0)
               && j == i.(finished := true, exit := exit, output := output, complete := complete,
                          refunded := j.refunded)
               && b.launches == a.launches + (if j.refunded then 1 else 0)
               && b.refunds + (if j.refunded then 1 else 0) == a.refunds
               && b.exchanges == a.exchanges + (if j.refunded && i.role == Response then 1 else 0)
               && b == a.(invocations := a.invocations[k := j], launches := b.launches, refunds := b.refunds,
                          exchanges := b.exchanges, phase := b.phase)
               && o.state == s.(episodes := s.episodes[e := b]) && o.value == j
  {
  }

  /** A running review grants its run a new delegate slot exactly when none is reserved, a launch is left, the role has
      not succeeded yet, and what the role builds on is there: for a response a successful counter, the exchange and a
      second launch; for an assessment a successful response and no assessment yet that was not refunded. */
  lemma ReserveIff(s: State, e: EpisodeId, lease: RunId, k: InvocationId, role: Role)
    requires e in s.episodes && DelegateInv(s.episodes[e]) && k !in s.episodes[e].invocations
    ensures var ep := s.episodes[e];
            ReserveDelegate(s, e, lease, k, role, None).Done? <==>
              && ep.state == InReview && ep.run == Some(lease) && ep.launches > 0
              && (forall j | j in ep.invocations ::
                    ep.invocations[j].finished && (ep.invocations[j].role == role ==> ep.invocations[j].exit != 0))
              && (role == Response ==> Successful(ep, Counter) && ep.exchanges > 0 && ep.launches > 1)
              && (role == Assessment ==> Successful(ep, Response) && Unassessed(ep))
  {
    var ep := s.episodes[e];
    RolesInOrder(ep);
    if !AnyReserved(ep) {
      assert Successful(ep, role) <==>
        exists j | j in ep.invocations :: ep.invocations[j].role == role && ep.invocations[j].exit == 0;
    }
  }

  /** The slot it grants: one launch less, for a response the exchange as well, and a reserved invocation of that
      role. */
  lemma ReserveSpends(s: State, e: EpisodeId, lease: RunId, k: InvocationId, role: Role, token: Option<Token>)
    requires e in s.episodes && k !in s.episodes[e].invocations
    requires ReserveDelegate(s, e, lease, k, role, token).Done?
    ensures var o := ReserveDelegate(s, e, lease, k, role, token);
            && e in o.state.episodes
            && var a, b := s.episodes[e], o.state.episodes[e];
               var i := Invocation(role, lease, false, 0, false, false, false);
               && b.launches + 1 == a.launches && b.exchanges + (if role == Response then 1 else 0) == a.exchanges
               && b == a.(invocations := a.invocations[k := i], launches := b.launches, exchanges := b.exchanges,
                          phase := b.phase)
               && o.state == s.(episodes := s.episodes[e := b]) && o.value == (i, true)
  {
  }

  lemma AssessmentOpen(a: Episode, b: Episode, k: InvocationId)
    requires DelegateInv(a) && k in a.invocations && !a.invocations[k].finished && a.invocations[k].role == Assessment
    requires k in b.invocations && b.invocations == a.invocations[k := b.invocations[k]]
    requires b.invocations[k].finished && b.invocations[k].refunded && b.invocations[k].role == Assessment
             && b.invocations[k].exit != 0
    ensures Unassessed(b) && Successful(b, Response)
    ensures forall j | j in b.invocations ::
              b.invocations[j].finished && (b.invocations[j].role == Assessment ==> b.invocations[j].exit != 0)
  {
    NotRefunded(a, k);
    assert HasRole(a, Assessment);
    assert KeepsSuccess(a, b);
    SuccessKept(a, b, Response);
  }

  /** A refunded assessment can be asked for again. */
  lemma AssessmentAgain(s: State, e: EpisodeId, k: InvocationId, exit: int, lease: RunId, j: InvocationId)
    requires e in s.episodes && DelegateInv(s.episodes[e]) && s.episodes[e].state == InReview
             && s.episodes[e].run == Some(lease)
    requires k in s.episodes[e].invocations && !s.episodes[e].invocations[k].finished
             && s.episodes[e].invocations[k].role == Assessment
    requires exit in {70, 124} && s.episodes[e].refunds > 0 && j !in s.episodes[e].invocations
    ensures var o := RecordDelegate(s, e, k, exit, false, false);
            o.Done? && ReserveDelegate(o.state, e, lease, j, Assessment, None).Done?
  {
    var o, ep := RecordDelegate(s, e, k, exit, false, false), s.episodes[e];
    RefundedIff(s, e, k, exit, false, false);
    RecordKeepsBudget(ep, k, exit, false, false);
    assert o.state.episodes[e] == Recorded(ep, k, exit, false, false);
    hide Recorded, RecordDelegate, ReserveDelegate;
    AssessmentOpen(ep, o.state.episodes[e], k);
    ReserveIff(o.state, e, lease, j, Assessment);
  }

  lemma NewEpisodeBudget(t: TopicId, topic: Topic, keys: seq<TriggerKey>)
    ensures DelegateInv(NewEpisode(t, topic, keys))
  {
    var ep := NewEpisode(t, topic, keys);
    assert UnrefundedResponses(ep) == {} && Refunded(ep) == {} && InfraEnded(ep) == {};
  }

  /** A role still open after one more invocation of another role went through. */
  lemma StillOpen(ep: Episode, k: InvocationId, role: Role, lease: RunId, other: Role)
    requires k !in ep.invocations && ReserveRefusal(ep, role).None? && other != role && !Successful(ep, other)
    ensures var next := Recorded(Reserved(ep, k, role, lease), k, 0, true, true);
            !AnyReserved(next) && !Successful(next, other) && next.launches == ep.launches - 1
  {
    var next := Recorded(Reserved(ep, k, role, lease), k, 0, true, true);
    forall j | j in next.invocations && j != k ensures j in ep.invocations && next.invocations[j] == ep.invocations[j] {
    }
  }

  /** Two slots at the start of a repair do not guarantee the assessment one: a preparation that has
      not succeeded yet may take the last slot, and then the assessment is refused. */
  lemma RepairMayStarve(ep: Episode, a: InvocationId, b: InvocationId, lease: RunId)
    requires a !in ep.invocations && b !in ep.invocations && a != b
    requires ep.launches == 2 && ReserveRefusal(ep, Response).None? && !Successful(ep, Preparation)
    ensures var mid := Recorded(Reserved(ep, a, Response, lease), a, 0, true, true);
            && ReserveRefusal(mid, Assessment).None? && ReserveRefusal(mid, Preparation).None?
            && var end := Recorded(Reserved(mid, b, Preparation, lease), b, 0, true, true);
               end.phase == ResponseFinished && ReserveRefusal(end, Assessment) == Some(BudgetExhausted)
  {
    StillOpen(ep, a, Response, lease, Preparation);
    StillOpen(ep, a, Response, lease, Assessment);
    var mid := Recorded(Reserved(ep, a, Response, lease), a, 0, true, true);
    StillOpen(mid, b, Preparation, lease, Assessment);
  }

  // ---------- When the assessment keeps its slot ----------

  datatype DelegateStep = Spends(id: InvocationId, role: Role, lease: RunId)
                        | Closes(id: InvocationId, exit: int, output: bool, complete: bool)

  predicate Goes(ep: Episode, step: DelegateStep) {
    match step
    case Spends(k, role, _) => k !in ep.invocations && ReserveRefusal(ep, role).None?
    case Closes(k, _, _, _) => k in ep.invocations && !ep.invocations[k].finished
  }

  function Gone(ep: Episode, step: DelegateStep): Episode
    requires Goes(ep, step)
  {
    match step
    case Spends(k, role, lease) => Reserved(ep, k, role, lease)
    case Closes(k, exit, output, complete) => Recorded(ep, k, exit, output, complete)
  }

  /** The episode after these delegate steps; None when one of them is refused. */
  function AfterSteps(ep: Episode, steps: seq<DelegateStep>): Option<Episode>
    decreases |steps|
  {
    if steps == [] then Some(ep) else if Goes(ep, steps[0]) then AfterSteps(Gone(ep, steps[0]), steps[1..]) else None
  }

  /** The repair response succeeded, and nothing runs; an assessment is what remains of the repair. */
  predicate Responded(ep: Episode) {
    && ep.phase == ResponseFinished && Successful(ep, Response) && Successful(ep, Counter)
    && !Successful(ep, Assessment) && !AnyReserved(ep)
    && ep.launches >= 1
  }

  /** No step reserves an assessment. */
  predicate Before(steps: seq<DelegateStep>) { forall x | x in steps && x.Spends? :: x.role != Assessment }

  /** Until the first assessment is reserved, it finds a slot whenever no other delegate is running. */
  ghost predicate KeepsSlot(ep: Episode) {
    forall steps | Before(steps) && AfterSteps(ep, steps).Some? && !AnyReserved(AfterSteps(ep, steps).value) ::
      ReserveRefusal(AfterSteps(ep, steps).value, Assessment).None?
  }

  /** After a response only an assessment, or a preparation that has not succeeded yet, can be reserved. */
  lemma OpenRoles(ep: Episode, step: DelegateStep)
    requires Responded(ep) && Goes(ep, step)
    ensures step.Spends? && (step.role == Assessment || (step.role == Preparation && !Successful(ep, Preparation)))
  {
    if step.Closes? { assert AnyReserved(ep); }
  }

  /** A preparation that fails spends a slot and changes nothing else that matters. */
  lemma FailedPreparation(ep: Episode, k: InvocationId, lease: RunId)
    requires Responded(ep) && !Successful(ep, Preparation) && k !in ep.invocations
    ensures ReserveRefusal(ep, Preparation).None?
    ensures var mid := Reserved(ep, k, Preparation, lease); k in mid.invocations && !mid.invocations[k].finished
    ensures var next := Recorded(Reserved(ep, k, Preparation, lease), k, 1, false, false);
            && next.launches == ep.launches - 1 && next.phase == ResponseFinished && !AnyReserved(next)
            && !Successful(next, Preparation) && !Successful(next, Assessment) && Successful(next, Response)
            && Successful(next, Counter)
  {
    var next := Recorded(Reserved(ep, k, Preparation, lease), k, 1, false, false);
    assert next.invocations == ep.invocations[k := Invocation(Preparation, lease, true, 1, false, false, false)];
    var r :| r in ep.invocations && ep.invocations[r].role == Response && Succeeded(ep.invocations[r]);
    var c :| c in ep.invocations && ep.invocations[c].role == Counter && Succeeded(ep.invocations[c]);
    assert next.invocations[r] == ep.invocations[r] && next.invocations[c] == ep.invocations[c];
  }

  lemma {:induction false} FreshId(used: set<InvocationId>) returns (k: InvocationId)
    ensures forall u | u in used :: u < k
  {
    if used == {} {
      k := 0;
    } else {
      var u :| u in used;
      k := FreshId(used - {u});
      assert forall x | x in used :: x == u || x in used - {u};
      if k <= u { k := u + 1; }
    }
  }

  /** Preparations that fail, one after the other, can spend every slot that is left. */
  lemma {:induction false} PreparationsExhaust(ep: Episode, lease: RunId) returns (steps: seq<DelegateStep>)
    requires Responded(ep) && !Successful(ep, Preparation)
    ensures Before(steps) && AfterSteps(ep, steps).Some?
    ensures var end := AfterSteps(ep, steps).value;
            !AnyReserved(end) && ReserveRefusal(end, Assessment) == Some(BudgetExhausted)
    decreases ep.launches
  {
    var k := FreshId(ep.invocations.Keys);
    FailedPreparation(ep, k, lease);
    var mid := Reserved(ep, k, Preparation, lease);
    var next := Recorded(mid, k, 1, false, false);
    var rest: seq<DelegateStep> := [];
    if next.launches >= 1 { rest := PreparationsExhaust(next, lease); }
    var later := [Closes(k, 1, false, false)] + rest;
    steps := [Spends(k, Preparation, lease)] + later;
    assert steps[1..] == later && later[1..] == rest;
    assert AfterSteps(mid, later) == AfterSteps(next, rest);
  }

  /** After a successful response the assessment is sure of its slot exactly when the preparation has already
      succeeded. */
  lemma RepairSlotIff(ep: Episode)
    requires Responded(ep)
    ensures KeepsSlot(ep) <==> Successful(ep, Preparation)
  {
    if Successful(ep, Preparation) {
      forall steps | Before(steps) && AfterSteps(ep, steps).Some? ensures steps == [] {
        if steps != [] { OpenRoles(ep, steps[0]); }
      }
    } else {
      var steps := PreparationsExhaust(ep, 0);
    }
  }
}
