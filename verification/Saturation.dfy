/** Completion by saturation: research blockers, the pass streak, and the gate that completes a topic. */
module Saturation {
  import opened Common

  // ---------- One iteration's research activity ----------

  /** The exact request a coverage state is about. */
  datatype Key = Key(source: string, requestType: string, subject: string)
  datatype Entry = Entry(key: Key, coverage: string)
  /** A line of the activity file; None when it is blank or not readable as an entry. */
  type Line = Option<Entry>

  const BLOCKING := {"provider_unavailable", "auth_failed"}
  const DEGRADED := {"provider_unavailable", "auth_failed", "not_searched", "metadata_only"}
  const CLEARING := {"searched_ok", "searched_empty", "exhausted"}

  predicate Speaks(l: Line) { l.Some? && l.value.key.source != "" && l.value.coverage != "" }

  /** The last coverage state of a request in the file. */
  function FinalState(lines: seq<Line>, k: Key): Option<string> {
    if lines == [] then None
    else if Speaks(lines[|lines| - 1]) && lines[|lines| - 1].value.key == k then Some(lines[|lines| - 1].value.coverage)
    else FinalState(lines[..|lines| - 1], k)
  }

  function LastOf(lines: seq<Line>, source: string): Option<string> {
    if lines == [] then None
    else if Speaks(lines[|lines| - 1]) && lines[|lines| - 1].value.key.source == source
      then Some(lines[|lines| - 1].value.coverage)
    else LastOf(lines[..|lines| - 1], source)
  }

  function Keys(lines: seq<Line>): set<Key> { set l | l in lines && Speaks(l) :: l.value.key }

  predicate Ends(lines: seq<Line>, k: Key, states: set<string>) {
    FinalState(lines, k).Some? && FinalState(lines, k).value in states
  }

  /** Reduces the file to the requests that end degraded, those that end cleared, and each source's last state. */
  method Summarize(lines: seq<Line>) returns (failures: map<Key, string>, ok: set<Key>, coverage: map<string, string>)
    ensures forall k :: k in failures <==> Ends(lines, k, DEGRADED)
    ensures forall k | k in failures :: FinalState(lines, k) == Some(failures[k])
    ensures forall k :: k in ok <==> Ends(lines, k, CLEARING)
    ensures forall s :: s in coverage <==> LastOf(lines, s).Some?
    ensures forall s | s in coverage :: LastOf(lines, s) == Some(coverage[s])
  {
    var final: map<Key, string> := map[];
    coverage := map[];
    for i := 0 to |lines|
      invariant forall k :: k in final <==> FinalState(lines[..i], k).Some?
      invariant forall k | k in final :: FinalState(lines[..i], k) == Some(final[k])
      invariant forall s :: s in coverage <==> LastOf(lines[..i], s).Some?
      invariant forall s | s in coverage :: LastOf(lines[..i], s) == Some(coverage[s])
    {
      assert lines[..i + 1][..i] == lines[..i];
      if Speaks(lines[i]) {
        final := final[lines[i].value.key := lines[i].value.coverage];
        coverage := coverage[lines[i].value.key.source := lines[i].value.coverage];
      }
    }
    Whole(lines);
    failures := map k | k in final && final[k] in DEGRADED :: final[k];
    ok := set k | k in final && final[k] in CLEARING;
  }

  // ---------- Events of a topic ----------

  datatype Blocker = Blocker(coverage: string, at: int)

  /** What a fresh STOP file of the run says. */
  datatype Stop = NoStop | SaysDone | NeedsOperator

  /** One run of the topic: its activity; whether an operator control ended it; whether the process succeeded; what its
      STOP file says; whether the item is a contract topic, which recurs; whether the run was an assigned checkpoint;
      whether it left the state valid and whether it changed it; the topic's saturation limit; whether the lock-pinned
      gate accepts the state now; whether accounting for it made a review due; and whether a control arrived before its
      outcome was stored. */
  datatype Pass = Pass(lines: seq<Line>, interrupted: bool, succeeded: bool, stop: Stop, recurring: bool,
                       checkpoint: bool, valid: bool,
                       changed: bool, limit: nat, gate: bool, boundary: bool, overruled: bool, at: int)

  /** Requeued: the operator resumes, restarts or reopens the topic. */
  datatype Event = Ran(pass: Pass) | Requeued | Released(sources: set<string>) | ReleasedAll

  datatype Verdict = Complete | Held | Continue
  datatype Outcome = Queued | Scheduled | Completed | NeedsAttention | Failed | Interrupted
  datatype Topic = Topic(streak: nat, blockers: map<Key, Blocker>, outcome: Outcome)

  const DEFAULT_LIMIT := 3
  function Limit(p: Pass): nat { if p.limit == 0 then DEFAULT_LIMIT else p.limit }

  function BlockersAfter(blockers: map<Key, Blocker>, p: Pass): map<Key, Blocker> {
    map k | k in blockers.Keys + Keys(p.lines)
      && (Ends(p.lines, k, BLOCKING) || (k in blockers && !Ends(p.lines, k, CLEARING))) ::
      if k in blockers then blockers[k] else Blocker(FinalState(p.lines, k).value, p.at)
  }

  predicate BlockedPass(p: Pass) { exists k | k in Keys(p.lines) :: Ends(p.lines, k, BLOCKING) }

  function Decide(changed: bool, previous: nat, limit: nat, blocked: bool, open: bool): (nat, Verdict) {
    var streak := if changed then 0 else if blocked then previous else previous + 1;
    (streak, if streak < limit then Continue else if blocked || open then Held else Complete)
  }

  /** The STOP signal that counts: a contract topic may not declare itself done. */
  function Signal(p: Pass): Stop { if p.stop == SaysDone && p.recurring then NoStop else p.stop }

  /** The run reaches the saturation gate. */
  predicate Gated(p: Pass) {
    !p.interrupted && p.succeeded && Signal(p) == NoStop && p.recurring && !p.checkpoint
  }

  function GateDecides(t: Topic, p: Pass): (nat, Verdict) {
    Decide(p.changed, t.streak, Limit(p), BlockedPass(p), t.blockers != map[])
  }

  /** The streak after a run: only the gate writes it, and not when it decides for completion. */
  function StreakAfter(t: Topic, p: Pass): nat {
    if !Gated(p) then t.streak
    else if !p.valid then 0
    else if GateDecides(t, p).1 == Complete then t.streak
    else GateDecides(t, p).0
  }

  /** The outcome a run's own evidence calls for. */
  function Intended(t: Topic, p: Pass): Outcome {
    if p.interrupted then Interrupted
    else if !p.succeeded then Failed
    else if Signal(p) == SaysDone then (if p.gate && t.blockers == map[] then Completed else NeedsAttention)
    else if Signal(p) == NeedsOperator then NeedsAttention
    else if !p.recurring then (if t.blockers == map[] then Completed else NeedsAttention)
    else if p.checkpoint || !p.valid || GateDecides(t, p).1 != Complete then Scheduled
    else if p.gate then Completed
    else NeedsAttention
  }

  /** A completion waits for a review that just became due, and a control that arrived meanwhile wins. */
  function Settled(intended: Outcome, p: Pass): Outcome {
    if p.overruled then Interrupted else if p.boundary && intended == Completed then Scheduled else intended
  }

  function AfterPass(t: Topic, p: Pass): Topic {
    var t1 := t.(blockers := BlockersAfter(t.blockers, p));
    t1.(streak := StreakAfter(t1, p), outcome := Settled(Intended(t1, p), p))
  }

  function After(t: Topic, e: Event): Topic {
    match e
    case Ran(p) => AfterPass(t, p)
    case Requeued => t.(outcome := Queued)
    case Released(sources) => t.(blockers := map k | k in t.blockers && k.source !in sources :: t.blockers[k])
    case ReleasedAll => t.(blockers := map[])
  }

  function History(es: seq<Event>): Topic {
    if es == [] then Topic(0, map[], Queued) else After(History(es[..|es| - 1]), es[|es| - 1])
  }

  // ---------- Blockers ----------

  /** What an event says about a request: it blocks it, clears it, or says nothing. */
  function Says(e: Event, k: Key): Option<bool> {
    match e
    case Ran(p) =>
      if Ends(p.lines, k, BLOCKING) then Some(true) else if Ends(p.lines, k, CLEARING) then Some(false) else None
    case Requeued => None
    case Released(sources) => if k.source in sources then Some(false) else None
    case ReleasedAll => Some(false)
  }

  /** The last thing said about a request. */
  function Latest(es: seq<Event>, k: Key): Option<bool> {
    if es == [] then None
    else if Says(es[|es| - 1], k).Some? then Says(es[|es| - 1], k)
    else Latest(es[..|es| - 1], k)
  }

  lemma {:induction false} FinalKnown(lines: seq<Line>, k: Key)
    ensures FinalState(lines, k).Some? ==> k in Keys(lines)
  {
    if lines != [] {
      FinalKnown(lines[..|lines| - 1], k);
      assert forall l | l in lines[..|lines| - 1] :: l in lines;
    }
  }

  /** A request is a blocker exactly when the last pass, release or clearing that said anything about it left it
      blocking. */
  lemma {:induction false} BlockerIff(es: seq<Event>, k: Key)
    ensures k in History(es).blockers <==> Latest(es, k) == Some(true)
  {
    if es != [] {
      BlockerIff(es[..|es| - 1], k);
      if es[|es| - 1].Ran? { FinalKnown(es[|es| - 1].pass.lines, k); }
    }
  }

  /** A blocker tells its first observation: the run that blocked it when nothing did, with nothing clearing it
      since. */
  lemma {:induction false} BlockerSince(es: seq<Event>, k: Key) returns (i: nat)
    requires k in History(es).blockers
    ensures i < |es| && es[i].Ran? && Ends(es[i].pass.lines, k, BLOCKING) && Latest(es[..i], k) != Some(true)
    ensures History(es).blockers[k] == Blocker(FinalState(es[i].pass.lines, k).value, es[i].pass.at)
    ensures forall j | i < j < |es| :: Says(es[j], k) != Some(false)
  {
    var rest, e := es[..|es| - 1], es[|es| - 1];
    hide *;
    HistoryNext(es);
    BlockerStep(History(rest), e, k);
    if k in History(rest).blockers {
      i := BlockerSince(rest, k);
      assert rest[..i] == es[..i] && rest[i] == es[i];
      forall j | i < j < |es| ensures Says(es[j], k) != Some(false) {
        if j < |rest| { assert es[j] == rest[j]; }
      }
    } else {
      i := |es| - 1;
      assert es[..i] == rest && es[i] == e;
      BlockerIff(rest, k);
    }
  }

  lemma HistoryNext(es: seq<Event>)
    ensures es != [] ==> History(es) == After(History(es[..|es| - 1]), es[|es| - 1])
    ensures es == [] ==> History(es).blockers == map[]
  {
  }

  lemma BlockerStep(t: Topic, e: Event, k: Key)
    requires k in After(t, e).blockers
    ensures k in t.blockers ==> After(t, e).blockers[k] == t.blockers[k] && Says(e, k) != Some(false)
    ensures k !in t.blockers ==>
              && e.Ran? && Ends(e.pass.lines, k, BLOCKING)
              && After(t, e).blockers[k] == Blocker(FinalState(e.pass.lines, k).value, e.pass.at)
  {
  }

  // ---------- Completion ----------

  /** A run that changed the state or left it invalid. */
  predicate Voids(e: Event) { e.Ran? && (!e.pass.valid || e.pass.changed) }

  /** Such a run that the gate never saw: it failed, was interrupted, stopped for the operator, or was an assigned
      checkpoint. */
  predicate Strays(e: Event) { Voids(e) && !Gated(e.pass) }

  /** A valid, unchanged, unblocked run that reached the gate is one piece of evidence. */
  predicate Supports(e: Event) { e.Ran? && Gated(e.pass) && e.pass.valid && !e.pass.changed && !BlockedPass(e.pass) }

  /** The supporting runs at or after position n. */
  function SupportsFrom(es: seq<Event>, n: nat): set<nat> { set i | n <= i < |es| && Supports(es[i]) }

  /** The supporting runs since the last run that changed the state or left it invalid. */
  function Evidence(es: seq<Event>): set<nat> { SupportsFrom(es, Last(es, Voids)) }

  /** The supporting runs since the gate last saw a change or an invalid state. */
  function Counted(es: seq<Event>): set<nat> { SupportsFrom(es, Last(es, GateVoids)) }

  predicate GateVoids(e: Event) { Voids(e) && Gated(e.pass) }

  /** One past the last event that does, or 0. */
  function Last(es: seq<Event>, does: Event -> bool): (n: nat)
    ensures n <= |es| && (n > 0 ==> does(es[n - 1])) && forall j | n <= j < |es| :: !does(es[j])
  {
    if es == [] then 0 else if does(es[|es| - 1]) then |es| else Last(es[..|es| - 1], does)
  }

  lemma LastNext(es: seq<Event>, e: Event, does: Event -> bool)
    ensures Last(es + [e], does) == if does(e) then |es| + 1 else Last(es, does)
  {
    assert (es + [e])[..|es|] == es;
  }

  lemma SupportsNext(es: seq<Event>, e: Event, n: nat)
    requires n <= |es|
    ensures SupportsFrom(es + [e], n) == SupportsFrom(es, n) + (if Supports(e) then {|es|} else {})
    ensures |SupportsFrom(es + [e], n)| == |SupportsFrom(es, n)| + (if Supports(e) then 1 else 0)
  {
    assert (es + [e])[|es|] == e;
    assert forall i: nat | i < |es| :: (es + [e])[i] == es[i];
    assert |es| !in SupportsFrom(es, n);
  }

  /** The streak never exceeds what the gate counted. */
  lemma {:induction false} StreakIsCounted(es: seq<Event>)
    ensures History(es).streak <= |Counted(es)|
  {
    if es != [] {
      var rest, e := es[..|es| - 1], es[|es| - 1];
      StreakIsCounted(rest);
      LastApart(es);
      LastNext(rest, e, GateVoids);
      SupportsNext(rest, e, Last(rest, GateVoids));
    }
  }

  /** The run completed its topic at the saturation gate. */
  predicate CompletesAtGate(es: seq<Event>, p: Pass) { Gated(p) && History(es + [Ran(p)]).outcome == Completed }

  /** The gate completes a topic only on a valid, unchanged, unblocked run that the lock-pinned validation accepts, with
      at least the limit of such runs since it last saw a change or an invalid state. */
  lemma CompletesOnCounted(es: seq<Event>, p: Pass)
    requires CompletesAtGate(es, p)
    ensures Supports(Ran(p)) && p.gate && |Counted(es + [Ran(p)])| >= Limit(p)
  {
    var fs := es + [Ran(p)];
    assert fs[..|fs| - 1] == es;
    StreakIsCounted(es);
    LastNext(es, Ran(p), GateVoids);
    SupportsNext(es, Ran(p), Last(es, GateVoids));
    forall k | k in Keys(p.lines) ensures !Ends(p.lines, k, BLOCKING) {
      assert Ends(p.lines, k, BLOCKING) ==> k in BlockersAfter(History(es).blockers, p);
    }
  }

  /** No request is left blocking. */
  ghost predicate Unblocked(es: seq<Event>) { forall k :: Latest(es, k) != Some(true) }

  /** The gate has seen the limit of counted runs, and nothing blocks. */
  ghost predicate Saturates(es: seq<Event>, p: Pass) {
    Supports(Ran(p)) && Unblocked(es + [Ran(p)]) && |Counted(es + [Ran(p)])| >= Limit(p)
  }

  /** The gate has not decided for completion so far. */
  ghost predicate Unsaturated(es: seq<Event>) {
    forall i | 0 <= i < |es| && es[i].Ran? :: !Saturates(es[..i], es[i].pass)
  }

  lemma UnblockedIff(es: seq<Event>)
    ensures Unblocked(es) <==> History(es).blockers == map[]
  {
    forall k ensures k in History(es).blockers <==> Latest(es, k) == Some(true) { BlockerIff(es, k); }
    if Unblocked(es) { assert History(es).blockers.Keys == {}; }
  }

  lemma SupportedUnblocked(es: seq<Event>, p: Pass)
    requires Unblocked(es + [Ran(p)])
    ensures !BlockedPass(p)
  {
    var fs := es + [Ran(p)];
    assert fs[|fs| - 1] == Ran(p);
    forall k | k in Keys(p.lines) ensures !Ends(p.lines, k, BLOCKING) {
      assert Latest(fs, k) != Some(true);
    }
  }

  lemma CountedNext(es: seq<Event>, e: Event)
    ensures |Counted(es + [e])| == if GateVoids(e) then 0 else |Counted(es)| + if Supports(e) then 1 else 0
  {
    LastNext(es, e, GateVoids);
    SupportsNext(es, e, Last(es, GateVoids));
    if GateVoids(e) { assert SupportsFrom(es + [e], |es| + 1) == {}; }
  }

  /** Until the gate decides for completion, the streak is exactly what it counted: blocked runs neither add to it nor
      take from it. */
  lemma {:induction false} StreakIsExact(es: seq<Event>)
    requires Unsaturated(es)
    ensures History(es).streak == |Counted(es)|
  {
    if es == [] {
      assert Counted(es) == {};
    } else {
      var rest, e := es[..|es| - 1], es[|es| - 1];
      forall i | 0 <= i < |rest| && rest[i].Ran? ensures !Saturates(rest[..i], rest[i].pass) {
        assert rest[..i] == es[..i] && rest[i] == es[i];
      }
      StreakIsExact(rest);
      LastApart(es);
      CountedNext(rest, e);
      if e.Ran? { StreakNext(rest, e.pass); }
    }
  }

  /** What one run does to the streak. */
  lemma StreakNext(es: seq<Event>, p: Pass)
    requires History(es).streak == |Counted(es)| && !Saturates(es, p)
    ensures History(es + [Ran(p)]).streak ==
              if GateVoids(Ran(p)) then 0 else |Counted(es)| + if Supports(Ran(p)) then 1 else 0
  {
    var fs := es + [Ran(p)];
    assert fs[..|fs| - 1] == es;
    UnblockedIff(fs);
    CountedNext(es, Ran(p));
  }

  /** A run completes its topic at the gate exactly when it supports completion, nothing is left blocking, the streak
      with it reaches the limit, the lock-pinned validation accepts, and neither a due review nor a control prevents
      it. */
  lemma CompletesAtGateIff(es: seq<Event>, p: Pass)
    ensures CompletesAtGate(es, p) <==>
              && Supports(Ran(p)) && Unblocked(es + [Ran(p)]) && History(es).streak + 1 >= Limit(p)
              && p.gate && !p.boundary && !p.overruled
  {
    var fs := es + [Ran(p)];
    assert fs[..|fs| - 1] == es;
    UnblockedIff(fs);
    if Unblocked(fs) { SupportedUnblocked(es, p); }
    if CompletesAtGate(es, p) { CompletesOnCounted(es, p); }
  }

  /** The same on what the gate counted, until it decides for completion. */
  lemma CompletesOnCountedIff(es: seq<Event>, p: Pass)
    requires Unsaturated(es)
    ensures CompletesAtGate(es, p) <==> Saturates(es, p) && p.gate && !p.boundary && !p.overruled
  {
    StreakIsExact(es);
    CompletesAtGateIff(es, p);
    CountedNext(es, Ran(p));
  }

  /** An item that is no contract completes exactly when its run succeeded undisturbed and nothing is left blocking: on
      its own word only if the validation accepts too. */
  lemma BoundedCompletesIff(es: seq<Event>, p: Pass)
    requires !p.recurring
    ensures History(es + [Ran(p)]).outcome == Completed <==>
              && !p.interrupted && p.succeeded && !p.boundary && !p.overruled && Unblocked(es + [Ran(p)])
              && (p.stop == NoStop || (p.stop == SaysDone && p.gate))
  {
    assert (es + [Ran(p)])[..|es|] == es;
    UnblockedIff(es + [Ran(p)]);
  }

  /** A run stops its topic for the operator exactly when it was not overruled and either asked for it, or meant to
      complete and something blocks or the validation refuses. */
  lemma AttentionIff(es: seq<Event>, p: Pass)
    ensures History(es + [Ran(p)]).outcome == NeedsAttention <==>
              && !p.overruled && !p.interrupted && p.succeeded
              && (|| p.stop == NeedsOperator
                  || (!p.recurring && (!Unblocked(es + [Ran(p)]) || (p.stop == SaysDone && !p.gate)))
                  || (&& p.recurring && p.stop != NeedsOperator && Supports(Ran(p)) && Unblocked(es + [Ran(p)])
                      && History(es).streak + 1 >= Limit(p) && !p.gate))
  {
    var fs := es + [Ran(p)];
    assert fs[..|fs| - 1] == es;
    UnblockedIff(fs);
    if Unblocked(fs) { SupportedUnblocked(es, p); }
  }

  lemma MoreSupports(es: seq<Event>, m: nat, n: nat)
    requires m <= n
    ensures SupportsFrom(es, n) <= SupportsFrom(es, m) && |SupportsFrom(es, n)| <= |SupportsFrom(es, m)|
  {
    assert SupportsFrom(es, m) == SupportsFrom(es, n) + (SupportsFrom(es, m) - SupportsFrom(es, n));
  }

  /** When the gate completes a topic, the limit of supporting runs has gone by since the last change or invalid state
      exactly when every run that changed or invalidated the state without reaching the gate has at least that many
      supporting runs after it. */
  lemma CompletesOnEvidenceIff(es: seq<Event>, p: Pass)
    requires CompletesAtGate(es, p)
    ensures var fs := es + [Ran(p)];
            |Evidence(fs)| >= Limit(p) <==>
              forall j | 0 <= j < |fs| && Strays(fs[j]) :: |SupportsFrom(fs, j)| >= Limit(p)
  {
    hide CompletesAtGate;
    var fs := es + [Ran(p)];
    CompletesOnCounted(es, p);
    var n := Last(fs, Voids);
    forall j | 0 <= j < |fs| && Strays(fs[j]) ensures |Evidence(fs)| <= |SupportsFrom(fs, j)| {
      MoreSupports(fs, j, n);
    }
    if n > 0 && Strays(fs[n - 1]) {
      assert SupportsFrom(fs, n - 1) == SupportsFrom(fs, n);
    } else {
      assert n > 0 ==> GateVoids(fs[n - 1]);
      assert Last(fs, GateVoids) == n;
    }
  }

  const QUIET := Pass([], false, true, NoStop, true, false, true, false, 3, true, false, false, 0)
  /** The run changed the state and then asked for the operator. */
  const PARKED := QUIET.(stop := NeedsOperator, changed := true)
  /** The run changed the state and then its process failed. */
  const CRASHED := QUIET.(succeeded := false, changed := true)

  /** Two quiet runs, a run that changes the state without reaching the gate, a resume, and one more quiet run complete
      a topic whose limit is 3. */
  lemma CompletesOnOneQuietRun(stray: Pass)
    requires stray == PARKED || stray == CRASHED
    ensures var es := [Ran(QUIET), Ran(QUIET), Ran(stray), Requeued];
            CompletesAtGate(es, QUIET) && |Evidence(es + [Ran(QUIET)])| == 1 < Limit(QUIET)
  {
    var e1, e2, e3, es := [Ran(QUIET)], [Ran(QUIET), Ran(QUIET)], [Ran(QUIET), Ran(QUIET), Ran(stray)],
      [Ran(QUIET), Ran(QUIET), Ran(stray), Requeued];
    assert e1[..0] == [] && e2[..1] == e1 && e3[..2] == e2 && es[..3] == e3 && (es + [Ran(QUIET)])[..4] == es;
    assert BlockersAfter(map[], QUIET) == map[] && BlockersAfter(map[], stray) == map[];
    assert History([]) == Topic(0, map[], Queued);
    assert History(e1).streak == 1 && History(e1).blockers == map[];
    assert History(e2).streak == 2 && History(e2).blockers == map[];
    assert History(e3).streak == 2 && History(e3).blockers == map[];
    assert History(es).streak == 2 && History(es).blockers == map[];
    var fs := es + [Ran(QUIET)];
    LastNext(e3, Requeued, Voids);
    LastNext(es, Ran(QUIET), Voids);
    assert e3 + [Requeued] == es && Last(e3, Voids) == 3;
    assert SupportsFrom(fs, 3) == {4};
  }

  /** Whatever branch completes a topic, no request is left blocking: not when the run declares itself done, not when a
      bounded item finishes, and not at the gate. */
  lemma BlockedNeverCompletes(es: seq<Event>, p: Pass, k: Key)
    requires Latest(es + [Ran(p)], k) == Some(true)
    ensures History(es + [Ran(p)]).outcome != Completed
  {
    var fs := es + [Ran(p)];
    assert fs[..|fs| - 1] == es;
    BlockerIff(fs, k);
  }

  /** A contract topic never completes on its own word. */
  lemma ContractCompletesAtGate(es: seq<Event>, p: Pass)
    requires p.recurring && History(es + [Ran(p)]).outcome == Completed
    ensures CompletesAtGate(es, p)
  {
    assert (es + [Ran(p)])[..|es|] == es;
  }

  // ---------- The topic's queue record ----------

  class TopicRecord {
    var streak: nat
    var blockers: map<Key, Blocker>
    var outcome: Outcome

    function View(): Topic
      reads this
    {
      Topic(streak, blockers, outcome)
    }

    constructor ()
      ensures View() == History([])
    {
      streak, blockers, outcome := 0, map[], Queued;
    }

    /** Clears the requests that succeeded, then adds those that block, keeping the first observation of each. */
    method UpdateBlockers(failures: map<Key, string>, cleared: set<Key>, at: int)
      modifies this`blockers
      ensures blockers == map k | k in (old(blockers).Keys - cleared) + failures.Keys
                                  && ((k in old(blockers) && k !in cleared)
                                       || (k in failures && failures[k] in BLOCKING)) ::
                            if k in old(blockers) && k !in cleared then old(blockers)[k] else Blocker(failures[k], at)
    {
      var current := blockers - cleared;
      blockers := map k | k in current.Keys + failures.Keys
        && (k in current || (k in failures && failures[k] in BLOCKING)) ::
        if k in current then current[k] else Blocker(failures[k], at);
    }

    /** Accounts for one run of the topic. */
    method RecordPass(p: Pass)
      modifies this
      ensures View() == After(old(View()), Ran(p))
    {
      ghost var before := View();
      var failures, ok, _ := Summarize(p.lines);
      UpdateBlockers(failures, ok, p.at);
      SummaryBlocks(before.blockers, p, failures, ok, blockers);
      var blocked := exists k | k in failures :: failures[k] in BLOCKING;
      assert blocked <==> BlockedPass(p) by { BlockedIff(p, failures); }
      var intended := Judge(p, blocked);
      if p.boundary && intended == Completed { intended := Scheduled; }
      outcome := if p.overruled then Interrupted else intended;
    }

    /** Rules on a run once its research activity is recorded; the gate keeps the streak. */
    method Judge(p: Pass, blocked: bool) returns (intended: Outcome)
      requires blocked == BlockedPass(p)
      modifies this`streak
      ensures intended == Intended(old(View()), p) && streak == StreakAfter(old(View()), p)
    {
      if p.interrupted { return Interrupted; }
      if !p.succeeded { return Failed; }
      var signal := if p.stop == SaysDone && p.recurring then NoStop else p.stop;
      if signal == SaysDone { return if p.gate && blockers == map[] then Completed else NeedsAttention; }
      if signal == NeedsOperator { return NeedsAttention; }
      if !p.recurring { return if blockers == map[] then Completed else NeedsAttention; }
      if p.checkpoint { return Scheduled; }
      if !p.valid {
        streak := 0;
        return Scheduled;
      }
      var d := Decide(p.changed, streak, Limit(p), blocked, blockers != map[]);
      if d.1 == Complete { return if p.gate then Completed else NeedsAttention; }
      streak := d.0;
      return Scheduled;
    }

    /** The operator requeues the topic: neither its streak nor its blockers move. */
    method Resume()
      modifies this`outcome
      ensures View() == After(old(View()), Requeued)
    {
      outcome := Queued;
    }

    /** The operator releases blockers: those of some sources, or all. */
    method Resolve(e: Event)
      requires e.Released? || e.ReleasedAll?
      modifies this`blockers
      ensures View() == After(old(View()), e)
    {
      match e {
        case Released(sources) => blockers := map k | k in blockers && k.source !in sources :: blockers[k];
        case ReleasedAll => blockers := map[];
      }
    }
  }

  lemma BlockedIff(p: Pass, failures: map<Key, string>)
    requires forall k :: k in failures <==> Ends(p.lines, k, DEGRADED)
    requires forall k | k in failures :: FinalState(p.lines, k) == Some(failures[k])
    ensures (exists k | k in failures :: failures[k] in BLOCKING) <==> BlockedPass(p)
  {
    forall k ensures k in failures && failures[k] in BLOCKING <==> Ends(p.lines, k, BLOCKING) {
      FinalKnown(p.lines, k);
    }
    forall k | Ends(p.lines, k, BLOCKING) ensures k in Keys(p.lines) { FinalKnown(p.lines, k); }
  }

  lemma SummaryBlocks(before: map<Key, Blocker>, p: Pass, failures: map<Key, string>, ok: set<Key>,
                      after: map<Key, Blocker>)
    requires forall k :: k in failures <==> Ends(p.lines, k, DEGRADED)
    requires forall k | k in failures :: FinalState(p.lines, k) == Some(failures[k])
    requires forall k :: k in ok <==> Ends(p.lines, k, CLEARING)
    requires after == map k | k in (before.Keys - ok) + failures.Keys
             && ((k in before && k !in ok) || (k in failures && failures[k] in BLOCKING)) ::
                        if k in before && k !in ok then before[k] else Blocker(failures[k], p.at)
    ensures after == BlockersAfter(before, p)
  {
    var expected := BlockersAfter(before, p);
    forall k ensures k in after <==> k in expected { FinalKnown(p.lines, k); }
    forall k | k in after ensures after[k] == expected[k] { FinalKnown(p.lines, k); }
  }
}
