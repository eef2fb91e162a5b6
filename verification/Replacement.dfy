/** When one call of a request replaces the intent of another: the step that does it, the callers that cannot, and what
    they are spared. */
module Replacement {
  import opened Common
  import opened ControlRecords
  import opened Scheduler
  import opened Checkpoints
  import opened Reviews
  import opened OperatorSteps
  import opened Runs
  import opened Bystanders
  import opened Publication
  import opened PublicationSafety
  import opened PublicationTheorems
  import GuardedWrites
  import SemanticState

  // ---------- The step that replaces ----------

  /** A caller whose snapshot saw no intent records one, and its request has an undecided intent of this payload by
      now. */
  predicate Displaces(w: World, step: Step, r: RequestId, p: Payload) {
    && ByCaller(w, step)
    && var k := w.callers[step.caller];
       && k.pc.Deciding? && k.request == r && Undecided(w.store.intents, w.store.decisions, r)
       && w.store.intents[r].payload == p
       && IntentRefusal(w.store, k.payload, Prepare(w, k.payload)).None?
  }

  lemma IntendReplaces(w: World, c: CallerId)
    requires hide *; true
    requires c in w.callers
    ensures var k, o := w.callers[c], AfterIntend(w, c);
            if k.request !in w.store.decisions && IntentRefusal(w.store, k.payload, Prepare(w, k.payload)).None?
            then o.store.history.replaced == Displaced(w.store, k.request)
              && o.store.intents == w.store.intents[k.request := IntentFor(k.payload, Prepare(w, k.payload))]
            else o.store == w.store
  {
    hide Prepare, Journaled;
    var k := w.callers[c];
    if k.request !in w.store.decisions && IntentRefusal(w.store, k.payload, Prepare(w, k.payload)).None? {
      IntentShape(w.store, k.request, k.payload, Prepare(w, k.payload));
    }
  }

  lemma RecordReplacesNothing(w: World, c: CallerId)
    requires hide *; true
    requires Good(w.store) && c in w.callers && w.callers[c].pc.Storing? && CallerKnows(w.store, w.callers[c])
    ensures AfterRecord(w, c).store.history.replaced == w.store.history.replaced
  {
    hide Good, AfterRecord, CommitDecision;
    var k := w.callers[c];
    CommitGoesThrough(w, c);
    RecordedWorld(w, c, CommitDecision(w.store, k.request, k.pc.receipt));
    CommitShape(w.store, k.request, k.pc.receipt);
  }

  lemma AdvanceReplaces(w: World, c: CallerId)
    requires hide *; true
    requires Good(w.store) && CallersInv(w) && c in w.callers && !w.callers[c].pc.Deciding?
    ensures Advanced(w, c).store.history.replaced == w.store.history.replaced
  {
    hide *;
    AdvancedIs(w, c);
    KnownAt(w, c);
    if w.callers[c].pc.Storing? { RecordReplacesNothing(w, c); } else { AdvanceLeavesStore(w, c); }
  }

  lemma TransactReplacesNothing(s: State, op: Op)
    requires hide *; true
    requires |s.seats| == MAX_STATIONS && Good(s) && Allowed(s, op) && !op.Intending? && !op.Committing?
    ensures Apply(s, op).history.replaced == s.history.replaced
  {
    hide *;
    ApplyIs(s, op);
    if op.Editing? {
      EditFrame(s, op.items, op.paused, op.stopping);
    } else {
      StepBystander(s, op);
      BystanderReplaces(s, Apply(s, op));
    }
  }

  lemma BystanderReplaces(s: State, t: State)
    requires Bystander(s, t)
    ensures t.history.replaced == s.history.replaced
  {
  }

  lemma AsideReplacesNothing(w: World, step: Step, o: World)
    requires hide *; true
    requires Leads(w, step, o) && !step.Advance? && !step.Transact?
    ensures o.store == w.store && o.strays == w.strays
    ensures forall d | d in o.callers && o.callers[d].pc.Deciding? :: d in w.callers && w.callers[d] == o.callers[d]
  {
    hide Leads, Apply, Allowed, EditAgrees, Journaled, Advanced, GuardedWrites.WriteOf;
    LeadsIs(w, step, o);
  }

  /** Only a caller deciding on its request replaces anything. */
  lemma OthersReplaceNothing(w: World, step: Step, o: World)
    requires hide Leads, Safe; true
    requires Safe(w) && Leads(w, step, o) && !(ByCaller(w, step) && w.callers[step.caller].pc.Deciding?)
    ensures o.store.history.replaced == w.store.history.replaced
  {
    ByCallerIs(w, step);
    hide *;
    SafeParts(w);
    LeadsIs(w, step, o);
    match step
    case Advance(c) => AdvanceReplaces(w, c);
    case Transact(op) => TransactReplacesNothing(w.store, op);
    case _ => AsideReplacesNothing(w, step, o);
  }

  lemma ByCallerIs(w: World, step: Step)
    ensures ByCaller(w, step) <==> step.Advance? && step.caller in w.callers
  {
  }

  lemma DecidingReplacesIff(w: World, c: CallerId, r: RequestId, p: Payload)
    requires hide *; true
    requires c in w.callers && w.callers[c].pc.Deciding? && (r, p) !in w.store.history.replaced
    ensures (r, p) in Advanced(w, c).store.history.replaced <==> Displaces(w, Advance(c), r, p)
  {
    hide Advanced, AfterIntend, Prepare, AfterRecord;
    IntendReplaces(w, c);
    AdvancedIs(w, c);
  }

  lemma StepReplacesIff(w: World, step: Step, o: World, r: RequestId, p: Payload)
    requires Safe(w) && Leads(w, step, o) && (r, p) !in w.store.history.replaced
    ensures (r, p) in o.store.history.replaced <==> Displaces(w, step, r, p)
  {
    hide *;
    ByCallerIs(w, step);
    if Displaces(w, step, r, p) { DisplacerIs(w, step, r, p); }
    if ByCaller(w, step) && w.callers[step.caller].pc.Deciding? {
      LeadsIs(w, step, o);
      DecidingReplacesIff(w, step.caller, r, p);
    } else {
      OthersReplaceNothing(w, step, o);
    }
  }

  lemma DisplacerIs(w: World, step: Step, r: RequestId, p: Payload)
    requires Displaces(w, step, r, p)
    ensures ByCaller(w, step) && w.callers[step.caller].pc.Deciding? && w.callers[step.caller].request == r
    ensures Undecided(w.store.intents, w.store.decisions, r) && w.store.intents[r].payload == p
    ensures IntentRefusal(w.store, w.callers[step.caller].payload, Prepare(w, w.callers[step.caller].payload)).None?
  {
    hide IntentRefusal, Prepare;
  }

  /** An undecided intent is replaced exactly when a caller that saw none at its snapshot has its own payload accepted
      at the present revision. Then the payloads differ, and the caller's expected revision was still to come at its
      snapshot. */
  lemma ReplacesIff(worlds: seq<World>, steps: seq<Step>, i: nat, r: RequestId, p: Payload)
    requires hide Leads, Prepare; true
    requires Trace(worlds, steps) && i < |steps| && (r, p) !in worlds[i].store.history.replaced
    ensures (r, p) in worlds[i + 1].store.history.replaced <==> Displaces(worlds[i], steps[i], r, p)
    ensures Displaces(worlds[i], steps[i], r, p) ==>
              var w, k := worlds[i], worlds[i].callers[steps[i].caller];
              k.payload != p && k.payload.expected == w.store.revision > k.pc.seen
  {
    hide *;
    TraceLeads(worlds, steps, i);
    TraceSafe(worlds, steps, i);
    SafeParts(worlds[i]);
    StepReplacesIff(worlds[i], steps[i], worlds[i + 1], r, p);
    ByCallerIs(worlds[i], steps[i]);
    if Displaces(worlds[i], steps[i], r, p) {
      DisplacerIs(worlds[i], steps[i], r, p);
      DisplacedEarly(worlds[i], steps[i].caller, r, p);
    }
  }

  lemma DisplacedEarly(w: World, c: CallerId, r: RequestId, p: Payload)
    requires hide Good, Prepare, CallersInv; true
    requires Good(w.store) && CallersInv(w) && c in w.callers && w.callers[c].pc.Deciding? && w.callers[c].request == r
    requires Undecided(w.store.intents, w.store.decisions, r) && w.store.intents[r].payload == p
    requires IntentRefusal(w.store, w.callers[c].payload, Prepare(w, w.callers[c].payload)).None?
    ensures w.callers[c].payload != p && w.callers[c].payload.expected == w.store.revision > w.callers[c].pc.seen
  {
    hide Good, Prepare;
    assert CallerKnows(w.store, w.callers[c]);
    AcceptedIsNew(w.store, r, w.callers[c].payload, Prepare(w, w.callers[c].payload));
  }

  // ---------- Callers that name a revision they may have seen ----------

  /** No call names a revision that is still to come when it takes its snapshot. */
  ghost predicate Punctual(worlds: seq<World>, steps: seq<Step>) {
    forall i | 0 <= i < |steps| && i < |worlds| :: OnTime(worlds[i], steps[i])
  }

  predicate OnTime(w: World, step: Step) {
    ByCaller(w, step) && w.callers[step.caller].pc.Fresh? ==>
      w.callers[step.caller].payload.expected <= w.store.revision
  }

  /** Nothing was replaced, and nobody who could still replace an intent. */
  ghost predicate InTime(w: World) {
    && w.store.history.replaced == {} && w.strays == map[]
    && forall c | c in w.callers && w.callers[c].pc.Deciding? :: w.callers[c].payload.expected <= w.callers[c].pc.seen
  }

  /** A caller that is in time replaces nothing. */
  lemma DecidingInTime(w: World, c: CallerId)
    requires hide *; true
    requires Good(w.store) && CallersInv(w) && InTime(w) && c in w.callers && w.callers[c].pc.Deciding?
    ensures Advanced(w, c).store.history.replaced == {}
  {
    hide Good, Prepare, AfterRecord;
    var k := w.callers[c];
    assert CallerKnows(w.store, k);
    IntendReplaces(w, c);
    AdvancedIs(w, c);
    if k.request in w.store.intents && k.request !in w.store.decisions
      && IntentRefusal(w.store, k.payload, Prepare(w, k.payload)).None? {
      DisplacedEarly(w, c, k.request, w.store.intents[k.request].payload);
    }
  }

  lemma CommitInTime(w: World, c: CallerId)
    requires CallersInv(w) && InTime(w) && c in w.callers && w.callers[c].pc.Storing?
    ensures StraysAfter(w, w.callers[c]) == map[]
  {
    assert CallerKnows(w.store, w.callers[c]);
  }

  lemma AdvanceInTime(w: World, c: CallerId)
    requires hide *; true
    requires Good(w.store) && CallersInv(w) && InTime(w) && c in w.callers && OnTime(w, Advance(c))
    ensures InTime(Advanced(w, c))
  {
    hide *;
    if w.callers[c].pc.Deciding? {
      DecidingInTime(w, c);
    } else {
      AdvanceReplaces(w, c);
      NoneReplaced(w);
    }
    if w.callers[c].pc.Storing? { CommitInTime(w, c); }
    AdvanceTouches(w, c);
    TouchedInTime(w, Advanced(w, c), c);
  }

  lemma NoneReplaced(w: World)
    requires InTime(w)
    ensures w.store.history.replaced == {} && w.strays == map[]
  {
  }

  lemma TouchedInTime(w: World, o: World, c: CallerId)
    requires InTime(w) && c in w.callers && OnTime(w, Advance(c)) && Touches(w, o, c) && o.store.history.replaced == {}
    requires w.callers[c].pc.Storing? ==> StraysAfter(w, w.callers[c]) == map[]
    ensures InTime(o)
  {
    forall d | d in o.callers
      && o.callers[d].pc.Deciding? ensures o.callers[d].payload.expected <= o.callers[d].pc.seen {
      assert d != c ==> o.callers[d] == w.callers[d];
    }
  }

  lemma StepInTime(w: World, step: Step, o: World)
    requires Safe(w) && Leads(w, step, o) && InTime(w) && OnTime(w, step)
    ensures InTime(o)
  {
    hide *;
    SafeParts(w);
    LeadsIs(w, step, o);
    match step
    case Advance(c) => AdvanceInTime(w, c);
    case Transact(op) =>
      TransactReplacesNothing(w.store, op);
      StoreInTime(w, o);
    case _ =>
      AsideReplacesNothing(w, step, o);
      AsideInTime(w, o);
  }

  lemma StoreInTime(w: World, o: World)
    requires InTime(w) && o == w.(store := o.store) && o.store.history.replaced == w.store.history.replaced
    ensures InTime(o)
  {
  }

  lemma AsideInTime(w: World, o: World)
    requires InTime(w) && o.store == w.store && o.strays == w.strays
    requires forall d | d in o.callers && o.callers[d].pc.Deciding? :: d in w.callers && w.callers[d] == o.callers[d]
    ensures InTime(o)
  {
  }

  lemma PunctualAt(worlds: seq<World>, steps: seq<Step>, i: nat)
    requires Punctual(worlds, steps) && i < |steps| && i < |worlds|
    ensures OnTime(worlds[i], steps[i])
  {
    hide OnTime;
  }

  /** When every call names a revision it may have seen, no intent is ever replaced. */
  lemma PunctualNeverReplaces(worlds: seq<World>, steps: seq<Step>, i: nat)
    requires hide *; true
    requires Trace(worlds, steps) && Punctual(worlds, steps) && i < |worlds|
    ensures worlds[i].store.history.replaced == {} && worlds[i].strays == map[]
  {
    hide *;
    TraceShape(worlds, steps);
    InitialInTime(worlds[0]);
    forall k | 0 < k <= i && InTime(worlds[k - 1]) ensures InTime(worlds[k]) {
      PunctualAt(worlds, steps, k - 1);
      TraceLeads(worlds, steps, k - 1);
      TraceSafe(worlds, steps, k - 1);
      StepInTime(worlds[k - 1], steps[k - 1], worlds[k]);
    }
    Invariantly(InTime, worlds, i);
    NoneReplaced(worlds[i]);
  }

  lemma InitialInTime(w: World)
    requires InitialWorld(w)
    ensures InTime(w)
  {
  }

  /** Then every caller that returns a result returns that of its own payload, which is the one decided. */
  lemma PunctualDecidesOwn(worlds: seq<World>, steps: seq<Step>, i: nat, c: CallerId)
    requires hide *; true
    requires Trace(worlds, steps) && Punctual(worlds, steps) && i < |worlds| && c in worlds[i].callers
             && worlds[i].callers[c].pc.Returned?
    ensures var s, k := worlds[i].store, worlds[i].callers[c];
            && k.request in s.decisions && s.decisions[k.request].payload == k.payload
            && s.decisions[k.request].result == k.pc.result
  {
    hide Trace, Punctual;
    PunctualNeverReplaces(worlds, steps, i);
    OneResult(worlds, steps, i, i, c, c);
  }

  /** And every lock is the inventory on disk, except between a publication's first file write and its commit. */
  lemma PunctualLocksAgree(worlds: seq<World>, steps: seq<Step>, i: nat, item: Item)
    requires hide *; true
    requires Trace(worlds, steps) && Punctual(worlds, steps) && i < |worlds|
    requires item in worlds[i].store.items && item.lock.Pinned? && item.id in worlds[i].files
             && !MidPublication(worlds[i], item.id)
    ensures item.lock.lock == SemanticState.InventoryProjection(worlds[i].files[item.id].state)
  {
    hide Trace, Punctual;
    PunctualNeverReplaces(worlds, steps, i);
    LocksAgree(worlds, steps, i, item);
  }
}
