/** The completion gate as it runs, and the guarded writes a research agent may make. */
module GuardedWrites {
  import opened Common
  import opened Ordering
  import opened SemanticState

  // ---------- The gate ----------

  function AllObligationFlaws(files: Files, schema: int, os: seq<Obligation>): seq<Flaw> {
    if os == [] then []
      else AllObligationFlaws(files, schema, os[..|os| - 1]) + ObligationFlaws(files, schema, os[|os| - 1])
  }

  function AllDeliverableFlaws(files: Files, ds: seq<Deliverable>): seq<Flaw> {
    if ds == [] then [] else AllDeliverableFlaws(files, ds[..|ds| - 1]) + DeliverableFlaws(files, ds[|ds| - 1])
  }

  function ContradictionFlaws(cs: seq<Contradiction>): seq<Flaw> {
    if cs == [] then []
    else ContradictionFlaws(cs[..|cs| - 1]) + Unless(cs[|cs| - 1].status != "open", OpenContradiction(cs[|cs| - 1].id))
  }

  function ContractFlaws(files: Files, s: State): seq<Flaw> {
    (match files.contract
     case None => [ContractUnreadable]
     case Some(h) => Unless(s.contract == h, ContractMismatch)) +
    (match files.authority
     case None => [AuthorityMissing]
     case Some(h) => Unless(s.authority == h, AuthorityMismatch))
  }

  function ScopeFlaws(files: Files, s: State, approved: Option<Inventory>): seq<Flaw> {
    Unless(approved.None? || InventoryProjection(s) == approved.value, LockMismatch) +
    ContractFlaws(files, s) +
    Unless(s.pending == [], PendingEvidence(|s.pending|))
  }

  function DeliveryFlaws(files: Files, ds: seq<Deliverable>): seq<Flaw> {
    if ds == [] then [NoDeliverables]
    else Unless(UniqueIds(DeliverableId, ds), DuplicateDeliverableIds) + AllDeliverableFlaws(files, ds)
  }

  /** The gate's report. With no obligations the report is that one flaw alone. */
  function CompletionFlaws(files: Files, s: State, approved: Option<Inventory>): seq<Flaw> {
    if s.obligations == [] then [NoObligations]
    else
      ScopeFlaws(files, s, approved) +
      ContradictionFlaws(s.contradictions) +
      Unless(UniqueIds(ObligationId, s.obligations), DuplicateObligationIds) +
      AllObligationFlaws(files, s.schema, s.obligations) +
      DeliveryFlaws(files, s.deliverables)
  }

  lemma AppendIn<T>(xs: seq<T>, x: T)
    ensures forall y :: y in xs + [x] <==> y in xs || y == x
  {
  }

  lemma {:induction false} AllObligationFlawsEmpty(files: Files, schema: int, os: seq<Obligation>)
    ensures AllObligationFlaws(files, schema, os) == [] <==> forall o | o in os :: Meets(files, schema, o)
  {
    if os != [] {
      var last := |os| - 1;
      AllObligationFlawsEmpty(files, schema, os[..last]);
      ObligationFlawsEmpty(files, schema, os[last]);
      AppendIn(os[..last], os[last]);
      LastApart(os);
    }
  }

  lemma {:induction false} AllDeliverableFlawsEmpty(files: Files, ds: seq<Deliverable>)
    ensures AllDeliverableFlaws(files, ds) == [] <==> forall d | d in ds :: Delivered(files, d)
  {
    if ds != [] {
      var last := |ds| - 1;
      AllDeliverableFlawsEmpty(files, ds[..last]);
      DeliverableFlawsEmpty(files, ds[last]);
      AppendIn(ds[..last], ds[last]);
      LastApart(ds);
    }
  }

  lemma {:induction false} ContradictionFlawsEmpty(cs: seq<Contradiction>)
    ensures ContradictionFlaws(cs) == [] <==> forall c | c in cs :: c.status != "open"
  {
    if cs != [] {
      var last := |cs| - 1;
      ContradictionFlawsEmpty(cs[..last]);
      LastApart(cs);
    }
  }

  /** The gate reports nothing exactly when the state is complete. */
  lemma CompletionFlawsEmpty(files: Files, s: State, approved: Option<Inventory>)
    ensures CompletionFlaws(files, s, approved) == [] <==> Complete(files, s, approved)
  {
    hide AllObligationFlaws;
    AllObligationFlawsEmpty(files, s.schema, s.obligations);
    AllDeliverableFlawsEmpty(files, s.deliverables);
    ContradictionFlawsEmpty(s.contradictions);
  }

  /** Two states with equal projections over the same files get an empty report together. */
  lemma ReportsFactor(files: Files, s: State, t: State, approved: Option<Inventory>)
    requires SemanticProjection(s) == SemanticProjection(t)
    requires InventoryProjection(s) == InventoryProjection(t)
    ensures CompletionFlaws(files, s, approved) == [] <==> CompletionFlaws(files, t, approved) == []
  {
    hide *;
    CompletionFlawsEmpty(files, s, approved);
    CompletionFlawsEmpty(files, t, approved);
    ValidityFactors(files, s, t, approved);
  }

  lemma {:induction false} IdentityFlawsSnoc(id: string, fs: seq<(string, string)>, f: (string, string))
    ensures IdentityFlaws(id, fs + [f]) == IdentityFlaws(id, fs) + Unless(Filled(f.1), NeedsIdentity(id, f.0))
  {
    if fs == [] {
      assert [f][1..] == [];
      assert IdentityFlaws(id, [f]) == Unless(Filled(f.1), NeedsIdentity(id, f.0)) + IdentityFlaws(id, []);
    } else {
      IdentityFlawsSnoc(id, fs[1..], f);
      assert (fs + [f])[1..] == fs[1..] + [f];
    }
  }

  lemma {:induction false} CitationFlawsSnoc(files: Files, id: string, refs: seq<string>, r: string)
    ensures CitationFlaws(files, id, refs + [r]) == CitationFlaws(files, id, refs)
            + Unless(r in files.cited, BadCitation(id, r))
  {
    if refs == [] {
      assert [r][1..] == [];
      assert CitationFlaws(files, id, [r]) == Unless(r in files.cited, BadCitation(id, r))
        + CitationFlaws(files, id, []);
    } else {
      CitationFlawsSnoc(files, id, refs[1..], r);
      assert (refs + [r])[1..] == refs[1..] + [r];
    }
  }

  method IdentityErrors(id: string, fields: seq<(string, string)>) returns (errors: seq<Flaw>)
    ensures errors == IdentityFlaws(id, fields)
  {
    errors := [];
    for i := 0 to |fields|
      invariant errors == IdentityFlaws(id, fields[..i])
    {
      if !Filled(fields[i].1) { errors := errors + [NeedsIdentity(id, fields[i].0)]; }
      IdentityFlawsSnoc(id, fields[..i], fields[i]);
      TakeNext(fields, i);
    }
    Whole(fields);
  }

  method EvidenceErrors(files: Files, schema: int, o: Obligation) returns (errors: seq<Flaw>)
    ensures errors == EvidenceFlaws(files, schema, o)
  {
    errors := [];
    if o.evidence == [] { return [NeedsEvidence(o.id)]; }
    if !AllPresent(files, o.evidence) { return [MissingEvidence(o.id)]; }
    if schema >= 2 {
      for i := 0 to |o.evidence|
        invariant errors == CitationFlaws(files, o.id, o.evidence[..i])
      {
        if o.evidence[i] !in files.cited { errors := errors + [BadCitation(o.id, o.evidence[i])]; }
        CitationFlawsSnoc(files, o.id, o.evidence[..i], o.evidence[i]);
        TakeNext(o.evidence, i);
      }
      Whole(o.evidence);
    }
  }

  method DispositionErrors(files: Files, schema: int, o: Obligation) returns (errors: seq<Flaw>)
    ensures errors == DispositionFlaws(files, schema, o)
  {
    errors := [];
    if o.disposition.Open? { return [OpenObligation(o.id)]; }
    if o.disposition.Other? { return [InvalidDisposition(o.id, o.disposition.name)]; }
    if !o.reviewed { errors := errors + [NeedsReview(o.id)]; }
    if !FilledOption(o.acceptance) { errors := errors + [NeedsAcceptance(o.id)]; }
    if !FilledOption(o.counterSummary) { errors := errors + [NeedsCounterSummary(o.id)]; }
    assert errors == ReviewFlaws(o);
    if o.disposition.Unresolved? {
      if !AdequateSearch(o.search) { errors := errors + [NeedsSearch(o.id)]; }
    } else if o.disposition.Deferred? {
      if !PreciseExperiment(o.experiment) { errors := errors + [NeedsExperiment(o.id)]; }
    } else {
      var evidence := EvidenceErrors(files, schema, o);
      errors := errors + evidence;
      if !FilledOption(o.confidence) { errors := errors + [NeedsConfidence(o.id)]; }
    }
  }

  /** All rules of one obligation; the report is empty exactly when the obligation meets them. */
  method ObligationErrors(files: Files, schema: int, o: Obligation) returns (errors: seq<Flaw>)
    ensures errors == ObligationFlaws(files, schema, o)
    ensures errors == [] <==> Meets(files, schema, o)
  {
    var identity := IdentityErrors(o.id, ObligationFields(o));
    var rest := DispositionErrors(files, schema, o);
    errors := identity + rest;
    ObligationFlawsEmpty(files, schema, o);
  }

  method ContradictionErrors(cs: seq<Contradiction>) returns (errors: seq<Flaw>)
    ensures errors == ContradictionFlaws(cs)
  {
    errors := [];
    for i := 0 to |cs|
      invariant errors == ContradictionFlaws(cs[..i])
    {
      if cs[i].status == "open" { errors := errors + [OpenContradiction(cs[i].id)]; }
      assert cs[..i + 1][..i] == cs[..i];
    }
    Whole(cs);
  }

  method AllObligationErrors(files: Files, schema: int, os: seq<Obligation>) returns (errors: seq<Flaw>)
    ensures errors == AllObligationFlaws(files, schema, os)
  {
    errors := [];
    for i := 0 to |os|
      invariant errors == AllObligationFlaws(files, schema, os[..i])
    {
      var more := ObligationErrors(files, schema, os[i]);
      errors := errors + more;
      assert os[..i + 1][..i] == os[..i];
    }
    Whole(os);
  }

  method HeadingErrors(id: string, content: string, headings: seq<string>) returns (errors: seq<Flaw>)
    ensures errors == HeadingFlaws(id, content, headings)
  {
    errors := [];
    for i := 0 to |headings|
      invariant HeadingFlaws(id, content, headings) == errors + HeadingFlaws(id, content, headings[i..])
    {
      ghost var before, rest := errors, HeadingFlaws(id, content, headings[i + 1..]);
      assert headings[i..][1..] == headings[i + 1..];
      if !Contains(content, headings[i]) {
        errors := errors + [MissingHeading(id, headings[i])];
        assert before + ([MissingHeading(id, headings[i])] + rest) == errors + rest;
      }
    }
  }

  method DeliverableErrors(files: Files, d: Deliverable) returns (errors: seq<Flaw>)
    ensures errors == DeliverableFlaws(files, d)
    ensures errors == [] <==> Delivered(files, d)
  {
    DeliverableFlawsEmpty(files, d);
    var identity := IdentityErrors(d.id, DeliverableFields(d));
    if d.status != "complete" { return identity + [MissingDeliverable(d.id)]; }
    if !Filled(d.path) { return identity + [NeedsPath(d.id)]; }
    if d.path in files.escaping { return identity + [EscapingPath(d.id)]; }
    var content := ArtifactAt(files, d.path);
    if !Filled(content) { return identity + [EmptyArtifact(d.id)]; }
    if exists h | h in d.headings :: !Filled(h) { return identity + [BadHeadings(d.id)]; }
    errors := HeadingErrors(d.id, content, d.headings);
    if !FilledOption(d.acceptance) { errors := errors + [NeedsAcceptance(d.id)]; }
    if d.evidence == [] {
      errors := errors + [NeedsEvidence(d.id)];
    } else if !AllPresent(files, d.evidence) {
      errors := errors + [MissingEvidence(d.id)];
    }
    errors := identity + errors;
  }

  method AllDeliverableErrors(files: Files, ds: seq<Deliverable>) returns (errors: seq<Flaw>)
    ensures errors == AllDeliverableFlaws(files, ds)
  {
    errors := [];
    for i := 0 to |ds|
      invariant errors == AllDeliverableFlaws(files, ds[..i])
    {
      var more := DeliverableErrors(files, ds[i]);
      errors := errors + more;
      assert ds[..i + 1][..i] == ds[..i];
    }
    Whole(ds);
  }

  method DeliveryErrors(files: Files, ds: seq<Deliverable>) returns (errors: seq<Flaw>)
    ensures errors == DeliveryFlaws(files, ds)
  {
    if ds == [] { return [NoDeliverables]; }
    errors := if UniqueIds(DeliverableId, ds) then [] else [DuplicateDeliverableIds];
    var more := AllDeliverableErrors(files, ds);
    errors := errors + more;
  }

  method ContractErrors(files: Files, s: State) returns (errors: seq<Flaw>)
    ensures errors == ContractFlaws(files, s)
  {
    errors := [];
    match files.contract {
      case None => errors := errors + [ContractUnreadable];
      case Some(h) => if s.contract != h { errors := errors + [ContractMismatch]; }
    }
    match files.authority {
      case None => errors := errors + [AuthorityMissing];
      case Some(h) => if s.authority != h { errors := errors + [AuthorityMismatch]; }
    }
  }

  method ScopeErrors(files: Files, s: State, approved: Option<Inventory>) returns (errors: seq<Flaw>)
    ensures errors == ScopeFlaws(files, s, approved)
  {
    errors := if approved.Some? && InventoryProjection(s) != approved.value then [LockMismatch] else [];
    var contract := ContractErrors(files, s);
    errors := errors + contract;
    if s.pending != [] { errors := errors + [PendingEvidence(|s.pending|)]; }
  }

  method RecordErrors(files: Files, s: State, approved: Option<Inventory>) returns (errors: seq<Flaw>)
    requires s.obligations != []
    ensures errors == CompletionFlaws(files, s, approved)
  {
    hide AllObligationFlaws, DeliveryFlaws;
    var scope := ScopeErrors(files, s, approved);
    var contradictions := ContradictionErrors(s.contradictions);
    errors := scope + contradictions;
    if !UniqueIds(ObligationId, s.obligations) { errors := errors + [DuplicateObligationIds]; }
    var obligations := AllObligationErrors(files, s.schema, s.obligations);
    var deliverables := DeliveryErrors(files, s.deliverables);
    errors := errors + obligations + deliverables;
  }

  /** The done gate: its report is empty exactly when the state is complete. */
  method CompletionErrors(files: Files, s: State, approved: Option<Inventory>) returns (errors: seq<Flaw>)
    ensures errors == CompletionFlaws(files, s, approved)
    ensures errors == [] <==> Complete(files, s, approved)
  {
    CompletionFlawsEmpty(files, s, approved);
    if s.obligations == [] { return [NoObligations]; }
    errors := RecordErrors(files, s, approved);
  }

  // ---------- Guarded writes ----------

  datatype WriteError =
    | UnknownRecord | NotWritable | NoSuchReference | NotOnRecord | BadDisposition
    | NeedsSearchRecord | Refused(flaws: seq<Flaw>) | NeedsAcceptanceSummary | NeedsAcceptanceRef
    | IdTaken | NeedsResolution

  datatype Result<+T> = Ok(value: T) | Err(error: WriteError)

  /** The fields a transition may set; `foreign` holds names it may not. */
  datatype Update = Update(
    foreign: seq<string>, disposition: Option<Disposition>, confidence: Option<Option<string>>,
    gap: Option<Option<string>>, acceptance: Option<Option<string>>, counterSummary: Option<Option<string>>,
    reviewed: Option<bool>, search: Option<Option<Search>>, experiment: Option<Option<Experiment>>)

  datatype Write =
    | Transition(id: string, update: Update, add: seq<string>, remove: seq<string>)
    | AddPending(ref: string)
    | RemovePending(ref: string)
    | Deliver(id: string, status: Option<string>, summary: Option<string>, refs: seq<string>)
    | OpenContradiction_(id: string)
    | ResolveContradiction(id: string, resolution: string)

  function Or<T>(o: Option<T>, default: T): T { if o.Some? then o.value else default }

  function Updated(o: Obligation, u: Update): Obligation {
    o.(disposition := Or(u.disposition, o.disposition), confidence := Or(u.confidence, o.confidence),
       gap := Or(u.gap, o.gap), acceptance := Or(u.acceptance, o.acceptance),
       counterSummary := Or(u.counterSummary, o.counterSummary), reviewed := Or(u.reviewed, o.reviewed),
       search := Or(u.search, o.search), experiment := Or(u.experiment, o.experiment))
  }

  function IndexOf<T>(id: T -> string, xs: seq<T>, wanted: string): (r: Option<nat>)
    ensures r.Some? ==>
              r.value < |xs| && id(xs[r.value]) == wanted && forall j | 0 <= j < r.value :: id(xs[j]) != wanted
    ensures r.None? ==> forall x | x in xs :: id(x) != wanted
  {
    if xs == [] then None
    else if id(xs[0]) == wanted then Some(0)
    else
      match IndexOf(id, xs[1..], wanted)
      case None => assert xs == [xs[0]] + xs[1..]; None
      case Some(i) => Some(i + 1)
  }

  function ContradictionId(c: Contradiction): string { c.id }

  function RemoveFirst(refs: seq<string>, r: string): (rest: seq<string>)
    requires r in refs
    ensures multiset(refs) == multiset(rest) + multiset{r} && |refs| == |rest| + 1
  {
    assert refs == [refs[0]] + refs[1..];
    if refs[0] == r then refs[1..] else [refs[0]] + RemoveFirst(refs[1..], r)
  }

  function RemoveEach(refs: seq<string>, gone: seq<string>): (r: Option<seq<string>>)
    ensures r.Some? ==> multiset(refs) == multiset(r.value) + multiset(gone)
    decreases |gone|
  {
    if gone == [] then Some(refs)
    else if gone[0] !in refs then None
    else
      assert gone == [gone[0]] + gone[1..];
      RemoveEach(RemoveFirst(refs, gone[0]), gone[1..])
  }

  function AddEach(refs: seq<string>, new_: seq<string>): (r: seq<string>)
    ensures refs <= r
    ensures forall x :: x in r <==> x in refs || x in new_
    decreases |new_|
  {
    if new_ == [] then refs
    else
      assert new_ == [new_[0]] + new_[1..];
      AddEach(if new_[0] in refs then refs else refs + [new_[0]], new_[1..])
  }

  predicate Terminal(d: Disposition) { !d.Open? && !d.Other? }

  function TransitionOf(files: Files, s: State, id: string, u: Update, add: seq<string>,
                        remove: seq<string>): Result<State> {
    match IndexOf(ObligationId, s.obligations, id)
    case None => Err(UnknownRecord)
    case Some(i) =>
      if u.foreign != [] then Err(NotWritable)
      else if !AllPresent(files, add) then Err(NoSuchReference)
      else match RemoveEach(s.obligations[i].evidence, remove)
        case None => Err(NotOnRecord)
        case Some(rest) =>
          var candidate := Updated(s.obligations[i], u).(evidence := AddEach(rest, add));
          var flaws := ObligationFlaws(files, s.schema, candidate);
          if candidate.disposition.Other? then Err(BadDisposition)
          else if (candidate.disposition.Supported? || candidate.disposition.Contradicted?)
            && !AdequateSearch(candidate.search)
          then Err(NeedsSearchRecord)
          else if Terminal(candidate.disposition) && flaws != [] then Err(Refused(flaws))
          else Ok(s.(obligations := s.obligations[i := candidate]))
  }

  function DeliverOf(files: Files, s: State, id: string, status: Option<string>, summary: Option<string>,
                     refs: seq<string>): Result<State> {
    if IndexOf(ObligationId, s.obligations, id).Some? then Err(UnknownRecord)
    else match IndexOf(DeliverableId, s.deliverables, id)
      case None => Err(UnknownRecord)
      case Some(i) =>
        var d := s.deliverables[i];
        var candidate := d.(status := Or(status, d.status), acceptance := if summary.Some? then summary
          else d.acceptance,
                            evidence := AddEach(d.evidence, refs));
        if !AllPresent(files, refs) then Err(NoSuchReference)
        else if candidate.status == "complete" && !FilledOption(candidate.acceptance) then Err(NeedsAcceptanceSummary)
        else if candidate.status == "complete" && candidate.evidence == [] then Err(NeedsAcceptanceRef)
        else Ok(s.(deliverables := s.deliverables[i := candidate]))
  }

  predicate IdInUse(s: State, id: string) {
    || IndexOf(ObligationId, s.obligations, id).Some?
    || IndexOf(DeliverableId, s.deliverables, id).Some?
    || IndexOf(ContradictionId, s.contradictions, id).Some?
  }

  function ResolveOf(s: State, id: string, resolution: string): Result<State> {
    if IndexOf(ObligationId, s.obligations, id).Some?
      || IndexOf(DeliverableId, s.deliverables, id).Some? then Err(UnknownRecord)
    else match IndexOf(ContradictionId, s.contradictions, id)
      case None => Err(UnknownRecord)
      case Some(i) =>
        if !Filled(resolution) then Err(NeedsResolution)
        else Ok(s.(contradictions := s.contradictions[i := Contradiction(id, "resolved", Some(resolution))]))
  }

  function WriteOf(files: Files, s: State, w: Write): Result<State> {
    match w
    case Transition(id, u, add, remove) => TransitionOf(files, s, id, u, add, remove)
    case AddPending(r) =>
      if r !in files.present then Err(NoSuchReference)
      else Ok(s.(pending := if r in s.pending then s.pending else s.pending + [r]))
    case RemovePending(r) =>
      if r !in s.pending then Err(NotOnRecord) else Ok(s.(pending := RemoveFirst(s.pending, r)))
    case Deliver(id, status, summary, refs) => DeliverOf(files, s, id, status, summary, refs)
    case OpenContradiction_(id) =>
      if IdInUse(s, id) then Err(IdTaken)
      else Ok(s.(contradictions := s.contradictions + [Contradiction(id, "open", None)]))
    case ResolveContradiction(id, resolution) => ResolveOf(s, id, resolution)
  }

  /** No guarded write changes the inventory, so none can move the completion lock. */
  lemma WriteKeepsInventory(files: Files, s: State, w: Write)
    requires hide *; true
    requires WriteOf(files, s, w).Ok?
    ensures InventoryProjection(WriteOf(files, s, w).value) == InventoryProjection(s)
  {
    hide TransitionOf;
    match w
    case Transition(id, u, add, remove) => TransitionKeepsInventory(files, s, id, u, add, remove);
    case Deliver(id, status, summary, refs) => DeliverKeepsInventory(files, s, id, status, summary, refs);
    case _ =>
  }

  lemma MapUpdate<T, U>(f: T -> U, xs: seq<T>, i: nat, x: T)
    requires i < |xs| && f(x) == f(xs[i])
    ensures Map(f, xs[i := x]) == Map(f, xs)
  {
  }

  lemma TransitionKeepsInventory(files: Files, s: State, id: string, u: Update, add: seq<string>, remove: seq<string>)
    requires TransitionOf(files, s, id, u, add, remove).Ok?
    ensures InventoryProjection(TransitionOf(files, s, id, u, add, remove).value) == InventoryProjection(s)
  {
    var i, t := IndexOf(ObligationId, s.obligations, id).value, TransitionOf(files, s, id, u, add, remove).value;
    assert t.obligations == s.obligations[i := t.obligations[i]];
    MapUpdate(IdentityOf, s.obligations, i, t.obligations[i]);
  }

  lemma DeliverKeepsInventory(files: Files, s: State, id: string, status: Option<string>, summary: Option<string>,
                              refs: seq<string>)
    requires DeliverOf(files, s, id, status, summary, refs).Ok?
    ensures InventoryProjection(DeliverOf(files, s, id, status, summary, refs).value) == InventoryProjection(s)
  {
    var i, t := IndexOf(DeliverableId, s.deliverables, id).value, DeliverOf(files, s, id, status, summary, refs).value;
    assert t.deliverables == s.deliverables[i := t.deliverables[i]];
    MapUpdate(DeliverableIdentityOf, s.deliverables, i, t.deliverables[i]);
  }

  /** A transition that lands changes one obligation only, the first with that id; a terminal
      disposition lands only when the done gate accepts the record, and support or contradiction
      only with an adequate search; the evidence is what was there, less what was removed once
      each, plus what was added. */
  lemma TransitionLandsSound(files: Files, s: State, id: string, u: Update, add: seq<string>, remove: seq<string>)
    returns (i: nat, rest: seq<string>)
    requires hide *; true
    requires TransitionOf(files, s, id, u, add, remove).Ok?
    ensures i < |s.obligations| && s.obligations[i].id == id && forall j | 0 <= j < i :: s.obligations[j].id != id
    ensures var t := TransitionOf(files, s, id, u, add, remove).value;
            && t == s.(obligations := t.obligations) && |t.obligations| == |s.obligations|
            && (forall j | 0 <= j < |s.obligations| && j != i :: t.obligations[j] == s.obligations[j])
            && IdentityOf(t.obligations[i]) == IdentityOf(s.obligations[i])
            && t.obligations[i].disposition == Or(u.disposition, s.obligations[i].disposition)
            && (Terminal(t.obligations[i].disposition) ==> Meets(files, s.schema, t.obligations[i]))
            && (t.obligations[i].disposition.Supported? || t.obligations[i].disposition.Contradicted? ==>
                  AdequateSearch(t.obligations[i].search))
            && multiset(s.obligations[i].evidence) == multiset(rest) + multiset(remove)
            && (forall r :: r in t.obligations[i].evidence <==> r in rest || r in add)
  {
    i := IndexOf(ObligationId, s.obligations, id).value;
    forall j | 0 <= j < i ensures s.obligations[j].id != id {
      assert ObligationId(s.obligations[j]) != id;
    }
    rest := RemoveEach(s.obligations[i].evidence, remove).value;
    var t := TransitionOf(files, s, id, u, add, remove).value;
    ObligationFlawsEmpty(files, s.schema, t.obligations[i]);
  }

  /** Hence a state whose terminal obligations all pass the gate keeps that under any guarded write. */
  lemma WritesKeepTerminalSound(files: Files, s: State, w: Write)
    requires forall o | o in s.obligations && Terminal(o.disposition) :: Meets(files, s.schema, o)
    requires WriteOf(files, s, w).Ok?
    ensures forall o | o in WriteOf(files, s, w).value.obligations
            && Terminal(o.disposition) :: Meets(files, s.schema, o)
  {
    hide TransitionOf;
    if w.Transition? {
      var i, rest := TransitionLandsSound(files, s, w.id, w.update, w.add, w.remove);
      var t := WriteOf(files, s, w).value;
      forall o | o in t.obligations && Terminal(o.disposition) ensures Meets(files, s.schema, o) {
        var j :| 0 <= j < |t.obligations| && t.obligations[j] == o;
        if j != i { assert s.obligations[j] in s.obligations; }
      }
    }
  }

  lemma {:induction false} RemoveFirstUndoes(refs: seq<string>, r: string)
    requires r !in refs
    ensures RemoveFirst(refs + [r], r) == refs
  {
    if refs != [] {
      assert (refs + [r])[1..] == refs[1..] + [r];
      RemoveFirstUndoes(refs[1..], r);
      assert refs == [refs[0]] + refs[1..];
    }
  }

  /** Removing a pending reference that was just added restores the state, unless it was already pending. */
  lemma PendingRoundTrip(files: Files, s: State, r: string)
    requires r in files.present
    ensures WriteOf(files, s, AddPending(r)).Ok?
    ensures var t := WriteOf(files, s, AddPending(r)).value;
            WriteOf(files, t, RemovePending(r)) == Ok(s) <==> r !in s.pending
  {
    if r !in s.pending {
      RemoveFirstUndoes(s.pending, r);
    } else {
      assert |RemoveFirst(s.pending, r)| == |s.pending| - 1;
    }
  }

  /** Adds each reference once, stopping at the first that does not exist. */
  method AddPresent(files: Files, refs: seq<string>, more: seq<string>) returns (r: Option<seq<string>>)
    ensures r == if AllPresent(files, more) then Some(AddEach(refs, more)) else None
  {
    var all := refs;
    for k := 0 to |more|
      invariant AddEach(all, more[k..]) == AddEach(refs, more)
      invariant forall j | 0 <= j < k :: more[j] in files.present
    {
      assert more[k..][1..] == more[k + 1..];
      if more[k] !in files.present {
        assert !AllPresent(files, more);
        return None;
      }
      if more[k] !in all { all := all + [more[k]]; }
    }
    assert more[|more|..] == [];
    r := Some(all);
  }

  /** The state file as the write path changes it. */
  class StateFile {
    const schema: int
    const topicId: string
    const contract: Document
    const authority: string
    var pending: seq<string>
    var contradictions: seq<Contradiction>
    var obligations: seq<Obligation>
    var deliverables: seq<Deliverable>

    constructor (s: State)
      ensures View() == s
    {
      schema, topicId, contract, authority := s.schema, s.topicId, s.contract, s.authority;
      pending, contradictions, obligations, deliverables := s.pending, s.contradictions, s.obligations, s.deliverables;
    }

    function View(): State
      reads this
    {
      State(schema, topicId, contract, authority, pending, contradictions, obligations, deliverables)
    }

    method ApplyTransition(files: Files, id: string, u: Update, add: seq<string>, remove: seq<string>)
      returns (error: Option<WriteError>)
      modifies this`obligations
      ensures match TransitionOf(files, old(View()), id, u, add, remove)
              case Ok(t) => error == None && View() == t
              case Err(e) => error == Some(e) && View() == old(View())
    {
      var found := IndexOf(ObligationId, obligations, id);
      if found.None? { return Some(UnknownRecord); }
      var i := found.value;
      if u.foreign != [] { return Some(NotWritable); }
      if !AllPresent(files, add) { return Some(NoSuchReference); }
      var refs := obligations[i].evidence;
      for k := 0 to |remove|
        invariant RemoveEach(refs, remove[k..]) == RemoveEach(obligations[i].evidence, remove)
      {
        assert remove[k..][1..] == remove[k + 1..];
        if remove[k] !in refs { return Some(NotOnRecord); }
        refs := RemoveFirst(refs, remove[k]);
      }
      ghost var kept := refs;
      for k := 0 to |add|
        invariant AddEach(refs, add[k..]) == AddEach(kept, add)
      {
        assert add[k..][1..] == add[k + 1..];
        if add[k] !in refs { refs := refs + [add[k]]; }
      }
      var candidate := Updated(obligations[i], u).(evidence := refs);
      if candidate.disposition.Other? { return Some(BadDisposition); }
      if Terminal(candidate.disposition) {
        if (candidate.disposition.Supported? || candidate.disposition.Contradicted?)
          && !AdequateSearch(candidate.search) {
          return Some(NeedsSearchRecord);
        }
        var flaws := ObligationErrors(files, schema, candidate);
        if flaws != [] { return Some(Refused(flaws)); }
      }
      obligations := obligations[i := candidate];
      error := None;
    }

    method ApplyWrite(files: Files, w: Write) returns (error: Option<WriteError>)
      modifies this
      ensures match WriteOf(files, old(View()), w)
              case Ok(t) => error == None && View() == t
              case Err(e) => error == Some(e) && View() == old(View())
    {
      hide TransitionOf;
      match w {
        case Transition(id, u, add, remove) =>
          error := ApplyTransition(files, id, u, add, remove);
        case AddPending(r) =>
          if r !in files.present { return Some(NoSuchReference); }
          if r !in pending { pending := pending + [r]; }
          error := None;
        case RemovePending(r) =>
          if r !in pending { return Some(NotOnRecord); }
          pending := RemoveFirst(pending, r);
          error := None;
        case Deliver(id, status, summary, refs) =>
          error := ApplyDeliver(files, id, status, summary, refs);
        case OpenContradiction_(id) =>
          if IdInUse(View(), id) { return Some(IdTaken); }
          contradictions := contradictions + [Contradiction(id, "open", None)];
          error := None;
        case ResolveContradiction(id, resolution) =>
          match ResolveOf(View(), id, resolution)
          case Ok(t) => contradictions := t.contradictions; error := None;
          case Err(e) => error := Some(e);
      }
    }

    method ApplyDeliver(files: Files, id: string, status: Option<string>, summary: Option<string>, refs: seq<string>)
      returns (error: Option<WriteError>)
      modifies this`deliverables
      ensures match DeliverOf(files, old(View()), id, status, summary, refs)
              case Ok(t) => error == None && View() == t
              case Err(e) => error == Some(e) && View() == old(View())
    {
      if IndexOf(ObligationId, obligations, id).Some? { return Some(UnknownRecord); }
      var found := IndexOf(DeliverableId, deliverables, id);
      if found.None? { return Some(UnknownRecord); }
      var candidate := deliverables[found.value];
      if status.Some? { candidate := candidate.(status := status.value); }
      if summary.Some? { candidate := candidate.(acceptance := summary); }
      var evidence := AddPresent(files, candidate.evidence, refs);
      if evidence.None? { return Some(NoSuchReference); }
      candidate := candidate.(evidence := evidence.value);
      if candidate.status == "complete" {
        if !FilledOption(candidate.acceptance) { return Some(NeedsAcceptanceSummary); }
        if candidate.evidence == [] { return Some(NeedsAcceptanceRef); }
      }
      deliverables := deliverables[found.value := candidate];
      error := None;
    }
  }
}
