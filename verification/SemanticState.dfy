/** The semantic state of one topic: records, the two projections, and the completion gate. */
module SemanticState {
  import opened Common
  import opened Ordering

  /** TOPIC.md: the obligation bullets in order, and whether the deliverables heading is present. */
  datatype Bullet = Bullet(id: string, text: string)
  datatype Document = Document(bullets: seq<Bullet>, boundary: bool)

  datatype Disposition = Open | Supported | Contradicted | Unresolved | Deferred | Other(name: string)
  datatype Search = Search(summary: string, queries: seq<string>, lanes: seq<string>, failures: seq<string>)
  datatype Experiment = Experiment(question: string, procedure: string, measure: string)

  datatype Obligation = Obligation(
    id: string, text: string, sourceRef: string,
    disposition: Disposition, confidence: Option<string>, evidence: seq<string>,
    reviewed: bool, acceptance: Option<string>, counterSummary: Option<string>,
    gap: Option<string>, search: Option<Search>, experiment: Option<Experiment>)

  datatype Contradiction = Contradiction(id: string, status: string, resolution: Option<string>)

  datatype Deliverable = Deliverable(
    id: string, description: string, path: string, headings: seq<string>,
    status: string, acceptance: Option<string>, evidence: seq<string>)

  datatype State = State(
    schema: int, topicId: string, contract: Document, authority: string,
    pending: seq<string>, contradictions: seq<Contradiction>,
    obligations: seq<Obligation>, deliverables: seq<Deliverable>)

  // ---------- Projections ----------

  datatype ObligationView = ObligationView(
    id: string, disposition: Disposition, confidence: Option<string>, reviewed: bool,
    acceptance: Option<string>, counterSummary: Option<string>, gap: Option<string>,
    experiment: Option<Experiment>, evidence: seq<string>, search: Option<Search>)
  datatype ContradictionView = ContradictionView(id: string, status: string, resolution: Option<string>)
  datatype DeliverableView = DeliverableView(id: string, status: string, acceptance: Option<string>,
                                             evidence: seq<string>)
  datatype Semantics = Semantics(
    schema: int, topicId: string, contract: Document, authority: string, pending: seq<string>,
    obligations: seq<ObligationView>, contradictions: seq<ContradictionView>, deliverables: seq<DeliverableView>)

  datatype ObligationIdentity = ObligationIdentity(id: string, text: string, sourceRef: string)
  datatype DeliverableIdentity = DeliverableIdentity(id: string, description: string, path: string,
                                                     headings: seq<string>)
  datatype Inventory = Inventory(
    schema: int, topicId: string, contract: Document, authority: string,
    obligations: seq<ObligationIdentity>, deliverables: seq<DeliverableIdentity>)

  function Map<T, U>(f: T -> U, xs: seq<T>): seq<U> {
    seq(|xs|, i requires 0 <= i < |xs| => f(xs[i]))
  }

  function Self(s: string): string { s }
  function NormalRefs(refs: seq<string>): seq<string> { SortBy(Self, refs) }

  function ObligationSemantics(o: Obligation): ObligationView {
    ObligationView(o.id, o.disposition, o.confidence, o.reviewed, o.acceptance, o.counterSummary,
                   o.gap, o.experiment, NormalRefs(o.evidence), o.search)
  }
  function ObligationViewId(v: ObligationView): string { v.id }
  function IdentityOf(o: Obligation): ObligationIdentity { ObligationIdentity(o.id, o.text, o.sourceRef) }
  function ObligationIdentityId(v: ObligationIdentity): string { v.id }
  function ObligationId(o: Obligation): string { o.id }

  function ContradictionSemantics(c: Contradiction): ContradictionView {
    ContradictionView(c.id, c.status, c.resolution)
  }
  function ContradictionViewId(v: ContradictionView): string { v.id }

  function DeliverableSemantics(d: Deliverable): DeliverableView {
    DeliverableView(d.id, d.status, d.acceptance, NormalRefs(d.evidence))
  }
  function DeliverableViewId(v: DeliverableView): string { v.id }
  function DeliverableIdentityOf(d: Deliverable): DeliverableIdentity {
    DeliverableIdentity(d.id, d.description, d.path, d.headings)
  }
  function DeliverableIdentityId(v: DeliverableIdentity): string { v.id }
  function DeliverableId(d: Deliverable): string { d.id }

  /** The liveness signature. */
  function SemanticProjection(s: State): Semantics {
    Semantics(s.schema, s.topicId, s.contract, s.authority, NormalRefs(s.pending),
              SortBy(ObligationViewId, Map(ObligationSemantics, s.obligations)),
              SortBy(ContradictionViewId, Map(ContradictionSemantics, s.contradictions)),
              SortBy(DeliverableViewId, Map(DeliverableSemantics, s.deliverables)))
  }

  /** The inventory whose hash is the completion lock. */
  function InventoryProjection(s: State): Inventory {
    Inventory(s.schema, s.topicId, s.contract, s.authority,
              SortBy(ObligationIdentityId, Map(IdentityOf, s.obligations)),
              SortBy(DeliverableIdentityId, Map(DeliverableIdentityOf, s.deliverables)))
  }

  // ---------- The completion gate ----------

  /** What the gate reads on disk: hashes of the two contract files (None when unreadable),
      references that exist, references whose citations check, artifacts by path, escaping paths. */
  datatype Files = Files(
    contract: Option<Document>, authority: Option<string>,
    present: set<string>, cited: set<string>, artifacts: map<string, string>, escaping: set<string>)

  datatype Flaw =
    | LockMismatch | ContractUnreadable | ContractMismatch | AuthorityMissing | AuthorityMismatch
    | PendingEvidence(count: nat) | OpenContradiction(id: string)
    | NoObligations | DuplicateObligationIds | NeedsIdentity(id: string, field: string)
    | OpenObligation(id: string) | InvalidDisposition(id: string, name: string)
    | NeedsReview(id: string) | NeedsAcceptance(id: string) | NeedsCounterSummary(id: string)
    | NeedsEvidence(id: string) | MissingEvidence(id: string) | BadCitation(id: string, ref: string)
    | NeedsConfidence(id: string) | NeedsSearch(id: string) | NeedsExperiment(id: string)
    | NoDeliverables | DuplicateDeliverableIds | MissingDeliverable(id: string)
    | NeedsPath(id: string) | EscapingPath(id: string) | EmptyArtifact(id: string)
    | BadHeadings(id: string) | MissingHeading(id: string, heading: string)

  predicate IsSpace(c: char) { c == ' ' || ('\t' <= c <= '\r') || ('\U{1c}' <= c <= '\U{1f}') }

  /** `value.strip()` is non-empty. */
  predicate Filled(s: string) { exists i | 0 <= i < |s| :: !IsSpace(s[i]) }
  predicate FilledOption(s: Option<string>) { s.Some? && Filled(s.value) }

  predicate AdequateSearch(s: Option<Search>) {
    s.Some? && Filled(s.value.summary) && s.value.queries != [] && s.value.lanes != []
  }
  predicate PreciseExperiment(e: Option<Experiment>) {
    e.Some? && Filled(e.value.question) && Filled(e.value.procedure) && Filled(e.value.measure)
  }

  function Unless(ok: bool, flaw: Flaw): seq<Flaw> { if ok then [] else [flaw] }

  function IdentityFlaws(id: string, fields: seq<(string, string)>): seq<Flaw> {
    if fields == [] then []
    else Unless(Filled(fields[0].1), NeedsIdentity(id, fields[0].0)) + IdentityFlaws(id, fields[1..])
  }

  function CitationFlaws(files: Files, id: string, refs: seq<string>): seq<Flaw> {
    if refs == [] then []
    else Unless(refs[0] in files.cited, BadCitation(id, refs[0])) + CitationFlaws(files, id, refs[1..])
  }

  predicate AllPresent(files: Files, refs: seq<string>) { forall r | r in refs :: r in files.present }

  function EvidenceFlaws(files: Files, schema: int, o: Obligation): seq<Flaw> {
    if o.evidence == [] then [NeedsEvidence(o.id)]
    else if !AllPresent(files, o.evidence) then [MissingEvidence(o.id)]
    else if schema >= 2 then CitationFlaws(files, o.id, o.evidence)
    else []
  }

  function ObligationFields(o: Obligation): seq<(string, string)> {
    [("id", o.id), ("text", o.text), ("source_ref", o.sourceRef)]
  }

  /** Every rule one obligation must satisfy to stand as recorded. */
  function ObligationFlaws(files: Files, schema: int, o: Obligation): seq<Flaw> {
    IdentityFlaws(o.id, ObligationFields(o)) + DispositionFlaws(files, schema, o)
  }

  function DispositionFlaws(files: Files, schema: int, o: Obligation): seq<Flaw> {
    match o.disposition
    case Open => [OpenObligation(o.id)]
    case Other(name) => [InvalidDisposition(o.id, name)]
    case Unresolved => ReviewFlaws(o) + Unless(AdequateSearch(o.search), NeedsSearch(o.id))
    case Deferred => ReviewFlaws(o) + Unless(PreciseExperiment(o.experiment), NeedsExperiment(o.id))
    case _ =>
      ReviewFlaws(o) + EvidenceFlaws(files, schema, o) + Unless(FilledOption(o.confidence), NeedsConfidence(o.id))
  }

  function ReviewFlaws(o: Obligation): seq<Flaw> {
    Unless(o.reviewed, NeedsReview(o.id)) +
    Unless(FilledOption(o.acceptance), NeedsAcceptance(o.id)) +
    Unless(FilledOption(o.counterSummary), NeedsCounterSummary(o.id))
  }

  predicate OccursAt(text: string, part: string, i: nat) {
    i + |part| <= |text| && text[i..i + |part|] == part
  }
  predicate Contains(text: string, part: string) {
    exists i | 0 <= i <= |text| :: OccursAt(text, part, i)
  }

  function HeadingFlaws(id: string, content: string, headings: seq<string>): seq<Flaw> {
    if headings == [] then []
    else
      Unless(Contains(content, headings[0]), MissingHeading(id, headings[0])) +
      HeadingFlaws(id, content, headings[1..])
  }

  function DeliverableFields(d: Deliverable): seq<(string, string)> {
    [("id", d.id), ("description", d.description), ("path", d.path)]
  }

  function ArtifactAt(files: Files, path: string): string {
    if path in files.artifacts then files.artifacts[path] else ""
  }

  function DeliverableFlaws(files: Files, d: Deliverable): seq<Flaw> {
    IdentityFlaws(d.id, DeliverableFields(d)) +
    if d.status != "complete" then [MissingDeliverable(d.id)]
    else if !Filled(d.path) then [NeedsPath(d.id)]
    else if d.path in files.escaping then [EscapingPath(d.id)]
    else if !Filled(ArtifactAt(files, d.path)) then [EmptyArtifact(d.id)]
    else if exists h | h in d.headings :: !Filled(h) then [BadHeadings(d.id)]
    else
      HeadingFlaws(d.id, ArtifactAt(files, d.path), d.headings) +
      Unless(FilledOption(d.acceptance), NeedsAcceptance(d.id)) +
      (if d.evidence == [] then [NeedsEvidence(d.id)]
       else Unless(AllPresent(files, d.evidence), MissingEvidence(d.id)))
  }

  predicate UniqueIds<T>(id: T -> string, xs: seq<T>) {
    forall i, j | 0 <= i < j < |xs| :: id(xs[i]) != id(xs[j])
  }

  // ---------- What an empty error list means ----------

  predicate Meets(files: Files, schema: int, o: Obligation) {
    && Filled(o.id) && Filled(o.text) && Filled(o.sourceRef)
    && !o.disposition.Open? && !o.disposition.Other?
    && o.reviewed && FilledOption(o.acceptance) && FilledOption(o.counterSummary)
    && (o.disposition.Unresolved? ==> AdequateSearch(o.search))
    && (o.disposition.Deferred? ==> PreciseExperiment(o.experiment))
    && (o.disposition.Supported? || o.disposition.Contradicted? ==>
          && o.evidence != []
          && AllPresent(files, o.evidence)
          && (schema >= 2 ==> forall r | r in o.evidence :: r in files.cited)
          && FilledOption(o.confidence))
  }

  predicate Delivered(files: Files, d: Deliverable) {
    && Filled(d.id) && Filled(d.description) && Filled(d.path)
    && d.status == "complete"
    && d.path !in files.escaping
    && Filled(ArtifactAt(files, d.path))
    && (forall h | h in d.headings :: Filled(h) && Contains(ArtifactAt(files, d.path), h))
    && FilledOption(d.acceptance)
    && d.evidence != [] && AllPresent(files, d.evidence)
  }

  predicate Complete(files: Files, s: State, approved: Option<Inventory>) {
    && (approved.Some? ==> InventoryProjection(s) == approved.value)
    && files.contract == Some(s.contract)
    && files.authority == Some(s.authority)
    && s.pending == []
    && (forall c | c in s.contradictions :: c.status != "open")
    && s.obligations != [] && UniqueIds(ObligationId, s.obligations)
    && (forall o | o in s.obligations :: Meets(files, s.schema, o))
    && s.deliverables != [] && UniqueIds(DeliverableId, s.deliverables)
    && (forall d | d in s.deliverables :: Delivered(files, d))
  }

  lemma {:induction false} CitationFlawsEmpty(files: Files, id: string, refs: seq<string>)
    ensures CitationFlaws(files, id, refs) == [] <==> forall r | r in refs :: r in files.cited
  {
    if refs != [] {
      CitationFlawsEmpty(files, id, refs[1..]);
      assert refs == [refs[0]] + refs[1..];
    }
  }

  lemma {:induction false} HeadingFlawsEmpty(id: string, content: string, headings: seq<string>)
    ensures HeadingFlaws(id, content, headings) == [] <==> forall h | h in headings :: Contains(content, h)
  {
    if headings != [] {
      HeadingFlawsEmpty(id, content, headings[1..]);
      assert headings == [headings[0]] + headings[1..];
    }
  }

  lemma IdentityFlawsEmpty(id: string, a: (string, string), b: (string, string), c: (string, string))
    ensures IdentityFlaws(id, [a, b, c]) == [] <==> Filled(a.1) && Filled(b.1) && Filled(c.1)
  {
    var all := [a, b, c];
    assert all[1..] == [b, c] && [b, c][1..] == [c] && [c][1..] == [];
    assert IdentityFlaws(id, [c]) == Unless(Filled(c.1), NeedsIdentity(id, c.0)) + [];
    assert IdentityFlaws(id, [b, c]) == Unless(Filled(b.1), NeedsIdentity(id, b.0)) + IdentityFlaws(id, [c]);
  }

  /** The obligation rules report nothing exactly when the obligation meets them. */
  lemma ObligationFlawsEmpty(files: Files, schema: int, o: Obligation)
    ensures ObligationFlaws(files, schema, o) == [] <==> Meets(files, schema, o)
  {
    IdentityFlawsEmpty(o.id, ("id", o.id), ("text", o.text), ("source_ref", o.sourceRef));
    CitationFlawsEmpty(files, o.id, o.evidence);
  }

  lemma DeliverableFlawsEmpty(files: Files, d: Deliverable)
    ensures DeliverableFlaws(files, d) == [] <==> Delivered(files, d)
  {
    IdentityFlawsEmpty(d.id, ("id", d.id), ("description", d.description), ("path", d.path));
    HeadingFlawsEmpty(d.id, ArtifactAt(files, d.path), d.headings);
  }

  // ---------- Validity factors through the projections ----------

  lemma MapElements<T, U>(f: T -> U, xs: seq<T>)
    ensures forall x | x in xs :: f(x) in Map(f, xs)
    ensures forall u | u in Map(f, xs) :: exists x :: x in xs && f(x) == u
  {
    forall x | x in xs ensures f(x) in Map(f, xs) {
      var i :| 0 <= i < |xs| && xs[i] == x;
      assert Map(f, xs)[i] == f(x);
    }
    forall u | u in Map(f, xs) ensures exists x :: x in xs && f(x) == u {
      var i :| 0 <= i < |xs| && Map(f, xs)[i] == u;
      assert xs[i] in xs && f(xs[i]) == u;
    }
  }

  /** Equal sorted views hold the same views. */
  lemma SameViews<T, U>(f: T -> U, key: U -> string, xs: seq<T>, ys: seq<T>)
    requires SortBy(key, Map(f, xs)) == SortBy(key, Map(f, ys))
    ensures multiset(Map(f, xs)) == multiset(Map(f, ys))
    ensures |xs| == |ys|
    ensures forall y | y in ys :: exists x :: x in xs && f(x) == f(y)
  {
    SortBySpec(key, Map(f, xs));
    SortBySpec(key, Map(f, ys));
    SameElements(Map(f, xs), Map(f, ys));
    MapElements(f, xs);
    MapElements(f, ys);
    forall y | y in ys ensures exists x :: x in xs && f(x) == f(y) {
      var v := f(y);
      assert v in Map(f, ys);
      assert v in multiset(Map(f, ys));
      assert v in Map(f, xs);
    }
  }

  lemma {:induction false} CountedOnce<T>(xs: seq<T>)
    ensures (forall i, j | 0 <= i < j < |xs| :: xs[i] != xs[j]) <==> (forall x :: multiset(xs)[x] <= 1)
  {
    if xs != [] {
      CountedOnce(xs[1..]);
      assert xs == [xs[0]] + xs[1..];
      assert multiset(xs) == multiset{xs[0]} + multiset(xs[1..]);
      if forall i, j | 0 <= i < j < |xs| :: xs[i] != xs[j] {
        assert xs[0] !in xs[1..];
      }
      if forall x :: multiset(xs)[x] <= 1 {
        forall x ensures multiset(xs[1..])[x] <= 1 { assert multiset(xs)[x] <= 1; }
        assert multiset(xs)[xs[0]] == 1 + multiset(xs[1..])[xs[0]];
        assert xs[0] !in xs[1..];
        forall i, j | 0 <= i < j < |xs| ensures xs[i] != xs[j] {
          assert xs[j] == xs[1..][j - 1];
          if i > 0 { assert xs[i] == xs[1..][i - 1]; }
        }
      }
    }
  }

  /** Unique ids are visible in the sorted views. */
  lemma UniqueIdsTransfer<T(!new), U(!new)>(f: T -> U, key: U -> string, id: T -> string, xs: seq<T>, ys: seq<T>)
    requires forall t :: key(f(t)) == id(t)
    requires SortBy(key, Map(f, xs)) == SortBy(key, Map(f, ys))
    requires UniqueIds(id, xs)
    ensures UniqueIds(id, ys)
  {
    SameViews(f, key, xs, ys);
    var us, vs := Map(f, xs), Map(f, ys);
    forall i, j | 0 <= i < j < |us| ensures us[i] != us[j] {
      assert id(xs[i]) != id(xs[j]);
    }
    CountedOnce(us);
    CountedOnce(vs);
    forall i, j | 0 <= i < j < |ys| ensures id(ys[i]) != id(ys[j]) {
      assert vs[i] != vs[j];
      assert ys[i] in ys && ys[j] in ys;
      var a :| a in xs && f(a) == f(ys[i]);
      var b :| b in xs && f(b) == f(ys[j]);
    }
  }

  /** A judgement that reads only two views carries over from a list with unique ids. */
  lemma JudgementTransfers<T(!new), U(!new), W(!new)>(
      f: T -> U, fKey: U -> string, g: T -> W, gKey: W -> string,
      id: T -> string, good: T -> bool, xs: seq<T>, ys: seq<T>)
    requires forall t :: fKey(f(t)) == id(t) && gKey(g(t)) == id(t)
    requires forall t, u | f(t) == f(u) && g(t) == g(u) :: good(t) == good(u)
    requires SortBy(fKey, Map(f, xs)) == SortBy(fKey, Map(f, ys))
    requires SortBy(gKey, Map(g, xs)) == SortBy(gKey, Map(g, ys))
    requires UniqueIds(id, xs) && forall x | x in xs :: good(x)
    ensures |xs| == |ys| && UniqueIds(id, ys)
    ensures forall y | y in ys :: good(y)
  {
    SameViews(f, fKey, xs, ys);
    SameViews(g, gKey, xs, ys);
    UniqueIdsTransfer(f, fKey, id, xs, ys);
    forall y | y in ys ensures good(y) {
      var a :| a in xs && f(a) == f(y);
      var b :| b in xs && g(b) == g(y);
      assert fKey(f(a)) == fKey(f(y)) && gKey(g(b)) == gKey(g(y));
      assert id(a) == id(b);
      assert a == b;
    }
  }

  lemma NormalRefsElements(a: seq<string>, b: seq<string>)
    requires NormalRefs(a) == NormalRefs(b)
    ensures |a| == |b| && forall r :: r in a <==> r in b
  {
    SortBySpec(Self, a);
    SortBySpec(Self, b);
    SameElements(a, b);
  }

  lemma MeetsByViews(files: Files, schema: int, o: Obligation, p: Obligation)
    requires ObligationSemantics(o) == ObligationSemantics(p) && IdentityOf(o) == IdentityOf(p)
    ensures Meets(files, schema, o) == Meets(files, schema, p)
  {
    NormalRefsElements(o.evidence, p.evidence);
  }

  lemma DeliveredByViews(files: Files, d: Deliverable, e: Deliverable)
    requires DeliverableSemantics(d) == DeliverableSemantics(e) && DeliverableIdentityOf(d) == DeliverableIdentityOf(e)
    ensures Delivered(files, d) == Delivered(files, e)
  {
    NormalRefsElements(d.evidence, e.evidence);
  }

  lemma ObligationsTransfer(files: Files, s: State, t: State)
    requires SemanticProjection(s) == SemanticProjection(t) && InventoryProjection(s) == InventoryProjection(t)
    requires UniqueIds(ObligationId, s.obligations) && forall o | o in s.obligations :: Meets(files, s.schema, o)
    ensures |s.obligations| == |t.obligations| && UniqueIds(ObligationId, t.obligations)
    ensures forall o | o in t.obligations :: Meets(files, s.schema, o)
  {
    forall o, p | ObligationSemantics(o) == ObligationSemantics(p) && IdentityOf(o) == IdentityOf(p)
      ensures Meets(files, s.schema, o) == Meets(files, s.schema, p)
    {
      MeetsByViews(files, s.schema, o, p);
    }
    JudgementTransfers(ObligationSemantics, ObligationViewId, IdentityOf, ObligationIdentityId, ObligationId,
                       o => Meets(files, s.schema, o), s.obligations, t.obligations);
  }

  lemma DeliverablesTransfer(files: Files, s: State, t: State)
    requires SemanticProjection(s) == SemanticProjection(t) && InventoryProjection(s) == InventoryProjection(t)
    requires UniqueIds(DeliverableId, s.deliverables) && forall d | d in s.deliverables :: Delivered(files, d)
    ensures |s.deliverables| == |t.deliverables| && UniqueIds(DeliverableId, t.deliverables)
    ensures forall d | d in t.deliverables :: Delivered(files, d)
  {
    forall d, e | DeliverableSemantics(d) == DeliverableSemantics(e)
      && DeliverableIdentityOf(d) == DeliverableIdentityOf(e)
      ensures Delivered(files, d) == Delivered(files, e)
    {
      DeliveredByViews(files, d, e);
    }
    JudgementTransfers(DeliverableSemantics, DeliverableViewId, DeliverableIdentityOf, DeliverableIdentityId,
      DeliverableId,
                       d => Delivered(files, d), s.deliverables, t.deliverables);
  }

  lemma CompleteTransfers(files: Files, s: State, t: State, approved: Option<Inventory>)
    requires SemanticProjection(s) == SemanticProjection(t)
    requires InventoryProjection(s) == InventoryProjection(t)
    requires Complete(files, s, approved)
    ensures Complete(files, t, approved)
  {
    NormalRefsElements(s.pending, t.pending);
    SameViews(ContradictionSemantics, ContradictionViewId, s.contradictions, t.contradictions);
    forall c | c in t.contradictions ensures c.status != "open" {
      var b :| b in s.contradictions && ContradictionSemantics(b) == ContradictionSemantics(c);
    }
    ObligationsTransfer(files, s, t);
    DeliverablesTransfer(files, s, t);
  }

  /** The done gate and the liveness signature agree on what counts as state: two states with
      equal projections over the same files pass the gate together or fail it together. */
  lemma ValidityFactors(files: Files, s: State, t: State, approved: Option<Inventory>)
    requires SemanticProjection(s) == SemanticProjection(t)
    requires InventoryProjection(s) == InventoryProjection(t)
    ensures Complete(files, s, approved) <==> Complete(files, t, approved)
  {
    if Complete(files, s, approved) { CompleteTransfers(files, s, t, approved); }
    if Complete(files, t, approved) { CompleteTransfers(files, t, s, approved); }
  }

  // ---------- Reordering is not progress ----------

  lemma MapSplit<T, U>(f: T -> U, xs: seq<T>, k: nat)
    requires k < |xs|
    ensures multiset(xs) == multiset(xs[..k] + xs[k + 1..]) + multiset{xs[k]}
    ensures multiset(Map(f, xs)) == multiset(Map(f, xs[..k] + xs[k + 1..])) + multiset{f(xs[k])}
  {
    assert xs == xs[..k] + [xs[k]] + xs[k + 1..];
    assert Map(f, xs) == Map(f, xs[..k]) + [f(xs[k])] + Map(f, xs[k + 1..]);
    assert Map(f, xs[..k] + xs[k + 1..]) == Map(f, xs[..k]) + Map(f, xs[k + 1..]);
  }

  lemma {:induction false} MapMultiset<T, U>(f: T -> U, xs: seq<T>, ys: seq<T>)
    requires multiset(xs) == multiset(ys)
    ensures multiset(Map(f, xs)) == multiset(Map(f, ys))
    decreases |xs|
  {
    hide *;
    SameElements(xs, ys);
    if xs != [] {
      assert xs[0] in ys;
      var k :| 0 <= k < |ys| && ys[k] == xs[0];
      var xs', ys' := xs[..0] + xs[1..], ys[..k] + ys[k + 1..];
      MapSplit(f, xs, 0);
      MapSplit(f, ys, k);
      assert multiset(xs') == multiset(xs) - multiset{xs[0]} == multiset(ys');
      MapMultiset(f, xs', ys');
    }
  }

  /** Moving records with distinct ids leaves their sorted views alone. */
  lemma ReorderedViews<T(!new), U(!new)>(f: T -> U, key: U -> string, id: T -> string, xs: seq<T>, ys: seq<T>)
    requires forall t :: key(f(t)) == id(t)
    requires multiset(xs) == multiset(ys) && UniqueIds(id, xs)
    ensures SortBy(key, Map(f, xs)) == SortBy(key, Map(f, ys))
  {
    MapMultiset(f, xs, ys);
    MapElements(f, xs);
    forall u, v | u in Map(f, xs) && v in Map(f, xs) && key(u) == key(v) ensures u == v {
      var a :| a in xs && f(a) == u;
      var b :| b in xs && f(b) == v;
      assert id(a) == id(b);
    }
    SortByForgetsOrder(key, Map(f, xs), Map(f, ys));
  }

  lemma ReorderedRefs(a: seq<string>, b: seq<string>)
    requires multiset(a) == multiset(b)
    ensures NormalRefs(a) == NormalRefs(b)
  {
    SortByForgetsOrder(Self, a, b);
  }

  /** Reordering obligations with distinct ids, or any list of references, is not progress:
      both projections stay the same. */
  lemma ReorderingIsNotProgress(s: State, obligations: seq<Obligation>, pending: seq<string>)
    requires UniqueIds(ObligationId, s.obligations)
    requires multiset(obligations) == multiset(s.obligations) && multiset(pending) == multiset(s.pending)
    ensures SemanticProjection(s.(obligations := obligations, pending := pending)) == SemanticProjection(s)
    ensures InventoryProjection(s.(obligations := obligations, pending := pending)) == InventoryProjection(s)
  {
    ReorderedViews(ObligationSemantics, ObligationViewId, ObligationId, s.obligations, obligations);
    ReorderedViews(IdentityOf, ObligationIdentityId, ObligationId, s.obligations, obligations);
    ReorderedRefs(s.pending, pending);
  }

  lemma EvidenceOrderIsNotProgress(s: State, i: nat, evidence: seq<string>)
    requires i < |s.obligations| && multiset(evidence) == multiset(s.obligations[i].evidence)
    ensures var t := s.(obligations := s.obligations[i := s.obligations[i].(evidence := evidence)]);
            SemanticProjection(t) == SemanticProjection(s) && InventoryProjection(t) == InventoryProjection(s)
  {
    var t := s.(obligations := s.obligations[i := s.obligations[i].(evidence := evidence)]);
    ReorderedRefs(s.obligations[i].evidence, evidence);
    assert ObligationSemantics(t.obligations[i]) == ObligationSemantics(s.obligations[i]);
    assert Map(ObligationSemantics, t.obligations) == Map(ObligationSemantics, s.obligations);
    assert Map(IdentityOf, t.obligations) == Map(IdentityOf, s.obligations);
  }
}
