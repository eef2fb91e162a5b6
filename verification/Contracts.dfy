/** Publishing approved proposals into a topic's contract: TOPIC.md and SEMANTIC-STATE.json change together. */
module Contracts {
  import opened Common
  import opened ControlRecords
  import S = SemanticState
  import G = GuardedWrites

  // ---------- Text ----------

  function StripLeft(s: string): string {
    if s != "" && S.IsSpace(s[0]) then StripLeft(s[1..]) else s
  }

  function StripRight(s: string): string {
    if s != "" && S.IsSpace(s[|s| - 1]) then StripRight(s[..|s| - 1]) else s
  }

  function Strip(s: string): string { StripRight(StripLeft(s)) }

  lemma {:induction false} StripLeftFilled(s: string)
    ensures S.Filled(StripLeft(s)) <==> S.Filled(s)
  {
    if s != "" && S.IsSpace(s[0]) {
      StripLeftFilled(s[1..]);
      if S.Filled(s) {
        var i :| 0 <= i < |s| && !S.IsSpace(s[i]);
        assert !S.IsSpace(s[1..][i - 1]);
      }
      if S.Filled(s[1..]) {
        var i :| 0 <= i < |s[1..]| && !S.IsSpace(s[1..][i]);
        assert !S.IsSpace(s[i + 1]);
      }
    }
  }

  lemma {:induction false} StripRightFilled(s: string)
    ensures S.Filled(StripRight(s)) <==> S.Filled(s)
  {
    if s != "" && S.IsSpace(s[|s| - 1]) {
      var t := s[..|s| - 1];
      StripRightFilled(t);
      if S.Filled(s) {
        var i :| 0 <= i < |s| && !S.IsSpace(s[i]);
        assert !S.IsSpace(t[i]);
      }
      if S.Filled(t) {
        var i :| 0 <= i < |t| && !S.IsSpace(t[i]);
        assert !S.IsSpace(s[i]);
      }
    }
  }

  lemma StripFilled(s: string)
    ensures S.Filled(Strip(s)) <==> S.Filled(s)
  {
    StripLeftFilled(s);
    StripRightFilled(StripLeft(s));
  }

  function Digits(n: nat): string {
    if n < 10 then ["0123456789"[n]] else Digits(n / 10) + ["0123456789"[n % 10]]
  }

  /** The id of the next added obligation: CHECKPOINT- and the position in at least two digits. */
  function NextId(count: nat): string {
    "CHECKPOINT-" + (if count + 1 < 10 then "0" else "") + Digits(count + 1)
  }

  // ---------- Publishing one proposal ----------

  function FreshObligation(id: string, text: string, source: string): S.Obligation {
    S.Obligation(id, text, source, S.Open, None, [], false, None, None, Some("unaddressed: " + id), None, None)
  }

  /** An amended obligation must be researched again; only a deferred experiment stays on it. */
  function Amended(o: S.Obligation, text: string): S.Obligation {
    FreshObligation(o.id, text, o.sourceRef).(experiment := o.experiment)
  }

  function Chosen(content: Content, action: Action): Content {
    if action.ApproveWithEdits? then action.edits else content
  }

  /** The first bullet of this obligation whose text begins with the current wording. */
  function BulletIndex(bullets: seq<S.Bullet>, id: string, current: string): (r: Option<nat>)
    ensures r.Some? ==> r.value < |bullets| && bullets[r.value].id == id && current <= bullets[r.value].text
    ensures r.None? ==> forall b | b in bullets && b.id == id :: !(current <= b.text)
  {
    if bullets == [] then None
    else if bullets[0].id == id && current <= bullets[0].text then Some(0)
    else match BulletIndex(bullets[1..], id, current)
      case None => assert bullets == [bullets[0]] + bullets[1..]; None
      case Some(i) => Some(i + 1)
  }

  function Rewritten(state: S.State, obligations: seq<S.Obligation>, text: S.Document): Contract {
    Contract(state.(obligations := obligations, contract := text), text)
  }

  function PublishAddition(c: Contract, text: string, source: string): Option<Contract> {
    var id := NextId(|c.state.obligations|);
    if !S.Filled(text) || !S.Filled(source) || (exists o | o in c.state.obligations :: o.id == id)
      || !c.text.boundary then None
    else Some(Rewritten(c.state, c.state.obligations + [FreshObligation(id, Strip(text), Strip(source))],
                        c.text.(bullets := c.text.bullets + [S.Bullet(id, Strip(text))])))
  }

  function PublishAmendment(c: Contract, target: string, current: string, proposed: string): Option<Contract> {
    match G.IndexOf(S.ObligationId, c.state.obligations, target)
    case None => None
    case Some(i) =>
      match BulletIndex(c.text.bullets, target, current)
      case None => None
      case Some(j) =>
        if !S.Filled(proposed) || c.state.obligations[i].text != current then None
        else
          var rest := c.text.bullets[j].text[|current|..];
          Some(Rewritten(c.state, c.state.obligations[i := Amended(c.state.obligations[i], Strip(proposed))],
                         c.text.(bullets := c.text.bullets[j := S.Bullet(target, Strip(proposed) + rest)])))
  }

  /** Publishes one approval; None when the publisher raises. A scope request is never publishable here. */
  function Publish(c: Contract, content: Content, action: Action): Option<Contract> {
    var chosen := Chosen(content, action);
    match content
    case ScopeRequest => None
    case Addition(_, _) => if chosen.Addition? then PublishAddition(c, chosen.text, chosen.source) else None
    case Amendment(_, _, _) =>
      if chosen.Amendment? then PublishAmendment(c, chosen.target, chosen.current, chosen.proposed) else None
  }

  /** Publishes a whole bundle in a staged copy; nothing is published when any part cannot be. */
  function PublishAll(c: Contract, approvals: seq<(Content, Action)>): Option<Contract> {
    if approvals == [] then Some(c)
    else match PublishAll(c, approvals[..|approvals| - 1])
      case None => None
      case Some(d) => Publish(d, approvals[|approvals| - 1].0, approvals[|approvals| - 1].1)
  }

  /** The bundle a decision would publish; None when the publisher raises. */
  function Prepared(c: Contract, journal: Option<Bundle>, identity: Identity,
                    approvals: seq<(Content, Action)>): Option<Bundle> {
    if journal.Some? then (if journal.value.identity == identity then journal else None)
    else match PublishAll(c, approvals)
      case None => None
      case Some(d) => Some(Bundle(identity, d))
  }

  // ---------- What publication keeps ----------

  function BulletOf(o: S.Obligation): S.Bullet { S.Bullet(o.id, o.text) }

  /** TOPIC.md lists exactly the obligations, in order, under distinct ids, and the state carries its hash. */
  ghost predicate InStep(c: Contract) {
    c.state.contract == c.text && c.text.bullets == S.Map(BulletOf, c.state.obligations)
      && S.UniqueIds(S.ObligationId, c.state.obligations)
  }

  lemma BulletAt(c: Contract, i: nat, j: nat)
    requires InStep(c) && i < |c.state.obligations| && j < |c.text.bullets|
             && c.text.bullets[j].id == c.state.obligations[i].id
    ensures j == i && c.text.bullets[j].text == c.state.obligations[i].text
  {
    var os := c.state.obligations;
    assert c.text.bullets[j] == BulletOf(os[j]);
    assert S.ObligationId(os[i]) == os[i].id && S.ObligationId(os[j]) == os[j].id;
  }

  lemma AdditionKeeps(c: Contract, text: string, source: string)
    requires InStep(c) && PublishAddition(c, text, source).Some?
    ensures InStep(PublishAddition(c, text, source).value)
  {
    var d := PublishAddition(c, text, source).value;
    var id := NextId(|c.state.obligations|);
    assert S.Map(BulletOf, d.state.obligations) == S.Map(BulletOf, c.state.obligations) + [S.Bullet(id, Strip(text))];
    forall i, j | 0 <= i < j < |d.state.obligations|
      ensures S.ObligationId(d.state.obligations[i]) != S.ObligationId(d.state.obligations[j])
    {
      assert d.state.obligations[i] in c.state.obligations;
    }
  }

  lemma AmendmentKeeps(c: Contract, target: string, current: string, proposed: string)
    requires InStep(c) && PublishAmendment(c, target, current, proposed).Some?
    ensures InStep(PublishAmendment(c, target, current, proposed).value)
  {
    var d := PublishAmendment(c, target, current, proposed).value;
    var i := G.IndexOf(S.ObligationId, c.state.obligations, target).value;
    var j := BulletIndex(c.text.bullets, target, current).value;
    BulletAt(c, i, j);
    assert c.text.bullets[j].text[|current|..] == "";
    assert Strip(proposed) + "" == Strip(proposed);
    assert d.text.bullets == S.Map(BulletOf, d.state.obligations);
    forall a, b | 0 <= a < b < |d.state.obligations|
      ensures S.ObligationId(d.state.obligations[a]) != S.ObligationId(d.state.obligations[b])
    {
      assert S.ObligationId(c.state.obligations[a]) != S.ObligationId(c.state.obligations[b]);
    }
  }

  /** Publishing keeps the two contract files in step: same obligations in the same order, and the right hash. */
  lemma {:induction false} PublishKeepsInStep(c: Contract, approvals: seq<(Content, Action)>)
    requires InStep(c) && PublishAll(c, approvals).Some?
    ensures InStep(PublishAll(c, approvals).value)
  {
    if approvals != [] {
      var last := |approvals| - 1;
      PublishKeepsInStep(c, approvals[..last]);
      var d := PublishAll(c, approvals[..last]).value;
      var chosen := Chosen(approvals[last].0, approvals[last].1);
      if approvals[last].0.Addition? { AdditionKeeps(d, chosen.text, chosen.source); }
      else { AmendmentKeeps(d, chosen.target, chosen.current, chosen.proposed); }
    }
  }

  /** The text without the blanks around it. */
  ghost predicate Trims(t: string, s: string) {
    exists i, j ::
      && 0 <= i <= j <= |s| && t == s[i..j]
      && (forall k | 0 <= k < i || j <= k < |s| :: S.IsSpace(s[k]))
      && (t != "" ==> !S.IsSpace(t[0]) && !S.IsSpace(t[|t| - 1]))
  }

  lemma {:induction false} StripRightTrims(s: string) returns (j: nat)
    ensures j <= |s| && StripRight(s) == s[..j] && forall k | j <= k < |s| :: S.IsSpace(s[k])
    ensures j > 0 ==> !S.IsSpace(s[j - 1])
  {
    if s != "" && S.IsSpace(s[|s| - 1]) {
      j := StripRightTrims(s[..|s| - 1]);
      assert s[..|s| - 1][..j] == s[..j];
    } else {
      j := |s|;
    }
  }

  lemma {:induction false} StripLeftTrims(s: string) returns (i: nat)
    ensures i <= |s| && StripLeft(s) == s[i..] && forall k | 0 <= k < i :: S.IsSpace(s[k])
    ensures i < |s| ==> !S.IsSpace(s[i])
  {
    if s != "" && S.IsSpace(s[0]) {
      var n := StripLeftTrims(s[1..]);
      i := n + 1;
      assert s[1..][n..] == s[i..];
    } else {
      i := 0;
    }
  }

  lemma StripTrims(s: string)
    ensures Trims(Strip(s), s)
  {
    var i := StripLeftTrims(s);
    var j := StripRightTrims(s[i..]);
    assert s[i..][..j] == s[i..i + j];
  }

  /** An open obligation that nothing is known about yet. */
  ghost predicate Unresearched(o: S.Obligation, id: string, text: string, source: string) {
    && o.id == id && Trims(o.text, text) && o.sourceRef == source
    && o == S.Obligation(o.id, o.text, o.sourceRef, S.Open, None, [], false, None, None, Some("unaddressed: " + id),
                         None, o.experiment)
  }

  /** An approved addition, as proposed or as edited, is published exactly when its text and source say something, its
      new id is free and TOPIC.md has a place for it; it becomes an open obligation under that id. */
  lemma AdditionIff(c: Contract, content: Content, action: Action)
    requires content.Addition? && Chosen(content, action).Addition?
    ensures var a, id, r := Chosen(content, action), NextId(|c.state.obligations|), Publish(c, content, action);
            && (r.Some? <==>
                  && S.Filled(a.text) && S.Filled(a.source) && c.text.boundary
                  && forall o | o in c.state.obligations :: o.id != id)
            && (r.Some? ==>
                  exists o: S.Obligation | Trims(o.sourceRef, a.source) && Unresearched(o, id, a.text, o.sourceRef) ::
                    && o.experiment.None? && r.value.state.obligations == c.state.obligations + [o]
                    && r.value.text.bullets == c.text.bullets + [S.Bullet(id, o.text)])
  {
    var a := Chosen(content, action);
    StripTrims(a.text);
    StripTrims(a.source);
    var o := FreshObligation(NextId(|c.state.obligations|), Strip(a.text), Strip(a.source));
    assert Unresearched(o, NextId(|c.state.obligations|), a.text, o.sourceRef);
  }

  /** An approved amendment is published on files in step exactly when it names an obligation in its present wording and
      proposes something; that obligation is open again with the new wording and nothing known about it, its source and
      experiment apart. */
  lemma AmendmentIff(c: Contract, content: Content, action: Action)
    requires InStep(c) && content.Amendment? && Chosen(content, action).Amendment?
    ensures var a, r := Chosen(content, action), Publish(c, content, action);
            && (r.Some? <==>
                  && S.Filled(a.proposed)
                  && exists o :: o in c.state.obligations && o.id == a.target && o.text == a.current)
            && (r.Some? ==>
                  exists i: nat | i < |c.state.obligations| && c.state.obligations[i].id == a.target ::
                    var before := c.state.obligations[i];
                    && |r.value.state.obligations| == |c.state.obligations|
                    && Unresearched(r.value.state.obligations[i], a.target, a.proposed, before.sourceRef)
                    && r.value.state.obligations[i].experiment == before.experiment
                    && r.value.state.obligations == c.state.obligations[i := r.value.state.obligations[i]])
  {
    var a := Chosen(content, action);
    StripTrims(a.proposed);
    var os := c.state.obligations;
    if o :| o in os && o.id == a.target && o.text == a.current {
      var i :| 0 <= i < |os| && os[i] == o;
      NamedAt(c, a.target, i);
      assert c.text.bullets[i] == BulletOf(os[i]) && c.text.bullets[i] in c.text.bullets;
    }
    if Publish(c, content, action).Some? {
      var i := G.IndexOf(S.ObligationId, os, a.target).value;
      assert os[i] in os;
      var after := Publish(c, content, action).value.state.obligations[i];
      assert Unresearched(after, a.target, a.proposed, os[i].sourceRef);
    }
  }

  lemma NamedAt(c: Contract, id: string, i: nat)
    requires InStep(c) && i < |c.state.obligations| && c.state.obligations[i].id == id
    ensures G.IndexOf(S.ObligationId, c.state.obligations, id) == Some(i)
  {
    var os := c.state.obligations;
    var n := G.IndexOf(S.ObligationId, os, id);
    assert S.ObligationId(os[i]) == id;
    if n.Some? { assert S.ObligationId(os[n.value]) == id; }
  }

  /** A scope request, or edits of another kind than the proposal, cannot be published. */
  lemma OthersRefused(c: Contract, content: Content, action: Action)
    requires content.ScopeRequest? || (content.Addition? && !Chosen(content, action).Addition?)
             || (content.Amendment? && !Chosen(content, action).Amendment?)
    ensures Publish(c, content, action).None?
  {
  }

  predicate HasOpen(s: S.State) { exists o | o in s.obligations :: o.disposition.Open? }

  lemma PublishOpens(c: Contract, content: Content, action: Action)
    requires Publish(c, content, action).Some?
    ensures HasOpen(Publish(c, content, action).value.state)
  {
    var d := Publish(c, content, action).value;
    var chosen := Chosen(content, action);
    if content.Addition? {
      assert d.state.obligations[|c.state.obligations|] in d.state.obligations;
    } else {
      var i := G.IndexOf(S.ObligationId, c.state.obligations, chosen.target).value;
      assert d.state.obligations[i] in d.state.obligations;
    }
  }

  /** A published approval always reopens the topic: whatever the files hold and whatever lock is approved, the
      completion gate refuses the published state. */
  lemma PublishReopens(c: Contract, approvals: seq<(Content, Action)>, files: S.Files, approved: Option<S.Inventory>)
    requires hide *; true
    requires approvals != [] && PublishAll(c, approvals).Some?
    ensures G.CompletionFlaws(files, PublishAll(c, approvals).value.state, approved) != []
  {
    hide G.CompletionFlaws, Publish;
    var last := |approvals| - 1;
    var d := PublishAll(c, approvals[..last]).value;
    PublishOpens(d, approvals[last].0, approvals[last].1);
    var s := PublishAll(c, approvals).value.state;
    var o :| o in s.obligations && o.disposition.Open?;
    assert !S.Meets(files, s.schema, o);
    G.CompletionFlawsEmpty(files, s, approved);
  }

  function Additions(approvals: seq<(Content, Action)>): nat {
    if approvals == [] then 0
    else Additions(approvals[..|approvals| - 1]) + if approvals[|approvals| - 1].0.Addition? then 1 else 0
  }

  predicate Targets(approvals: seq<(Content, Action)>, id: string) {
    exists a | a in approvals :: a.0.Amendment? && Chosen(a.0, a.1).Amendment? && Chosen(a.0, a.1).target == id
  }

  lemma PublishOneKeepsRest(c: Contract, content: Content, action: Action, i: nat)
    requires Publish(c, content, action).Some? && i < |c.state.obligations|
    ensures var d, o := Publish(c, content, action).value, c.state.obligations[i];
            && |d.state.obligations| == |c.state.obligations| + (if content.Addition? then 1 else 0)
            && d.state.obligations[i].id == o.id && d.state.obligations[i].sourceRef == o.sourceRef
            && (!Targets([(content, action)], o.id) ==> d.state.obligations[i] == o)
            && d.state == c.state.(obligations := d.state.obligations, contract := d.state.contract)
  {
    assert (content, action) in [(content, action)];
  }

  /** A bundle appends one obligation per approved addition, rewrites only the obligations its amendments name,
      and leaves every other record of the state alone. */
  lemma {:induction false} PublishTouchesOnly(c: Contract, approvals: seq<(Content, Action)>, i: nat)
    requires PublishAll(c, approvals).Some? && i < |c.state.obligations|
    ensures var d, o := PublishAll(c, approvals).value, c.state.obligations[i];
            && |d.state.obligations| == |c.state.obligations| + Additions(approvals)
            && d.state.obligations[i].id == o.id && d.state.obligations[i].sourceRef == o.sourceRef
            && (!Targets(approvals, o.id) ==> d.state.obligations[i] == o)
            && d.state == c.state.(obligations := d.state.obligations, contract := d.state.contract)
  {
    if approvals != [] {
      var last := |approvals| - 1;
      PublishTouchesOnly(c, approvals[..last], i);
      var d := PublishAll(c, approvals[..last]).value;
      PublishOneKeepsRest(d, approvals[last].0, approvals[last].1, i);
      LastApart(approvals);
      assert Targets(approvals[..last], c.state.obligations[i].id) ==> Targets(approvals, c.state.obligations[i].id);
      assert Targets([approvals[last]], c.state.obligations[i].id) ==> Targets(approvals, c.state.obligations[i].id);
    }
  }

  // ---------- A topic's contract files, as the publisher changes them ----------

  /** Once a part of a bundle cannot be published, the bundle cannot. */
  lemma {:induction false} FailedPartFails(c: Contract, approvals: seq<(Content, Action)>, i: nat)
    requires i <= |approvals| && PublishAll(c, approvals[..i]).None?
    ensures PublishAll(c, approvals).None?
    decreases |approvals|
  {
    if i < |approvals| {
      var rest := approvals[..|approvals| - 1];
      assert rest[..i] == approvals[..i];
      FailedPartFails(c, rest, i);
    } else {
      Whole(approvals);
    }
  }

  lemma NextPart(c: Contract, approvals: seq<(Content, Action)>, i: nat)
    requires i < |approvals| && PublishAll(c, approvals[..i]).Some?
    ensures PublishAll(c, approvals[..i + 1]) ==
            Publish(PublishAll(c, approvals[..i]).value, approvals[i].0, approvals[i].1)
  {
    assert approvals[..i + 1][..i] == approvals[..i];
  }

  class TopicFiles {
    var state: S.State
    var text: S.Document
    var journal: Option<Bundle>

    function View(): Contract
      reads this
    {
      Contract(state, text)
    }

    constructor (files: Contract, pending: Option<Bundle>)
      ensures View() == files && journal == pending
    {
      state, text, journal := files.state, files.text, pending;
    }

    /** Both files change together, and the state takes the new text's hash. */
    method Rewrite(obligations: seq<S.Obligation>, bullets: seq<S.Bullet>)
      modifies this`state, this`text
      ensures View() == Rewritten(old(state), obligations, old(text).(bullets := bullets))
    {
      text := text.(bullets := bullets);
      state := state.(obligations := obligations, contract := text);
    }

    method Add(body: string, source: string) returns (ok: bool)
      modifies this`state, this`text
      ensures match PublishAddition(old(View()), body, source)
              case Some(d) => ok && View() == d
              case None => !ok && View() == old(View())
    {
      if !S.Filled(body) || !S.Filled(source) { return false; }
      var id := NextId(|state.obligations|);
      if (exists o | o in state.obligations :: o.id == id) || !text.boundary { return false; }
      Rewrite(state.obligations + [FreshObligation(id, Strip(body), Strip(source))],
        text.bullets + [S.Bullet(id, Strip(body))]);
      return true;
    }

    method Amend(target: string, current: string, proposed: string) returns (ok: bool)
      modifies this`state, this`text
      ensures match PublishAmendment(old(View()), target, current, proposed)
              case Some(d) => ok && View() == d
              case None => !ok && View() == old(View())
    {
      var at := G.IndexOf(S.ObligationId, state.obligations, target);
      if at.None? || !S.Filled(proposed) || state.obligations[at.value].text != current { return false; }
      var bullet := BulletIndex(text.bullets, target, current);
      if bullet.None? { return false; }
      var rest := text.bullets[bullet.value].text[|current|..];
      Rewrite(state.obligations[at.value := Amended(state.obligations[at.value], Strip(proposed))],
              text.bullets[bullet.value := S.Bullet(target, Strip(proposed) + rest)]);
      return true;
    }

    /** Publishes one approval, or raises and leaves both files alone. */
    method PublishOne(content: Content, action: Action) returns (ok: bool)
      modifies this`state, this`text
      ensures match Publish(old(View()), content, action)
              case Some(d) => ok && View() == d
              case None => !ok && View() == old(View())
    {
      var chosen := Chosen(content, action);
      if content.Addition? && chosen.Addition? {
        ok := Add(chosen.text, chosen.source);
      } else if content.Amendment? && chosen.Amendment? {
        ok := Amend(chosen.target, chosen.current, chosen.proposed);
      } else {
        ok := false;
      }
    }

    /** Builds what the whole bundle would publish, in an isolated copy. */
    method Stage(approvals: seq<(Content, Action)>) returns (staged: Option<Contract>)
      ensures staged == PublishAll(View(), approvals)
    {
      var copy := new TopicFiles(View(), None);
      assert approvals[..0] == [];
      for i := 0 to |approvals|
        invariant fresh(copy) && PublishAll(View(), approvals[..i]) == Some(copy.View())
      {
        NextPart(View(), approvals, i);
        var ok := copy.PublishOne(approvals[i].0, approvals[i].1);
        if !ok {
          FailedPartFails(View(), approvals, i + 1);
          return None;
        }
      }
      Whole(approvals);
      staged := Some(copy.View());
    }

    /** Prepares a bundle and writes its journal; a journal of the same identity is taken over, one of another
        blocks. */
    method Prepare(identity: Identity, approvals: seq<(Content, Action)>) returns (bundle: Option<Bundle>)
      modifies this`journal
      ensures bundle == Prepared(old(View()), old(journal), identity, approvals)
      ensures journal == if bundle.Some? then bundle else old(journal)
    {
      if journal.Some? { return if journal.value.identity == identity then journal else None; }
      var staged := Stage(approvals);
      if staged.None? { return None; }
      bundle := Some(Bundle(identity, staged.value));
      journal := bundle;
    }

    /** Writes the prepared files, the state first, and measures the lock of what is on disk. */
    method PublishPrepared(b: Bundle) returns (lock: Lock)
      modifies this`state, this`text
      ensures View() == b.contract && lock == S.InventoryProjection(b.contract.state)
    {
      state := b.contract.state;
      text := b.contract.text;
      lock := S.InventoryProjection(state);
    }

    /** Removes the journal of this publication, and only its own. */
    method Cleanup(identity: Identity)
      modifies this`journal
      ensures journal == if old(journal).Some? && old(journal).value.identity == identity then None else old(journal)
    {
      if journal.Some? && journal.value.identity == identity { journal := None; }
    }
  }
}
