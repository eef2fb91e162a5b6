/** Reconciling the queue with a manifest without losing history. */
module Sync {
  import opened Common
  import opened Dependencies

  /** `other` stands for the settings sync never protects: title, attempts, policies and the like. */
  datatype Definition = Definition(command: seq<string>, dependsOn: seq<Id>, lock: Option<string>, lane: Option<string>,
                                   other: seq<string>)
  datatype Status = Queued | Backoff | Running | Paused | Completed | Attention
  datatype Runtime = Runtime(desired: string, attempts: nat, failures: nat, createdAt: int, startedAt: Option<int>,
                             finishedAt: Option<int>,
                             lastError: Option<string>, stalls: nat, refreshes: nat)
  datatype Item = Item(id: Id, def: Definition, status: Status, runtime: Runtime, updatedAt: int)

  /** A parsed manifest entry; parsing always fills in the lane. */
  datatype Entry = Entry(id: Id, def: Definition)
  datatype Skip = Held(id: Id) | NeverPruned(id: Id)
  datatype Report = Report(added: seq<Id>, updated: seq<Id>, reordered: bool, pruned: seq<Id>, skipped: seq<Skip>)
  datatype SyncError = DuplicateEntry(id: Id) | MissingDependency(id: Id, dependency: Id) | CyclicDependency(id: Id)
  datatype Result<+T> = Ok(value: T) | Err(error: SyncError)

  function Ids(items: seq<Item>): seq<Id> { seq(|items|, i requires 0 <= i < |items| => items[i].id) }
  function EntryIds(m: seq<Entry>): seq<Id> { seq(|m|, i requires 0 <= i < |m| => m[i].id) }

  // ---------- What sync does ----------

  /** The definition the manifest gives an id. */
  function Wanted(m: seq<Entry>, id: Id): Option<Definition> {
    if m == [] then None
    else if m[|m| - 1].id == id then Some(m[|m| - 1].def)
    else Wanted(m[..|m| - 1], id)
  }

  /** Items from before lanes existed are in the research lane. */
  function Current(item: Item): Definition {
    item.def.(lane := Some(if item.def.lane.Some? then item.def.lane.value else "research"))
  }

  predicate Protected(wanted: Definition, current: Definition) {
    wanted.command != current.command || wanted.dependsOn != current.dependsOn || wanted.lock != current.lock
  }

  /** A running item keeps its command, dependencies and lock. */
  predicate Holds(item: Item, wanted: Definition) { item.status == Running && Protected(wanted, Current(item)) }

  function Applied(item: Item, wanted: Definition): Definition {
    if Holds(item, wanted) then wanted.(command := item.def.command, dependsOn := item.def.dependsOn,
      lock := item.def.lock) else wanted
  }

  function UpdatedItem(item: Item, m: seq<Entry>, now: int): Item {
    match Wanted(m, item.id)
    case None => item
    case Some(wanted) =>
      if Applied(item, wanted) == Current(item) then item else item.(def := Applied(item, wanted), updatedAt := now)
  }

  function UpdatedAll(items: seq<Item>, m: seq<Entry>, now: int): seq<Item> {
    seq(|items|, i requires 0 <= i < |items| => UpdatedItem(items[i], m, now))
  }

  function FreshItem(e: Entry, now: int): Item {
    Item(e.id, e.def, Queued, Runtime("running", 0, 0, now, None, None, None, 0, 0), now)
  }

  function Added(m: seq<Entry>, known: set<Id>, now: int): seq<Item> {
    if m == [] then []
    else Added(m[..|m| - 1], known, now) + if m[|m| - 1].id in known then [] else [FreshItem(m[|m| - 1], now)]
  }

  predicate Kept(item: Item, m: seq<Entry>, prune: bool) {
    !prune || Wanted(m, item.id).Some? || item.status == Running
  }

  function KeptAll(items: seq<Item>, m: seq<Entry>, prune: bool): seq<Item> {
    if items == [] then []
    else KeptAll(items[..|items| - 1], m, prune) + if Kept(items[|items| - 1], m, prune) then [items[|items| - 1]]
      else []
  }

  function Named(items: seq<Item>, id: Id): seq<Item> {
    if items == [] then []
    else if items[0].id == id then [items[0]]
    else Named(items[1..], id)
  }

  /** The items of the manifest, in manifest order. */
  function Front(items: seq<Item>, m: seq<Entry>): seq<Item> {
    if m == [] then [] else Front(items, m[..|m| - 1]) + Named(items, m[|m| - 1].id)
  }

  function Back(items: seq<Item>, m: seq<Entry>): seq<Item> {
    if items == [] then []
    else Back(items[..|items| - 1], m) + if Wanted(m, items[|items| - 1].id).None? then [items[|items| - 1]] else []
  }

  /** Manifest items first, in manifest order; the rest keep their order. */
  function Arranged(items: seq<Item>, m: seq<Entry>): seq<Item> { Front(items, m) + Back(items, m) }

  function Unarranged(items: seq<Item>, m: seq<Entry>, prune: bool, now: int): seq<Item> {
    KeptAll(UpdatedAll(items, m, now) + Added(m, Elements(Ids(items)), now), m, prune)
  }

  function Synced(items: seq<Item>, m: seq<Entry>, prune: bool, now: int): seq<Item> {
    Arranged(Unarranged(items, m, prune, now), m)
  }

  // ---------- What sync checks ----------

  predicate Available(items: seq<Item>, m: seq<Entry>, id: Id) { id in Ids(items) || Wanted(m, id).Some? }

  predicate Resolved(items: seq<Item>, m: seq<Entry>) {
    forall e, d | e in m && d in e.def.dependsOn :: Available(items, m, d)
  }

  function ItemNamed(items: seq<Item>, id: Id): Option<Item> {
    if items == [] then None
    else if items[|items| - 1].id == id then Some(items[|items| - 1])
    else ItemNamed(items[..|items| - 1], id)
  }

  /** The graph sync checks: the manifest's dependencies, and the queue's own for other items. */
  function CheckedGraph(items: seq<Item>, m: seq<Entry>): Graph {
    map id | id in Elements(Ids(items)) + Elements(EntryIds(m)) ::
      if Wanted(m, id).Some? then Wanted(m, id).value.dependsOn
      else if ItemNamed(items, id).Some? then ItemNamed(items, id).value.def.dependsOn else []
  }

  /** The dependencies the queue holds. */
  function QueueGraph(items: seq<Item>): Graph {
    map id | id in Elements(Ids(items)) ::
      if ItemNamed(items, id).Some? then ItemNamed(items, id).value.def.dependsOn else []
  }

  // ---------- Lists ----------

  lemma {:induction false} WantedOf(m: seq<Entry>, id: Id)
    ensures Wanted(m, id).Some? <==> id in EntryIds(m)
    ensures Wanted(m, id).Some? ==> Entry(id, Wanted(m, id).value) in m
  {
    if m != [] {
      WantedOf(m[..|m| - 1], id);
      assert EntryIds(m) == EntryIds(m[..|m| - 1]) + [m[|m| - 1].id];
    }
  }

  lemma {:induction false} NamedItem(items: seq<Item>, id: Id)
    ensures ItemNamed(items, id).Some? <==> id in Ids(items)
    ensures ItemNamed(items, id).Some? ==> ItemNamed(items, id).value in items && ItemNamed(items, id).value.id == id
  {
    if items != [] {
      NamedItem(items[..|items| - 1], id);
      assert Ids(items) == Ids(items[..|items| - 1]) + [items[|items| - 1].id];
    }
  }

  lemma IdsOf(items: seq<Item>, x: Item)
    requires x in items
    ensures x.id in Ids(items)
  {
    var i :| 0 <= i < |items| && items[i] == x;
    assert Ids(items)[i] == x.id;
  }

  lemma SameId(items: seq<Item>, x: Item, y: Item)
    requires Distinct(Ids(items)) && x in items && y in items && x.id == y.id
    ensures x == y
  {
    var i :| 0 <= i < |items| && items[i] == x;
    var j :| 0 <= j < |items| && items[j] == y;
    assert Ids(items)[i] == x.id && Ids(items)[j] == y.id;
  }

  lemma DistinctSnoc(ids: seq<Id>, id: Id)
    requires Distinct(ids) && id !in ids
    ensures Distinct(ids + [id])
  {
  }

  lemma IdsSnoc(items: seq<Item>, x: Item)
    ensures Ids(items + [x]) == Ids(items) + [x.id]
  {
  }

  lemma {:induction false} AddedItems(m: seq<Entry>, known: set<Id>, now: int)
    requires Distinct(EntryIds(m))
    ensures forall x :: x in Added(m, known, now) <==> exists e :: e in m && e.id !in known && x == FreshItem(e, now)
    ensures Distinct(Ids(Added(m, known, now)))
  {
    if m != [] {
      var rest, e := m[..|m| - 1], m[|m| - 1];
      assert EntryIds(rest) == EntryIds(m)[..|m| - 1];
      AddedItems(rest, known, now);
      assert m == rest + [e] && EntryIds(m)[|m| - 1] == e.id;
      var xs := Added(rest, known, now);
      assert e.id !in Ids(xs) by {
        forall i | 0 <= i < |xs| ensures Ids(xs)[i] != e.id {
          assert xs[i] in xs;
          var d :| d in rest && d.id !in known && xs[i] == FreshItem(d, now);
          var k :| 0 <= k < |rest| && rest[k] == d;
          assert EntryIds(m)[k] == d.id;
        }
      }
      DistinctSnoc(Ids(xs), e.id);
      IdsSnoc(xs, FreshItem(e, now));
      assert xs + [] == xs;
    }
  }

  lemma SubsetIds(xs: seq<Item>, ys: seq<Item>, id: Id)
    requires forall x | x in xs :: x in ys
    requires id in Ids(xs)
    ensures id in Ids(ys)
  {
    var i :| 0 <= i < |xs| && Ids(xs)[i] == id;
    assert xs[i] in xs;
    IdsOf(ys, xs[i]);
  }

  lemma {:induction false} KeptItems(items: seq<Item>, m: seq<Entry>, prune: bool)
    ensures forall x :: x in KeptAll(items, m, prune) <==> x in items && Kept(x, m, prune)
    ensures Distinct(Ids(items)) ==> Distinct(Ids(KeptAll(items, m, prune)))
  {
    if items != [] {
      var rest, x := items[..|items| - 1], items[|items| - 1];
      KeptItems(rest, m, prune);
      assert items == rest + [x];
      IdsSnoc(rest, x);
      if Distinct(Ids(items)) {
        assert Distinct(Ids(rest)) && x.id !in Ids(rest) by {
          assert forall i | 0 <= i < |rest| :: Ids(rest)[i] == Ids(items)[i];
          assert Ids(items)[|rest|] == x.id;
        }
        if x.id in Ids(KeptAll(rest, m, prune)) { SubsetIds(KeptAll(rest, m, prune), rest, x.id); }
        DistinctSnoc(Ids(KeptAll(rest, m, prune)), x.id);
        IdsSnoc(KeptAll(rest, m, prune), x);
        assert KeptAll(rest, m, prune) + [] == KeptAll(rest, m, prune);
      }
    }
  }

  lemma {:induction false} NamedOne(items: seq<Item>, id: Id)
    requires id in Ids(items)
    ensures |Named(items, id)| == 1 && Named(items, id)[0] in items && Named(items, id)[0].id == id
  {
    if items[0].id != id {
      assert Ids(items) == [items[0].id] + Ids(items[1..]);
      NamedOne(items[1..], id);
    }
  }

  lemma {:induction false} FrontItems(items: seq<Item>, m: seq<Entry>)
    requires forall e | e in m :: e.id in Ids(items)
    ensures |Front(items, m)| == |m| && forall i | 0 <= i < |m| ::
            Front(items, m)[i] in items && Front(items, m)[i].id == m[i].id
  {
    if m != [] {
      var last := |m| - 1;
      assert m[last] in m;
      NamedOne(items, m[last].id);
      FrontItems(items, m[..last]);
      assert Front(items, m) == Front(items, m[..last]) + Named(items, m[last].id);
    }
  }

  lemma {:induction false} BackItems(items: seq<Item>, m: seq<Entry>)
    ensures forall x :: x in Back(items, m) <==> x in items && Wanted(m, x.id).None?
    ensures Distinct(Ids(items)) ==> Distinct(Ids(Back(items, m)))
  {
    if items != [] {
      var rest, x := items[..|items| - 1], items[|items| - 1];
      BackItems(rest, m);
      assert items == rest + [x];
      IdsSnoc(rest, x);
      if Distinct(Ids(items)) {
        assert Distinct(Ids(rest)) && x.id !in Ids(rest) by {
          assert forall i | 0 <= i < |rest| :: Ids(rest)[i] == Ids(items)[i];
          assert Ids(items)[|rest|] == x.id;
        }
        if x.id in Ids(Back(rest, m)) { SubsetIds(Back(rest, m), rest, x.id); }
        DistinctSnoc(Ids(Back(rest, m)), x.id);
        IdsSnoc(Back(rest, m), x);
        assert Back(rest, m) + [] == Back(rest, m);
      }
    }
  }

  lemma {:induction false} BackConcat(xs: seq<Item>, ys: seq<Item>, m: seq<Entry>)
    ensures Back(xs + ys, m) == Back(xs, m) + Back(ys, m)
  {
    if ys == [] {
      assert xs + ys == xs;
    } else {
      BackConcat(xs, ys[..|ys| - 1], m);
      assert (xs + ys)[..|xs + ys| - 1] == xs + ys[..|ys| - 1];
    }
  }

  lemma {:induction false} BackAll(xs: seq<Item>, m: seq<Entry>)
    ensures (forall x | x in xs :: Wanted(m, x.id).None?) ==> Back(xs, m) == xs
    ensures (forall x | x in xs :: Wanted(m, x.id).Some?) ==> Back(xs, m) == []
  {
    if xs != [] {
      BackAll(xs[..|xs| - 1], m);
      LastApart(xs);
    }
  }

  // ---------- The synced queue ----------

  lemma UpdatedIds(items: seq<Item>, m: seq<Entry>, now: int)
    ensures Ids(UpdatedAll(items, m, now)) == Ids(items)
  {
  }

  lemma DistinctConcat(xs: seq<Id>, ys: seq<Id>)
    requires Distinct(xs) && Distinct(ys) && forall y | y in ys :: y !in xs
    ensures Distinct(xs + ys)
  {
    forall i, j | 0 <= i < j < |xs + ys| ensures (xs + ys)[i] != (xs + ys)[j] {
      if i < |xs| <= j { assert ys[j - |xs|] in ys && xs[i] in xs; }
    }
  }

  lemma IdsConcat(xs: seq<Item>, ys: seq<Item>)
    ensures Ids(xs + ys) == Ids(xs) + Ids(ys)
  {
  }

  ghost predicate Survives(items: seq<Item>, m: seq<Entry>, now: int, x: Item) {
    exists y :: y in items && x == UpdatedItem(y, m, now)
  }
  ghost predicate IsNew(items: seq<Item>, m: seq<Entry>, now: int, x: Item) {
    exists e :: e in m && e.id !in Ids(items) && x == FreshItem(e, now)
  }

  /** Before arranging: updated survivors and new items, under distinct ids, with every manifest id among them. */
  lemma UnarrangedItems(items: seq<Item>, m: seq<Entry>, prune: bool, now: int)
    requires Distinct(Ids(items)) && Distinct(EntryIds(m))
    ensures var u := Unarranged(items, m, prune, now);
            && Distinct(Ids(u))
            && (forall x :: x in u <==> (Kept(x, m, prune) && (Survives(items, m, now, x) || IsNew(items, m, now, x))))
            && (forall e | e in m :: e.id in Ids(u))
  {
    var ups, news := UpdatedAll(items, m, now), Added(m, Elements(Ids(items)), now);
    UpdatedIds(items, m, now);
    AddedItems(m, Elements(Ids(items)), now);
    IdsConcat(ups, news);
    forall id | id in Ids(news) ensures id !in Ids(ups) {
      var i :| 0 <= i < |news| && Ids(news)[i] == id;
      assert news[i] in news;
    }
    DistinctConcat(Ids(ups), Ids(news));
    KeptItems(ups + news, m, prune);
    var u := Unarranged(items, m, prune, now);
    forall x ensures x in ups <==> exists y :: y in items && x == UpdatedItem(y, m, now) {
      if x in ups {
        var i :| 0 <= i < |ups| && ups[i] == x;
        assert items[i] in items;
      }
      if y :| y in items && x == UpdatedItem(y, m, now) {
        var i :| 0 <= i < |items| && items[i] == y;
        assert ups[i] == x;
      }
    }
    forall e | e in m ensures e.id in Ids(u) {
      WantedHere(m, e);
      if e.id in Ids(items) {
        var i :| 0 <= i < |items| && Ids(items)[i] == e.id;
        assert ups[i] in ups;
        IdsOf(u, ups[i]);
      } else {
        assert FreshItem(e, now) in news;
        IdsOf(u, FreshItem(e, now));
      }
    }
  }

  lemma WantedHere(m: seq<Entry>, e: Entry)
    requires e in m
    ensures Wanted(m, e.id).Some?
    ensures Distinct(EntryIds(m)) ==> Wanted(m, e.id).value == e.def
  {
    var i :| 0 <= i < |m| && m[i] == e;
    assert EntryIds(m)[i] == e.id;
    WantedOf(m, e.id);
    var w := Entry(e.id, Wanted(m, e.id).value);
    var j :| 0 <= j < |m| && m[j] == w;
    assert EntryIds(m)[j] == e.id;
  }

  /** Manifest items come first, in manifest order; the others follow in the order they had. */
  lemma SyncedOrder(items: seq<Item>, m: seq<Entry>, prune: bool, now: int)
    requires Distinct(Ids(items)) && Distinct(EntryIds(m))
    ensures var r := Synced(items, m, prune, now);
            && |r| >= |m| && Ids(r)[..|m|] == EntryIds(m) && r[|m|..] == KeptAll(Back(items, m), m, prune)
            && Distinct(Ids(r))
  {
    var u := Unarranged(items, m, prune, now);
    UnarrangedItems(items, m, prune, now);
    ArrangedOrder(u, m);
    RestUntouched(items, m, prune, now);
  }

  lemma ArrangedOrder(u: seq<Item>, m: seq<Entry>)
    requires Distinct(Ids(u)) && Distinct(EntryIds(m)) && forall e | e in m :: e.id in Ids(u)
    ensures var r := Arranged(u, m);
            |r| >= |m| && Ids(r)[..|m|] == EntryIds(m) && r[|m|..] == Back(u, m) && Distinct(Ids(r))
  {
    FrontItems(u, m);
    BackItems(u, m);
    assert Ids(Front(u, m)) == EntryIds(m);
    IdsConcat(Front(u, m), Back(u, m));
    forall id | id in Ids(Back(u, m)) ensures id !in Ids(Front(u, m)) {
      var i :| 0 <= i < |Back(u, m)| && Ids(Back(u, m))[i] == id;
      assert Back(u, m)[i] in Back(u, m);
      WantedOf(m, id);
    }
    DistinctConcat(Ids(Front(u, m)), Ids(Back(u, m)));
  }

  lemma BackOne(x: Item, m: seq<Entry>, prune: bool, now: int)
    ensures Back(KeptAll([UpdatedItem(x, m, now)], m, prune), m) == KeptAll(Back([x], m), m, prune)
  {
    var y := UpdatedItem(x, m, now);
    assert [y][..0] == [] && [x][..0] == [];
    assert KeptAll([y], m, prune) == if Kept(y, m, prune) then [y] else [];
    assert Back([x], m) == if Wanted(m, x.id).None? then [x] else [];
    assert Back([y], m) == if Wanted(m, x.id).None? then [y] else [];
  }

  lemma {:induction false} BackUpdated(items: seq<Item>, m: seq<Entry>, prune: bool, now: int)
    ensures Back(KeptAll(UpdatedAll(items, m, now), m, prune), m) == KeptAll(Back(items, m), m, prune)
  {
    if items != [] {
      var rest, x := items[..|items| - 1], items[|items| - 1];
      var y, ups := UpdatedItem(x, m, now), UpdatedAll(rest, m, now);
      calc {
        Back(KeptAll(UpdatedAll(items, m, now), m, prune), m);
        { assert UpdatedAll(items, m, now) == ups + [y]; }
        Back(KeptAll(ups + [y], m, prune), m);
        { KeptConcat(ups, [y], m, prune); }
        Back(KeptAll(ups, m, prune) + KeptAll([y], m, prune), m);
        { BackConcat(KeptAll(ups, m, prune), KeptAll([y], m, prune), m); }
        Back(KeptAll(ups, m, prune), m) + Back(KeptAll([y], m, prune), m);
        { BackUpdated(rest, m, prune, now); BackOne(x, m, prune, now); }
        KeptAll(Back(rest, m), m, prune) + KeptAll(Back([x], m), m, prune);
        { KeptConcat(Back(rest, m), Back([x], m), m, prune); }
        KeptAll(Back(rest, m) + Back([x], m), m, prune);
        { BackConcat(rest, [x], m); assert items == rest + [x]; }
        KeptAll(Back(items, m), m, prune);
      }
    }
  }

  lemma {:induction false} KeptConcat(xs: seq<Item>, ys: seq<Item>, m: seq<Entry>, prune: bool)
    ensures KeptAll(xs + ys, m, prune) == KeptAll(xs, m, prune) + KeptAll(ys, m, prune)
  {
    if ys == [] {
      assert xs + ys == xs;
    } else {
      KeptConcat(xs, ys[..|ys| - 1], m, prune);
      assert (xs + ys)[..|xs + ys| - 1] == xs + ys[..|ys| - 1];
    }
  }

  /** Items the manifest does not name are kept or pruned whole, in order. */
  lemma RestUntouched(items: seq<Item>, m: seq<Entry>, prune: bool, now: int)
    requires Distinct(EntryIds(m))
    ensures Back(Unarranged(items, m, prune, now), m) == KeptAll(Back(items, m), m, prune)
  {
    var ups, news := UpdatedAll(items, m, now), Added(m, Elements(Ids(items)), now);
    KeptConcat(ups, news, m, prune);
    BackConcat(KeptAll(ups, m, prune), KeptAll(news, m, prune), m);
    BackUpdated(items, m, prune, now);
    AddedItems(m, Elements(Ids(items)), now);
    KeptItems(news, m, prune);
    forall x | x in KeptAll(news, m, prune) ensures Wanted(m, x.id).Some? {
      var e :| e in m && e.id !in Elements(Ids(items)) && x == FreshItem(e, now);
      WantedHere(m, e);
    }
    BackAll(KeptAll(news, m, prune), m);
  }

  lemma ArrangedItems(u: seq<Item>, m: seq<Entry>, x: Item)
    requires Distinct(Ids(u)) && Distinct(EntryIds(m)) && forall e | e in m :: e.id in Ids(u)
    ensures x in Arranged(u, m) <==> x in u
  {
    FrontItems(u, m);
    BackItems(u, m);
    if x in u && Wanted(m, x.id).Some? {
      WantedOf(m, x.id);
      var i :| 0 <= i < |m| && EntryIds(m)[i] == x.id;
      SameId(u, Front(u, m)[i], x);
      assert Front(u, m)[i] in Front(u, m);
    }
  }

  /** The queue after a sync holds exactly the updated survivors and the new items. An item is pruned only when pruning,
      when the manifest does not name it, and when it is not running; a survivor keeps its id, status and run
      history. */
  lemma SyncKeepsHistory(items: seq<Item>, m: seq<Entry>, prune: bool, now: int, x: Item)
    requires Distinct(Ids(items)) && Distinct(EntryIds(m))
    ensures x in Synced(items, m, prune, now) <==>
            (Kept(x, m, prune) && (Survives(items, m, now, x) || IsNew(items, m, now, x)))
    ensures x in items && Kept(x, m, prune) ==> UpdatedItem(x, m, now) in Synced(items, m, prune, now)
    ensures x in Synced(items, m, prune, now) && x.id in Ids(items) ==>
              exists y :: y in items && y.id == x.id && y.status == x.status && y.runtime == x.runtime
    ensures x in Synced(items, m, prune, now) && x.id !in Ids(items) ==>
            x.status == Queued && Some(x.def) == Wanted(m, x.id)
  {
    var u := Unarranged(items, m, prune, now);
    UnarrangedItems(items, m, prune, now);
    ArrangedItems(u, m, x);
    if x in items && Kept(x, m, prune) {
      assert Survives(items, m, now, UpdatedItem(x, m, now));
      ArrangedItems(u, m, UpdatedItem(x, m, now));
    }
    if x in Synced(items, m, prune, now) && Survives(items, m, now, x) {
      var y :| y in items && x == UpdatedItem(y, m, now);
      IdsOf(items, y);
    }
    if x in Synced(items, m, prune, now) && IsNew(items, m, now, x) {
      var e :| e in m && e.id !in Ids(items) && x == FreshItem(e, now);
      WantedHere(m, e);
    }
  }

  // ---------- Syncing again ----------

  predicate Laned(m: seq<Entry>) { forall e | e in m :: e.def.lane.Some? }

  lemma UpdateTwice(y: Item, m: seq<Entry>, now: int, later: int)
    requires Laned(m)
    ensures UpdatedItem(UpdatedItem(y, m, now), m, later) == UpdatedItem(y, m, now)
  {
    WantedOf(m, y.id);
  }

  /** Every item of a synced queue is as the manifest wants it. */
  lemma SyncedIsUpdated(items: seq<Item>, m: seq<Entry>, prune: bool, now: int, later: int, x: Item)
    requires Distinct(Ids(items)) && Distinct(EntryIds(m)) && Laned(m) && x in Synced(items, m, prune, now)
    ensures UpdatedItem(x, m, later) == x && Kept(x, m, prune)
  {
    SyncKeepsHistory(items, m, prune, now, x);
    if Survives(items, m, now, x) {
      var y :| y in items && x == UpdatedItem(y, m, now);
      UpdateTwice(y, m, now, later);
    } else {
      var e :| e in m && e.id !in Ids(items) && x == FreshItem(e, now);
      WantedHere(m, e);
    }
  }

  lemma {:induction false} KeptAllOf(xs: seq<Item>, m: seq<Entry>, prune: bool)
    requires forall x | x in xs :: Kept(x, m, prune)
    ensures KeptAll(xs, m, prune) == xs
  {
    if xs != [] {
      KeptAllOf(xs[..|xs| - 1], m, prune);
      LastApart(xs);
    }
  }

  lemma {:induction false} NothingToAdd(m: seq<Entry>, known: set<Id>, now: int)
    requires forall e | e in m :: e.id in known
    ensures Added(m, known, now) == []
  {
    if m != [] { NothingToAdd(m[..|m| - 1], known, now); }
  }

  lemma {:induction false} FrontWanted(f: seq<Item>, m: seq<Entry>, x: Item)
    requires |f| == |m| && (forall i | 0 <= i < |m| :: f[i].id == m[i].id) && x in f
    ensures Wanted(m, x.id).Some?
  {
    var i :| 0 <= i < |f| && f[i] == x;
    assert m[i] in m;
    WantedHere(m, m[i]);
  }

  /** When the first items are the manifest's, they are the front. */
  lemma FrontStays(r: seq<Item>, m: seq<Entry>, f: seq<Item>)
    requires Distinct(Ids(r)) && (forall e | e in m :: e.id in Ids(r))
    requires |f| == |m| <= |r| && f == r[..|m|] && forall i | 0 <= i < |m| :: f[i].id == m[i].id
    ensures Front(r, m) == f
  {
    FrontItems(r, m);
    forall i | 0 <= i < |m| ensures Front(r, m)[i] == f[i] {
      assert r[i] == f[i] && r[i] in r;
      SameId(r, Front(r, m)[i], f[i]);
    }
  }

  /** An arranged queue stays as it is. */
  lemma ArrangeTwice(u: seq<Item>, m: seq<Entry>)
    requires Distinct(Ids(u)) && Distinct(EntryIds(m)) && forall e | e in m :: e.id in Ids(u)
    ensures Arranged(Arranged(u, m), m) == Arranged(u, m)
  {
    var r, f, b := Arranged(u, m), Front(u, m), Back(u, m);
    ArrangedOrder(u, m);
    FrontItems(u, m);
    BackItems(u, m);
    forall e | e in m ensures e.id in Ids(r) {
      var i :| 0 <= i < |m| && m[i] == e;
      assert r[i] in r && r[i].id == e.id;
      IdsOf(r, r[i]);
    }
    FrontStays(r, m, f);
    BackStays(f, b, m);
  }

  lemma BackStays(f: seq<Item>, b: seq<Item>, m: seq<Entry>)
    requires |f| == |m| && (forall i | 0 <= i < |m| :: f[i].id == m[i].id) && forall x | x in b :: Wanted(m, x.id).None?
    ensures Back(f + b, m) == b
  {
    forall x | x in f ensures Wanted(m, x.id).Some? {
      FrontWanted(f, m, x);
    }
    BackConcat(f, b, m);
    BackAll(f, m);
    BackAll(b, m);
  }

  lemma UpdatedAllSame(xs: seq<Item>, m: seq<Entry>, now: int)
    requires forall x | x in xs :: UpdatedItem(x, m, now) == x
    ensures UpdatedAll(xs, m, now) == xs
  {
    forall i | 0 <= i < |xs| ensures UpdatedAll(xs, m, now)[i] == xs[i] {
      assert xs[i] in xs;
    }
  }

  lemma ManifestPresent(r: seq<Item>, m: seq<Entry>)
    requires |r| >= |m| && Ids(r)[..|m|] == EntryIds(m)
    ensures forall e | e in m :: e.id in Elements(Ids(r))
  {
    forall e | e in m ensures e.id in Elements(Ids(r)) {
      var i :| 0 <= i < |m| && m[i] == e;
      assert Ids(r)[..|m|][i] == EntryIds(m)[i] && Ids(r)[i] in Ids(r);
    }
  }

  /** Syncing the result again, at any later time, updates, adds, prunes and reorders nothing. */
  lemma SyncTwice(items: seq<Item>, m: seq<Entry>, prune: bool, now: int, later: int)
    requires Distinct(Ids(items)) && Distinct(EntryIds(m)) && Laned(m)
    ensures var r := Synced(items, m, prune, now);
            && Unarranged(r, m, prune, later) == r && Synced(r, m, prune, later) == r
            && UpdatedAll(r, m, later) == r && Added(m, Elements(Ids(r)), later) == [] && KeptAll(r, m, prune) == r
  {
    var u, r := Unarranged(items, m, prune, now), Synced(items, m, prune, now);
    UnarrangedItems(items, m, prune, now);
    forall x | x in r ensures UpdatedItem(x, m, later) == x && Kept(x, m, prune) {
      SyncedIsUpdated(items, m, prune, now, later, x);
    }
    UpdatedAllSame(r, m, later);
    KeptAllOf(r, m, prune);
    SyncedOrder(items, m, prune, now);
    ManifestPresent(r, m);
    NothingToAdd(m, Elements(Ids(r)), later);
    assert r + [] == r;
    ArrangeTwice(u, m);
  }

  /** A second identical sync passes the dependency check exactly when no manifest entry depends on an item that the
      first one pruned. */
  lemma SyncAgainIff(items: seq<Item>, m: seq<Entry>, prune: bool, now: int)
    requires Distinct(Ids(items)) && Distinct(EntryIds(m)) && Resolved(items, m)
    ensures Resolved(Synced(items, m, prune, now), m) <==>
              forall e, d, y | e in m && d in e.def.dependsOn && y in items && y.id == d :: Kept(y, m, prune)
  {
    hide Synced;
    var r := Synced(items, m, prune, now);
    forall d ensures Available(r, m, d) <==> Wanted(m, d).Some? || exists y ::
      y in items && y.id == d && Kept(y, m, prune) {
      SurvivesId(items, m, prune, now, d);
    }
    if forall e, d, y | e in m && d in e.def.dependsOn && y in items && y.id == d :: Kept(y, m, prune) {
      forall e, d | e in m && d in e.def.dependsOn ensures Available(r, m, d) {
        assert Available(items, m, d);
        if d in Ids(items) {
          var i :| 0 <= i < |items| && Ids(items)[i] == d;
          assert items[i] in items;
        }
      }
    } else {
      var e, d, y :| e in m && d in e.def.dependsOn && y in items && y.id == d && !Kept(y, m, prune);
      if Available(r, m, d) {
        var z :| z in items && z.id == d && Kept(z, m, prune);
        SameId(items, y, z);
      }
    }
  }

  lemma NewIsWanted(items: seq<Item>, m: seq<Entry>, now: int, x: Item)
    requires Distinct(EntryIds(m))
    ensures IsNew(items, m, now, x) ==> Wanted(m, x.id).Some?
  {
    if IsNew(items, m, now, x) {
      var e :| e in m && e.id !in Ids(items) && x == FreshItem(e, now);
      WantedHere(m, e);
    }
  }

  lemma SurvivesId(items: seq<Item>, m: seq<Entry>, prune: bool, now: int, d: Id)
    requires Distinct(Ids(items)) && Distinct(EntryIds(m))
    ensures d in Ids(Synced(items, m, prune, now)) || Wanted(m, d).Some? <==>
              Wanted(m, d).Some? || exists y :: y in items && y.id == d && Kept(y, m, prune)
  {
    var r := Synced(items, m, prune, now);
    if d in Ids(r) && Wanted(m, d).None? {
      var i :| 0 <= i < |r| && Ids(r)[i] == d;
      SyncKeepsHistory(items, m, prune, now, r[i]);
      NewIsWanted(items, m, now, r[i]);
      var y :| y in items && r[i] == UpdatedItem(y, m, now);
      assert y.id == d && Kept(y, m, prune);
    }
    if y :| y in items && y.id == d && Kept(y, m, prune) {
      SyncKeepsHistory(items, m, prune, now, y);
      IdsOf(r, UpdatedItem(y, m, now));
    }
  }

  // ---------- The resulting graph ----------

  /** No running item is asked for other dependencies than it has. */
  predicate DependenciesFree(items: seq<Item>, m: seq<Entry>) {
    forall y | y in items && y.status == Running
      && Wanted(m, y.id).Some? :: Wanted(m, y.id).value.dependsOn == y.def.dependsOn
  }

  lemma NamedIs(items: seq<Item>, x: Item)
    requires Distinct(Ids(items)) && x in items
    ensures ItemNamed(items, x.id) == Some(x)
  {
    NamedItem(items, x.id);
    IdsOf(items, x);
    SameId(items, ItemNamed(items, x.id).value, x);
  }

  /** The dependencies of one synced item: the checked ones, unless it is running and keeps its own. */
  lemma SyncedDependencies(items: seq<Item>, m: seq<Entry>, prune: bool, now: int, x: Item)
    requires Distinct(Ids(items)) && Distinct(EntryIds(m)) && x in Synced(items, m, prune, now)
    ensures Deps(QueueGraph(Synced(items, m, prune, now)), x.id) == x.def.dependsOn
    ensures x.def.dependsOn == Deps(CheckedGraph(items, m), x.id)
            || exists y :: y in items && y.id == x.id && y.status == Running && Wanted(m, y.id).Some?
                           && Wanted(m, y.id).value.dependsOn != y.def.dependsOn == x.def.dependsOn
  {
    var r := Synced(items, m, prune, now);
    SyncedOrder(items, m, prune, now);
    NamedIs(r, x);
    IdsOf(r, x);
    SyncKeepsHistory(items, m, prune, now, x);
    if Survives(items, m, now, x) {
      var y :| y in items && x == UpdatedItem(y, m, now);
      SurvivorDependencies(items, m, now, y);
    } else {
      var e :| e in m && e.id !in Ids(items) && x == FreshItem(e, now);
      FreshDependencies(items, m, now, e);
    }
  }

  lemma SurvivorDependencies(items: seq<Item>, m: seq<Entry>, now: int, y: Item)
    requires Distinct(Ids(items)) && y in items
    ensures var x := UpdatedItem(y, m, now);
            && x.id == y.id
            && (x.def.dependsOn == Deps(CheckedGraph(items, m), x.id)
                || (y.status == Running && Wanted(m, y.id).Some?
                     && Wanted(m, y.id).value.dependsOn != y.def.dependsOn == x.def.dependsOn))
  {
    NamedIs(items, y);
    IdsOf(items, y);
    WantedOf(m, y.id);
  }

  lemma FreshDependencies(items: seq<Item>, m: seq<Entry>, now: int, e: Entry)
    requires Distinct(EntryIds(m)) && e in m && e.id !in Ids(items)
    ensures FreshItem(e, now).def.dependsOn == Deps(CheckedGraph(items, m), e.id)
  {
    WantedHere(m, e);
    WantedOf(m, e.id);
  }

  /** After a sync every item has the dependencies that were checked, exactly when no running item was asked for other
      ones. */
  lemma GraphCheckedIff(items: seq<Item>, m: seq<Entry>, prune: bool, now: int)
    requires Distinct(Ids(items)) && Distinct(EntryIds(m))
    ensures var r := Synced(items, m, prune, now);
            (forall x | x in r :: Deps(QueueGraph(r), x.id) == Deps(CheckedGraph(items, m), x.id)) <==>
              DependenciesFree(items, m)
  {
    hide Synced;
    var r := Synced(items, m, prune, now);
    if DependenciesFree(items, m) {
      forall x | x in r ensures Deps(QueueGraph(r), x.id) == Deps(CheckedGraph(items, m), x.id) {
        SyncedDependencies(items, m, prune, now, x);
      }
    } else {
      var y :| y in items && y.status == Running && Wanted(m, y.id).Some?
        && Wanted(m, y.id).value.dependsOn != y.def.dependsOn;
      SyncKeepsHistory(items, m, prune, now, y);
      SyncedDependencies(items, m, prune, now, UpdatedItem(y, m, now));
      IdsOf(items, y);
    }
  }

  lemma SubgraphCycle(g: Graph, h: Graph, x: Id)
    requires OnCycle(h, x) && forall y, d | d in Deps(h, y) :: d in Deps(g, y)
    ensures OnCycle(g, x)
  {
    var p :| Cycle(h, p) && p[0] == x;
    forall i | 0 <= i < |p| - 1 ensures Edge(g, p[i], p[i + 1]) {
      assert Edge(h, p[i], p[i + 1]);
    }
    assert Cycle(g, p);
  }

  lemma SubgraphAcyclic(g: Graph, h: Graph)
    requires Acyclic(g) && forall x, d | d in Deps(h, x) :: d in Deps(g, x)
    ensures Acyclic(h)
  {
    forall x ensures !OnCycle(h, x) {
      if OnCycle(h, x) { SubgraphCycle(g, h, x); }
    }
  }

  // ---------- What a sync leaves of the graph ----------

  /** An id stays when the manifest names it, nothing is pruned, or its item is running. */
  predicate StaysId(items: seq<Item>, m: seq<Entry>, prune: bool, id: Id) {
    !prune || Wanted(m, id).Some? || (ItemNamed(items, id).Some? && ItemNamed(items, id).value.status == Running)
  }

  /** A running item keeps its own dependencies; any other takes the manifest's, if the manifest names it. */
  function HeldDependencies(items: seq<Item>, m: seq<Entry>, id: Id): seq<Id> {
    var y, wanted := ItemNamed(items, id), Wanted(m, id);
    if y.Some? && (y.value.status == Running || wanted.None?) then y.value.def.dependsOn
    else if wanted.Some? then wanted.value.dependsOn else []
  }

  /** The graph as the sync will leave it, read off the queue and the manifest before the sync. */
  function HeldGraph(items: seq<Item>, m: seq<Entry>, prune: bool): Graph {
    map id | id in Elements(Ids(items)) + Elements(EntryIds(m))
      && StaysId(items, m, prune, id) :: HeldDependencies(items, m, id)
  }

  lemma HeldSurvivor(items: seq<Item>, m: seq<Entry>, prune: bool, now: int, y: Item)
    requires Distinct(Ids(items)) && y in items
    ensures var x := UpdatedItem(y, m, now);
            && x.id == y.id && x.def.dependsOn == HeldDependencies(items, m, y.id)
            && (Kept(x, m, prune) <==> StaysId(items, m, prune, y.id))
            && y.id in Elements(Ids(items))
  {
    NamedIs(items, y);
    IdsOf(items, y);
  }

  lemma HeldFresh(items: seq<Item>, m: seq<Entry>, now: int, e: Entry)
    requires Distinct(EntryIds(m)) && e in m && e.id !in Ids(items)
    ensures FreshItem(e, now).def.dependsOn == HeldDependencies(items, m, e.id) && Wanted(m, e.id).Some?
            && e.id in Elements(EntryIds(m))
  {
    WantedHere(m, e);
    WantedOf(m, e.id);
    NamedItem(items, e.id);
  }

  lemma HeldItem(items: seq<Item>, m: seq<Entry>, prune: bool, now: int, x: Item)
    requires Distinct(Ids(items)) && Distinct(EntryIds(m)) && x in Synced(items, m, prune, now)
    ensures x.id in HeldGraph(items, m, prune) && x.def.dependsOn == HeldDependencies(items, m, x.id)
  {
    SyncKeepsHistory(items, m, prune, now, x);
    if Survives(items, m, now, x) {
      var y :| y in items && x == UpdatedItem(y, m, now);
      HeldSurvivor(items, m, prune, now, y);
    } else {
      var e :| e in m && e.id !in Ids(items) && x == FreshItem(e, now);
      HeldFresh(items, m, now, e);
    }
  }

  lemma HeldIdStays(items: seq<Item>, m: seq<Entry>, prune: bool, now: int, id: Id)
    requires Distinct(Ids(items)) && Distinct(EntryIds(m)) && id in HeldGraph(items, m, prune)
    ensures id in Ids(Synced(items, m, prune, now))
  {
    var r := Synced(items, m, prune, now);
    if id in Ids(items) {
      var k :| 0 <= k < |items| && Ids(items)[k] == id;
      var y := items[k];
      HeldSurvivor(items, m, prune, now, y);
      SyncKeepsHistory(items, m, prune, now, UpdatedItem(y, m, now));
      IdsOf(r, UpdatedItem(y, m, now));
    } else {
      var k :| 0 <= k < |m| && EntryIds(m)[k] == id;
      HeldFresh(items, m, now, m[k]);
      SyncKeepsHistory(items, m, prune, now, FreshItem(m[k], now));
      IdsOf(r, FreshItem(m[k], now));
    }
  }

  /** The dependency graph of the queue after a sync is the held graph. */
  lemma SyncedGraph(items: seq<Item>, m: seq<Entry>, prune: bool, now: int)
    requires Distinct(Ids(items)) && Distinct(EntryIds(m))
    ensures QueueGraph(Synced(items, m, prune, now)) == HeldGraph(items, m, prune)
  {
    var r := Synced(items, m, prune, now);
    SyncedOrder(items, m, prune, now);
    forall id ensures id in Elements(Ids(r)) <==> id in HeldGraph(items, m, prune) {
      if id in Elements(Ids(r)) {
        var k :| 0 <= k < |r| && Ids(r)[k] == id;
        HeldItem(items, m, prune, now, r[k]);
      } else if id in HeldGraph(items, m, prune) {
        HeldIdStays(items, m, prune, now, id);
      }
    }
    forall id | id in Elements(Ids(r)) ensures QueueGraph(r)[id] == HeldGraph(items, m, prune)[id] {
      var k :| 0 <= k < |r| && Ids(r)[k] == id;
      NamedIs(r, r[k]);
      HeldItem(items, m, prune, now, r[k]);
    }
  }

  /** A sync leaves an acyclic queue exactly when the held graph has no cycle. */
  lemma SyncAcyclicIff(items: seq<Item>, m: seq<Entry>, prune: bool, now: int)
    requires Distinct(Ids(items)) && Distinct(EntryIds(m))
    ensures Acyclic(QueueGraph(Synced(items, m, prune, now))) <==> Acyclic(HeldGraph(items, m, prune))
  {
    SyncedGraph(items, m, prune, now);
  }

  /** A sync that passed its check leaves an acyclic queue, as long as no running item was asked for other
      dependencies. */
  lemma SyncKeepsAcyclic(items: seq<Item>, m: seq<Entry>, prune: bool, now: int)
    requires Distinct(Ids(items)) && Distinct(EntryIds(m)) && Acyclic(CheckedGraph(items, m))
             && DependenciesFree(items, m)
    ensures Acyclic(QueueGraph(Synced(items, m, prune, now)))
  {
    hide Synced;
    SyncedGraph(items, m, prune, now);
    forall x, d | d in Deps(HeldGraph(items, m, prune), x) ensures d in Deps(CheckedGraph(items, m), x) {
      NamedItem(items, x);
    }
    SubgraphAcyclic(CheckedGraph(items, m), HeldGraph(items, m, prune));
  }

  const RUNTIME := Runtime("running", 0, 0, 0, None, None, None, 0, 0)
  const RUNNING_ITEM := Item("a", Definition(["run"], ["b"], None, Some("research"), []), Running, RUNTIME, 0)
  const QUEUED_ITEM := Item("b", Definition(["run"], [], None, Some("research"), []), Queued, RUNTIME, 0)
  const SWAPPED: seq<Entry> := [Entry("a", RUNNING_ITEM.def.(dependsOn := [])),
    Entry("b", QUEUED_ITEM.def.(dependsOn := ["a"]))]

  lemma SwappedWants()
    ensures Wanted(SWAPPED, "a") == Some(SWAPPED[0].def) && Wanted(SWAPPED, "b") == Some(SWAPPED[1].def)
    ensures EntryIds(SWAPPED) == ["a", "b"] && Ids([RUNNING_ITEM, QUEUED_ITEM]) == ["a", "b"]
  {
    assert SWAPPED[..1] == [SWAPPED[0]];
  }

  lemma SwappedChecked()
    ensures Acyclic(CheckedGraph([RUNNING_ITEM, QUEUED_ITEM], SWAPPED))
            && Resolved([RUNNING_ITEM, QUEUED_ITEM], SWAPPED)
  {
    SwappedWants();
    var g := CheckedGraph([RUNNING_ITEM, QUEUED_ITEM], SWAPPED);
    assert "a" in ["a", "b"] && "b" in ["a", "b"];
    assert Deps(g, "a") == [] && Deps(g, "b") == ["a"];
    var done := ["a", "b"];
    assert done[..1] == ["a"];
    assert Ordered(g, done);
    AllFinishedIsAcyclic(g, done);
    assert "a" in Ids([RUNNING_ITEM, QUEUED_ITEM]);
  }

  lemma TwoCycle(g: Graph)
    requires Edge(g, "a", "b") && Edge(g, "b", "a")
    ensures !Acyclic(g)
  {
    var p := ["a", "b", "a"];
    assert forall i | 0 <= i < |p| - 1 :: Edge(g, p[i], p[i + 1]);
    assert Cycle(g, p) && p[0] == "a";
    assert OnCycle(g, "a");
  }

  /** Otherwise it may not: here the check passes, yet the running item keeps a dependency that closes a cycle. */
  lemma SyncMayCycle(now: int)
    ensures var items := [RUNNING_ITEM, QUEUED_ITEM];
            && Distinct(Ids(items)) && Distinct(EntryIds(SWAPPED)) && Laned(SWAPPED) && Resolved(items, SWAPPED)
            && Acyclic(CheckedGraph(items, SWAPPED)) && !Acyclic(QueueGraph(Synced(items, SWAPPED, false, now)))
  {
    var items := [RUNNING_ITEM, QUEUED_ITEM];
    SwappedFits();
    SwappedChecked();
    SwappedCycles();
    SyncAcyclicIff(items, SWAPPED, false, now);
  }

  lemma SwappedCycles()
    ensures !Acyclic(HeldGraph([RUNNING_ITEM, QUEUED_ITEM], SWAPPED, false))
  {
    SwappedHeld();
    TwoCycle(HeldGraph([RUNNING_ITEM, QUEUED_ITEM], SWAPPED, false));
  }

  lemma SwappedFits()
    ensures Distinct(Ids([RUNNING_ITEM, QUEUED_ITEM])) && Distinct(EntryIds(SWAPPED)) && Laned(SWAPPED)
  {
    SwappedWants();
  }

  lemma SwappedHeld()
    ensures var g := HeldGraph([RUNNING_ITEM, QUEUED_ITEM], SWAPPED, false); Edge(g, "a", "b") && Edge(g, "b", "a")
  {
    SwappedWants();
    var items := [RUNNING_ITEM, QUEUED_ITEM];
    NamedIs(items, RUNNING_ITEM);
    NamedIs(items, QUEUED_ITEM);
    assert "a" in Elements(Ids(items)) && "b" in Elements(Ids(items)) by {
      IdsOf(items, RUNNING_ITEM); IdsOf(items, QUEUED_ITEM);
    }
    assert HeldDependencies(items, SWAPPED, "a")[0] == "b" && HeldDependencies(items, SWAPPED, "b")[0] == "a";
  }

  // ---------- Dependencies on what was pruned ----------

  /** Every dependency names an item of the queue. An unmanaged claim that meets one that does not raises. */
  predicate Closed(items: seq<Item>) { forall x, d | x in items && d in x.def.dependsOn :: d in Ids(items) }

  lemma ClosedGraph(items: seq<Item>)
    requires Distinct(Ids(items))
    ensures var g := QueueGraph(items); Closed(items) <==> forall id, d | id in g && d in g[id] :: d in g
  {
    var g := QueueGraph(items);
    assert forall id :: id in g <==> id in Ids(items);
    if Closed(items) {
      forall id, d | id in g && d in g[id] ensures d in g {
        NamedItem(items, id);
        assert ItemNamed(items, id).value in items && d in ItemNamed(items, id).value.def.dependsOn;
      }
    }
    if forall id, d | id in g && d in g[id] :: d in g {
      forall x, d | x in items && d in x.def.dependsOn ensures d in Ids(items) {
        NamedIs(items, x);
        IdsOf(items, x);
        assert x.id in g && d in g[x.id];
      }
    }
  }

  /** After a sync every dependency is present exactly when no item that stays keeps or gets a dependency on an id that
      goes or never was. */
  lemma SyncClosedIff(items: seq<Item>, m: seq<Entry>, prune: bool, now: int)
    requires Distinct(Ids(items)) && Distinct(EntryIds(m))
    ensures var g := HeldGraph(items, m, prune);
            Closed(Synced(items, m, prune, now)) <==>
              forall id, d | id in g && d in HeldDependencies(items, m, id) :: d in g
  {
    SyncedGraph(items, m, prune, now);
    SyncedOrder(items, m, prune, now);
    ClosedGraph(Synced(items, m, prune, now));
  }

  const FINISHED_ITEM := QUEUED_ITEM.(status := Completed)

  /** A sync that passes its check may leave such a dependency: pruning takes the finished item that a running one
      outside the manifest depends on. */
  lemma SyncMayDangle(now: int)
    ensures var items := [RUNNING_ITEM, FINISHED_ITEM];
            && Distinct(Ids(items)) && Closed(items) && Resolved(items, []) && Acyclic(CheckedGraph(items, []))
            && !Closed(Synced(items, [], true, now))
  {
    var items := [RUNNING_ITEM, FINISHED_ITEM];
    DanglingFits();
    DanglingHeld();
    SyncClosedIff(items, [], true, now);
  }

  lemma DanglingFits()
    ensures var items := [RUNNING_ITEM, FINISHED_ITEM];
            Distinct(Ids(items)) && Closed(items) && Resolved(items, []) && Acyclic(CheckedGraph(items, []))
  {
    var items := [RUNNING_ITEM, FINISHED_ITEM];
    assert Ids(items) == ["a", "b"] && "b" in ["a", "b"];
    NamedIs(items, RUNNING_ITEM);
    NamedIs(items, FINISHED_ITEM);
    var g, done := CheckedGraph(items, []), ["b", "a"];
    assert Deps(g, "b") == [] && Deps(g, "a") == ["b"] && done[..1] == ["b"];
    assert Ordered(g, done);
    AllFinishedIsAcyclic(g, done);
  }

  lemma DanglingHeld()
    ensures var items := [RUNNING_ITEM, FINISHED_ITEM];
            var g := HeldGraph(items, [], true); "a" in g && "b" in HeldDependencies(items, [], "a") && "b" !in g
  {
    var items := [RUNNING_ITEM, FINISHED_ITEM];
    assert Ids(items) == ["a", "b"];
    NamedIs(items, RUNNING_ITEM);
    NamedIs(items, FINISHED_ITEM);
    assert "a" in Elements(Ids(items)) by { IdsOf(items, RUNNING_ITEM); }
    assert RUNNING_ITEM.def.dependsOn[0] == "b";
  }

  // ---------- The report, and sync as it runs ----------

  function UpdatedReport(items: seq<Item>, m: seq<Entry>): seq<Id> {
    if items == [] then []
    else
      var x := items[|items| - 1];
      UpdatedReport(items[..|items| - 1], m) +
      if Wanted(m, x.id).Some? && Applied(x, Wanted(m, x.id).value) != Current(x) then [x.id] else []
  }

  function HeldReport(items: seq<Item>, m: seq<Entry>): seq<Skip> {
    if items == [] then []
    else
      var x := items[|items| - 1];
      HeldReport(items[..|items| - 1], m) + if Wanted(m, x.id).Some?
        && Holds(x, Wanted(m, x.id).value) then [Held(x.id)] else []
  }

  function PrunedReport(items: seq<Item>, m: seq<Entry>, prune: bool): seq<Id> {
    if items == [] then []
    else PrunedReport(items[..|items| - 1], m, prune) + if Kept(items[|items| - 1], m, prune) then []
      else [items[|items| - 1].id]
  }

  function SparedReport(items: seq<Item>, m: seq<Entry>): seq<Skip> {
    if items == [] then []
    else
      var x := items[|items| - 1];
      SparedReport(items[..|items| - 1], m) + if Wanted(m, x.id).None? && x.status == Running then [NeverPruned(x.id)]
        else []
  }

  function ReportOf(items: seq<Item>, m: seq<Entry>, prune: bool, now: int): Report {
    var all := UpdatedAll(items, m, now) + Added(m, Elements(Ids(items)), now);
    Report(Ids(Added(m, Elements(Ids(items)), now)), UpdatedReport(items, m),
           Ids(Synced(items, m, prune, now)) != Ids(Unarranged(items, m, prune, now)), PrunedReport(all, m, prune),
           HeldReport(items, m) + if prune then SparedReport(all, m) else [])
  }

  lemma {:induction false} NothingUpdated(xs: seq<Item>, m: seq<Entry>, now: int)
    requires Laned(m) && forall x | x in xs :: UpdatedItem(x, m, now) == x
    ensures UpdatedReport(xs, m) == []
  {
    if xs != [] {
      var x := xs[|xs| - 1];
      NothingUpdated(xs[..|xs| - 1], m, now);
      assert x in xs;
      WantedOf(m, x.id);
    }
  }

  lemma {:induction false} NothingPruned(xs: seq<Item>, m: seq<Entry>, prune: bool)
    requires forall x | x in xs :: Kept(x, m, prune)
    ensures PrunedReport(xs, m, prune) == []
  {
    if xs != [] { NothingPruned(xs[..|xs| - 1], m, prune); }
  }

  /** The report of an identical second sync is empty but for what stays skipped. */
  lemma SecondReport(items: seq<Item>, m: seq<Entry>, prune: bool, now: int, later: int)
    requires Distinct(Ids(items)) && Distinct(EntryIds(m)) && Laned(m)
    ensures var again := ReportOf(Synced(items, m, prune, now), m, prune, later);
            again.added == [] && again.updated == [] && again.pruned == [] && !again.reordered
  {
    var r := Synced(items, m, prune, now);
    SyncTwice(items, m, prune, now, later);
    forall x | x in r ensures UpdatedItem(x, m, later) == x && Kept(x, m, prune) {
      SyncedIsUpdated(items, m, prune, now, later, x);
    }
    NothingUpdated(r, m, later);
    NothingPruned(r, m, prune);
    assert r + [] == r;
  }

  // ---------- What sync does to one item, and what it reports ----------

  function LaneOf(d: Definition): string { if d.lane.Some? then d.lane.value else "research" }

  predicate SameProtected(a: Definition, b: Definition) {
    a.command == b.command && a.dependsOn == b.dependsOn && a.lock == b.lock
  }

  predicate SameDefinition(a: Definition, b: Definition) {
    LaneOf(a) == LaneOf(b) && a.other == b.other && SameProtected(a, b)
  }

  /** An item that stays and that no entry names is untouched. One that is named takes lane and other settings from its
      entry; its command, dependencies and lock too, unless it is running: then it keeps them. It is stamped when its
      definition changed, and only then. */
  lemma SyncDefines(items: seq<Item>, m: seq<Entry>, prune: bool, now: int, x: Item, y: Item)
    requires Distinct(Ids(items)) && Distinct(EntryIds(m)) && x in Synced(items, m, prune, now) && y in items
             && x.id == y.id
    ensures (forall e | e in m :: e.id != y.id) ==> x == y
    ensures forall e | e in m && e.id == y.id ::
              && LaneOf(x.def) == LaneOf(e.def) && x.def.other == e.def.other
              && SameProtected(x.def, if y.status == Running then y.def else e.def)
              && x == y.(def := x.def, updatedAt := x.updatedAt)
              && (x == y || x.updatedAt == now)
              && (e.def.lane.Some? && SameDefinition(x.def, y.def) ==> x == y)
  {
    hide Synced;
    SyncKeepsHistory(items, m, prune, now, x);
    SurvivorIs(items, m, prune, now, x, y);
    WantedOf(m, y.id);
    forall e | e in m && e.id == y.id ensures Wanted(m, y.id) == Some(e.def) { WantedHere(m, e); }
  }

  lemma SurvivorIs(items: seq<Item>, m: seq<Entry>, prune: bool, now: int, x: Item, y: Item)
    requires Distinct(Ids(items)) && Distinct(EntryIds(m)) && x in Synced(items, m, prune, now) && y in items
             && x.id == y.id
    ensures x == UpdatedItem(y, m, now)
  {
    hide Synced;
    SyncKeepsHistory(items, m, prune, now, x);
    IdsOf(items, y);
    var z :| z in items && x == UpdatedItem(z, m, now);
    SameId(items, y, z);
  }

  /** An entry whose id the queue did not hold becomes a fresh queued item. */
  lemma SyncAdds(items: seq<Item>, m: seq<Entry>, prune: bool, now: int, e: Entry)
    requires Distinct(Ids(items)) && Distinct(EntryIds(m)) && e in m && e.id !in Ids(items)
    ensures Item(e.id, e.def, Queued, Runtime("running", 0, 0, now, None, None, None, 0, 0), now)
              in Synced(items, m, prune, now)
  {
    var x := FreshItem(e, now);
    WantedHere(m, e);
    assert IsNew(items, m, now, x);
    SyncKeepsHistory(items, m, prune, now, x);
  }

  predicate AsksHeld(y: Item, e: Entry) { y.id == e.id && y.status == Running && !SameProtected(e.def, y.def) }

  lemma {:induction false} HeldListed(items: seq<Item>, m: seq<Entry>, id: Id)
    requires Distinct(EntryIds(m))
    ensures Held(id) in HeldReport(items, m) <==> exists y, e :: y in items && e in m && y.id == id && AsksHeld(y, e)
    ensures NeverPruned(id) !in HeldReport(items, m)
  {
    if items != [] {
      var rest, x := items[..|items| - 1], items[|items| - 1];
      HoldsIff(m, x);
      hide Wanted, Holds, AsksHeld;
      HeldListed(rest, m, id);
      LastApart(items);
    }
  }

  lemma HoldsIff(m: seq<Entry>, x: Item)
    requires Distinct(EntryIds(m))
    ensures Wanted(m, x.id).Some? && Holds(x, Wanted(m, x.id).value) <==> exists e :: e in m && AsksHeld(x, e)
  {
    WantedOf(m, x.id);
    forall e | e in m && e.id == x.id ensures Wanted(m, x.id) == Some(e.def) { WantedHere(m, e); }
  }

  lemma {:induction false} UpdatedListed(items: seq<Item>, m: seq<Entry>, now: int, id: Id)
    requires Laned(m)
    ensures id in UpdatedReport(items, m) <==>
              exists y :: y in items && y.id == id && UpdatedItem(y, m, now).def != y.def
  {
    if items != [] {
      UpdatedListed(items[..|items| - 1], m, now, id);
      LastApart(items);
      ChangesIff(items[|items| - 1], m, now);
      hide Wanted, Applied, UpdatedItem;
    }
  }

  lemma ChangesIff(y: Item, m: seq<Entry>, now: int)
    requires Laned(m)
    ensures UpdatedItem(y, m, now).def != y.def <==>
              Wanted(m, y.id).Some? && Applied(y, Wanted(m, y.id).value) != Current(y)
  {
    WantedOf(m, y.id);
  }

  /** The report names as updated exactly the items whose definition is another one afterwards. */
  lemma UpdatedIff(items: seq<Item>, m: seq<Entry>, prune: bool, now: int, id: Id)
    requires Distinct(Ids(items)) && Distinct(EntryIds(m)) && Laned(m)
    ensures id in ReportOf(items, m, prune, now).updated <==>
              exists x, y ::
                y in items && x in Synced(items, m, prune, now) && x.id == y.id == id && x.def != y.def
  {
    UpdatedListed(items, m, now, id);
    if y :| y in items && y.id == id && UpdatedItem(y, m, now).def != y.def {
      ChangesIff(y, m, now);
      SyncKeepsHistory(items, m, prune, now, y);
    }
    forall x, y | y in items && x in Synced(items, m, prune, now) && x.id == y.id == id && x.def != y.def
      ensures x == UpdatedItem(y, m, now)
    {
      SurvivorIs(items, m, prune, now, x, y);
    }
  }

  lemma {:induction false} SparedListed(items: seq<Item>, m: seq<Entry>, id: Id)
    ensures NeverPruned(id) in SparedReport(items, m) <==>
              exists y :: y in items && y.id == id && y.status == Running && Wanted(m, id).None?
    ensures Held(id) !in SparedReport(items, m)
  {
    if items != [] {
      SparedListed(items[..|items| - 1], m, id);
      LastApart(items);
    }
  }

  lemma {:induction false} PrunedListed(items: seq<Item>, m: seq<Entry>, prune: bool, id: Id)
    ensures id in PrunedReport(items, m, prune) <==> exists y :: y in items && y.id == id && !Kept(y, m, prune)
  {
    if items != [] {
      PrunedListed(items[..|items| - 1], m, prune, id);
      LastApart(items);
    }
  }

  /** The report names as held exactly the running items whose entry asks for another command, dependencies or lock; as
      added the entries the queue did not hold; as pruned the items that are gone. */
  lemma ReportIff(items: seq<Item>, m: seq<Entry>, prune: bool, now: int, id: Id)
    requires Distinct(Ids(items)) && Distinct(EntryIds(m))
    ensures var report := ReportOf(items, m, prune, now);
            && (Held(id) in report.skipped <==> exists y, e :: y in items && e in m && y.id == id && AsksHeld(y, e))
            && (id in report.added <==> id in EntryIds(m) && id !in Ids(items))
            && (id in report.pruned <==> id in Ids(items) && id !in Ids(Synced(items, m, prune, now)))
  {
    var ups, news := UpdatedAll(items, m, now), Added(m, Elements(Ids(items)), now);
    HeldListed(items, m, id);
    SparedListed(ups + news, m, id);
    PrunedListed(ups + news, m, prune, id);
    AddedListed(items, m, now, id);
    PrunedIff(items, m, prune, now, id);
  }

  lemma AddedListed(items: seq<Item>, m: seq<Entry>, now: int, id: Id)
    requires Distinct(EntryIds(m))
    ensures id in Ids(Added(m, Elements(Ids(items)), now)) <==> id in EntryIds(m) && id !in Ids(items)
  {
    var news := Added(m, Elements(Ids(items)), now);
    AddedItems(m, Elements(Ids(items)), now);
    if id in Ids(news) {
      var i :| 0 <= i < |news| && Ids(news)[i] == id;
      assert news[i] in news;
      var e :| e in m && e.id !in Elements(Ids(items)) && news[i] == FreshItem(e, now);
      WantedHere(m, e);
      WantedOf(m, id);
    }
    if id in EntryIds(m) && id !in Ids(items) {
      var i :| 0 <= i < |m| && EntryIds(m)[i] == id;
      assert m[i] in m;
      IdsOf(news, FreshItem(m[i], now));
    }
  }

  lemma PrunedIff(items: seq<Item>, m: seq<Entry>, prune: bool, now: int, id: Id)
    requires Distinct(Ids(items)) && Distinct(EntryIds(m))
    ensures var all, r := UpdatedAll(items, m, now) + Added(m, Elements(Ids(items)), now), Synced(items, m, prune, now);
            (exists y :: y in all && y.id == id && !Kept(y, m, prune)) <==> id in Ids(items) && id !in Ids(r)
  {
    hide Synced;
    var ups, news, r := UpdatedAll(items, m, now), Added(m, Elements(Ids(items)), now), Synced(items, m, prune, now);
    AddedItems(m, Elements(Ids(items)), now);
    if y: Item :| y in ups + news && y.id == id && !Kept(y, m, prune) {
      if y in news {
        var e :| e in m && e.id !in Elements(Ids(items)) && y == FreshItem(e, now);
        WantedHere(m, e);
      }
      var k :| 0 <= k < |ups| && ups[k] == y;
      IdsOf(items, items[k]);
      if id in Ids(r) {
        var i :| 0 <= i < |r| && Ids(r)[i] == id;
        SyncKeepsHistory(items, m, prune, now, r[i]);
        SurvivorIs(items, m, prune, now, r[i], items[k]);
      }
    }
    if id in Ids(items) && id !in Ids(r) {
      var k :| 0 <= k < |items| && Ids(items)[k] == id;
      var y := UpdatedItem(items[k], m, now);
      assert y == ups[k] && y in ups + news;
      if Kept(y, m, prune) {
        assert Survives(items, m, now, y);
        SyncKeepsHistory(items, m, prune, now, y);
        IdsOf(r, y);
      }
    }
  }

  lemma ReportsSnoc(items: seq<Item>, m: seq<Entry>, i: nat)
    requires i < |items|
    ensures UpdatedReport(items[..i + 1], m) == UpdatedReport(items[..i], m) +
              if Wanted(m, items[i].id).Some?
                && Applied(items[i], Wanted(m, items[i].id).value) != Current(items[i]) then [items[i].id] else []
    ensures HeldReport(items[..i + 1], m) == HeldReport(items[..i], m) +
              if Wanted(m, items[i].id).Some? && Holds(items[i], Wanted(m, items[i].id).value) then [Held(items[i].id)]
                else []
  {
    assert items[..i + 1][..i] == items[..i];
  }

  class QueueStore {
    var items: seq<Item>

    constructor (initial: seq<Item>)
      ensures items == initial
    {
      items := initial;
    }

    /** Entries before the first duplicate id. */
    static method FirstDuplicate(m: seq<Entry>) returns (r: Option<Id>)
      ensures r.None? <==> Distinct(EntryIds(m))
      ensures r.Some? ==> exists i, j :: 0 <= i < j < |m| && m[i].id == m[j].id == r.value
    {
      for n := 0 to |m|
        invariant forall i, j | 0 <= i < j < n :: EntryIds(m)[i] != EntryIds(m)[j]
      {
        for k := 0 to n
          invariant forall i | 0 <= i < k :: EntryIds(m)[i] != EntryIds(m)[n]
        {
          if m[k].id == m[n].id {
            assert EntryIds(m)[k] == EntryIds(m)[n];
            return Some(m[k].id);
          }
        }
      }
      return None;
    }

    /** The first dependency that names nothing. */
    method FirstMissing(m: seq<Entry>) returns (r: Option<SyncError>)
      ensures r.None? <==> Resolved(items, m)
      ensures r.Some? ==> r.value.MissingDependency? && !Available(items, m, r.value.dependency)
                          && exists e :: e in m && e.id == r.value.id && r.value.dependency in e.def.dependsOn
    {
      for i := 0 to |m|
        invariant forall e, d | e in m[..i] && d in e.def.dependsOn :: Available(items, m, d)
      {
        for k := 0 to |m[i].def.dependsOn|
          invariant forall d | d in m[i].def.dependsOn[..k] :: Available(items, m, d)
        {
          var d := m[i].def.dependsOn[k];
          if !Available(items, m, d) {
            assert m[i] in m && d in m[i].def.dependsOn;
            return Some(MissingDependency(m[i].id, d));
          }
        }
      }
      return None;
    }

    method UpdateItems(m: seq<Entry>, now: int) returns (updated: seq<Id>, skipped: seq<Skip>)
      modifies this
      ensures items == UpdatedAll(old(items), m, now) && updated == UpdatedReport(old(items), m)
              && skipped == HeldReport(old(items), m)
    {
      ghost var was := items;
      ghost var now_ := UpdatedAll(items, m, now);
      updated, skipped := [], [];
      assert UpdatedReport(was[..0], m) == [] && HeldReport(was[..0], m) == [];
      hide UpdatedReport, HeldReport, UpdatedItem, Applied, Wanted, Holds, Current;
      for i := 0 to |items|
        invariant |items| == |was| && items[..i] == now_[..i] && items[i..] == was[i..]
        invariant updated == UpdatedReport(was[..i], m) && skipped == HeldReport(was[..i], m)
      {
        ReportsSnoc(was, m, i);
        assert items[i] == items[i..][0] == was[i];
        var held, changed, item := UpdateOne(items[i], m, now);
        assert item == now_[i];
        if held { skipped := skipped + [Held(item.id)]; }
        if changed { updated := updated + [item.id]; }
        items := items[i := item];
        assert items[..i + 1] == items[..i] + [item] && now_[..i + 1] == now_[..i] + [item];
        assert items[i + 1..] == was[i + 1..];
      }
      assert was[..|items|] == was && now_[..|items|] == now_;
    }

    static method UpdateOne(item: Item, m: seq<Entry>, now: int) returns (held: bool, changed: bool, r: Item)
      ensures r == UpdatedItem(item, m, now) && r.id == item.id
      ensures held <==> Wanted(m, item.id).Some? && Holds(item, Wanted(m, item.id).value)
      ensures changed <==> Wanted(m, item.id).Some? && Applied(item, Wanted(m, item.id).value) != Current(item)
      ensures !changed ==> r == item
    {
      held, changed, r := false, false, item;
      match Wanted(m, item.id) {
        case None =>
        case Some(wanted) =>
          var desired, current := wanted, Current(item);
          if desired == current { return; }
          if item.status == Running && Protected(wanted, current) {
            held := true;
            desired := desired.(command := current.command, dependsOn := current.dependsOn, lock := current.lock);
            if desired == current { return; }
          }
          changed, r := true, item.(def := desired, updatedAt := now);
      }
    }

    method AddItems(m: seq<Entry>, known: set<Id>, now: int) returns (added: seq<Id>)
      modifies this
      ensures items == old(items) + Added(m, known, now) && added == Ids(Added(m, known, now))
    {
      added := [];
      for i := 0 to |m|
        invariant items == old(items) + Added(m[..i], known, now) && added == Ids(Added(m[..i], known, now))
      {
        assert m[..i + 1][..i] == m[..i];
        if m[i].id !in known {
          IdsSnoc(Added(m[..i], known, now), FreshItem(m[i], now));
          items := items + [FreshItem(m[i], now)];
          added := added + [m[i].id];
        } else {
          assert Added(m[..i], known, now) + [] == Added(m[..i], known, now);
        }
      }
      Whole(m);
    }

    method PruneItems(m: seq<Entry>) returns (pruned: seq<Id>, spared: seq<Skip>)
      modifies this
      ensures items == KeptAll(old(items), m, true) && pruned == PrunedReport(old(items), m, true)
              && spared == SparedReport(old(items), m)
    {
      var kept: seq<Item> := [];
      pruned, spared := [], [];
      for i := 0 to |items|
        invariant items == old(items)
        invariant kept == KeptAll(items[..i], m, true) && pruned == PrunedReport(items[..i], m, true)
                  && spared == SparedReport(items[..i], m)
      {
        assert items[..i + 1][..i] == items[..i];
        if Wanted(m, items[i].id).Some? {
          kept := kept + [items[i]];
        } else if items[i].status == Running {
          spared := spared + [NeverPruned(items[i].id)];
          kept := kept + [items[i]];
        } else {
          pruned := pruned + [items[i].id];
        }
      }
      Whole(items);
      items := kept;
    }

    /** Reconciles the queue with a manifest. Every check comes before the first change: a refused sync changes nothing,
        names an entry at fault, and a cycle it reports goes through the id it names; a sync that passes does and
        reports exactly what it should. */
    method Sync(m: seq<Entry>, prune: bool, now: int) returns (r: Result<Report>)
      requires Distinct(Ids(items))
      modifies this
      ensures r.Err? ==> items == old(items)
      ensures r.Err? && r.error.CyclicDependency? ==> OnCycle(CheckedGraph(old(items), m), r.error.id)
      ensures r.Err? && r.error.MissingDependency? ==> !Available(old(items), m, r.error.dependency)
      ensures r.Ok? <==> Distinct(EntryIds(m)) && Resolved(old(items), m) && Acyclic(CheckedGraph(old(items), m))
      ensures r.Ok? ==> items == Synced(old(items), m, prune, now) && r.value == ReportOf(old(items), m, prune, now)
    {
      var duplicate := FirstDuplicate(m);
      if duplicate.Some? { return Err(DuplicateEntry(duplicate.value)); }
      var missing := FirstMissing(m);
      if missing.Some? { return Err(missing.value); }
      var order := Ids(items) + EntryIds(m);
      assert Elements(order) == CheckedGraph(items, m).Keys;
      var cycle := FindDependencyCycle(CheckedGraph(items, m), order);
      if cycle.Some? { return Err(CyclicDependency(cycle.value)); }
      var known := Elements(Ids(items));
      var updated, skipped := UpdateItems(m, now);
      var added := AddItems(m, known, now);
      var pruned: seq<Id> := [];
      if prune {
        var spared;
        pruned, spared := PruneItems(m);
        skipped := skipped + spared;
      } else {
        KeptAllOf(items, m, false);
        NothingPruned(items, m, false);
        assert skipped + [] == skipped;
      }
      var before := items;
      items := Arranged(items, m);
      r := Ok(Report(added, updated, Ids(items) != Ids(before), pruned, skipped));
    }
  }

  // ---------- The arrangement is the stable sort ----------

  /** The sort key of an id: its place in the manifest, or past the end. */
  function Place(m: seq<Entry>, id: Id): nat {
    if m == [] then 0
    else if m[0].id == id then 0
    else 1 + Place(m[1..], id)
  }

  lemma {:induction false} PlaceAt(m: seq<Entry>, i: nat)
    requires i < |m| && Distinct(EntryIds(m))
    ensures Place(m, m[i].id) == i
  {
    if i > 0 {
      assert EntryIds(m)[0] != EntryIds(m)[i];
      assert EntryIds(m[1..]) == EntryIds(m)[1..];
      PlaceAt(m[1..], i - 1);
    }
  }

  lemma {:induction false} PlaceAbsent(m: seq<Entry>, id: Id)
    requires Wanted(m, id).None?
    ensures Place(m, id) == |m|
  {
    WantedOf(m, id);
    if m != [] {
      assert EntryIds(m)[0] == m[0].id;
      assert EntryIds(m) == [m[0].id] + EntryIds(m[1..]);
      WantedOf(m[1..], id);
      PlaceAbsent(m[1..], id);
    }
  }

  lemma ArrangedPlace(u: seq<Item>, m: seq<Entry>, k: nat)
    requires Distinct(Ids(u)) && Distinct(EntryIds(m)) && (forall e | e in m :: e.id in Ids(u)) && k < |Arranged(u, m)|
    ensures Place(m, Arranged(u, m)[k].id) == if k < |m| then k else |m|
  {
    FrontItems(u, m);
    BackItems(u, m);
    if k < |m| {
      PlaceAt(m, k);
    } else {
      var x := Back(u, m)[k - |m|];
      assert x in Back(u, m);
      PlaceAbsent(m, x.id);
    }
  }

  /** Arranging sorts by manifest place: same items, in order of place, and items outside the manifest keep their
      order. */
  lemma ArrangedSorted(u: seq<Item>, m: seq<Entry>, i: nat, j: nat)
    requires Distinct(Ids(u)) && Distinct(EntryIds(m)) && (forall e | e in m :: e.id in Ids(u))
             && i < j < |Arranged(u, m)|
    ensures Place(m, Arranged(u, m)[i].id) <= Place(m, Arranged(u, m)[j].id)
    ensures forall x :: x in Arranged(u, m) <==> x in u
    ensures |m| <= |Arranged(u, m)| && Arranged(u, m)[|m|..] == Back(u, m)
  {
    ArrangedPlace(u, m, i);
    ArrangedPlace(u, m, j);
    forall x ensures x in Arranged(u, m) <==> x in u { ArrangedItems(u, m, x); }
    ArrangedOrder(u, m);
  }
}
