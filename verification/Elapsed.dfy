/** Elapsed time of overlapping calls: the size of the union of their spans, in whole ticks of the clock. */
module Elapsed {
  import opened Common

  /** A call starts at `at` and lasts `length` ticks; a negative length counts as zero. */
  datatype Span = Span(at: int, length: int)
  datatype Interval = Interval(start: int, end: int)

  function IntervalOf(s: Span): Interval { Interval(s.at, s.at + if s.length > 0 then s.length else 0) }

  predicate Inside(t: int, a: int, b: int) { a <= t < b }

  /** The ticks inside [a, b). */
  function Ticks(a: int, b: int): set<int> { set t | a <= t < b && Inside(t, a, b) }

  function EndOf(s: Span): int { s.at + s.length }

  /** The ticks at which at least one call is under way. */
  function Busy(spans: seq<Span>): set<int> {
    set s, t | s in spans && s.at <= t < EndOf(s) && Inside(t, s.at, EndOf(s)) :: t
  }

  function Covered(xs: seq<Interval>): set<int> {
    set x, t | x in xs && x.start <= t < x.end && Inside(t, x.start, x.end) :: t
  }

  predicate Before(a: Interval, b: Interval) { a.start < b.start || (a.start == b.start && a.end <= b.end) }

  function Insert(x: Interval, xs: seq<Interval>): seq<Interval> {
    if xs == [] then [x] else if Before(x, xs[0]) then [x] + xs else [xs[0]] + Insert(x, xs[1..])
  }

  function Sorted(xs: seq<Interval>): seq<Interval> {
    if xs == [] then [] else Insert(xs[0], Sorted(xs[1..]))
  }

  predicate InOrder(xs: seq<Interval>) { forall i, j | 0 <= i < j < |xs| :: Before(xs[i], xs[j]) }

  lemma {:induction false} InsertInOrder(x: Interval, xs: seq<Interval>)
    requires InOrder(xs)
    ensures InOrder(Insert(x, xs)) && forall y :: y in Insert(x, xs) <==> y == x || y in xs
  {
    if xs != [] && !Before(x, xs[0]) {
      InsertInOrder(x, xs[1..]);
      assert xs == [xs[0]] + xs[1..];
      var rest := Insert(x, xs[1..]);
      forall j | 0 <= j < |rest| ensures Before(xs[0], rest[j]) {
        if rest[j] != x {
          assert rest[j] in xs[1..];
          var k :| 0 <= k < |xs[1..]| && xs[1..][k] == rest[j];
          assert Before(xs[0], xs[k + 1]);
        }
      }
    } else if xs != [] {
      forall j | 0 <= j < |xs| ensures Before(x, xs[j]) {
        if j > 0 { assert Before(xs[0], xs[j]); }
      }
    }
  }

  lemma {:induction false} SortedInOrder(xs: seq<Interval>)
    ensures InOrder(Sorted(xs)) && forall y :: y in Sorted(xs) <==> y in xs
  {
    if xs != [] {
      SortedInOrder(xs[1..]);
      InsertInOrder(xs[0], Sorted(xs[1..]));
      assert xs == [xs[0]] + xs[1..];
    }
  }

  lemma {:induction false} TickCount(a: int, b: int)
    requires a <= b
    ensures |Ticks(a, b)| == b - a
    decreases b - a
  {
    if a == b {
      assert Ticks(a, b) == {};
    } else {
      TickCount(a, b - 1);
      assert Ticks(a, b) == Ticks(a, b - 1) + {b - 1};
    }
  }

  lemma TwoParts(a: set<int>, b: set<int>)
    requires a !! b
    ensures |a + b| == |a| + |b|
  {
  }

  lemma CoveredSnoc(xs: seq<Interval>, x: Interval)
    ensures Covered(xs + [x]) == Covered(xs) + Ticks(x.start, x.end)
  {
  }

  /** `total` ticks lie before the current interval, and the intervals seen so far cover those and it. */
  ghost predicate Swept(seen: seq<Interval>, total: int, done: set<int>, current: Option<Interval>) {
    match current
    case None => seen == [] && done == {} && total == 0
    case Some(c) =>
      && c.start <= c.end && seen != [] && |done| == total && (forall t | t in done :: t < c.start)
      && Covered(seen) == done + Ticks(c.start, c.end) && c.start <= seen[|seen| - 1].start
  }

  lemma StartNew(seen: seq<Interval>, total: int, done: set<int>, c: Interval, x: Interval)
    requires Swept(seen, total, done, Some(c)) && x.start <= x.end && x.start > c.end
    ensures Swept(seen + [x], total + (c.end - c.start), done + Ticks(c.start, c.end), Some(x))
  {
    TickCount(c.start, c.end);
    TwoParts(done, Ticks(c.start, c.end));
    CoveredSnoc(seen, x);
  }

  lemma Extend(seen: seq<Interval>, total: int, done: set<int>, c: Interval, x: Interval)
    requires Swept(seen, total, done, Some(c)) && c.start <= x.start <= c.end && x.start <= x.end
    ensures Swept(seen + [x], total, done, Some(Interval(c.start, if c.end > x.end then c.end else x.end)))
  {
    CoveredSnoc(seen, x);
    JoinTicks(c, x);
    var e := if c.end > x.end then c.end else x.end;
    assert done + Ticks(c.start, c.end) + Ticks(x.start, x.end) == done
      + (Ticks(c.start, c.end) + Ticks(x.start, x.end));
    assert Covered(seen + [x]) == done + Ticks(c.start, e);
  }

  lemma JoinTicks(c: Interval, x: Interval)
    requires c.start <= x.start <= c.end && x.start <= x.end
    ensures Ticks(c.start, c.end) + Ticks(x.start, x.end) == Ticks(c.start, if c.end > x.end then c.end else x.end)
  {
  }

  lemma Begin(x: Interval)
    requires x.start <= x.end
    ensures Swept([x], 0, {}, Some(x))
  {
    CoveredSnoc([], x);
    assert [] + [x] == [x];
  }

  lemma Finish(seen: seq<Interval>, total: int, done: set<int>, c: Interval)
    requires Swept(seen, total, done, Some(c))
    ensures |Covered(seen)| == total + (c.end - c.start)
  {
    TickCount(c.start, c.end);
    TwoParts(done, Ticks(c.start, c.end));
  }

  /** Takes in the next interval: it starts after the current one ends, or extends it. */
  method TakeIn(ghost seen: seq<Interval>, x: Interval, total: int, ghost done: set<int>, current: Option<Interval>)
    returns (total': int, ghost done': set<int>, current': Option<Interval>)
    requires Swept(seen, total, done, current) && x.start <= x.end && (current.Some? ==> current.value.start <= x.start)
    ensures Swept(seen + [x], total', done', current') && current'.Some?
  {
    total', done', current' := total, done, current;
    if current.None? {
      Begin(x);
      assert seen + [x] == [x];
      current' := Some(x);
    } else if x.start > current.value.end {
      StartNew(seen, total, done, current.value, x);
      done' := done + Ticks(current.value.start, current.value.end);
      total' := total + (current.value.end - current.value.start);
      current' := Some(x);
    } else {
      Extend(seen, total, done, current.value, x);
      current' := Some(Interval(current.value.start, if current.value.end > x.end then current.value.end else x.end));
    }
  }

  lemma StartsBefore(intervals: seq<Interval>, i: nat, total: int, done: set<int>, current: Option<Interval>)
    requires InOrder(intervals) && i < |intervals| && Swept(intervals[..i], total, done, current)
    ensures current.Some? ==> current.value.start <= intervals[i].start
  {
    if current.Some? { assert Before(intervals[i - 1], intervals[i]); }
  }

  /** The sweep over intervals in order of start. */
  method Sweep(intervals: seq<Interval>) returns (total: int)
    requires InOrder(intervals) && forall x | x in intervals :: x.start <= x.end
    ensures total == |Covered(intervals)|
  {
    total := 0;
    var current: Option<Interval> := None;
    ghost var done: set<int> := {};
    for i := 0 to |intervals|
      invariant Swept(intervals[..i], total, done, current)
    {
      StartsBefore(intervals, i, total, done, current);
      TakeNext(intervals, i);
      total, done, current := TakeIn(intervals[..i], intervals[i], total, done, current);
    }
    Whole(intervals);
    if current.Some? {
      Finish(intervals, total, done, current.value);
      total := total + (current.value.end - current.value.start);
    } else {
      assert Covered(intervals) == {};
    }
  }

  /** The elapsed time is the number of ticks at which some call is under way, whatever the order and overlaps of the
      calls. */
  method UnionTicks(spans: seq<Span>) returns (total: int)
    ensures total == |Busy(spans)|
  {
    var raw := seq(|spans|, i requires 0 <= i < |spans| => IntervalOf(spans[i]));
    var intervals := Sorted(raw);
    SortedInOrder(raw);
    SameCover(spans, raw, intervals);
    total := Sweep(intervals);
  }

  lemma SameCover(spans: seq<Span>, raw: seq<Interval>, intervals: seq<Interval>)
    requires |raw| == |spans| && forall i | 0 <= i < |spans| :: raw[i] == IntervalOf(spans[i])
    requires forall y :: y in intervals <==> y in raw
    ensures Covered(intervals) == Busy(spans)
  {
    forall t ensures t in Covered(intervals) <==> t in Busy(spans) {
      if t in Covered(intervals) {
        var x :| x in intervals && x.start <= t < x.end && Inside(t, x.start, x.end);
        var i :| 0 <= i < |raw| && raw[i] == x;
        assert spans[i] in spans && Inside(t, spans[i].at, EndOf(spans[i]));
      }
      if t in Busy(spans) {
        var s :| s in spans && s.at <= t < EndOf(s) && Inside(t, s.at, EndOf(s));
        var i :| 0 <= i < |spans| && spans[i] == s;
        assert raw[i] in intervals && Inside(t, raw[i].start, raw[i].end);
      }
    }
  }
}
