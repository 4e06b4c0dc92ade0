/** Interval tariffs: the table that keeps intervals apart, and what a stay costs. Prices are in hundredths. */
module Tariffs {
  import opened Wrappers

  type Id = nat
  type Org = nat

  /** A closed interval of minutes; no upper end means for ever. */
  datatype Interval = Interval(fromMinutes: int, toMinutes: Option<int>, price: int)
  datatype Row = Row(id: Id, org: Org, interval: Interval)
  datatype Refusal = BadRange | Overlaps | NotFound

  predicate ValidRange(i: Interval) {
    i.fromMinutes >= 0 && (i.toMinutes.Some? ==> i.toMinutes.value > i.fromMinutes)
  }

  predicate AtMostEnd(minute: int, i: Interval) {
    i.toMinutes.Some? ==> minute <= i.toMinutes.value
  }

  predicate IntervalsOverlap(a: Interval, b: Interval) {
    AtMostEnd(a.fromMinutes, b) && AtMostEnd(b.fromMinutes, a)
  }

  predicate Covers(i: Interval, minute: int) {
    i.fromMinutes <= minute && AtMostEnd(minute, i)
  }

  /** The overlap test is right: two valid intervals overlap exactly when some minute lies in both. */
  lemma OverlapMeansSharedMinute(a: Interval, b: Interval)
    requires ValidRange(a) && ValidRange(b)
    ensures IntervalsOverlap(a, b) <==> exists minute :: Covers(a, minute) && Covers(b, minute)
  {
    if IntervalsOverlap(a, b) {
      var minute := if a.fromMinutes >= b.fromMinutes then a.fromMinutes else b.fromMinutes;
      assert Covers(a, minute) && Covers(b, minute);
    }
  }

  // ----- the table -----

  predicate FitsAmong(rows: seq<Row>, org: Org, interval: Interval, exclude: Option<Id>) {
    forall k :: 0 <= k < |rows| && rows[k].org == org && Some(rows[k].id) != exclude ==>
      !IntervalsOverlap(interval, rows[k].interval)
  }

  ghost predicate Disjoint(rows: seq<Row>) {
    forall k, l :: 0 <= k < l < |rows| && rows[k].org == rows[l].org ==>
      !IntervalsOverlap(rows[k].interval, rows[l].interval)
  }

  /** What the table keeps by itself: ids are auto-incremented, and only valid ranges are written. */
  ghost predicate RowsOk(rows: seq<Row>, nextId: Id) {
    && (forall k :: 0 <= k < |rows| ==> ValidRange(rows[k].interval) && rows[k].id < nextId)
    && (forall k, l :: 0 <= k < l < |rows| ==> rows[k].id != rows[l].id)
  }

  // ----- one statement each -----

  datatype Write =
    | Insert(id: Id, org: Org, interval: Interval)
    | Change(id: Id, org: Org, interval: Interval)

  /** The insert of a new row, or the update of the row with that id, if it is still there. */
  function Apply(rows: seq<Row>, w: Write): seq<Row> {
    match w
    case Insert(id, org, interval) => rows + [Row(id, org, interval)]
    case Change(id, org, interval) =>
      seq(|rows|, k requires 0 <= k < |rows| => if rows[k].id == id then rows[k].(interval := interval) else rows[k])
  }

  /** An insert adds one row at the end; an update gives the new interval to the row with that id, and to no other. */
  lemma ApplyMeans(rows: seq<Row>, w: Write)
    ensures match w
            case Insert(id, org, interval) => Apply(rows, w) == rows + [Row(id, org, interval)]
            case Change(id, _, interval) =>
              && |Apply(rows, w)| == |rows|
              && forall k :: 0 <= k < |rows| ==>
                   Apply(rows, w)[k] == if rows[k].id == id then Row(id, rows[k].org, interval) else rows[k]
  {
  }

  predicate HasRow(rows: seq<Row>, id: Id, org: Org) {
    exists k :: 0 <= k < |rows| && rows[k].id == id && rows[k].org == org
  }

  /** An insert has a new id; an update finds its row. */
  predicate Writable(rows: seq<Row>, w: Write) {
    match w
    case Insert(id, _, _) => forall k :: 0 <= k < |rows| ==> rows[k].id != id
    case Change(id, org, _) => HasRow(rows, id, org)
  }

  /** The check a write has to pass. */
  predicate Fits(rows: seq<Row>, w: Write) {
    FitsAmong(rows, w.org, w.interval, Some(w.id))
  }

  lemma OverlapIsSymmetric()
    ensures forall a, b :: IntervalsOverlap(a, b) == IntervalsOverlap(b, a)
  {
  }

  lemma InsertKeepsApart(rows: seq<Row>, w: Write)
    requires Disjoint(rows) && w.Insert? && Writable(rows, w)
    ensures Disjoint(Apply(rows, w)) <==> Fits(rows, w)
  {
    var rows' := Apply(rows, w);
    OverlapIsSymmetric();
    assert rows'[|rows|] == Row(w.id, w.org, w.interval);
    if Disjoint(rows') {
      forall k | 0 <= k < |rows| && rows[k].org == w.org ensures !IntervalsOverlap(w.interval, rows[k].interval) {
        assert rows'[k] == rows[k];
      }
    }
  }

  lemma ChangeKeepsApart(rows: seq<Row>, w: Write, nextId: Id)
    requires Disjoint(rows) && RowsOk(rows, nextId) && w.Change? && Writable(rows, w)
    ensures Disjoint(Apply(rows, w)) <==> Fits(rows, w)
  {
    var rows' := Apply(rows, w);
    var n :| 0 <= n < |rows| && rows[n].id == w.id && rows[n].org == w.org;
    OverlapIsSymmetric();
    assert rows'[n] == Row(w.id, w.org, w.interval);
    assert forall k :: 0 <= k < |rows| && k != n ==> rows'[k] == rows[k] && rows[k].id != w.id;
  }

  /** A write keeps the intervals of an organisation apart exactly if its check would still pass when it is written. */
  lemma WriteKeepsApart(rows: seq<Row>, w: Write, nextId: Id)
    requires Disjoint(rows) && RowsOk(rows, nextId) && Writable(rows, w)
    ensures Disjoint(Apply(rows, w)) <==> Fits(rows, w)
  {
    if w.Insert? {
      InsertKeepsApart(rows, w);
    } else {
      ChangeKeepsApart(rows, w, nextId);
    }
  }

  /** Two requests that both passed their checks, creations or updates: the table they leave keeps the intervals apart
      exactly when the two new ones do not overlap each other. */
  lemma RacingWrites(rows: seq<Row>, v: Write, w: Write, nextId: Id)
    requires Disjoint(rows) && RowsOk(rows, nextId) && v.id != w.id && v.org == w.org
    requires ValidRange(v.interval) && v.id < nextId && Writable(rows, v) && Fits(rows, v)
    requires Writable(rows, w) && Fits(rows, w)
    ensures Disjoint(Apply(Apply(rows, v), w)) <==> !IntervalsOverlap(v.interval, w.interval)
  {
    var first := Apply(rows, v);
    WriteKeepsApart(rows, v, nextId);
    AfterWrite(rows, v, w);
    WriteKeepsApart(first, w, nextId);
  }

  /** The check of a write after another write. */
  lemma AfterWrite(rows: seq<Row>, v: Write, w: Write)
    requires v.id != w.id && v.org == w.org && Writable(rows, v) && Writable(rows, w) && Fits(rows, w)
    ensures Writable(Apply(rows, v), w)
    ensures Fits(Apply(rows, v), w) <==> !IntervalsOverlap(v.interval, w.interval)
  {
    var first := Apply(rows, v);
    OverlapIsSymmetric();
    if v.Insert? {
      assert first[|rows|] == Row(v.id, v.org, v.interval);
      assert forall k :: 0 <= k < |rows| ==> first[k] == rows[k];
    } else {
      var n :| 0 <= n < |rows| && rows[n].id == v.id && rows[n].org == v.org;
      assert first[n] == Row(v.id, v.org, v.interval);
    }
    if w.Change? {
      var m :| 0 <= m < |rows| && rows[m].id == w.id && rows[m].org == w.org;
      assert first[m] == rows[m];
    }
  }

  // ----- the table -----

  class TariffIntervals {
    var rows: seq<Row>
    var nextId: Id

    ghost predicate Valid()
      reads this
    {
      RowsOk(rows, nextId)
    }

    constructor ()
      ensures Valid() && rows == [] && Disjoint(rows)
    {
      rows, nextId := [], 0;
    }

    /** At an await others write: this is the table they leave. */
    method Await(left: seq<Row>, next: Id)
      requires RowsOk(left, next)
      modifies this
      ensures Valid() && rows == left && nextId == next
    {
      rows, nextId := left, next;
    }

    method AssertNoOverlap(org: Org, interval: Interval, exclude: Option<Id>) returns (fits: bool)
      ensures fits == FitsAmong(rows, org, interval, exclude)
    {
      var k := 0;
      while k < |rows|
        invariant 0 <= k <= |rows|
        invariant FitsAmong(rows[..k], org, interval, exclude)
      {
        if rows[k].org == org && Some(rows[k].id) != exclude && IntervalsOverlap(interval, rows[k].interval) {
          return false;
        }
        k := k + 1;
      }
      assert rows[..k] == rows;
      fits := true;
    }

    /** Checked on the table as it is, inserted into the table that others leave meanwhile. */
    method CreateTariffInterval(org: Org, interval: Interval, left: seq<Row>, next: Id)
      returns (created: Result<Id, Refusal>)
      requires Valid() && RowsOk(left, next)
      modifies this
      ensures Valid()
      ensures created == if !ValidRange(interval) then Err(BadRange)
                         else if !FitsAmong(old(rows), org, interval, None) then Err(Overlaps)
                         else Ok(next)
      ensures created == Err(BadRange) <==>
                interval.fromMinutes < 0
                || (interval.toMinutes.Some? && interval.toMinutes.value <= interval.fromMinutes)
      ensures created.Err? ==> rows == old(rows)
      ensures created.Ok? ==> rows == left + [Row(next, org, interval)]
      ensures created.Ok? && Disjoint(left) ==> (Disjoint(rows) <==> FitsAmong(left, org, interval, None))
    {
      if !ValidRange(interval) {
        return Err(BadRange);
      }
      var fits := AssertNoOverlap(org, interval, None);
      if !fits {
        return Err(Overlaps);
      }
      Await(left, next);
      if Disjoint(left) {
        InsertKeepsApart(left, Insert(next, org, interval));
      }
      created := Ok(next);
      rows := rows + [Row(next, org, interval)];
      nextId := nextId + 1;
    }

    method Find(org: Org, id: Id) returns (k: Option<nat>)
      ensures k.Some? ==> k.value < |rows| && rows[k.value].id == id && rows[k.value].org == org
      ensures k.None? ==> !HasRow(rows, id, org)
    {
      var l := 0;
      while l < |rows|
        invariant 0 <= l <= |rows|
        invariant forall m :: 0 <= m < l ==> rows[m].id != id || rows[m].org != org
      {
        if rows[l].id == id && rows[l].org == org {
          return Some(l);
        }
        l := l + 1;
      }
      k := None;
    }

    /** Found in one table, checked in the next and written into a third, as others leave them. */
    method UpdateTariffInterval(org: Org, id: Id, change: Interval -> Interval, checked: seq<Row>, written: seq<Row>,
                                next: Id) returns (refused: Option<Refusal>)
      requires Valid() && RowsOk(checked, next) && RowsOk(written, next)
      modifies this
      ensures Valid()
      ensures refused == Some(NotFound) <==> !HasRow(old(rows), id, org)
      ensures refused == Some(NotFound) ==> rows == old(rows)
      ensures refused != Some(NotFound) ==> exists k ::
                && 0 <= k < |old(rows)| && old(rows)[k].id == id && old(rows)[k].org == org
                && var w := Change(id, org, change(old(rows)[k].interval));
                && refused == (if !ValidRange(w.interval) then Some(BadRange)
                               else if !Fits(checked, w) then Some(Overlaps) else None)
                && rows == (if refused.None? then Apply(written, w)
                            else if refused == Some(Overlaps) then checked else old(rows))
                && (refused.None? && Disjoint(written) && HasRow(written, id, org) ==>
                      (Disjoint(rows) <==> Fits(written, w)))
    {
      var found := Find(org, id);
      if found.None? {
        return Some(NotFound);
      }
      var w := Change(id, org, change(rows[found.value].interval));
      if !ValidRange(w.interval) {
        return Some(BadRange);
      }
      Await(checked, next);
      var fits := AssertNoOverlap(org, w.interval, Some(id));
      if !fits {
        return Some(Overlaps);
      }
      Await(written, next);
      if Disjoint(written) && HasRow(written, id, org) {
        ChangeKeepsApart(written, w, next);
      }
      rows := Apply(rows, w);
      refused := None;
    }

    /** Found in one table and deleted from the one that others leave meanwhile. */
    method DeleteTariffInterval(org: Org, id: Id, left: seq<Row>, next: Id) returns (refused: Option<Refusal>)
      requires Valid() && RowsOk(left, next)
      modifies this
      ensures Valid()
      ensures refused == if HasRow(old(rows), id, org) then None else Some(NotFound)
      ensures refused.Some? ==> rows == old(rows)
      ensures refused.None? ==> Without(rows, left, id) && (Disjoint(left) ==> Disjoint(rows))
    {
      var found := Find(org, id);
      if found.None? {
        return Some(NotFound);
      }
      Await(left, next);
      DeleteRow(id);
      refused := None;
    }

    method DeleteRow(id: Id)
      requires Valid()
      modifies this`rows
      ensures Valid() && Without(rows, old(rows), id) && (Disjoint(old(rows)) ==> Disjoint(rows))
    {
      var k := 0;
      while k < |rows| && rows[k].id != id
        invariant 0 <= k <= |rows|
        invariant forall l :: 0 <= l < k ==> rows[l].id != id
      {
        k := k + 1;
      }
      if k < |rows| {
        rows := rows[..k] + rows[k + 1..];
      }
    }
  }

  /** The same rows in the same order, but for the one with that id. */
  ghost predicate Without(rows: seq<Row>, before: seq<Row>, id: Id) {
    if exists k :: 0 <= k < |before| && before[k].id == id
    then exists k :: 0 <= k < |before| && before[k].id == id && rows == before[..k] + before[k + 1..]
    else rows == before
  }

  // ----- the price of a stay -----

  /** The interval in force at a duration: the latest start not after it, the later row among equal starts. */
  function Best(intervals: seq<Interval>, duration: int): Option<Interval> {
    if intervals == [] then None
    else Better(Best(intervals[..|intervals| - 1], duration), intervals[|intervals| - 1], duration)
  }

  function Better(best: Option<Interval>, next: Interval, duration: int): Option<Interval> {
    if next.fromMinutes <= duration && (best.Some? ==> best.value.fromMinutes <= next.fromMinutes)
    then Some(next) else best
  }

  ghost predicate Sorted(s: seq<Interval>) {
    forall k, l :: 0 <= k < l < |s| ==> s[k].fromMinutes <= s[l].fromMinutes
  }

  function InsertSorted(s: seq<Interval>, x: Interval): seq<Interval> {
    if s == [] || s[|s| - 1].fromMinutes <= x.fromMinutes then s + [x]
    else InsertSorted(s[..|s| - 1], x) + [s[|s| - 1]]
  }

  /** A stable sort by start. */
  function SortByFrom(s: seq<Interval>): seq<Interval> {
    if s == [] then [] else InsertSorted(SortByFrom(s[..|s| - 1]), s[|s| - 1])
  }

  lemma {:induction false} InsertKeepsSorted(s: seq<Interval>, x: Interval)
    requires Sorted(s)
    ensures Sorted(InsertSorted(s, x))
    ensures forall y :: y in InsertSorted(s, x) <==> y in s || y == x
  {
    if s != [] && s[|s| - 1].fromMinutes > x.fromMinutes {
      var front, last := s[..|s| - 1], s[|s| - 1];
      InsertKeepsSorted(front, x);
      assert s == front + [last];
      forall y | y in InsertSorted(front, x) ensures y.fromMinutes <= last.fromMinutes {
        if y != x {
          assert y in front;
        }
      }
    }
  }

  lemma {:induction false} SortSorts(s: seq<Interval>)
    ensures Sorted(SortByFrom(s))
  {
    if s != [] {
      var front, last := s[..|s| - 1], s[|s| - 1];
      SortSorts(front);
      InsertKeepsSorted(SortByFrom(front), last);
    }
  }

  lemma {:induction false} BestInList(s: seq<Interval>, duration: int)
    ensures var best := Best(s, duration);
            && (best.Some? ==> best.value in s && best.value.fromMinutes <= duration)
            && (forall y :: y in s && y.fromMinutes <= duration ==>
                  best.Some? && y.fromMinutes <= best.value.fromMinutes)
  {
    if s != [] {
      var front, last := s[..|s| - 1], s[|s| - 1];
      BestInList(front, duration);
      assert s == front + [last];
    }
  }

  /** Interval k is in force: it has started, none that has started later, and none as late further down the list. */
  ghost predicate InForce(s: seq<Interval>, duration: int, k: nat) {
    && k < |s| && s[k].fromMinutes <= duration
    && (forall j :: 0 <= j < |s| && s[j].fromMinutes <= duration ==> s[j].fromMinutes <= s[k].fromMinutes)
    && (forall j :: k < j < |s| ==> s[j].fromMinutes != s[k].fromMinutes)
  }

  /** The price is that of the interval in force, and nothing while none has started. */
  lemma PriceMeans(s: seq<Interval>, duration: int)
    ensures forall k: nat :: InForce(s, duration, k) ==> IntervalPrice(s, duration) == s[k].price
    ensures (forall k :: 0 <= k < |s| ==> s[k].fromMinutes > duration) ==> IntervalPrice(s, duration) == 0
  {
    forall k: nat | InForce(s, duration, k) ensures IntervalPrice(s, duration) == s[k].price {
      BestIsInForce(s, duration, k);
    }
    BestInList(s, duration);
  }

  lemma {:induction false} BestIsInForce(s: seq<Interval>, duration: int, k: nat)
    requires InForce(s, duration, k)
    ensures Best(s, duration) == Some(s[k])
  {
    var front := s[..|s| - 1];
    if k < |front| {
      BestIsInForce(front, duration, k);
    } else {
      BestInList(front, duration);
    }
  }

  /** Inserting into a sorted list counts as reading the new interval last. */
  lemma {:induction false} BestOfInsert(s: seq<Interval>, x: Interval, duration: int)
    requires Sorted(s)
    ensures Best(InsertSorted(s, x), duration) == Better(Best(s, duration), x, duration)
  {
    if s == [] || s[|s| - 1].fromMinutes <= x.fromMinutes {
      assert (s + [x])[..|s|] == s;
    } else {
      var front, last := s[..|s| - 1], s[|s| - 1];
      BestOfInsert(front, x, duration);
      var inserted := InsertSorted(front, x);
      assert (inserted + [last])[..|inserted|] == inserted;
      BestInList(front, duration);
      assert Best(front, duration).Some? ==> Best(front, duration).value.fromMinutes <= last.fromMinutes;
    }
  }

  lemma {:induction false} BestOfSorted(s: seq<Interval>, duration: int)
    ensures Best(SortByFrom(s), duration) == Best(s, duration)
  {
    if s != [] {
      var front := s[..|s| - 1];
      BestOfSorted(front, duration);
      SortSorts(front);
      BestOfInsert(SortByFrom(front), s[|s| - 1], duration);
    }
  }

  function IntervalPrice(intervals: seq<Interval>, duration: int): int {
    match Best(intervals, duration)
    case None => 0
    case Some(i) => i.price
  }

  /** Sort, then scan until a start lies beyond the duration. */
  method CalculateIntervalAmount(durationMinutes: int, intervals: seq<Interval>) returns (price: int)
    ensures price == IntervalPrice(intervals, durationMinutes)
  {
    var sorted := SortByFrom(intervals);
    SortSorts(intervals);
    BestOfSorted(intervals, durationMinutes);
    price := ScanSorted(durationMinutes, sorted);
  }

  method ScanSorted(durationMinutes: int, sorted: seq<Interval>) returns (price: int)
    requires Sorted(sorted)
    ensures price == IntervalPrice(sorted, durationMinutes)
  {
    if |sorted| == 0 || durationMinutes < sorted[0].fromMinutes {
      NothingStarted(sorted, durationMinutes);
      return 0;
    }
    var matched := sorted[0];
    var k := 0;
    while k < |sorted|
      invariant 0 <= k <= |sorted|
      invariant k > 0 ==> Best(sorted[..k], durationMinutes) == Some(matched)
    {
      if sorted[k].fromMinutes > durationMinutes {
        ScanMayStop(sorted, k, durationMinutes);
        return matched.price;
      }
      ScanGoesOn(sorted, k, durationMinutes);
      matched := sorted[k];
      k := k + 1;
    }
    assert sorted[..k] == sorted;
    price := matched.price;
  }

  lemma ScanGoesOn(s: seq<Interval>, k: nat, duration: int)
    requires Sorted(s) && k < |s| && s[k].fromMinutes <= duration
    ensures Best(s[..k + 1], duration) == Some(s[k])
  {
    assert s[..k + 1][..k] == s[..k];
    BestInList(s[..k], duration);
  }

  lemma NothingStarted(s: seq<Interval>, duration: int)
    requires Sorted(s) && (s == [] || duration < s[0].fromMinutes)
    ensures Best(s, duration).None?
  {
    assert forall y :: y in s ==> y.fromMinutes > duration;
    BestInList(s, duration);
  }

  lemma {:induction false} ScanMayStop(s: seq<Interval>, k: nat, duration: int)
    requires Sorted(s) && k < |s| && s[k].fromMinutes > duration
    ensures Best(s, duration) == Best(s[..k], duration)
    decreases |s|
  {
    var front := s[..|s| - 1];
    assert s[|s| - 1].fromMinutes > duration;
    if k < |s| - 1 {
      ScanMayStop(front, k, duration);
      assert front[..k] == s[..k];
    }
  }

  ghost predicate Apart(intervals: seq<Interval>) {
    && (forall k :: 0 <= k < |intervals| ==> ValidRange(intervals[k]))
    && (forall k, l :: 0 <= k < l < |intervals| ==> !IntervalsOverlap(intervals[k], intervals[l]))
  }

  /** For intervals kept apart the price does not depend on the order of the list, and a minute that lies in
      an interval is charged at that interval's price; a minute in a gap at that of the last one before it. */
  lemma PriceOfApartIntervals(a: seq<Interval>, b: seq<Interval>, duration: int, i: Interval)
    requires Apart(a) && multiset(a) == multiset(b)
    ensures IntervalPrice(a, duration) == IntervalPrice(b, duration)
    ensures i in a && Covers(i, duration) ==> IntervalPrice(a, duration) == i.price
    ensures (forall x :: x in a ==> x.fromMinutes > duration) <==> Best(a, duration).None?
  {
    BestInList(a, duration);
    BestInList(b, duration);
    assert forall x :: x in a <==> x in multiset(a);
    assert forall x :: x in b <==> x in multiset(b);
    var x, y := Best(a, duration), Best(b, duration);
    if x.Some? {
      SameStartSame(a, x.value, y.value);
    }
    if i in a && Covers(i, duration) {
      SameOrApart(a, x.value, i);
    }
  }

  lemma SameOrApart(a: seq<Interval>, x: Interval, y: Interval)
    requires Apart(a) && x in a && y in a
    ensures x == y || !IntervalsOverlap(x, y)
  {
    var k :| 0 <= k < |a| && a[k] == x;
    var l :| 0 <= l < |a| && a[l] == y;
    OverlapIsSymmetric();
  }

  lemma SameStartSame(a: seq<Interval>, x: Interval, y: Interval)
    requires Apart(a) && x in a && y in a && x.fromMinutes == y.fromMinutes
    ensures x == y
  {
    SameOrApart(a, x, y);
    var k :| 0 <= k < |a| && a[k] == x;
    var l :| 0 <= l < |a| && a[l] == y;
    assert ValidRange(a[k]) && ValidRange(a[l]);
  }

  // ----- amounts -----

  /** An empty interval list means the hourly tariff. */
  function CalculateAmount(duration: nat, pricePerHour: nat, grace: nat, intervals: seq<Interval>): nat {
    if intervals != [] then
      var price := IntervalPrice(intervals, duration);
      if price >= 0 then price else 0
    else if duration <= grace then 0
    else (duration + 59) / 60 * pricePerHour
  }

  /** With intervals their price counts, and a negative one is none. */
  lemma IntervalAmount(d: nat, pricePerHour: nat, grace: nat, intervals: seq<Interval>)
    requires intervals != []
    ensures var price := IntervalPrice(intervals, d);
            CalculateAmount(d, pricePerHour, grace, intervals) == if price < 0 then 0 else price
  {
  }

  /** The hourly charge starts after the grace period, covers every begun hour and never falls with time. */
  lemma HourlyAmount(d: nat, e: nat, pricePerHour: nat, grace: nat)
    requires d <= e
    ensures CalculateAmount(d, pricePerHour, grace, []) <= CalculateAmount(e, pricePerHour, grace, [])
    ensures d <= grace ==> CalculateAmount(d, pricePerHour, grace, []) == 0
    ensures d > grace ==> exists hours: nat :: 60 * (hours - 1) < d <= 60 * hours
                                               && CalculateAmount(d, pricePerHour, grace, []) == hours * pricePerHour
  {
    var h, k := (d + 59) / 60, (e + 59) / 60;
    assert h <= k;
    assert (k - h) * pricePerHour >= 0;
    assert 60 * (h - 1) < d <= 60 * h;
  }
}
