/** Cash handed over by operators: collection periods, and the conservation of what they took in.
    Times are integer milliseconds, money is in hundredths. */
module CashCollections {
  import opened Wrappers

  type OperatorId = nat

  datatype Means = Cash | Online | Card
  datatype Payment = Payment(operator: Option<OperatorId>, paidAt: int, means: Means, amount: nat)
  datatype Collection = Collection(operator: OperatorId, periodStart: int, periodEnd: int,
                                   expectedAmount: nat, onlineSnapshot: nat, collectedAmount: nat)
  datatype Revenue = Revenue(cash: nat, online: nat, card: nat)
  datatype Refusal = BadAmount | OperatorNotFound

  predicate Counts(p: Payment, operator: OperatorId, means: Means, from: int, to: int) {
    p.operator == Some(operator) && p.means == means && from <= p.paidAt < to
  }

  /** What an operator took in by one means in a half-open period. */
  function Taken(payments: seq<Payment>, operator: OperatorId, means: Means, from: int, to: int): nat {
    if payments == [] then 0
    else
      var last := payments[|payments| - 1];
      Taken(payments[..|payments| - 1], operator, means, from, to)
      + if Counts(last, operator, means, from, to) then last.amount else 0
  }

  lemma {:induction false} TakenSplits(payments: seq<Payment>, operator: OperatorId, means: Means,
                                       from: int, middle: int, to: int)
    requires from <= middle <= to
    ensures Taken(payments, operator, means, from, to) ==
            Taken(payments, operator, means, from, middle) + Taken(payments, operator, means, middle, to)
  {
    if payments != [] {
      TakenSplits(payments[..|payments| - 1], operator, means, from, middle, to);
    }
  }

  /** Nothing is taken exactly when nothing of value counts. */
  lemma {:induction false} NothingTaken(payments: seq<Payment>, operator: OperatorId, means: Means, from: int, to: int)
    ensures Taken(payments, operator, means, from, to) == 0 <==>
            forall k :: 0 <= k < |payments| && Counts(payments[k], operator, means, from, to) ==>
              payments[k].amount == 0
  {
    if payments != [] {
      var front := payments[..|payments| - 1];
      NothingTaken(front, operator, means, from, to);
      assert payments == front + [payments[|payments| - 1]];
    }
  }

  lemma {:induction false} TakenOfTwo(a: seq<Payment>, b: seq<Payment>, operator: OperatorId, means: Means, from: int,
                                      to: int)
    ensures Taken(a + b, operator, means, from, to) ==
            Taken(a, operator, means, from, to) + Taken(b, operator, means, from, to)
  {
    if b == [] {
      assert a + b == a;
    } else {
      TakenOfTwo(a, b[..|b| - 1], operator, means, from, to);
      assert (a + b)[..|a + b| - 1] == a + b[..|b| - 1];
    }
  }

  /** One payment counts in full, if it is the operator's, by that means, and from the start of the period up to but not
      at its end. */
  lemma TakenOfOne(p: Payment, operator: OperatorId, means: Means, from: int, to: int)
    ensures Taken([p], operator, means, from, to) ==
              if p.operator == Some(operator) && p.means == means && from <= p.paidAt && p.paidAt < to
              then p.amount
              else 0
    ensures Taken([], operator, means, from, to) == 0
  {
    assert [p][..0] == [];
  }

  // ----- the grouped query -----

  datatype Group = Group(means: Means, total: nat)

  /** Rows grouped by means: each means at most once, with its total, and every means that was taken. */
  ghost predicate Grouped(rows: seq<Group>, payments: seq<Payment>, operator: OperatorId, from: int, to: int) {
    && (forall i, j :: 0 <= i < j < |rows| ==> rows[i].means != rows[j].means)
    && (forall i :: 0 <= i < |rows| ==> rows[i].total == Taken(payments, operator, rows[i].means, from, to))
    && (forall k :: 0 <= k < |payments| && Counts(payments[k], operator, payments[k].means, from, to) ==>
          exists i :: 0 <= i < |rows| && rows[i].means == payments[k].means)
  }

  /** What the rows up to the n-th add up to for one means. */
  function RowTotal(rows: seq<Group>, means: Means, n: nat): nat
    requires n <= |rows|
  {
    if n == 0 then 0 else RowTotal(rows, means, n - 1) + if rows[n - 1].means == means then rows[n - 1].total else 0
  }

  lemma {:induction false} RowTotalOfDistinct(rows: seq<Group>, means: Means, n: nat)
    requires n <= |rows| && forall i, j :: 0 <= i < j < |rows| ==> rows[i].means != rows[j].means
    ensures (forall i :: 0 <= i < n ==> rows[i].means != means) ==> RowTotal(rows, means, n) == 0
    ensures forall i :: 0 <= i < n && rows[i].means == means ==> RowTotal(rows, means, n) == rows[i].total
  {
    if n > 0 {
      RowTotalOfDistinct(rows, means, n - 1);
    }
  }

  /** In whatever order the groups come, their rows add up to what was taken. */
  lemma GroupsAddUp(rows: seq<Group>, payments: seq<Payment>, operator: OperatorId, from: int, to: int, means: Means)
    requires Grouped(rows, payments, operator, from, to)
    ensures RowTotal(rows, means, |rows|) == Taken(payments, operator, means, from, to)
  {
    RowTotalOfDistinct(rows, means, |rows|);
    if forall i :: 0 <= i < |rows| ==> rows[i].means != means {
      NothingTaken(payments, operator, means, from, to);
    }
  }

  // ----- periods -----

  function Personal(collections: seq<Collection>, operator: OperatorId): (r: seq<Collection>)
    ensures forall k :: 0 <= k < |r| ==> r[k].operator == operator
  {
    if collections == [] then []
    else
      var last := collections[|collections| - 1];
      Personal(collections[..|collections| - 1], operator) + if last.operator == operator then [last] else []
  }

  /** The periods follow one another from base to end without gap or overlap. */
  ghost predicate Tiles(periods: seq<Collection>, base: int, end: int)
    decreases |periods|
  {
    if periods == [] then end == base
    else
      var last := periods[|periods| - 1];
      last.periodEnd == end && last.periodStart <= end && Tiles(periods[..|periods| - 1], base, last.periodStart)
  }

  function Expected(periods: seq<Collection>): nat {
    if periods == [] then 0 else Expected(periods[..|periods| - 1]) + periods[|periods| - 1].expectedAmount
  }

  function Max(x: int, y: int): int {
    if x >= y then x else y
  }

  /** latestDate over the operator's own period ends, starting from the base boundary. */
  function LatestEnd(periods: seq<Collection>, base: int): int {
    if periods == [] then base else Max(LatestEnd(periods[..|periods| - 1], base), periods[|periods| - 1].periodEnd)
  }

  lemma {:induction false} TilingEnds(periods: seq<Collection>, base: int, end: int)
    requires Tiles(periods, base, end)
    ensures base <= end && LatestEnd(periods, base) == end
    decreases |periods|
  {
    if periods != [] {
      TilingEnds(periods[..|periods| - 1], base, periods[|periods| - 1].periodStart);
    }
  }

  /** Two periods of one operator never share an instant. */
  lemma {:induction false} TilesDoNotOverlap(periods: seq<Collection>, base: int, end: int, i: nat, j: nat)
    requires Tiles(periods, base, end) && i < j < |periods|
    ensures base <= periods[i].periodStart <= periods[i].periodEnd
    ensures periods[i].periodEnd <= periods[j].periodStart <= periods[j].periodEnd <= end
    decreases |periods|
  {
    var front, last := periods[..|periods| - 1], periods[|periods| - 1];
    TilingEnds(front, base, last.periodStart);
    if j < |periods| - 1 {
      TilesDoNotOverlap(front, base, last.periodStart, i, j);
    } else {
      TileWithin(front, base, last.periodStart, i);
    }
  }

  lemma {:induction false} TileWithin(periods: seq<Collection>, base: int, end: int, i: nat)
    requires Tiles(periods, base, end) && i < |periods|
    ensures base <= periods[i].periodStart <= periods[i].periodEnd <= end
    decreases |periods|
  {
    var front, last := periods[..|periods| - 1], periods[|periods| - 1];
    TilingEnds(front, base, last.periodStart);
    if i < |periods| - 1 {
      TileWithin(front, base, last.periodStart, i);
    }
  }

  /** Each period expects what the ledger holds for it, but for the payments that came too late for it. */
  ghost predicate BooksMatch(periods: seq<Collection>, payments: seq<Payment>, missed: seq<Payment>) {
    forall k :: 0 <= k < |periods| ==>
      && periods[k].expectedAmount + In(missed, periods[k], Cash) == In(payments, periods[k], Cash)
      && periods[k].onlineSnapshot + In(missed, periods[k], Online) == In(payments, periods[k], Online)
  }

  function In(payments: seq<Payment>, period: Collection, means: Means): nat {
    Taken(payments, period.operator, means, period.periodStart, period.periodEnd)
  }

  lemma {:induction false} CashAddsUp(periods: seq<Collection>, payments: seq<Payment>, missed: seq<Payment>,
                                      operator: OperatorId, base: int, end: int, now: int)
    requires Tiles(periods, base, end) && BooksMatch(periods, payments, missed) && end <= now
    requires forall k :: 0 <= k < |periods| ==> periods[k].operator == operator
    ensures Expected(periods) + Taken(missed, operator, Cash, base, end) + Taken(payments, operator, Cash, end, now)
            == Taken(payments, operator, Cash, base, now)
    decreases |periods|
  {
    if periods == [] {
      NothingTaken(missed, operator, Cash, base, end);
    } else {
      var front, last := periods[..|periods| - 1], periods[|periods| - 1];
      TilingEnds(front, base, last.periodStart);
      CashAddsUp(front, payments, missed, operator, base, last.periodStart, now);
      TakenSplits(payments, operator, Cash, last.periodStart, end, now);
      TakenSplits(missed, operator, Cash, base, last.periodStart, end);
    }
  }

  /** Conservation: what was collected and what is pending are all the cash since the base, exactly when no cash of
      value came too late for its period. */
  lemma {:induction false} CashIsConservedExactlyWhen(periods: seq<Collection>, payments: seq<Payment>,
                                                      missed: seq<Payment>, operator: OperatorId,
                                                      base: int, end: int, now: int)
    requires Tiles(periods, base, end) && BooksMatch(periods, payments, missed) && end <= now
    requires forall k :: 0 <= k < |periods| ==> periods[k].operator == operator
    ensures Expected(periods) + Taken(payments, operator, Cash, end, now) == Taken(payments, operator, Cash, base, now)
            <==> forall k :: 0 <= k < |missed| && Counts(missed[k], operator, Cash, base, end) ==> missed[k].amount == 0
  {
    CashAddsUp(periods, payments, missed, operator, base, end, now);
    NothingTaken(missed, operator, Cash, base, end);
  }

  // ----- late payments -----

  /** The payment lies in a period that is already closed. */
  ghost predicate MissedBy(p: Payment, periods: seq<Collection>) {
    exists k :: 0 <= k < |periods| && InPeriod(p, periods[k])
  }

  predicate InPeriod(p: Payment, period: Collection) {
    p.operator == Some(period.operator) && period.periodStart <= p.paidAt < period.periodEnd
  }

  /** A payment joins the ledger, and the late ones if a closed period missed it. */
  lemma CommitKeepsBooks(periods: seq<Collection>, payments: seq<Payment>, missed: seq<Payment>, p: Payment)
    requires BooksMatch(periods, payments, missed)
    ensures BooksMatch(periods, payments + [p], missed + [p])
    ensures !MissedBy(p, periods) ==> BooksMatch(periods, payments + [p], missed)
  {
    assert (payments + [p])[..|payments|] == payments && (missed + [p])[..|missed|] == missed;
    forall k, means | 0 <= k < |periods| && !MissedBy(p, periods)
      ensures !Counts(p, periods[k].operator, means, periods[k].periodStart, periods[k].periodEnd)
    {
      assert !InPeriod(p, periods[k]);
    }
  }

  /** Tiles leave no instant out. */
  lemma {:induction false} TilesCover(periods: seq<Collection>, base: int, end: int, at: int) returns (k: nat)
    requires Tiles(periods, base, end) && base <= at < end
    ensures k < |periods| && periods[k].periodStart <= at < periods[k].periodEnd
    decreases |periods|
  {
    var last := periods[|periods| - 1];
    if last.periodStart <= at {
      k := |periods| - 1;
    } else {
      k := TilesCover(periods[..|periods| - 1], base, last.periodStart, at);
    }
  }

  lemma {:induction false} PersonalMembers(collections: seq<Collection>, operator: OperatorId)
    ensures forall c :: c in Personal(collections, operator) <==> c in collections && c.operator == operator
  {
    if collections != [] {
      PersonalMembers(collections[..|collections| - 1], operator);
      assert collections == collections[..|collections| - 1] + [collections[|collections| - 1]];
    }
  }

  /** A payment stamped after the first n collections is missed exactly when a collection of its operator that reaches
      beyond its stamp comes before its commit. */
  lemma MissedExactlyWhenOvertaken(collections: seq<Collection>, n: nat, p: Payment, base: int, end: int)
    requires n <= |collections| && p.operator.Some? && base <= p.paidAt
    requires forall c :: 0 <= c < n ==> collections[c].periodEnd <= p.paidAt
    requires Tiles(Personal(collections, p.operator.value), base, end)
    ensures MissedBy(p, Personal(collections, p.operator.value)) <==> Overtaken(collections, n, p)
  {
    var periods := Personal(collections, p.operator.value);
    PersonalMembers(collections, p.operator.value);
    if MissedBy(p, periods) {
      var k :| 0 <= k < |periods| && InPeriod(p, periods[k]);
      assert periods[k] in collections;
      var c :| 0 <= c < |collections| && collections[c] == periods[k];
    }
    if Overtaken(collections, n, p) {
      var c :| n <= c < |collections| && collections[c].operator == p.operator.value
               && collections[c].periodEnd > p.paidAt;
      assert collections[c] in periods;
      var k :| 0 <= k < |periods| && periods[k] == collections[c];
      TileWithin(periods, base, end, k);
      var hit := TilesCover(periods, base, end, p.paidAt);
      assert InPeriod(p, periods[hit]);
    }
  }

  ghost predicate Overtaken(collections: seq<Collection>, n: nat, p: Payment) {
    exists c :: n <= c < |collections| && Some(collections[c].operator) == p.operator
                && collections[c].periodEnd > p.paidAt
  }

  lemma AddPeriod(periods: seq<Collection>, base: int, end: int, row: Collection, payments: seq<Payment>,
                  missed: seq<Payment>)
    requires Tiles(periods, base, end) && BooksMatch(periods, payments, missed)
    requires row.periodStart == end <= row.periodEnd
    requires row.expectedAmount == In(payments, row, Cash) && row.onlineSnapshot == In(payments, row, Online)
    requires In(missed, row, Cash) == 0 && In(missed, row, Online) == 0
    ensures Tiles(periods + [row], base, row.periodEnd) && BooksMatch(periods + [row], payments, missed)
    ensures LatestEnd(periods + [row], base) == row.periodEnd
  {
    assert (periods + [row])[..|periods|] == periods;
    TilingEnds(periods, base, end);
  }

  /** The latest of the base and the ends of the operator's own periods. */
  lemma {:induction false} EndIsLatest(collections: seq<Collection>, operator: OperatorId, base: int)
    ensures var end := LatestEnd(Personal(collections, operator), base);
            && base <= end && (forall c :: c in collections && c.operator == operator ==> c.periodEnd <= end)
            && (end == base || exists c :: c in collections && c.operator == operator && c.periodEnd == end)
  {
    if collections != [] {
      var front, last := collections[..|collections| - 1], collections[|collections| - 1];
      EndIsLatest(front, operator, base);
      assert collections == front + [last];
      var own := Personal(front, operator);
      assert (own + [last])[..|own|] == own;
      assert own + [] == own;
    }
  }

  // ----- the desk -----

  /** A payment is stamped when it is made and enters the ledger when its transaction commits. */
  datatype Stamped = Stamped(payment: Payment, collectionsBefore: nat)

  class CashDesk {
    const legacyPeriodEnd: Option<int>            // the last collection made for a whole organisation
    const operators: map<OperatorId, int>         // creation times
    var clock: int
    var inFlight: seq<Stamped>
    var payments: seq<Payment>
    var collections: seq<Collection>
    ghost var missed: seq<Payment>                // payments committed after the period they lie in was closed

    function Base(operator: OperatorId): int
      requires operator in operators
    {
      if legacyPeriodEnd.Some? then Max(operators[operator], legacyPeriodEnd.value) else operators[operator]
    }

    /** Where the next period of an operator starts. */
    function Boundary(operator: OperatorId): int
      requires operator in operators
      reads this
    {
      LatestEnd(Personal(collections, operator), Base(operator))
    }

    ghost predicate Valid()
      reads this
    {
      RowsValid() && forall operator :: operator in operators ==> OperatorValid(operator)
    }

    ghost predicate RowsValid()
      reads this
    {
      && (forall p :: 0 <= p < |inFlight| ==> StampValid(inFlight[p]))
      && (forall p :: 0 <= p < |payments| ==> payments[p].paidAt <= clock)
      && (forall c :: 0 <= c < |collections| ==>
            collections[c].operator in operators && collections[c].periodEnd <= clock)
    }

    ghost predicate StampValid(s: Stamped)
      reads this
    {
      && s.payment.paidAt <= clock && s.collectionsBefore <= |collections|
      && (forall c :: 0 <= c < s.collectionsBefore ==> collections[c].periodEnd <= s.payment.paidAt)
      && (s.payment.operator.Some? && s.payment.operator.value in operators ==>
            Base(s.payment.operator.value) <= s.payment.paidAt)
    }

    ghost predicate OperatorValid(operator: OperatorId)
      requires operator in operators
      reads this
    {
      && Base(operator) <= Boundary(operator) <= clock
      && Tiles(Personal(collections, operator), Base(operator), Boundary(operator))
      && OperatorBooks(operator, payments, missed)
    }

    /** The books of an operator with the given payments, some of them missed by their periods. */
    ghost predicate OperatorBooks(operator: OperatorId, payments: seq<Payment>, missed: seq<Payment>)
      requires operator in operators
      reads this
    {
      && BooksMatch(Personal(collections, operator), payments, missed)
      && (forall k :: 0 <= k < |missed| && missed[k].operator == Some(operator) ==>
            missed[k].paidAt < Boundary(operator))
    }

    constructor (legacyPeriodEnd: Option<int>, operators: map<OperatorId, int>, now: int)
      requires forall operator :: operator in operators ==> operators[operator] <= now
      requires legacyPeriodEnd.Some? ==> legacyPeriodEnd.value <= now
      ensures Valid() && clock == now && payments == [] && collections == [] && inFlight == [] && missed == []
      ensures this.legacyPeriodEnd == legacyPeriodEnd && this.operators == operators
    {
      this.legacyPeriodEnd, this.operators := legacyPeriodEnd, operators;
      clock, inFlight, payments, collections, missed := now, [], [], [], [];
    }

    /** A payment is made; the clock does not go back. */
    method StampPayment(p: Payment)
      requires Valid() && clock <= p.paidAt
      modifies this`clock, this`inFlight
      ensures Valid() && clock == p.paidAt && inFlight == old(inFlight) + [Stamped(p, |collections|)]
    {
      clock := p.paidAt;
      inFlight := inFlight + [Stamped(p, |collections|)];
    }

    /** Its transaction commits, however many collections later: a closed period misses it exactly when a collection of
        its operator that reaches beyond its stamp fell between the two. */
    method CommitPayment(k: nat)
      requires Valid() && k < |inFlight|
      modifies this`inFlight, this`payments, this`missed
      ensures Valid() && inFlight == old(inFlight)[..k] + old(inFlight)[k + 1..]
      ensures payments == old(payments) + [old(inFlight)[k].payment]
      ensures var s := old(inFlight)[k];
              missed == if Overtaken(collections, s.collectionsBefore, s.payment) then old(missed) + [s.payment]
                        else old(missed)
    {
      var s := inFlight[k];
      assert StampValid(s);
      DropPayment(k);
      InsertPayment(s);
    }

    method InsertPayment(s: Stamped)
      requires Valid() && StampValid(s)
      modifies this`payments, this`missed
      ensures Valid() && payments == old(payments) + [s.payment]
      ensures missed == if Overtaken(collections, s.collectionsBefore, s.payment) then old(missed) + [s.payment]
                        else old(missed)
    {
      var p := s.payment;
      ghost var late := Overtaken(collections, s.collectionsBefore, p);
      forall operator | operator in operators
        ensures OperatorBooks(operator, payments + [p], if late then missed + [p] else missed)
      {
        assert OperatorValid(operator);
        if p.operator == Some(operator) {
          OwnCommit(operator, s);
        } else {
          OthersCommit(operator, s);
        }
      }
      payments := payments + [p];
      missed := if late then missed + [p] else missed;
      forall operator | operator in operators ensures OperatorValid(operator) {
        assert old(OperatorValid(operator));
      }
    }

    /** A payment of the operator himself. */
    lemma OwnCommit(operator: OperatorId, s: Stamped)
      requires operator in operators && OperatorValid(operator) && RowsValid() && StampValid(s)
      requires s.payment.operator == Some(operator)
      ensures OperatorBooks(operator, payments + [s.payment],
                            if Overtaken(collections, s.collectionsBefore, s.payment) then missed + [s.payment]
                            else missed)
    {
      var p, periods := s.payment, Personal(collections, operator);
      CommitKeepsBooks(periods, payments, missed, p);
      MissedExactlyWhenOvertaken(collections, s.collectionsBefore, p, Base(operator), Boundary(operator));
      if MissedBy(p, periods) {
        var k :| 0 <= k < |periods| && InPeriod(p, periods[k]);
        TileWithin(periods, Base(operator), Boundary(operator), k);
      }
    }

    /** A payment of somebody else. */
    lemma OthersCommit(operator: OperatorId, s: Stamped)
      requires operator in operators && OperatorValid(operator) && s.payment.operator != Some(operator)
      ensures OperatorBooks(operator, payments + [s.payment],
                            if Overtaken(collections, s.collectionsBefore, s.payment) then missed + [s.payment]
                            else missed)
    {
      CommitKeepsBooks(Personal(collections, operator), payments, missed, s.payment);
    }

    /** Or it rolls back. */
    method DropPayment(k: nat)
      requires Valid() && k < |inFlight|
      modifies this`inFlight
      ensures Valid() && inFlight == old(inFlight)[..k] + old(inFlight)[k + 1..]
    {
      inFlight := inFlight[..k] + inFlight[k + 1..];
    }

    method ResolveOperatorPeriodStart(operator: OperatorId) returns (start: int)
      requires Valid() && operator in operators
      ensures start == Boundary(operator) && Base(operator) <= start <= clock
      ensures start == operators[operator] || Some(start) == legacyPeriodEnd
              || exists c :: c in collections && c.operator == operator && c.periodEnd == start
      ensures operators[operator] <= start && (legacyPeriodEnd.Some? ==> legacyPeriodEnd.value <= start)
      ensures forall c :: c in collections && c.operator == operator ==> c.periodEnd <= start
    {
      EndIsLatest(collections, operator, Base(operator));
      start := LatestEnd(Personal(collections, operator), Base(operator));
      assert OperatorValid(operator);
    }

    /** The grouped query: every payment in the period joins the row of its means. */
    method QueryGroups(operator: OperatorId, from: int, to: int) returns (rows: seq<Group>)
      ensures Grouped(rows, payments, operator, from, to)
    {
      rows := [];
      var k := 0;
      while k < |payments|
        invariant 0 <= k <= |payments|
        invariant Grouped(rows, payments[..k], operator, from, to)
      {
        var p := payments[k];
        if p.operator == Some(operator) && from <= p.paidAt < to {
          var i := 0;
          while i < |rows| && rows[i].means != p.means
            invariant 0 <= i <= |rows|
            invariant forall j :: 0 <= j < i ==> rows[j].means != p.means
          {
            i := i + 1;
          }
          ghost var before := rows;
          if i < |rows| {
            rows := rows[i := Group(p.means, rows[i].total + p.amount)];
          } else {
            rows := rows + [Group(p.means, p.amount)];
          }
          GroupJoins(before, rows, payments, k, operator, from, to, i);
        } else {
          GroupStays(rows, payments, k, operator, from, to);
        }
        k := k + 1;
      }
      assert payments[..|payments|] == payments;
    }

    /** Adds up the rows of the grouped query, in the order they come. */
    method SumOperatorPaymentsByMethod(operator: OperatorId, from: int, to: int) returns (r: Revenue)
      ensures r.cash == Taken(payments, operator, Cash, from, to)
      ensures r.online == Taken(payments, operator, Online, from, to)
      ensures r.card == Taken(payments, operator, Card, from, to)
    {
      var rows := QueryGroups(operator, from, to);
      var cash, online, card := 0, 0, 0;
      var k := 0;
      while k < |rows|
        invariant 0 <= k <= |rows|
        invariant cash == RowTotal(rows, Cash, k)
        invariant online == RowTotal(rows, Online, k)
        invariant card == RowTotal(rows, Card, k)
      {
        match rows[k].means {
          case Online => online := online + rows[k].total;
          case Cash => cash := cash + rows[k].total;
          case Card => card := card + rows[k].total;
        }
        k := k + 1;
      }
      GroupsAddUp(rows, payments, operator, from, to, Cash);
      GroupsAddUp(rows, payments, operator, from, to, Online);
      GroupsAddUp(rows, payments, operator, from, to, Card);
      r := Revenue(cash, online, card);
    }

    /** What is collected and pending are all the operator's cash since the base, exactly when no cash of value was
        missed. */
    method BuildPendingSummary(operator: OperatorId, periodEnd: int) returns (start: int, r: Revenue)
      requires Valid() && operator in operators && clock <= periodEnd
      ensures start == Boundary(operator) <= clock
      ensures r.cash == Taken(payments, operator, Cash, start, periodEnd)
      ensures r.online == Taken(payments, operator, Online, start, periodEnd)
      ensures Expected(Personal(collections, operator)) + r.cash
              == Taken(payments, operator, Cash, Base(operator), periodEnd)
              <==> forall k :: 0 <= k < |missed| && Counts(missed[k], operator, Cash, Base(operator), start) ==>
                     missed[k].amount == 0
    {
      start := ResolveOperatorPeriodStart(operator);
      r := SumOperatorPaymentsByMethod(operator, start, periodEnd);
      assert OperatorValid(operator);
      CashIsConservedExactlyWhen(Personal(collections, operator), payments, missed, operator, Base(operator), start,
                                 periodEnd);
    }

    /** The row a collection at `now` adds. */
    function NextCollection(operator: OperatorId, now: int, collectedAmount: nat): Collection
      requires operator in operators
      reads this
    {
      var start := Boundary(operator);
      Collection(operator, start, now, Taken(payments, operator, Cash, start, now),
                 Taken(payments, operator, Online, start, now), collectedAmount)
    }

    method CreateCashCollection(operator: OperatorId, now: int, collectedAmount: Option<nat>)
      returns (created: Result<Collection, Refusal>)
      requires Valid() && clock <= now
      modifies this`clock, this`collections
      ensures Valid()
      ensures created == if collectedAmount.None? then Err(BadAmount)
                         else if operator !in operators then Err(OperatorNotFound)
                         else Ok(old(NextCollection(operator, now, collectedAmount.value)))
      ensures collections == old(collections) + if created.Ok? then [created.value] else []
      ensures created.Ok? ==>
                && var c, start := created.value, old(Boundary(operator));
                && c == Collection(operator, start, now, Taken(payments, operator, Cash, start, now),
                                   Taken(payments, operator, Online, start, now), collectedAmount.value)
      ensures clock == if created.Ok? then now else old(clock)
    {
      if collectedAmount.None? {
        return Err(BadAmount);
      }
      if operator !in operators {
        return Err(OperatorNotFound);
      }
      var start, r := BuildPendingSummary(operator, now);
      var row := Collection(operator, start, now, r.cash, r.online, collectedAmount.value);
      forall other | other in operators ensures PeriodsKept(other, row) {
        CollectForOperator(other, row);
      }
      InsertCollection(row);
      created := Ok(row);
    }

    method InsertCollection(row: Collection)
      requires RowsValid() && row.operator in operators && clock <= row.periodEnd
      requires forall operator :: operator in operators ==> PeriodsKept(operator, row)
      modifies this`clock, this`collections
      ensures Valid() && collections == old(collections) + [row] && clock == row.periodEnd
    {
      collections := collections + [row];
      clock := row.periodEnd;
    }

    /** Its periods still tile and match once a row is added. */
    ghost predicate PeriodsKept(operator: OperatorId, row: Collection)
      requires operator in operators
      reads this
    {
      var periods := Personal(collections + [row], operator);
      var end := LatestEnd(periods, Base(operator));
      && Base(operator) <= end <= row.periodEnd && Tiles(periods, Base(operator), end)
      && BooksMatch(periods, payments, missed)
      && (forall k :: 0 <= k < |missed| && missed[k].operator == Some(operator) ==> missed[k].paidAt < end)
    }

    lemma CollectForOperator(operator: OperatorId, row: Collection)
      requires Valid() && operator in operators && row.operator in operators && clock <= row.periodEnd
      requires row == NextCollection(row.operator, row.periodEnd, row.collectedAmount)
      ensures PeriodsKept(operator, row)
    {
      var periods := Personal(collections, operator);
      assert (collections + [row])[..|collections|] == collections;
      assert OperatorValid(operator);
      assert periods + [] == periods;
      if operator == row.operator {
        NothingTaken(missed, operator, Cash, row.periodStart, row.periodEnd);
        NothingTaken(missed, operator, Online, row.periodStart, row.periodEnd);
        AddPeriod(periods, Base(operator), row.periodStart, row, payments, missed);
      }
    }
  }

  // ----- one more payment in the groups -----

  lemma TakenOneMore(payments: seq<Payment>, k: nat, operator: OperatorId, means: Means, from: int, to: int)
    requires k < |payments|
    ensures Taken(payments[..k + 1], operator, means, from, to) ==
            Taken(payments[..k], operator, means, from, to)
            + if Counts(payments[k], operator, means, from, to) then payments[k].amount else 0
  {
    assert payments[..k + 1][..k] == payments[..k];
  }

  lemma GroupStays(rows: seq<Group>, payments: seq<Payment>, k: nat, operator: OperatorId, from: int, to: int)
    requires k < |payments| && Grouped(rows, payments[..k], operator, from, to)
    requires !Counts(payments[k], operator, payments[k].means, from, to)
    ensures Grouped(rows, payments[..k + 1], operator, from, to)
  {
    forall i | 0 <= i < |rows| ensures rows[i].total == Taken(payments[..k + 1], operator, rows[i].means, from, to) {
      TakenOneMore(payments, k, operator, rows[i].means, from, to);
    }
    forall l | 0 <= l < k + 1 && Counts(payments[l], operator, payments[l].means, from, to)
      ensures exists i :: 0 <= i < |rows| && rows[i].means == payments[l].means
    {
      assert payments[..k][l] == payments[l];
    }
  }

  lemma GroupJoins(rows: seq<Group>, rows': seq<Group>, payments: seq<Payment>, k: nat, operator: OperatorId,
                   from: int, to: int, i: nat)
    requires k < |payments| && Grouped(rows, payments[..k], operator, from, to)
    requires Counts(payments[k], operator, payments[k].means, from, to)
    requires i <= |rows| && forall j :: 0 <= j < i ==> rows[j].means != payments[k].means
    requires if i < |rows| then rows[i].means == payments[k].means
                                && rows' == rows[i := Group(payments[k].means, rows[i].total + payments[k].amount)]
             else rows' == rows + [Group(payments[k].means, payments[k].amount)]
    ensures Grouped(rows', payments[..k + 1], operator, from, to)
  {
    forall j | 0 <= j < |rows'| ensures rows'[j].total == Taken(payments[..k + 1], operator, rows'[j].means, from, to) {
      TakenOneMore(payments, k, operator, rows'[j].means, from, to);
      if i == |rows| == j {
        NothingTaken(payments[..k], operator, payments[k].means, from, to);
      }
    }
    forall l | 0 <= l < k + 1 && Counts(payments[l], operator, payments[l].means, from, to)
      ensures exists j :: 0 <= j < |rows'| && rows'[j].means == payments[l].means
    {
      if l == k {
        assert rows'[i].means == payments[l].means;
      } else {
        assert payments[..k][l] == payments[l];
        var j :| 0 <= j < |rows| && rows[j].means == payments[l].means;
        assert rows'[j].means == payments[l].means;
      }
    }
  }
}
