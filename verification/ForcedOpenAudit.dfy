/** The audit of forced openings: of several rows about one session, only the most telling one is shown. */
module ForcedOpenAudit {
  import opened Wrappers

  type Id = nat

  /** A missing confidence ranks below every number. */
  datatype Row = Row(id: Id, session: Option<Id>, review: Option<Id>, confidence: Option<int>, resolvedAt: int)

  predicate Above(x: Option<int>, y: Option<int>) {
    x.Some? && (y.None? || x.value > y.value)
  }

  predicate CandidatePreferred(left: Row, right: Row) {
    if left.review.Some? != right.review.Some? then left.review.Some?
    else if left.review.None? && left.confidence != right.confidence then Above(left.confidence, right.confidence)
    else if left.resolvedAt != right.resolvedAt then left.resolvedAt < right.resolvedAt
    else left.id < right.id
  }

  /** A strict total order on rows with distinct ids. */
  lemma PreferenceIsStrictTotalOrder(a: Row, b: Row, c: Row)
    ensures !CandidatePreferred(a, a)
    ensures CandidatePreferred(a, b) && CandidatePreferred(b, c) ==> CandidatePreferred(a, c)
    ensures CandidatePreferred(a, b) ==> !CandidatePreferred(b, a)
    ensures a.id != b.id ==> CandidatePreferred(a, b) || CandidatePreferred(b, a)
  {
  }

  /** A reviewed row goes before an unreviewed one; of two unreviewed ones the surer, any number before none; then the
      one resolved earlier; then the lower id. */
  lemma PreferenceMeans(a: Row, b: Row)
    ensures a.review.Some? && b.review.None? ==> CandidatePreferred(a, b)
    ensures (&& a.review.None? && b.review.None? && a.confidence.Some?
             && (b.confidence.None? || a.confidence.value > b.confidence.value)) ==>
              CandidatePreferred(a, b)
    ensures (|| (a.review.Some? && b.review.Some?)
             || (a.review.None? && b.review.None? && a.confidence == b.confidence)) ==>
              CandidatePreferred(a, b) == (a.resolvedAt < b.resolvedAt || (a.resolvedAt == b.resolvedAt && a.id < b.id))
  {
  }

  /** A row without a review takes the one recorded for its candidate; nothing else about it changes. */
  lemma ReconcileMeans(row: Row, reviewsByCandidate: map<Id, Id>)
    ensures var row' := Reconcile(row, reviewsByCandidate);
            && row' == Row(row.id, row.session, row'.review, row.confidence, row.resolvedAt)
            && row'.review == match row.review
                              case Some(r) => Some(r)
                              case None =>
                                if row.id in reviewsByCandidate then Some(reviewsByCandidate[row.id]) else None
  {
  }

  function Reconcile(row: Row, reviewsByCandidate: map<Id, Id>): Row {
    if row.review.None? && row.id in reviewsByCandidate then row.(review := Some(reviewsByCandidate[row.id])) else row
  }

  function Reconciled(rows: seq<Row>, reviewsByCandidate: map<Id, Id>): (r: seq<Row>)
    ensures |r| == |rows|
  {
    seq(|rows|, k requires 0 <= k < |rows| => Reconcile(rows[k], reviewsByCandidate))
  }

  /** A row competes for its session unless it is unreviewed and the session was reviewed through another row. */
  predicate Competes(row: Row, reviewedSessions: set<Id>) {
    row.session.Some? && !(row.review.None? && row.session.value in reviewedSessions)
  }

  /** Shown: every row without a session, and the most preferred competing row of each session. */
  predicate Shown(row: Row, rows: seq<Row>, reviewedSessions: set<Id>) {
    || row.session.None?
    || (&& Competes(row, reviewedSessions)
        && forall other :: other in rows && other.session == row.session && Competes(other, reviewedSessions)
                           && other.id != row.id ==>
             CandidatePreferred(row, other))
  }

  ghost predicate DistinctIds(rows: seq<Row>) {
    forall k, l :: 0 <= k < l < |rows| ==> rows[k].id != rows[l].id
  }

  function Filter(rows: seq<Row>, p: Row -> bool): seq<Row> {
    if rows == [] then []
    else Filter(rows[..|rows| - 1], p) + (if p(rows[|rows| - 1]) then [rows[|rows| - 1]] else [])
  }

  lemma FilterOfOne(row: Row, p: Row -> bool)
    ensures Filter([row], p) == if p(row) then [row] else []
  {
    assert [row][..0] == [];
  }

  /** Rows are kept one by one, in their order. */
  lemma {:induction false} FilterOfTwo(a: seq<Row>, b: seq<Row>, p: Row -> bool)
    ensures Filter(a + b, p) == Filter(a, p) + Filter(b, p)
  {
    if b == [] {
      assert a + b == a;
    } else {
      var front, last := b[..|b| - 1], b[|b| - 1];
      var kept := if p(last) then [last] else [];
      FilterOfTwo(a, front, p);
      FilterStep(a + b, p);
      FilterStep(b, p);
      assert (a + b)[..|a + b| - 1] == a + front && (a + b)[|a + b| - 1] == last;
      assert Filter(a, p) + Filter(front, p) + kept == Filter(a, p) + (Filter(front, p) + kept);
    }
  }

  lemma FilterStep(rows: seq<Row>, p: Row -> bool)
    requires rows != []
    ensures Filter(rows, p) == Filter(rows[..|rows| - 1], p) + (if p(rows[|rows| - 1]) then [rows[|rows| - 1]] else [])
  {
  }

  /** Shown is a row without a session, and of each session the most preferred of the rows that are reviewed, or belong
      to a session without any review. */
  lemma VisibleMeans(rows: seq<Row>, reviewedSessions: set<Id>, row: Row)
    ensures row in Visible(rows, reviewedSessions) <==>
              row in rows && match row.session
                             case None => true
                             case Some(session) =>
                               && (row.review == None ==> session !in reviewedSessions)
                               && forall other :: other in rows && other.session == Some(session) && other.id != row.id
                                                  && (other.review == None ==> session !in reviewedSessions) ==>
                                    CandidatePreferred(row, other)
  {
    FilterMembers(rows, (r: Row) => Shown(r, rows, reviewedSessions));
  }

  lemma {:induction false} FilterMembers(rows: seq<Row>, p: Row -> bool)
    ensures forall row :: row in Filter(rows, p) <==> row in rows && p(row)
  {
    if rows != [] {
      FilterMembers(rows[..|rows| - 1], p);
      assert rows == rows[..|rows| - 1] + [rows[|rows| - 1]];
    }
  }

  /** The winners map after the first n rows. */
  ghost predicate WinnersOf(winners: map<Id, Row>, rows: seq<Row>, n: nat, reviewedSessions: set<Id>)
    requires n <= |rows|
  {
    && (forall session :: session in winners ==>
          winners[session] in rows[..n] && winners[session].session == Some(session)
          && Competes(winners[session], reviewedSessions))
    && (forall k :: 0 <= k < n && Competes(rows[k], reviewedSessions) ==>
          && rows[k].session.value in winners
          && (rows[k] == winners[rows[k].session.value] || CandidatePreferred(winners[rows[k].session.value], rows[k])))
  }

  /** The rows to show, in their order. */
  function Visible(rows: seq<Row>, reviewedSessions: set<Id>): seq<Row> {
    Filter(rows, (row: Row) => Shown(row, rows, reviewedSessions))
  }

  /** One pass to find the winners, one to filter. */
  method DeduplicateSessionRows(input: seq<Row>, reviewsByCandidate: map<Id, Id>, reviewedSessions: set<Id>)
    returns (visible: seq<Row>)
    requires DistinctIds(input)
    ensures visible == Visible(Reconciled(input, reviewsByCandidate), reviewedSessions)
  {
    var rows := Reconciled(input, reviewsByCandidate);
    var winners: map<Id, Row> := map[];
    var k := 0;
    while k < |rows|
      invariant 0 <= k <= |rows|
      invariant WinnersOf(winners, rows, k, reviewedSessions)
    {
      var row := rows[k];
      ghost var before := winners;
      if row.session.Some? && !(row.review.None? && row.session.value in reviewedSessions) {
        if row.session.value !in winners || CandidatePreferred(row, winners[row.session.value]) {
          winners := winners[row.session.value := row];
        }
      }
      WinnersAdvance(before, winners, rows, k, reviewedSessions);
      k := k + 1;
    }
    assert rows[..|rows|] == rows;
    var kept := (row: Row) =>
      row.session.None? || (row.session.value in winners && winners[row.session.value].id == row.id);
    forall row | row in rows ensures kept(row) == Shown(row, rows, reviewedSessions) {
      WinnerIsShown(winners, rows, reviewedSessions, row);
    }
    visible := Filter(rows, kept);
    FilterAgrees(rows, rows, kept, (row: Row) => Shown(row, rows, reviewedSessions));
  }

  lemma WinnersAdvance(winners: map<Id, Row>, winners': map<Id, Row>, rows: seq<Row>, k: nat, reviewedSessions: set<Id>)
    requires k < |rows| && WinnersOf(winners, rows, k, reviewedSessions)
    requires winners' == if Competes(rows[k], reviewedSessions)
                            && (rows[k].session.value !in winners
                                || CandidatePreferred(rows[k], winners[rows[k].session.value]))
                         then winners[rows[k].session.value := rows[k]] else winners
    requires DistinctIds(rows)
    ensures WinnersOf(winners', rows, k + 1, reviewedSessions)
  {
    assert rows[..k + 1] == rows[..k] + [rows[k]];
    forall l | 0 <= l < k + 1 && Competes(rows[l], reviewedSessions)
      ensures rows[l].session.value in winners'
      ensures rows[l] == winners'[rows[l].session.value] || CandidatePreferred(winners'[rows[l].session.value], rows[l])
    {
      if l < k {
        PreferenceIsStrictTotalOrder(rows[k], winners[rows[l].session.value], rows[l]);
      } else if rows[k].session.value in winners {
        var w := winners[rows[k].session.value];
        PreferenceIsStrictTotalOrder(w, rows[k], rows[k]);
        assert w in rows[..k];
      }
    }
  }

  lemma WinnerIsShown(winners: map<Id, Row>, rows: seq<Row>, reviewedSessions: set<Id>, row: Row)
    requires WinnersOf(winners, rows, |rows|, reviewedSessions) && DistinctIds(rows) && row in rows
    ensures row.session.None? || (row.session.value in winners && winners[row.session.value].id == row.id)
            <==> Shown(row, rows, reviewedSessions)
  {
    assert rows[..|rows|] == rows;
    var k :| 0 <= k < |rows| && rows[k] == row;
    if row.session.Some? && row.session.value in winners {
      var w := winners[row.session.value];
      var l :| 0 <= l < |rows| && rows[l] == w;
      PreferenceIsStrictTotalOrder(row, w, row);
      assert row.id == w.id ==> row == w;
    }
  }

  lemma {:induction false} FilterAgrees(rows: seq<Row>, all: seq<Row>, p: Row -> bool, q: Row -> bool)
    requires forall row :: row in all ==> p(row) == q(row)
    requires forall row :: row in rows ==> row in all
    ensures Filter(rows, p) == Filter(rows, q)
  {
    if rows != [] {
      FilterAgrees(rows[..|rows| - 1], all, p, q);
    }
  }

  /** Two shown rows never share a session, rows without a session are always shown, and which rows are shown
      does not depend on the order of the input. */
  lemma OneRowPerSession(rows: seq<Row>, again: seq<Row>, reviewedSessions: set<Id>, a: Row, b: Row)
    requires DistinctIds(rows) && a in rows && b in rows
    requires forall row :: row in rows <==> row in again
    ensures Shown(a, rows, reviewedSessions) == Shown(a, again, reviewedSessions)
    ensures a.session.Some? && a.session == b.session ==>
              (Shown(a, rows, reviewedSessions) && Shown(b, rows, reviewedSessions) ==> a == b)
    ensures a.session.None? ==> Shown(a, rows, reviewedSessions)
  {
    PreferenceIsStrictTotalOrder(a, b, a);
    var k :| 0 <= k < |rows| && rows[k] == a;
    var l :| 0 <= l < |rows| && rows[l] == b;
  }

  /** A session some row competes for is not lost: its most preferred row is shown. */
  lemma {:induction false} SomeRowShown(rows: seq<Row>, n: nat, reviewedSessions: set<Id>, session: Id)
    returns (best: Row)
    requires n <= |rows| && DistinctIds(rows)
    requires exists k :: 0 <= k < n && Competes(rows[k], reviewedSessions) && rows[k].session == Some(session)
    ensures best in rows[..n] && Competes(best, reviewedSessions) && best.session == Some(session)
    ensures forall k :: 0 <= k < n && Competes(rows[k], reviewedSessions) && rows[k].session == Some(session) ==>
              rows[k].id == best.id || CandidatePreferred(best, rows[k])
    ensures n == |rows| ==> Shown(best, rows, reviewedSessions)
  {
    var last := rows[n - 1];
    assert rows[..n] == rows[..n - 1] + [last];
    var contends := Competes(last, reviewedSessions) && last.session == Some(session);
    if k :| 0 <= k < n - 1 && Competes(rows[k], reviewedSessions) && rows[k].session == Some(session) {
      best := SomeRowShown(rows, n - 1, reviewedSessions, session);
      var winner := best;
      if contends && CandidatePreferred(last, winner) {
        forall l | 0 <= l < n - 1 && Competes(rows[l], reviewedSessions) && rows[l].session == Some(session)
          ensures CandidatePreferred(last, rows[l])
        {
          PreferenceIsStrictTotalOrder(last, winner, rows[l]);
          assert rows[l].id == winner.id ==> rows[l] == winner;
        }
        best := last;
      } else if contends {
        PreferenceIsStrictTotalOrder(last, winner, last);
      }
    } else {
      best := last;
    }
    assert rows[..|rows|] == rows;
  }

  /** The same rows are shown for any order of the input. */
  lemma SameRowsInAnyOrder(rows: seq<Row>, again: seq<Row>, reviewedSessions: set<Id>, row: Row)
    requires DistinctIds(rows) && forall r :: r in rows <==> r in again
    ensures row in Visible(rows, reviewedSessions) <==> row in Visible(again, reviewedSessions)
  {
    FilterMembers(rows, (r: Row) => Shown(r, rows, reviewedSessions));
    FilterMembers(again, (r: Row) => Shown(r, again, reviewedSessions));
    if row in rows {
      OneRowPerSession(rows, again, reviewedSessions, row, row);
    }
  }
}
