/** The reconciliation pass: which intents it reports, under which label, and what the report
    says about every state a run can reach. */
module Reconciliation {
  import opened Wrappers

  import opened OutboxRows
  import opened OutboxProtocol
  import opened OutboxGuarantees

  const MISMATCH_LIMIT: nat := 200

  datatype Mismatch = Unlanded | RefusedByTarget | Unanswered | Stalled

  predicate NoRecordedAnswer(row: Row) {
    row.answerStatus.None? || row.answerStatus.value >= 300 || row.deliveredAt.None?
  }

  predicate Listed(row: Row, now: Instant) {
    || row.state.Exhausted? || row.state.Refused?
    || (row.state.Attempting? && row.claimedAt.Some? && row.claimedAt.value < now - STALE_ATTEMPTING)
    || (row.state.Pending? && row.createdAt < now - STALE_PENDING)
    || (row.state.Delivered? && NoRecordedAnswer(row))
  }

  function Label(row: Row): Mismatch {
    if row.state.Exhausted? then Unlanded
    else if row.state.Refused? then RefusedByTarget
    else if row.state.Delivered? && NoRecordedAnswer(row) then Unanswered
    else Stalled
  }

  function ListedIds(rows: Table, now: Instant): set<nat> {
    set id | id in rows && Listed(rows[id], now)
  }

  /** `ORDER BY id LIMIT limit`. */
  ghost function FirstInOrder(ids: set<nat>, limit: nat): seq<nat>
    decreases limit
  {
    if ids == {} || limit == 0 then []
    else
      HasLeast(ids);
      var m :| Least(ids, m);
      [m] + FirstInOrder(ids - {m}, limit - 1)
  }

  ghost function Report(rows: Table, now: Instant): seq<nat> {
    FirstInOrder(ListedIds(rows, now), MISMATCH_LIMIT)
  }

  /** Ascending, nothing but `ids`, and what is left out comes after a full page. */
  predicate IsPage(ids: set<nat>, limit: nat, page: seq<nat>) {
    && |page| <= limit && (forall id :: id in page ==> id in ids)
    && (forall i, j :: 0 <= i < j < |page| ==> page[i] < page[j])
    && (forall id :: id in ids && id !in page ==> |page| == limit && After(page, id))
  }

  predicate After(page: seq<nat>, id: nat) {
    forall kept :: kept in page ==> kept < id
  }

  lemma LeastThenPage(ids: set<nat>, limit: nat, m: nat, rest: seq<nat>)
    requires Least(ids, m) && limit > 0 && IsPage(ids - {m}, limit - 1, rest)
    ensures IsPage(ids, limit, [m] + rest)
  {
    var page := [m] + rest;
    forall j | 0 < j < |page|
      ensures m < page[j]
    {
      assert page[j] == rest[j - 1] && rest[j - 1] in rest;
    }
    forall id | id in ids && id !in page
      ensures |page| == limit && After(page, id)
    {
      assert id in ids - {m} && id !in rest;
      assert After(rest, id);
    }
  }

  lemma {:induction false} FirstInOrderIsExact(ids: set<nat>, limit: nat)
    ensures IsPage(ids, limit, FirstInOrder(ids, limit))
    decreases limit
  {
    if ids != {} && limit > 0 {
      HasLeast(ids);
      var m :| Least(ids, m) && FirstInOrder(ids, limit) == [m] + FirstInOrder(ids - {m}, limit - 1);
      FirstInOrderIsExact(ids - {m}, limit - 1);
      LeastThenPage(ids, limit, m, FirstInOrder(ids - {m}, limit - 1));
    }
  }

  /** What is listed, in so many words: what failed for good, an attempt claimed and a pending intent made
      more than a quarter of an hour ago, and a delivery without a 2xx answer or without its instant. At
      most 200 of them are in the report. */
  lemma ListedMeans(row: Row, now: Instant)
    ensures Listed(row, now) <==>
            match row.state
            case Exhausted => true
            case Refused => true
            case Attempting => row.claimedAt.Some? && now - row.claimedAt.value > 900_000_000
            case Pending => now - row.createdAt > 900_000_000
            case Delivered => row.answerStatus == None || row.deliveredAt == None || row.answerStatus.value > 299
    ensures Listed(row, now) ==>
              Label(row) == match row.state
                            case Exhausted => Unlanded
                            case Refused => RefusedByTarget
                            case Delivered => Unanswered
                            case _ => Stalled
  {
  }

  lemma {:induction false} ReportIsAPage(rows: Table, now: Instant)
    ensures IsPage(set id | id in rows && Listed(rows[id], now), 200, Report(rows, now))
  {
    FirstInOrderIsExact(ListedIds(rows, now), MISMATCH_LIMIT);
    hide FirstInOrder, Listed;
  }

  /** A pending intent older than its bound, or an attempt older than its bound. */
  predicate Overdue(row: Row, now: Instant) {
    || (row.state.Pending? && now - row.createdAt > STALE_PENDING)
    || (row.state.Attempting? && row.claimedAt.Some? && now - row.claimedAt.value > STALE_ATTEMPTING)
  }

  /** In every state a run can reach, a row is reported exactly when it was refused, ran out of
      attempts, or is overdue. Its label names which; `unanswered` never occurs, and a row
      reported as refused or unlanded carries its error. */
  lemma {:induction false} ReportIsExact(s: Sys, steps: seq<Step>, id: nat)
    requires Init(s) && id in Run(s, steps).rows
    ensures var t := Run(s, steps); var row := t.rows[id];
            && (Listed(row, t.now) <==> row.state.Refused? || row.state.Exhausted? || Overdue(row, t.now))
            && (Listed(row, t.now) ==>
                  && (Label(row) == Unlanded <==> row.state.Exhausted?)
                  && (Label(row) == RefusedByTarget <==> row.state.Refused?)
                  && (Label(row) == Stalled <==> Overdue(row, t.now))
                  && (Label(row) != Stalled ==> row.lastError.Some?))
            && Label(row) != Unanswered
  {
    RunsAreSafe(s, steps);
    hide Run, Next;
    assert RowOk(Run(s, steps).rows[id]);
  }

  /** The report is empty exactly when every intent is delivered or still within its bound. */
  lemma {:induction false} EmptyReportMeansHealthy(s: Sys, steps: seq<Step>)
    requires Init(s)
    ensures var t := Run(s, steps);
            Report(t.rows, t.now) == [] <==>
            forall id :: id in t.rows ==> !Rearmable(t.rows[id]) && !Overdue(t.rows[id], t.now)
  {
    var t := Run(s, steps);
    FirstInOrderIsExact(ListedIds(t.rows, t.now), MISMATCH_LIMIT);
    forall id | id in t.rows
      ensures Listed(t.rows[id], t.now) <==> Rearmable(t.rows[id]) || Overdue(t.rows[id], t.now)
    {
      ReportIsExact(s, steps, id);
    }
    hide Run;
    if Report(t.rows, t.now) == [] {
      assert ListedIds(t.rows, t.now) == {};
      assert forall id :: id in t.rows && Listed(t.rows[id], t.now) ==> id in ListedIds(t.rows, t.now);
    }
  }

  /** The lease is the shorter bound: right after a sweep, no attempt is reported. */
  lemma SweepClearsStalledAttempts(rows: Table, now: Instant, id: nat)
    requires id in Reclaimed(rows, now) && Listed(Reclaimed(rows, now)[id], now)
    ensures !Reclaimed(rows, now)[id].state.Attempting?
  {
  }

  /** Re-arming does not reset the age of an intent: a reported intent stays in the report after
      a re-arm, as `stalled`, exactly when it is older than the pending bound. */
  lemma RearmedStaysReported(row: Row, now: Instant)
    requires Rearmable(row)
    ensures Listed(RearmedRow(row, now), now) <==> row.createdAt < now - STALE_PENDING
    ensures Listed(RearmedRow(row, now), now) ==> Label(RearmedRow(row, now)) == Stalled
  {
  }
}
