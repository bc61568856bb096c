/** The outbox as one session sees it: the table in place, and a pass of the relay over it. */
module OutboxTable {
  import opened Wrappers
  import opened OutboxRows
  import opened OutboxProtocol

  datatype RearmAnswer = NoSuchIntent | NotRearmable(current: State) | AuditFailed | Rearmed(from: State)

  // --- what a relay pass does, as a relation on tables ---

  predicate Ascending(clock: seq<Instant>) {
    forall i, j :: 0 <= i <= j < |clock| ==> clock[i] <= clock[j]
  }

  /** One reading for the sweep, then one per claim and one per record. */
  predicate PassInputs(clock: seq<Instant>, outcomes: seq<Delivery>) {
    |clock| == 2 * BATCH + 1 && Ascending(clock) && |outcomes| == BATCH && forall d :: d in outcomes ==> DeliveryOk(d)
  }

  function AttemptedRow(row: Row, claimedAt: Instant, d: Delivery, recordedAt: Instant): Row {
    RecordedRow(ClaimedRow(row, claimedAt), row.attempts + 1, d, recordedAt)
  }

  /** An intent that was attempted waits at least the shortest backoff after the sweep. */
  predicate Rested(rows: Table, start: Instant, attempted: seq<nat>) {
    forall id :: id in attempted ==>
      id in rows && (rows[id].state.Pending? ==> rows[id].nextAttemptAt >= start + BACKOFF_BASE_SECS * SECOND)
  }

  predicate Untouched(rows0: Table, rows: Table, start: Instant, attempted: seq<nat>) {
    && rows.Keys == rows0.Keys
    && (forall id :: id in rows && id !in attempted ==> rows[id] == ReclaimedRow(rows0[id], start))
  }

  predicate Distinct(ids: seq<nat>) {
    forall i, j :: 0 <= i < j < |ids| ==> ids[i] != ids[j]
  }

  /** Each attempted intent was attempted once, with its own outcome. */
  predicate EachOnce(rows0: Table, rows: Table, clock: seq<Instant>, outcomes: seq<Delivery>, attempted: seq<nat>)
    requires PassInputs(clock, outcomes) && |attempted| <= BATCH
  {
    && Distinct(attempted)
    && (forall j :: 0 <= j < |attempted| ==>
          attempted[j] in rows0 && attempted[j] in rows
          && rows[attempted[j]] ==
             AttemptedRow(ReclaimedRow(rows0[attempted[j]], clock[0]), clock[2 * j + 1], outcomes[j], clock[2 * j + 2]))
  }

  predicate ShortPass(clock: seq<Instant>)
    requires |clock| == 2 * BATCH + 1
  {
    clock[2 * BATCH] < clock[0] + BACKOFF_BASE_SECS * SECOND
  }

  predicate PassSoFar(rows0: Table, rows: Table, clock: seq<Instant>, outcomes: seq<Delivery>, attempted: seq<nat>)
    requires PassInputs(clock, outcomes)
  {
    && |attempted| <= BATCH
    && Untouched(rows0, rows, clock[0], attempted)
    && Rested(rows, clock[0], attempted)
    && (ShortPass(clock) ==> EachOnce(rows0, rows, clock, outcomes, attempted))
  }

  // --- what each statement does, column by column ---

  /** The sweep: an attempt claimed more than two minutes ago is pending and due at once, with its error or
      one that says it was abandoned; nothing else changes. */
  predicate SweptAs(was: Row, row: Row, now: Instant) {
    if was.state.Attempting? && was.claimedAt.Some? && now - was.claimedAt.value > 120_000_000 then
      row == was.(state := Pending, claimedAt := None, nextAttemptAt := now,
                  lastError := if was.lastError.None? then Some(Abandoned) else was.lastError)
    else row == was
  }

  /** A claim and its record, after the sweep: one attempt more, the outcome's columns, and, when it goes
      back to pending, a wait of 15 seconds doubled once per earlier attempt and capped at an hour. */
  predicate AttemptedAs(was: Row, row: Row, sweptAt: Instant, claimedAt: Instant, d: Delivery, recordedAt: Instant) {
    && SameFact(was, row) && row.maxAttempts == was.maxAttempts && row.createdAt == was.createdAt
    && row.attempts == was.attempts + 1 && row.claimedAt == Some(claimedAt) && row.lastAttemptAt == Some(claimedAt)
    && row.state == d.state && row.answerStatus == d.status && row.answer == d.answer && row.lastError == d.error
    && row.deliveredAt == (if d.state == Delivered then Some(recordedAt) else was.deliveredAt)
    && (d.state == Pending ==>
          row.nextAttemptAt == recordedAt + Min(15 * Pow2(Max(was.attempts, 0)), 3600) * 1_000_000)
    && (d.state != Pending ==>
          row.nextAttemptAt ==
          if was.state.Attempting? && was.claimedAt.Some? && sweptAt - was.claimedAt.value > 120_000_000
          then sweptAt else was.nextAttemptAt)
  }

  lemma SweptIsSwept(was: Row, now: Instant)
    ensures SweptAs(was, ReclaimedRow(was, now), now)
  {
  }

  lemma AttemptIsAttempted(was: Row, sweptAt: Instant, claimedAt: Instant, d: Delivery, recordedAt: Instant)
    ensures AttemptedAs(was, AttemptedRow(ReclaimedRow(was, sweptAt), claimedAt, d, recordedAt), sweptAt, claimedAt, d,
                        recordedAt)
  {
    BackoffIsCappedDoubling(was.attempts + 1);
    hide BackoffSecs;
  }

  predicate AllOk(rows: Table) {
    forall id :: id in rows ==> RowOk(rows[id])
  }

  lemma AttemptRests(row: Row, claimedAt: Instant, d: Delivery, recordedAt: Instant, start: Instant)
    requires start <= recordedAt
    ensures var after := AttemptedRow(row, claimedAt, d, recordedAt);
            after.state.Pending? ==> after.nextAttemptAt >= start + BACKOFF_BASE_SECS * SECOND
  {
  }

  lemma DueIsNew(rows: Table, start: Instant, attempted: seq<nat>, now: Instant, id: nat)
    requires Rested(rows, start, attempted) && id in rows && Due(rows[id], now)
             && now < start + BACKOFF_BASE_SECS * SECOND
    ensures id !in attempted
  {
  }

  lemma OneMoreOnce(rows0: Table, rows: Table, clock: seq<Instant>, outcomes: seq<Delivery>, attempted: seq<nat>,
                    id: nat, row: Row)
    requires PassInputs(clock, outcomes) && |attempted| < BATCH
    requires EachOnce(rows0, rows, clock, outcomes, attempted) && id !in attempted && id in rows0
    requires row == AttemptedRow(ReclaimedRow(rows0[id], clock[0]), clock[2 * |attempted| + 1], outcomes[|attempted|],
                                 clock[2 * |attempted| + 2])
    ensures EachOnce(rows0, rows[id := row], clock, outcomes, attempted + [id])
  {
  }

  /** One more claim and record extend the pass. */
  lemma OneMoreAttempt(rows0: Table, rows: Table, clock: seq<Instant>, outcomes: seq<Delivery>, attempted: seq<nat>,
                       id: nat)
    requires PassInputs(clock, outcomes) && |attempted| < BATCH && PassSoFar(rows0, rows, clock, outcomes, attempted)
    requires id in rows && Due(rows[id], clock[2 * |attempted| + 1])
    ensures var row := AttemptedRow(rows[id], clock[2 * |attempted| + 1], outcomes[|attempted|],
                                    clock[2 * |attempted| + 2]);
            PassSoFar(rows0, rows[id := row], clock, outcomes, attempted + [id])
  {
    var n := |attempted|;
    var row := AttemptedRow(rows[id], clock[2 * n + 1], outcomes[n], clock[2 * n + 2]);
    if ShortPass(clock) {
      DueIsNew(rows, clock[0], attempted, clock[2 * n + 1], id);
      OneMoreOnce(rows0, rows, clock, outcomes, attempted, id, row);
    }
    AttemptRests(rows[id], clock[2 * n + 1], outcomes[n], clock[2 * n + 2], clock[0]);
    hide AttemptedRow, EachOnce, PassInputs;
    OneMoreRest(rows0, rows, clock[0], attempted, id, row);
    hide Rested, Untouched;
  }

  lemma OneMoreRest(rows0: Table, rows: Table, start: Instant, attempted: seq<nat>, id: nat, row: Row)
    requires Untouched(rows0, rows, start, attempted) && Rested(rows, start, attempted) && id in rows
    requires row.state.Pending? ==> row.nextAttemptAt >= start + BACKOFF_BASE_SECS * SECOND
    ensures Untouched(rows0, rows[id := row], start, attempted + [id])
            && Rested(rows[id := row], start, attempted + [id])
  {
  }

  lemma SweptPass(rows0: Table, clock: seq<Instant>, outcomes: seq<Delivery>)
    requires PassInputs(clock, outcomes)
    ensures PassSoFar(rows0, Reclaimed(rows0, clock[0]), clock, outcomes, [])
  {
  }

  lemma PassSays(rows0: Table, rows: Table, clock: seq<Instant>, outcomes: seq<Delivery>, attempted: seq<nat>)
    requires PassInputs(clock, outcomes) && PassSoFar(rows0, rows, clock, outcomes, attempted)
    ensures |attempted| <= BATCH && rows.Keys == rows0.Keys
    ensures forall id :: id in rows && id !in attempted ==> SweptAs(rows0[id], rows[id], clock[0])
    ensures ShortPass(clock) ==> EachAttemptedOnce(rows0, rows, clock, outcomes, attempted)
  {
    forall id | id in rows && id !in attempted
      ensures SweptAs(rows0[id], rows[id], clock[0])
    {
      SweptIsSwept(rows0[id], clock[0]);
    }
    if ShortPass(clock) {
      forall j | 0 <= j < |attempted|
        ensures attempted[j] in rows0 && attempted[j] in rows
        ensures AttemptedAs(rows0[attempted[j]], rows[attempted[j]], clock[0], clock[2 * j + 1], outcomes[j],
                            clock[2 * j + 2])
      {
        AttemptIsAttempted(rows0[attempted[j]], clock[0], clock[2 * j + 1], outcomes[j], clock[2 * j + 2]);
        hide AttemptedAs, AttemptedRow, ReclaimedRow;
      }
    }
    hide AttemptedAs, SweptAs, AttemptedRow, ReclaimedRow;
  }

  /** Each attempted intent was attempted once, with its own outcome and its own wait. */
  predicate EachAttemptedOnce(rows0: Table, rows: Table, clock: seq<Instant>, outcomes: seq<Delivery>,
                              attempted: seq<nat>)
    requires PassInputs(clock, outcomes) && |attempted| <= BATCH
  {
    && Distinct(attempted)
    && (forall j :: 0 <= j < |attempted| ==>
          attempted[j] in rows0 && attempted[j] in rows
          && AttemptedAs(rows0[attempted[j]], rows[attempted[j]], clock[0], clock[2 * j + 1], outcomes[j],
                         clock[2 * j + 2]))
  }

  class OutboxTable {
    var rows: Table
    var nextId: nat

    ghost predicate Valid()
      reads this
    {
      (forall id :: id in rows ==> id < nextId) && AllOk(rows)
    }

    constructor ()
      ensures Valid() && rows == map[]
    {
      rows, nextId := map[], 1;
    }

    /** Enqueue, alone in its transaction: the same key gives the same intent, a new key a new one. */
    method Enqueue(principals: map<string, PrincipalRow>, caller: string, principal: string,
                   route: string, key: string, payload: string, now: Instant)
      returns (answer: Result<nat, EnqueueError>)
      requires Valid()
      modifies this
      ensures Valid()
      ensures answer.Err? ==> rows == old(rows)
      ensures match EnqueueCheck(principals, caller, principal)
              case Err(error) => answer == Err(error)
              case Ok(producer) =>
                if HasKey(old(rows), producer, key) then
                  answer.Ok? && rows == old(rows) && answer.value in rows && rows[answer.value].producer == producer
                  && rows[answer.value].key == key
                else if route == "" || route[0] != '/' || key == "" then answer == Err(CheckViolation)
                else
                  answer.Ok? && answer.value !in old(rows)
                  && rows == old(rows)[answer.value := NewRow(producer, principal, route, key, payload, now)]
                  && rows[answer.value] == Row(producer, principal, route, key, payload, Pending, 0, 6, None, None,
                                               None, now, None, None, now, None)
    {
      var check := EnqueueCheck(principals, caller, principal);
      if check.Err? {
        return Err(check.error);
      }
      var producer := check.value;
      if HasKey(rows, producer, key) {
        var id :| id in rows && rows[id].producer == producer && rows[id].key == key;
        return Ok(id);
      }
      if !IntentShape(route, key) {
        return Err(CheckViolation);
      }
      assert nextId !in rows;
      rows := rows[nextId := NewRow(producer, principal, route, key, payload, now)];
      answer := Ok(nextId);
      nextId := nextId + 1;
    }

    /** Give back every intent whose lease ran out. */
    method ReclaimStale(now: Instant) returns (swept: nat)
      requires Valid()
      modifies this`rows
      ensures Valid() && rows == Reclaimed(old(rows), now)
      ensures swept == |set id | id in old(rows) && Stale(old(rows)[id], now)|
      ensures rows.Keys == old(rows).Keys && forall id :: id in rows ==> SweptAs(old(rows)[id], rows[id], now)
      ensures forall id :: id in rows && rows[id] != old(rows)[id] ==> Due(rows[id], now)
    {
      swept := |set id | id in rows && Stale(rows[id], now)|;
      forall id | id in rows
        ensures SweptAs(rows[id], ReclaimedRow(rows[id], now), now)
      {
        SweptIsSwept(rows[id], now);
      }
      rows := Reclaimed(rows, now);
    }

    /** Claim the oldest due intent no other session has locked. */
    method ClaimNext(now: Instant, locked: set<nat>) returns (claimed: Option<Intent>)
      requires Valid()
      modifies this`rows
      ensures Valid()
      ensures claimed.None? ==> rows == old(rows) && forall id :: id in rows && id !in locked ==> !Due(rows[id], now)
      ensures claimed.None? ==>
                forall id :: id in rows && id !in locked && rows[id].state.Pending? ==> now < rows[id].nextAttemptAt
      ensures claimed.Some? ==>
                var id := claimed.value.id;
                && id in old(rows) && id !in locked
                && old(rows)[id].state.Pending? && old(rows)[id].nextAttemptAt <= now
                && (forall other ::
                      other in old(rows) && other < id && other !in locked && old(rows)[other].state.Pending? ==>
                        now < old(rows)[other].nextAttemptAt)
      ensures claimed.Some? ==>
                var id := claimed.value.id;
                && NextDue(old(rows), now, locked, id)
                && rows == old(rows)[id := ClaimedRow(old(rows)[id], now)]
                && rows[id] == old(rows)[id].(state := Attempting, attempts := old(rows)[id].attempts + 1,
                                              claimedAt := Some(now), lastAttemptAt := Some(now))
                && claimed.value == Intent(id, rows[id].producer, rows[id].principal, rows[id].route, rows[id].key,
                                           rows[id].payload, rows[id].attempts, rows[id].maxAttempts)
    {
      var due := set id | id in rows && id !in locked && Due(rows[id], now);
      assert forall id :: id in rows && id !in locked && Due(rows[id], now) ==> id in due;
      if due == {} {
        return None;
      }
      HasLeast(due);
      var id :| Least(due, id);
      rows := rows[id := ClaimedRow(rows[id], now)];
      claimed := Some(IntentOf(id, rows[id]));
    }

    /** Write down an outcome: on the id alone, whatever state the row is in. A retry waits 15 seconds
        doubled once per earlier attempt, an hour at most. */
    method Record(id: nat, attempts: int, d: Delivery, now: Instant)
      requires Valid() && DeliveryOk(d)
      modifies this`rows
      ensures Valid()
      ensures rows ==
              if id in old(rows) then old(rows)[id := RecordedRow(old(rows)[id], attempts, d, now)] else old(rows)
      ensures id in rows && d.state.Pending? ==>
                rows[id].nextAttemptAt == now + Min(15 * Pow2(Max(attempts, 1) - 1), 3600) * 1_000_000
      ensures id in rows && !d.state.Pending? ==> rows[id].nextAttemptAt == old(rows)[id].nextAttemptAt
      ensures id in rows ==>
                && rows[id].state == d.state && rows[id].answerStatus == d.status && rows[id].answer == d.answer
                && rows[id].lastError == d.error
                && rows[id].deliveredAt == (if d.state == Delivered then Some(now) else old(rows)[id].deliveredAt)
                && SameFact(rows[id], old(rows)[id]) && rows[id].attempts == old(rows)[id].attempts
                && rows[id].maxAttempts == old(rows)[id].maxAttempts && rows[id].createdAt == old(rows)[id].createdAt
                && rows[id].claimedAt == old(rows)[id].claimedAt
                && rows[id].lastAttemptAt == old(rows)[id].lastAttemptAt
    {
      BackoffIsCappedDoubling(attempts);
      if id in rows {
        StatementsKeepRowOk(rows[id], attempts, d, now);
        rows := rows[id := RecordedRow(rows[id], attempts, d, now)];
      }
    }

    /** Re-arm a refused or exhausted intent, once its audit row is written. */
    method RetryIntent(id: nat, auditWritten: bool, now: Instant) returns (answer: RearmAnswer)
      requires Valid()
      modifies this`rows
      ensures Valid()
      ensures answer == (if id !in old(rows) then NoSuchIntent
                         else if old(rows)[id].state !in {Refused, Exhausted} then NotRearmable(old(rows)[id].state)
                         else if !auditWritten then AuditFailed
                         else Rearmed(old(rows)[id].state))
      ensures !answer.Rearmed? ==> rows == old(rows)
      ensures answer.Rearmed? ==>
                && rows.Keys == old(rows).Keys
                && (forall other :: other in rows && other != id ==> rows[other] == old(rows)[other])
                && rows[id] == old(rows)[id].(state := Pending, attempts := 0, nextAttemptAt := now, claimedAt := None)
                && Due(rows[id], now)
    {
      if id !in rows {
        return NoSuchIntent;
      }
      var current := rows[id];
      if !Rearmable(current) {
        return NotRearmable(current.state);
      }
      if !auditWritten {
        return AuditFailed;
      }
      rows := rows[id := RearmedRow(rows[id], now)];
      answer := Rearmed(current.state);
    }

    /** Claim the next due intent, deliver it, and record what the delivery concluded. */
    method AttemptNext(claimedAt: Instant, locked: set<nat>, d: Delivery, recordedAt: Instant)
      returns (attempted: Option<nat>)
      requires Valid() && DeliveryOk(d)
      modifies this`rows
      ensures Valid()
      ensures attempted.None? ==>
                rows == old(rows) && forall id :: id in rows && id !in locked ==> !Due(rows[id], claimedAt)
      ensures attempted.Some? ==>
                var id := attempted.value;
                && NextDue(old(rows), claimedAt, locked, id)
                && rows == old(rows)[id := AttemptedRow(old(rows)[id], claimedAt, d, recordedAt)]
    {
      var intent := ClaimNext(claimedAt, locked);
      if intent.None? {
        return None;
      }
      Record(intent.value.id, intent.value.attempts, d, recordedAt);
      attempted := Some(intent.value.id);
    }

    /** One relay pass, of at most 32 attempts. `clock` and `outcomes` are what the clock read and what the deliveries
        concluded, `locked` the rows other sessions had locked at each claim. A pass that stops
        early left nothing due but what others had locked; a pass shorter than the first backoff
        attempts no intent twice, and leaves every other row as the sweep left it. */
    method Drain(clock: seq<Instant>, locked: seq<set<nat>>, outcomes: seq<Delivery>) returns (attempted: seq<nat>)
      requires Valid() && PassInputs(clock, outcomes) && |locked| == 32
      modifies this`rows
      ensures Valid() && |attempted| <= 32
      ensures rows.Keys == old(rows).Keys
      ensures forall id :: id in rows && id !in attempted ==> SweptAs(old(rows)[id], rows[id], clock[0])
      ensures ShortPass(clock) ==> EachAttemptedOnce(old(rows), rows, clock, outcomes, attempted)
      ensures |attempted| < 32 ==>
                forall id :: id in rows && id !in locked[|attempted|] ==> !Due(rows[id], clock[2 * |attempted| + 1])
    {
      hide Due, AttemptedRow, Reclaimed, AllOk, SweptAs, AttemptedAs, EachAttemptedOnce;
      attempted := [];
      ghost var rows0 := rows;
      var _ := ReclaimStale(clock[0]);
      SweptPass(rows0, clock, outcomes);
      hide PassSoFar;
      while |attempted| < BATCH
        invariant Valid() && |attempted| <= BATCH && PassSoFar(rows0, rows, clock, outcomes, attempted)
      {
        var n := |attempted|;
        ghost var before := rows;
        var id := AttemptNext(clock[2 * n + 1], locked[n], outcomes[n], clock[2 * n + 2]);
        if id.None? {
          PassSays(rows0, rows, clock, outcomes, attempted);
          return;
        }
        OneMoreAttempt(rows0, before, clock, outcomes, attempted, id.value);
        attempted := attempted + [id.value];
      }
      PassSays(rows0, rows, clock, outcomes, attempted);
    }
  }
}
