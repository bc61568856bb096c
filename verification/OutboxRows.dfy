/** The outbox vocabulary: intents, delivery outcomes, and the statements that move a row. */
module OutboxRows {
  import opened Wrappers

  /** Instants are microseconds, as the database stores them. */
  type Instant = int

  const SECOND: int := 1_000_000
  const LEASE: int := 120 * SECOND
  const STALE_PENDING: int := 15 * 60 * SECOND
  const STALE_ATTEMPTING: int := 15 * 60 * SECOND
  const DEFAULT_MAX_ATTEMPTS: int := 6
  const BATCH: nat := 32

  datatype State = Pending | Attempting | Delivered | Refused | Exhausted

  predicate Terminal(s: State) {
    s.Delivered? || s.Refused? || s.Exhausted?
  }

  // --- backoff ---

  const BACKOFF_BASE_SECS: int := 15
  const BACKOFF_MAX_SECS: int := 3600
  const I64_MAX: int := 0x7fff_ffff_ffff_ffff

  function Min(a: int, b: int): int {
    if a < b then a else b
  }

  function Max(a: int, b: int): int {
    if a < b then b else a
  }

  function Pow2(n: nat): (p: nat)
    ensures p >= 1
  {
    if n == 0 then 1 else 2 * Pow2(n - 1)
  }

  function SaturatingMul(a: nat, b: nat): int {
    Min(a * b, I64_MAX)
  }

  /** The wait before attempt `attempts + 1`, in seconds. */
  function BackoffSecs(attempts: int): int {
    var n := Min(Max(attempts, 1), 32) - 1;
    Min(SaturatingMul(BACKOFF_BASE_SECS, Pow2(Min(n, 20))), BACKOFF_MAX_SECS)
  }

  lemma {:induction false} Pow2Grows(a: nat, b: nat)
    requires a <= b
    ensures Pow2(a) <= Pow2(b)
    decreases b
  {
    if a < b {
      Pow2Grows(a, b - 1);
    }
  }

  lemma Pow2Of8And20()
    ensures Pow2(8) == 256 && Pow2(20) == 1_048_576
  {
  }

  /** For every count, the wait is 15 doubled once per earlier attempt and capped at an hour;
      the clamps and the saturation never show. */
  lemma BackoffIsCappedDoubling(attempts: int)
    ensures BackoffSecs(attempts) == Min(BACKOFF_BASE_SECS * Pow2(Max(attempts, 1) - 1), BACKOFF_MAX_SECS)
    ensures BACKOFF_BASE_SECS * Pow2(Min(Min(Max(attempts, 1), 32) - 1, 20)) <= I64_MAX
    ensures BACKOFF_BASE_SECS <= BackoffSecs(attempts) <= BACKOFF_MAX_SECS
  {
    var exact := Max(attempts, 1) - 1;
    var used := Min(Min(Max(attempts, 1), 32) - 1, 20);
    Pow2Of8And20();
    Pow2Grows(used, 20);
    if exact > 8 {
      Pow2Grows(8, exact);
      Pow2Grows(8, used);
    }
  }

  /** The schedule, attempt by attempt, in seconds. */
  lemma BackoffSchedule()
    ensures BackoffSecs(1) == 15 && BackoffSecs(2) == 30 && BackoffSecs(3) == 60 && BackoffSecs(4) == 120
    ensures BackoffSecs(5) == 240 && BackoffSecs(6) == 480 && BackoffSecs(7) == 960 && BackoffSecs(8) == 1920
    ensures forall attempts :: attempts >= 9 ==> BackoffSecs(attempts) == 3600
  {
    forall attempts | attempts >= 9
      ensures BackoffSecs(attempts) == 3600
    {
      BackoffIsCappedDoubling(attempts);
      Pow2Of8And20();
      Pow2Grows(8, attempts - 1);
    }
    Pow2UpTo8();
  }

  lemma Pow2UpTo8()
    ensures Pow2(0) == 1 && Pow2(1) == 2 && Pow2(2) == 4 && Pow2(3) == 8
    ensures Pow2(4) == 16 && Pow2(5) == 32 && Pow2(6) == 64 && Pow2(7) == 128
  {
  }

  // --- what an attempt concluded ---

  datatype Reason =
    | NotDeclared | Revoked | NotDeclaredHere | PrincipalUnreadable
    | NoRoute | GateRefused(status: int) | TargetAnswered(status: int) | Abandoned

  datatype Event = EventDelivered | EventRefused | EventExhausted

  datatype Delivery = Delivery(state: State, status: Option<int>, answer: Option<string>, error: Option<Reason>,
                               event: Option<Event>)

  function DeliveredOutcome(status: int, answer: Option<string>): Delivery {
    Delivery(Delivered, Some(status), answer, None, Some(EventDelivered))
  }

  function RefusedOutcome(status: Option<int>, answer: Option<string>, error: Reason): Delivery {
    Delivery(Refused, status, answer, Some(error), Some(EventRefused))
  }

  /** A retryable failure: `attempts` already counts the attempt that failed. */
  function RetryOutcome(attempts: int, maxAttempts: int, status: Option<int>, error: Reason): Delivery {
    if attempts >= maxAttempts then Delivery(Exhausted, status, None, Some(error), Some(EventExhausted))
    else Delivery(Pending, status, None, Some(error), None)
  }

  predicate Success(status: int) {
    200 <= status < 300
  }

  /** Every outcome: never `attempting`; delivered with a 2xx and no error, anything else with
      its error; an event exactly when the state is terminal. */
  predicate DeliveryOk(d: Delivery) {
    && !d.state.Attempting?
    && (d.state.Delivered? ==> d.status.Some? && Success(d.status.value) && d.error.None?)
    && (!d.state.Delivered? ==> d.error.Some?)
    && (d.event.Some? <==> Terminal(d.state))
  }

  // --- one delivery ---

  datatype Intent = Intent(id: nat, producer: string, principal: string, route: string, key: string, payload: string,
                           attempts: int, maxAttempts: int)

  datatype PrincipalRow = PrincipalRow(producer: string, revokedAt: Option<Instant>, declaredByCore: bool)

  /** The principals this core declares, each for one producer. */
  predicate DeclaredFor(producer: string, principal: string) {
    (principal == "svc.stripe.ledger" && producer == "stripe") || (principal == "svc.store.draw" && producer == "store")
  }

  lemma DeclaredPrincipals(producer: string, principal: string)
    ensures DeclaredFor(producer, principal) <==>
            (producer, principal) in {("stripe", "svc.stripe.ledger"), ("store", "svc.store.draw")}
  {
  }

  /** What resolving the target and running its gate said. */
  datatype Target = NoLiveRoute | Gated(refusal: Option<int>)

  datatype HandlerAnswer = Responded(status: int, body: Option<string>) | Failed(status: int)

  datatype Verdict = Proceed | Concluded(d: Delivery)

  /** The checks before the handler, in the order they run. */
  function Vet(intent: Intent, principal: Result<Option<PrincipalRow>, ()>, target: Target): Verdict {
    var attempts, maxAttempts := Max(intent.attempts, 1), Max(intent.maxAttempts, 1);
    match principal
    case Err(_) => Concluded(RetryOutcome(attempts, maxAttempts, None, PrincipalUnreadable))
    case Ok(None) => Concluded(RefusedOutcome(Some(403), None, NotDeclared))
    case Ok(Some(row)) =>
      if row.revokedAt.Some? then Concluded(RefusedOutcome(Some(403), None, Revoked))
      else if !DeclaredFor(row.producer, intent.principal) then
        Concluded(RefusedOutcome(Some(403), None, NotDeclaredHere))
      else match target
        case NoLiveRoute => Concluded(RetryOutcome(attempts, maxAttempts, Some(404), NoRoute))
        case Gated(Some(status)) => Concluded(RefusedOutcome(Some(status), None, GateRefused(status)))
        case Gated(None) => Proceed
  }

  /** What the handler's answer means. */
  function Conclude(intent: Intent, answer: HandlerAnswer): Delivery {
    var attempts, maxAttempts := Max(intent.attempts, 1), Max(intent.maxAttempts, 1);
    match answer
    case Responded(status, body) =>
      if Success(status) then DeliveredOutcome(status, body)
      else if 400 <= status < 500 then RefusedOutcome(Some(status), body, TargetAnswered(status))
      else RetryOutcome(attempts, maxAttempts, Some(status), TargetAnswered(status))
    case Failed(status) =>
      if 400 <= status < 500 then RefusedOutcome(Some(status), None, TargetAnswered(status))
      else RetryOutcome(attempts, maxAttempts, Some(status), TargetAnswered(status))
  }

  /** Every conclusion is well shaped, a conclusion is `delivered` only on a 2xx answer, and
      it goes back to `pending` only while attempts are left. */
  lemma ConclusionsAreOk(intent: Intent, principal: Result<Option<PrincipalRow>, ()>, target: Target,
                         answer: HandlerAnswer)
    ensures DeliveryOk(Conclude(intent, answer))
    ensures Conclude(intent, answer).state.Delivered? <==> answer.Responded? && Success(answer.status)
    ensures Conclude(intent, answer).state.Pending? ==> Max(intent.attempts, 1) < Max(intent.maxAttempts, 1)
    ensures match Vet(intent, principal, target)
            case Proceed =>
              && principal.Ok? && principal.value.Some? && principal.value.value.revokedAt.None?
              && DeclaredFor(principal.value.value.producer, intent.principal) && target == Gated(None)
            case Concluded(d) =>
              DeliveryOk(d) && !d.state.Delivered?
              && (d.state.Pending? ==> Max(intent.attempts, 1) < Max(intent.maxAttempts, 1))
  {
  }

  predicate Vouched(intent: Intent, principal: Result<Option<PrincipalRow>, ()>) {
    && principal.Ok? && principal.value.Some? && principal.value.value.revokedAt.None?
    && DeclaredFor(principal.value.value.producer, intent.principal)
  }

  predicate Retryable(d: Delivery) {
    d.state.Pending? || d.state.Exhausted?
  }

  /** Which failures may heal. Before the call: an unreadable principal, or a vouched one whose
      target is not loaded. After it: an answer that is neither a success nor the target's no.
      Everything else is refused for good, and a failure that may heal exhausts the intent
      exactly on its last attempt. */
  lemma RetriesAreExact(intent: Intent, principal: Result<Option<PrincipalRow>, ()>, target: Target,
                        answer: HandlerAnswer)
    ensures Vet(intent, principal, target) == Proceed <==> Vouched(intent, principal) && target == Gated(None)
    ensures Vet(intent, principal, target).Concluded? ==>
              var d := Vet(intent, principal, target).d;
              && (Retryable(d) <==> principal.Err? || (Vouched(intent, principal) && target.NoLiveRoute?))
              && (d.state.Exhausted? <==> Retryable(d) && Max(intent.attempts, 1) >= Max(intent.maxAttempts, 1))
    ensures var d := Conclude(intent, answer);
            && (d.state.Refused? <==> 400 <= answer.status < 500)
            && (Retryable(d) <==> !(400 <= answer.status < 500) && !(answer.Responded? && Success(answer.status)))
            && (d.state.Exhausted? <==> Retryable(d) && Max(intent.attempts, 1) >= Max(intent.maxAttempts, 1))
            && d.status == Some(answer.status)
  {
  }

  // --- the outcomes in so many words ---

  /** Tried again, or given up when this was the last attempt. */
  predicate TriedAgain(d: Delivery, last: bool, status: Option<int>, error: Reason) {
    && d.state == (if last then Exhausted else Pending) && d.event == (if last then Some(EventExhausted) else None)
    && d.status == status && d.answer == None && d.error == Some(error)
  }

  predicate Denied(d: Delivery, status: int, answer: Option<string>, error: Reason) {
    d.state == Refused && d.event == Some(EventRefused) && d.status == Some(status) && d.answer == answer
    && d.error == Some(error)
  }

  predicate IsLast(intent: Intent) {
    intent.attempts >= intent.maxAttempts || intent.maxAttempts <= 1
  }

  /** Before the call: an unreadable principal is tried again; an unknown, a revoked and a foreign one are
      denied with 403; a target that is not loaded is tried again with 404; a gate denies with its status. */
  lemma VetInWords(intent: Intent, principal: Result<Option<PrincipalRow>, ()>, target: Target)
    ensures var v := Vet(intent, principal, target);
            match principal
            case Err(_) => v.Concluded? && TriedAgain(v.d, IsLast(intent), None, PrincipalUnreadable)
            case Ok(None) => v.Concluded? && Denied(v.d, 403, None, NotDeclared)
            case Ok(Some(row)) =>
              if row.revokedAt != None then v.Concluded? && Denied(v.d, 403, None, Revoked)
              else if (row.producer, intent.principal)
                      !in {("stripe", "svc.stripe.ledger"), ("store", "svc.store.draw")} then
                v.Concluded? && Denied(v.d, 403, None, NotDeclaredHere)
              else match target
                case NoLiveRoute => v.Concluded? && TriedAgain(v.d, IsLast(intent), Some(404), NoRoute)
                case Gated(Some(status)) => v.Concluded? && Denied(v.d, status, None, GateRefused(status))
                case Gated(None) => v == Proceed
  {
  }

  /** After it: a 2xx answer is delivered with its body, a 4xx denies with its body if it has one, and
      anything else is tried again. */
  lemma ConcludeInWords(intent: Intent, answer: HandlerAnswer)
    ensures var d := Conclude(intent, answer);
            if answer.Responded? && 200 <= answer.status <= 299 then
              d == Delivery(Delivered, Some(answer.status), answer.body, None, Some(EventDelivered))
            else if 400 <= answer.status <= 499 then
              Denied(d, answer.status, if answer.Responded? then answer.body else None, TargetAnswered(answer.status))
            else TriedAgain(d, IsLast(intent), Some(answer.status), TargetAnswered(answer.status))
  {
  }

  // --- rows and the statements that move them ---

  datatype Row = Row(
    producer: string, principal: string, route: string, key: string, payload: string,
    state: State, attempts: int, maxAttempts: int,
    answerStatus: Option<int>, answer: Option<string>, lastError: Option<Reason>,
    createdAt: Instant, claimedAt: Option<Instant>, lastAttemptAt: Option<Instant>, nextAttemptAt: Instant,
    deliveredAt: Option<Instant>)

  type Table = map<nat, Row>

  function NewRow(producer: string, principal: string, route: string, key: string, payload: string, now: Instant): Row {
    Row(producer, principal, route, key, payload, Pending, 0, DEFAULT_MAX_ATTEMPTS, None, None, None,
        now, None, None, now, None)
  }

  predicate Least(ids: set<nat>, m: nat) {
    m in ids && forall x :: x in ids ==> m <= x
  }

  lemma {:induction false} HasLeast(ids: set<nat>)
    requires ids != {}
    ensures exists m :: Least(ids, m)
    decreases |ids|
  {
    var x :| x in ids;
    if ids == {x} {
      assert Least(ids, x);
    } else {
      HasLeast(ids - {x});
      var m :| Least(ids - {x}, m);
      assert forall y :: y in ids ==> y == x || y in ids - {x};
      assert Least(ids, if m < x then m else x);
    }
  }

  /** The table's constraints on a new intent: its target is a route, its key is not empty. */
  predicate IntentShape(route: string, key: string) {
    "/" <= route && key != ""
  }

  predicate Due(row: Row, now: Instant) {
    row.state.Pending? && row.nextAttemptAt <= now
  }

  /** The oldest due intent that no other statement has locked. */
  predicate NextDue(rows: Table, now: Instant, locked: set<nat>, id: nat) {
    && id in rows && id !in locked && Due(rows[id], now)
    && forall other :: other in rows && other !in locked && Due(rows[other], now) ==> id <= other
  }

  function ClaimedRow(row: Row, now: Instant): Row {
    row.(state := Attempting, attempts := row.attempts + 1, claimedAt := Some(now), lastAttemptAt := Some(now))
  }

  function IntentOf(id: nat, row: Row): Intent {
    Intent(id, row.producer, row.principal, row.route, row.key, row.payload, row.attempts, row.maxAttempts)
  }

  function RecordedRow(row: Row, attempts: int, d: Delivery, now: Instant): Row {
    row.(state := d.state,
         nextAttemptAt := if d.state.Pending? then now + BackoffSecs(attempts) * SECOND else row.nextAttemptAt,
         deliveredAt := if d.state.Delivered? then Some(now) else row.deliveredAt,
         answerStatus := d.status, answer := d.answer, lastError := d.error)
  }

  predicate Stale(row: Row, now: Instant) {
    row.state.Attempting? && row.claimedAt.Some? && row.claimedAt.value < now - LEASE
  }

  function ReclaimedRow(row: Row, now: Instant): Row {
    if Stale(row, now) then
      row.(state := Pending, claimedAt := None, nextAttemptAt := now,
           lastError := if row.lastError.Some? then row.lastError else Some(Abandoned))
    else row
  }

  function Reclaimed(rows: Table, now: Instant): Table {
    map id | id in rows :: ReclaimedRow(rows[id], now)
  }

  predicate Rearmable(row: Row) {
    row.state.Refused? || row.state.Exhausted?
  }

  function RearmedRow(row: Row, now: Instant): Row {
    if Rearmable(row) then row.(state := Pending, attempts := 0, nextAttemptAt := now, claimedAt := None) else row
  }

  /** What every row satisfies: the table's constraints, and the evidence each state carries. */
  predicate RowOk(row: Row) {
    && row.attempts >= 0 && row.maxAttempts >= 1 && IntentShape(row.route, row.key)
    && (row.state.Attempting? ==> row.claimedAt.Some?)
    && (row.state.Delivered? ==> row.deliveredAt.Some? && row.answerStatus.Some? && Success(row.answerStatus.value))
    && (Rearmable(row) ==> row.lastError.Some?)
  }

  lemma StatementsKeepRowOk(row: Row, attempts: int, d: Delivery, now: Instant)
    requires RowOk(row) && DeliveryOk(d)
    ensures RowOk(ClaimedRow(row, now)) && RowOk(RecordedRow(row, attempts, d, now))
    ensures RowOk(ReclaimedRow(row, now)) && RowOk(RearmedRow(row, now))
  {
  }

  /** The part of a row that no relay statement touches. */
  predicate SameFact(a: Row, b: Row) {
    && a.producer == b.producer && a.principal == b.principal && a.route == b.route
    && a.key == b.key && a.payload == b.payload
  }
}
