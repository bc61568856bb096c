/** Two kinds of run: calm ones, in which an intent comes to rest, and two in which a lease runs
    out and a delivery is undone. */
module OutboxRuns {
  import opened Wrappers
  import opened OutboxRows
  import opened OutboxProtocol
  import opened OutboxGuarantees

  // --- calm runs: the holders of an intent are prompt, none of them dies, no operator re-arms it ---

  predicate CalmStep(s: Sys, e: Step, id: nat) {
    && PromptFor(s, id)
    && !(e.Rearm? && e.id == id)
    && !(e.Crash? && e.relay in s.holds && s.holds[e.relay].intent.id == id)
  }

  predicate CalmRun(s: Sys, steps: seq<Step>, id: nat) {
    forall i :: 0 <= i < |steps| ==> CalmStep(Run(s, steps[..i]), steps[i], id)
  }

  lemma {:induction false} CalmPrefix(s: Sys, steps: seq<Step>, id: nat, n: nat)
    requires CalmRun(s, steps, id) && n <= |steps|
    ensures CalmRun(s, steps[..n], id) && (n < |steps| ==> CalmStep(Run(s, steps[..n]), steps[n], id))
  {
    hide Run, CalmStep;
    forall i | 0 <= i < n
      ensures steps[..n][..i] == steps[..i] && steps[..n][i] == steps[i]
    {
    }
  }

  lemma {:induction false} CalmRunsArePrompt(s: Sys, steps: seq<Step>, id: nat)
    requires CalmRun(s, steps, id)
    ensures PromptRunFor(s, steps, id)
  {
    hide Run, PromptFor;
    forall i | 0 <= i < |steps|
      ensures PromptFor(Run(s, steps[..i]), id)
    {
      assert CalmStep(Run(s, steps[..i]), steps[i], id);
    }
  }

  predicate Held(s: Sys, id: nat) {
    exists r :: r in s.holds && s.holds[r].intent.id == id
  }

  predicate AttemptIsHeld(s: Sys, id: nat) {
    id in s.rows && s.rows[id].state.Attempting? ==> Held(s, id)
  }

  predicate AttemptsAreClaims(s: Sys, id: nat) {
    |ClaimsOf(s, id)| == if id in s.rows then s.rows[id].attempts else 0
  }

  predicate Calm(s: Sys, id: nat) {
    AttemptIsHeld(s, id) && SweepCount(s.reclaims, id) == 0 && AttemptsAreClaims(s, id)
  }

  /** A held intent of a prompt holder is not stale, so the sweep leaves it. */
  lemma HeldIsNotStale(s: Sys, id: nat)
    requires AttemptIsHeld(s, id) && HoldersOwn(s, id) && PromptFor(s, id) && id in s.rows
    ensures !Stale(s.rows[id], s.now)
  {
  }

  /** A hold ends only by its own record or the death of its relay. */
  lemma HoldStays(s: Sys, e: Step, r: nat)
    requires r in s.holds && !(e.Crash? && e.relay == r)
    requires e.Record? && e.relay == r ==> !s.holds[r].phase.Answered?
    ensures r in Next(s, e).holds && Next(s, e).holds[r].intent == s.holds[r].intent
  {
    hide NextDue, HasKey, EnqueueCheck, Vet, Conclude, Book, RecordedRow, Reclaimed;
  }

  /** A row enters `attempting` only by a claim, which makes a hold for it. */
  lemma AttemptingComesFromAClaim(s: Sys, e: Step, id: nat)
    requires HoldsOk(s)
    requires id in Next(s, e).rows && Next(s, e).rows[id].state.Attempting?
    ensures id in s.rows
    ensures (e.Claim? && e.id == id && e.relay in Next(s, e).holds && Next(s, e).holds[e.relay].intent.id == id)
            || (s.rows[id].state.Attempting?
                && !(e.Record? && e.relay in s.holds && s.holds[e.relay].phase.Answered?
                     && s.holds[e.relay].intent.id == id))
  {
    if e.EnqueueInsert? || e.Claim? || e.Record? || e.Reclaim? || e.Rearm? || e.RaiseMax? {
      assert e.Record? && e.relay in s.holds ==> HoldOk(s, s.holds[e.relay]);
      hide NextDue, HasKey, BackoffSecs, HoldsOk, Booked, IntentMatches;
    } else {
      QuietRows(s, e);
      hide Next;
    }
  }

  lemma StepKeepsAttemptHeld(s: Sys, e: Step, id: nat)
    requires Safe(s) && AttemptIsHeld(s, id) && CalmStep(s, e, id)
    ensures AttemptIsHeld(Next(s, e), id)
  {
    var s' := Next(s, e);
    hide Next;
    if id in s'.rows && s'.rows[id].state.Attempting? {
      AttemptingComesFromAClaim(s, e, id);
      if e.Claim? && e.relay in s'.holds && s'.holds[e.relay].intent.id == id {
      } else {
        var r :| r in s.holds && s.holds[r].intent.id == id;
        HoldStays(s, e, r);
        assert s'.holds[r].intent.id == id;
      }
    }
  }

  lemma ClaimAddsOne(s: Sys, s': Sys, claimed: nat, id: nat)
    requires s'.claims == s.claims + [claimed]
    ensures |ClaimsOf(s', id)| == |ClaimsOf(s, id)| + (if id == claimed then 1 else 0)
  {
    if id == claimed {
      assert ClaimsOf(s', id) == ClaimsOf(s, id) + {|s.claims|};
    } else {
      assert ClaimsOf(s', id) == ClaimsOf(s, id);
    }
  }

  lemma OnlyClaimsAddClaims(s: Sys, e: Step)
    requires !e.Claim?
    ensures Next(s, e).claims == s.claims
  {
  }

  /** Between claims and its own re-arms, no statement changes the attempts of a row or adds a claim. */
  lemma OnlyClaimsCount(s: Sys, e: Step, id: nat)
    requires IdsBelow(s) && !e.Claim? && !(e.Rearm? && e.id == id)
    ensures Next(s, e).claims == s.claims
    ensures id in s.rows ==> id in Next(s, e).rows && Next(s, e).rows[id].attempts == s.rows[id].attempts
    ensures id in Next(s, e).rows && id !in s.rows ==> Next(s, e).rows[id].attempts == 0
  {
    OnlyClaimsAddClaims(s, e);
    if e.EnqueueInsert? || e.Record? || e.Reclaim? || e.RaiseMax? || e.Rearm? {
      hide HasKey, BackoffSecs;
    } else {
      QuietRows(s, e);
      hide Next;
    }
  }

  lemma StepKeepsClaimCounts(s: Sys, e: Step, id: nat)
    requires IdsBelow(s) && AttemptsAreClaims(s, id) && !(e.Rearm? && e.id == id)
    ensures AttemptsAreClaims(Next(s, e), id)
  {
    var s' := Next(s, e);
    if e.Claim? {
      hide NextDue;
      if s' != s {
        ClaimAddsOne(s, s', e.id, id);
      }
    } else {
      OnlyClaimsCount(s, e, id);
      hide Next;
      assert ClaimsOf(s', id) == ClaimsOf(s, id);
    }
  }

  lemma StepKeepsNothingSwept(s: Sys, e: Step, id: nat)
    requires SweepCount(s.reclaims, id) == 0 && (id in s.rows ==> !Stale(s.rows[id], s.now))
    ensures SweepCount(Next(s, e).reclaims, id) == 0
  {
    hide NextDue, HasKey, EnqueueCheck, Vet, Conclude, Book, BackoffSecs, Stale;
  }

  lemma {:induction false} CalmRunsAreCalm(s: Sys, steps: seq<Step>, id: nat)
    requires Init(s) && CalmRun(s, steps, id)
    ensures Calm(Run(s, steps), id)
  {
    if steps != [] {
      var n := |steps| - 1;
      var t, e := Run(s, steps[..n]), steps[n];
      CalmPrefix(s, steps, id, n);
      CalmRunsAreCalm(s, steps[..n], id);
      CalmRunsArePrompt(s, steps[..n], id);
      PromptRunsAreLeased(s, steps[..n], id);
      if id in t.rows {
        HeldIsNotStale(t, id);
      }
      StepKeepsAttemptHeld(t, e, id);
      StepKeepsNothingSwept(t, e, id);
      assert IdsBelow(t);
      StepKeepsClaimCounts(t, e, id);
    }
    hide Next, Safe, Leased, PromptFor, AttemptIsHeld, AttemptsAreClaims, Stale;
  }

  /** In a run that is calm for an intent it is claimed at most `maxAttempts` times, and once it has
      been, it comes to rest: it never waits for another attempt, and unless a relay is still working
      on its last one it is delivered, refused or exhausted. */
  lemma {:induction false} IntentsComeToRest(s: Sys, steps: seq<Step>, id: nat)
    requires Init(s) && CalmRun(s, steps, id) && id in Run(s, steps).rows
    ensures var t := Run(s, steps); |ClaimsOf(t, id)| <= t.rows[id].maxAttempts
    ensures var t := Run(s, steps);
            |ClaimsOf(t, id)| == t.rows[id].maxAttempts && !Held(t, id) ==> Terminal(t.rows[id].state)
    ensures var t := Run(s, steps); t.rows[id].state.Attempting? <==> Held(t, id)
  {
    CalmRunsAreCalm(s, steps, id);
    CalmRunsArePrompt(s, steps, id);
    PromptRunsAreLeased(s, steps, id);
    var t := Run(s, steps);
    hide Run, Safe;
    if Held(t, id) {
      var r :| r in t.holds && t.holds[r].intent.id == id;
      assert Owns(t, t.holds[r]);
    }
  }

  // --- two runs in which a lease runs out and a delivery is undone ---

  const PRINCIPAL: string := "svc.stripe.ledger"
  const LANDED: HandlerAnswer := Responded(200, None)

  function Start(): Sys {
    Sys(0, map[], 1, map[PRINCIPAL := PrincipalRow("stripe", None, true)], map[], map[], [], [], [], map[])
  }

  /** Relay 1 has its answer but does not record; its lease is swept; relay 2 is about to call. */
  function Overtaken(landed: bool, answer: HandlerAnswer): seq<Step> {
    [EnqueueLook(0, PLUGIN_ROLE + "stripe", PRINCIPAL, "/api/ledger/entries", "evt_1", "{}"),
     EnqueueInsert(0),
     Claim(1, 1, {}),
     VetStep(1, true, Gated(None)),
     Call(1, landed, answer),
     Tick(LEASE + 1),
     Reclaim,
     Claim(2, 1, {}),
     VetStep(2, true, Gated(None))]
  }

  /** Relay 1 failed. Relay 2 delivers, and then relay 1 records its failure. */
  function LateRecordRun(): seq<Step> {
    Overtaken(false, Failed(500)) + [Call(2, true, LANDED), Record(2), Record(1)]
  }

  /** Relay 1 delivered and records it. Relay 2, well inside its own lease, fails and records that. */
  function EarlyRecordRun(): seq<Step> {
    Overtaken(true, LANDED) + [Record(1), Call(2, false, Failed(500)), Record(2)]
  }

  function FirstRow(): Row {
    NewRow("stripe", PRINCIPAL, "/api/ledger/entries", "evt_1", "{}", 0)
  }

  function Enqueuing(): Sys {
    Start().(writers := map[0 := Writer("stripe", PRINCIPAL, "/api/ledger/entries", "evt_1", "{}")])
  }

  function Enqueued(): Sys {
    Start().(rows := map[1 := FirstRow()], nextId := 2)
  }

  function FirstHold(phase: Phase): Hold {
    Hold(0, IntentOf(1, ClaimedRow(FirstRow(), 0)), 0, phase)
  }

  /** Relay 1 holds the intent. */
  function OneHolds(phase: Phase): Sys {
    Enqueued().(rows := map[1 := ClaimedRow(FirstRow(), 0)], holds := map[1 := FirstHold(phase)], claims := [1])
  }

  /** What an answer to relay 1, or to relay 2, concludes. */
  function First(answer: HandlerAnswer): Delivery {
    Conclude(IntentOf(1, ClaimedRow(FirstRow(), 0)), answer)
  }

  function Second(answer: HandlerAnswer): Delivery {
    Conclude(IntentOf(1, SecondRow()), answer)
  }

  function OneBooking(landed: bool): seq<Booking> {
    if landed then [Booking("stripe", "evt_1", "{}")] else []
  }

  function OneAnswered(landed: bool, answer: HandlerAnswer): Sys {
    OneHolds(Answered(First(answer))).(calls := [CallRecord(0, 1)], ledger := OneBooking(landed))
  }

  function WaitingRow(): Row {
    ReclaimedRow(ClaimedRow(FirstRow(), 0), LEASE + 1)
  }

  /** Its lease was swept before it recorded. */
  function Swept(landed: bool, answer: HandlerAnswer): Sys {
    OneAnswered(landed, answer).(now := LEASE + 1, rows := map[1 := WaitingRow()], reclaims := map[1 := 1])
  }

  function SecondRow(): Row {
    ClaimedRow(WaitingRow(), LEASE + 1)
  }

  function SecondHold(phase: Phase): Hold {
    Hold(1, IntentOf(1, SecondRow()), LEASE + 1, phase)
  }

  /** Relay 2 holds it too. */
  function BothHold(landed: bool, answer: HandlerAnswer, phase: Phase): Sys {
    Swept(landed, answer).(rows := map[1 := SecondRow()], claims := [1, 1],
                           holds := map[1 := FirstHold(Answered(First(answer))), 2 := SecondHold(phase)])
  }

  /** Relay 2 delivered and recorded. */
  function Settled(): Sys {
    BothHold(true, Failed(500), Fetched).(
      rows := map[1 := RecordedRow(SecondRow(), 2, Second(LANDED), LEASE + 1)],
      holds := map[1 := FirstHold(Answered(First(Failed(500))))],
      calls := [CallRecord(0, 1), CallRecord(1, 1)])
  }

  function Undone(): Sys {
    Settled().(rows := map[1 := RecordedRow(Settled().rows[1], 1, First(Failed(500)), LEASE + 1)], holds := map[])
  }

  /** Relay 1 recorded its delivery; relay 2 still holds the intent. */
  function EarlySettled(phase: Phase): Sys {
    BothHold(true, LANDED, phase).(
      rows := map[1 := RecordedRow(SecondRow(), 1, First(LANDED), LEASE + 1)],
      holds := map[2 := SecondHold(phase)],
      calls := if phase.Answered? then [CallRecord(0, 1), CallRecord(1, 1)] else [CallRecord(0, 1)])
  }

  function EarlyUndone(): Sys {
    EarlySettled(Answered(Second(Failed(500)))).(
      rows := map[1 := RecordedRow(EarlySettled(Vetted).rows[1], 2, Second(Failed(500)), LEASE + 1)], holds := map[])
  }

  lemma Enqueues(landed: bool, answer: HandlerAnswer)
    ensures Next(Start(), Overtaken(landed, answer)[0]) == Enqueuing()
    ensures Next(Enqueuing(), Overtaken(landed, answer)[1]) == Enqueued()
  {
    var role := PLUGIN_ROLE + "stripe";
    assert role[|PLUGIN_ROLE|..] == "stripe" && role[..8] == "adjutant" && role[9..15] == "plugin";
    assert "/" <= "/api/ledger/entries";
  }

  lemma FirstClaim(landed: bool, answer: HandlerAnswer)
    ensures Next(Enqueued(), Overtaken(landed, answer)[2]) == OneHolds(Fetched)
    ensures Next(OneHolds(Fetched), Overtaken(landed, answer)[3]) == OneHolds(Vetted)
  {
  }

  lemma FirstCall(landed: bool, answer: HandlerAnswer)
    requires landed == SuccessAnswer(answer)
    ensures Next(OneHolds(Vetted), Overtaken(landed, answer)[4]) == OneAnswered(landed, answer)
  {
    hide Conclude;
  }

  lemma Sweep(landed: bool, answer: HandlerAnswer)
    ensures var steps := Overtaken(landed, answer);
            Next(Next(OneAnswered(landed, answer), steps[5]), steps[6]) == Swept(landed, answer)
  {
    hide Conclude;
  }

  lemma SecondClaim(landed: bool, answer: HandlerAnswer)
    ensures Next(Swept(landed, answer), Overtaken(landed, answer)[7]) == BothHold(landed, answer, Fetched)
    ensures Next(BothHold(landed, answer, Fetched), Overtaken(landed, answer)[8]) == BothHold(landed, answer, Vetted)
  {
    hide Conclude;
  }

  lemma LateRecords()
    ensures var t := Next(BothHold(false, Failed(500), Vetted), Call(2, true, LANDED));
            Next(t, Record(2)) == Settled() && Next(Settled(), Record(1)) == Undone()
  {
  }

  lemma EarlyRecord()
    ensures Next(BothHold(true, LANDED, Vetted), Record(1)) == EarlySettled(Vetted)
  {
  }

  lemma SecondFails()
    ensures Next(EarlySettled(Vetted), Call(2, false, Failed(500))) == EarlySettled(Answered(Second(Failed(500))))
  {
  }

  lemma FailureRecords()
    ensures Next(EarlySettled(Answered(Second(Failed(500)))), Record(2)) == EarlyUndone()
  {
    hide Second;
  }

  lemma {:induction false} RunStep(s: Sys, steps: seq<Step>, n: nat)
    requires n < |steps|
    ensures Run(s, steps[..n + 1]) == Next(Run(s, steps[..n]), steps[n])
  {
    assert steps[..n + 1][..n] == steps[..n];
  }

  lemma {:induction false} NineSteps(landed: bool, answer: HandlerAnswer)
    ensures |Overtaken(landed, answer)| == 9 && Run(Start(), Overtaken(landed, answer)[..0]) == Start()
  {
  }

  lemma {:induction false} UntilSwept(landed: bool, answer: HandlerAnswer)
    requires landed == SuccessAnswer(answer)
    ensures |Overtaken(landed, answer)| == 9
    ensures Run(Start(), Overtaken(landed, answer)[..7]) == Swept(landed, answer)
  {
    hide *;
    var steps := Overtaken(landed, answer);
    NineSteps(landed, answer);
    Enqueues(landed, answer);
    FirstClaim(landed, answer);
    FirstCall(landed, answer);
    Sweep(landed, answer);
    RunStep(Start(), steps, 0);
    RunStep(Start(), steps, 1);
    RunStep(Start(), steps, 2);
    RunStep(Start(), steps, 3);
    RunStep(Start(), steps, 4);
    RunStep(Start(), steps, 5);
    RunStep(Start(), steps, 6);
  }

  lemma {:induction false} UntilBothHold(landed: bool, answer: HandlerAnswer)
    requires landed == SuccessAnswer(answer)
    ensures Run(Start(), Overtaken(landed, answer)) == BothHold(landed, answer, Vetted)
  {
    hide *;
    var steps := Overtaken(landed, answer);
    UntilSwept(landed, answer);
    SecondClaim(landed, answer);
    RunStep(Start(), steps, 7);
    RunStep(Start(), steps, 8);
    assert steps[..9] == steps;
  }

  lemma RunsDiverge()
    ensures SuccessAnswer(LANDED) && !SuccessAnswer(Failed(500))
    ensures LateRecordRun()[..9] == Overtaken(false, Failed(500)) && |LateRecordRun()| == 12
    ensures LateRecordRun()[9..] == [Call(2, true, LANDED), Record(2), Record(1)]
    ensures EarlyRecordRun()[..9] == Overtaken(true, LANDED) && |EarlyRecordRun()| == 12
    ensures EarlyRecordRun()[9..] == [Record(1), Call(2, false, Failed(500)), Record(2)]
  {
  }

  lemma {:induction false} LateRecordStates()
    ensures Run(Start(), LateRecordRun()[..11]) == Settled() && Run(Start(), LateRecordRun()) == Undone()
    ensures Run(Start(), LateRecordRun()[..9]) == BothHold(false, Failed(500), Vetted)
  {
    hide *;
    var steps := LateRecordRun();
    RunsDiverge();
    UntilBothHold(false, Failed(500));
    LateRecords();
    RunStep(Start(), steps, 9);
    RunStep(Start(), steps, 10);
    RunStep(Start(), steps, 11);
    assert steps[..12] == steps;
  }

  lemma {:induction false} EarlyRecordStates()
    ensures var steps := EarlyRecordRun();
            && Run(Start(), steps[..9]) == BothHold(true, LANDED, Vetted)
            && Run(Start(), steps[..10]) == EarlySettled(Vetted)
            && Run(Start(), steps[..11]) == EarlySettled(Answered(Second(Failed(500))))
            && Run(Start(), steps) == EarlyUndone()
  {
    hide *;
    var steps := EarlyRecordRun();
    RunsDiverge();
    UntilBothHold(true, LANDED);
    EarlyRecord();
    SecondFails();
    FailureRecords();
    RunStep(Start(), steps, 9);
    RunStep(Start(), steps, 10);
    RunStep(Start(), steps, 11);
    assert steps[..12] == steps;
  }

  /** The lease hypothesis is needed: without it a delivered intent goes back to `pending`, with
      its delivery date still on it, and will be sent again. The ledger still has one booking. */
  lemma {:induction false} LateRecordUndoesDelivery()
    ensures Init(Start())
    ensures var t := Run(Start(), LateRecordRun()[..11]);
            1 in t.rows && t.rows[1].state.Delivered? && 1 in t.holds && Late(t, 1, 1)
    ensures var t := Run(Start(), LateRecordRun());
            && 1 in t.rows && t.rows[1].state.Pending? && t.rows[1].deliveredAt.Some?
            && Due(t.rows[1], t.now + 15 * SECOND) && |t.ledger| == 1
  {
    LateRecordStates();
    BackoffIsCappedDoubling(1);
    assert 1 in Settled().holds;
  }

  /** The record that undoes a delivery need not be late: here the late relay delivered, and a relay
      inside its lease, whose claim no sweep took, puts the delivered intent back to `pending`. */
  lemma {:induction false} EarlyRecordUndoesDelivery()
    ensures var t := Run(Start(), EarlyRecordRun()[..9]); 1 in t.holds && Late(t, 1, 1)
    ensures var t := Run(Start(), EarlyRecordRun()[..11]);
            && 1 in t.rows && t.rows[1].state.Delivered?
            && EarlyRecordRun()[11] == Record(2) && t.holds.Keys == {2} && t.now <= t.holds[2].since + LEASE
    ensures var t := Run(Start(), EarlyRecordRun()); 1 in t.rows && t.rows[1].state.Pending? && |t.ledger| == 1
  {
    EarlyRecordStates();
    assert 1 in BothHold(true, LANDED, Vetted).holds;
  }
}
