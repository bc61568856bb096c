/** What the outbox guarantees over whole runs: the effect guarantee in every interleaving,
    and the relay guarantees when live holders record within their lease. */
module OutboxGuarantees {
  import opened Counting
  import opened Wrappers
  import opened OutboxRows
  import opened OutboxProtocol

  lemma {:induction false} RunExtends(s: Sys, steps: seq<Step>, e: Step)
    ensures Run(s, steps + [e]) == Next(Run(s, steps), e)
  {
  }

  lemma {:induction false} RunsAreSafe(s: Sys, steps: seq<Step>)
    requires Init(s)
    ensures Safe(Run(s, steps))
  {
    hide Next;
    if steps != [] {
      RunsAreSafe(s, steps[..|steps| - 1]);
      StepKeepsSafe(Run(s, steps[..|steps| - 1]), steps[|steps| - 1]);
    }
  }

  /** In every interleaving of any number of producers, relays, crashes, sweeps and re-arms,
      with no assumption on time: one intent per (producer, key), at most one booking per
      (producer, key), every booking traces to its intent, and every delivered row is booked. */
  lemma {:induction false} EffectGuarantee(s: Sys, steps: seq<Step>, a: nat, b: nat)
    requires Init(s)
    ensures var t := Run(s, steps);
            && (a in t.rows && b in t.rows
                && t.rows[a].producer == t.rows[b].producer && t.rows[a].key == t.rows[b].key ==>
                  a == b)
            && (a < b < |t.ledger| ==>
                t.ledger[a].producer != t.ledger[b].producer || t.ledger[a].key != t.ledger[b].key)
            && (a < |t.ledger| ==> HasIntent(t.rows, t.ledger[a]))
            && (a in t.rows && t.rows[a].state.Delivered? ==> Booked(t.ledger, t.rows[a].producer, t.rows[a].key))
  {
    RunsAreSafe(s, steps);
    hide Run, Next;
  }

  /** Bookings are never withdrawn: the ledger of an earlier state is a prefix of every later one. */
  lemma {:induction false} LedgerOnlyGrows(s: Sys, steps: seq<Step>, i: nat)
    requires i <= |steps|
    ensures Run(s, steps[..i]).ledger <= Run(s, steps).ledger
    decreases |steps| - i
  {
    hide Next;
    if i == |steps| {
      assert steps[..i] == steps;
    } else {
      LedgerOnlyGrows(s, steps, i + 1);
      assert steps[..i + 1][..i] == steps[..i];
      StepLedger(Run(s, steps[..i]), steps[i]);
    }
  }

  // --- handler calls and claims ---

  function ClaimsOf(s: Sys, id: nat): set<nat> {
    set t | 0 <= t < |s.claims| && s.claims[t] == id
  }

  /** The positions of the calls of an intent's handler. */
  function CallsOf(s: Sys, id: nat): set<nat> {
    set i | 0 <= i < |s.calls| && s.calls[i].id == id
  }

  /** A handler is called at most once per claim, so never more often than the intent was claimed. */
  lemma {:induction false} CallsNeverExceedClaims(s: Sys, steps: seq<Step>, id: nat)
    requires Init(s)
    ensures |CallsOf(Run(s, steps), id)| <= |ClaimsOf(Run(s, steps), id)|
  {
    RunsAreSafe(s, steps);
    var t := Run(s, steps);
    hide Run;
    InjectionCount(CallsOf(t, id), ClaimsOf(t, id), (i: nat) => if i < |t.calls| then t.calls[i].ticket else 0);
  }

  /** A call that runs spends a ticket that was never spent before. */
  lemma {:induction false} EachCallSpendsItsTicket(s: Sys, steps: seq<Step>, e: Step)
    requires Init(s) && e.Call?
    requires var t := Run(s, steps); e.relay in t.holds && t.holds[e.relay].phase.Vetted?
    ensures var t := Run(s, steps); !Spent(t.calls, t.holds[e.relay].ticket)
    ensures var t := Run(s, steps); var h := t.holds[e.relay];
            Next(t, e).calls == t.calls + [CallRecord(h.ticket, h.intent.id)]
  {
    RunsAreSafe(s, steps);
    hide Run, Spent;
  }

  // --- the lease ---

  /** Every live holder of the intent is still within its lease. */
  predicate PromptFor(s: Sys, id: nat) {
    forall r :: r in s.holds && s.holds[r].intent.id == id ==> s.now <= s.holds[r].since + LEASE
  }

  /** A holder's row is the claim it made. */
  predicate Owns(s: Sys, h: Hold) {
    && h.intent.id in s.rows
    && s.rows[h.intent.id].state.Attempting?
    && s.rows[h.intent.id].claimedAt == Some(h.since)
    && s.rows[h.intent.id].attempts == h.intent.attempts >= 1
    && 1 <= h.intent.maxAttempts <= s.rows[h.intent.id].maxAttempts
    && (h.phase.Answered? && h.phase.d.state.Pending? ==> h.intent.attempts < h.intent.maxAttempts)
  }

  predicate HoldersOwn(s: Sys, id: nat) {
    forall r :: r in s.holds && s.holds[r].intent.id == id ==> Owns(s, s.holds[r])
  }

  predicate Exclusive(s: Sys, id: nat) {
    forall q, r :: q in s.holds && r in s.holds && s.holds[q].intent.id == id && s.holds[r].intent.id == id ==> q == r
  }

  /** Attempts spent beyond the budget are paid for by swept leases. */
  predicate WithinBudget(s: Sys, id: nat)
    requires id in s.rows
  {
    s.rows[id].attempts <=
    s.rows[id].maxAttempts + SweepCount(s.reclaims, id) - (if s.rows[id].state.Pending? then 1 else 0)
  }

  /** The lease works for one intent, whatever happens to the others. */
  predicate Leased(s: Sys, id: nat) {
    HoldersOwn(s, id) && Exclusive(s, id) && (id in s.rows ==> WithinBudget(s, id))
  }

  /** No holder of the intent outlived its lease before the last step. */
  predicate PromptRunFor(s: Sys, steps: seq<Step>, id: nat) {
    forall i :: 0 <= i < |steps| ==> PromptFor(Run(s, steps[..i]), id)
  }

  lemma SweepLeavesHeldRows(s: Sys, h: Hold)
    requires Owns(s, h) && s.now <= h.since + LEASE
    ensures Owns(Next(s, Reclaim), h)
  {
  }

  lemma WriteLeavesHeldRows(s: Sys, e: Step, h: Hold)
    requires IdsBelow(s) && Owns(s, h)
    requires e.EnqueueInsert? || e.Claim? || e.Record? || e.Rearm? || e.RaiseMax?
    requires e.Record? && e.relay in s.holds && s.holds[e.relay].phase.Answered? ==>
               s.holds[e.relay].intent.id != h.intent.id
    ensures Owns(Next(s, e), h)
  {
    assert e.Claim? && NextDue(s.rows, s.now, e.locked, e.id) ==> e.id in s.rows && s.rows[e.id].state.Pending?;
    assert h.intent.id < s.nextId;
    hide NextDue, HasKey, BackoffSecs, IdsBelow;
  }

  /** A row that is being attempted is written only by its own holder's record, and by the sweep
      once its lease is over. */
  lemma HeldRowStays(s: Sys, e: Step, h: Hold)
    requires Safe(s) && Owns(s, h) && s.now <= h.since + LEASE
    requires e.Record? && e.relay in s.holds && s.holds[e.relay].phase.Answered? ==>
               s.holds[e.relay].intent.id != h.intent.id
    ensures Owns(Next(s, e), h)
  {
    if e.Reclaim? {
      SweepLeavesHeldRows(s, h);
    } else if e.EnqueueInsert? || e.Claim? || e.Record? || e.Rearm? || e.RaiseMax? {
      WriteLeavesHeldRows(s, e, h);
    } else {
      QuietRows(s, e);
    }
    hide Next;
  }

  lemma OwnsLater(s: Sys, s': Sys, h: Hold, h': Hold)
    requires Owns(s, h) && Owns(s', h) && Progress(s, h, h', s')
    ensures Owns(s', h')
  {
  }

  lemma HolderOwnsLater(s: Sys, e: Step, id: nat, r: nat)
    requires Safe(s) && Leased(s, id) && PromptFor(s, id) && HoldsMove(s, e, Next(s, e))
    requires r in Next(s, e).holds && Next(s, e).holds[r].intent.id == id
    requires !(ClaimMoves(s, e, Next(s, e)) && r == e.relay)
    ensures Owns(Next(s, e), Next(s, e).holds[r])
  {
    var s' := Next(s, e);
    assert r in s.holds && s.holds[r].intent.id == id && Owns(s, s.holds[r]);
    RecordLeavesOthers(s, e, id, r);
    HeldRowStays(s, e, s.holds[r]);
    hide Next, Safe, Owns;
    if OthersMove(s, e, s') {
      OwnsLater(s, s', s.holds[r], s'.holds[r]);
    }
  }

  lemma StepKeepsHoldersOwn(s: Sys, e: Step, id: nat)
    requires Safe(s) && Leased(s, id) && PromptFor(s, id)
    ensures HoldersOwn(Next(s, e), id)
  {
    StepHolds(s, e);
    var s' := Next(s, e);
    hide Next, Safe, Owns, Leased, OthersMove;
    forall r | r in s'.holds && s'.holds[r].intent.id == id
      ensures Owns(s', s'.holds[r])
    {
      if ClaimMoves(s, e, s') && r == e.relay {
        ClaimOwns(s, e);
      } else {
        HolderOwnsLater(s, e, id, r);
      }
    }
  }

  lemma ClaimOwns(s: Sys, e: Step)
    requires Safe(s) && ClaimMoves(s, e, Next(s, e))
    ensures Owns(Next(s, e), Next(s, e).holds[e.relay]) && s.rows[e.id].state.Pending?
  {
  }

  /** A record ends its own hold, and no other hold has the same intent. */
  lemma RecordLeavesOthers(s: Sys, e: Step, id: nat, r: nat)
    requires Exclusive(s, id) && r in s.holds && s.holds[r].intent.id == id && r in Next(s, e).holds
    ensures e.Record? && e.relay in s.holds && s.holds[e.relay].phase.Answered? ==> s.holds[e.relay].intent.id != id
  {
  }

  lemma StepKeepsExclusive(s: Sys, e: Step, id: nat)
    requires Safe(s) && Leased(s, id)
    ensures Exclusive(Next(s, e), id)
  {
    StepHolds(s, e);
    if ClaimMoves(s, e, Next(s, e)) {
      ClaimOwns(s, e);
    }
    hide Next, DeliveryOk, Booked;
  }

  lemma RecordKeepsBudget(s: Sys, e: Step, id: nat)
    requires Leased(s, id) && RowsOk(s) && HoldsOk(s) && e.Record? && id in s.rows
    ensures WithinBudget(Next(s, e), id)
  {
    hide BackoffSecs, RowsOk;
    if e.relay in s.holds {
      assert HoldOk(s, s.holds[e.relay]);
    }
    hide HoldsOk;
  }

  lemma SweepKeepsBudget(s: Sys, id: nat)
    requires RowsOk(s) && id in s.rows && WithinBudget(s, id)
    ensures WithinBudget(Next(s, Reclaim), id)
  {
  }

  lemma WriteKeepsBudget(s: Sys, e: Step, id: nat)
    requires RowsOk(s) && id in s.rows && WithinBudget(s, id)
    requires e.Claim? || e.Rearm? || e.RaiseMax? || e.EnqueueInsert?
    requires id < s.nextId
    ensures WithinBudget(Next(s, e), id)
  {
    hide HasKey;
  }

  lemma OthersKeepBudget(s: Sys, e: Step, id: nat)
    requires id in s.rows && WithinBudget(s, id)
    requires !(e.Record? || e.Claim? || e.Reclaim? || e.Rearm? || e.RaiseMax? || e.EnqueueInsert?)
    ensures id in Next(s, e).rows && WithinBudget(Next(s, e), id)
  {
    hide HasKey, EnqueueCheck, Vet, Conclude, Book;
  }

  lemma InsertIsWithinBudget(s: Sys, e: Step, id: nat)
    requires IdsBelow(s) && id !in s.rows && id in Next(s, e).rows
    ensures WithinBudget(Next(s, e), id)
  {
    StepRows(s, e);
    hide HasKey, EnqueueCheck, Vet, Conclude, Book, RowsGrow;
  }

  lemma StepKeepsBudget(s: Sys, e: Step, id: nat)
    requires Safe(s) && Leased(s, id)
    ensures id in Next(s, e).rows ==> WithinBudget(Next(s, e), id)
  {
    assert IdsBelow(s) && RowsOk(s) && HoldsOk(s);
    hide Safe, Next, WithinBudget, RowsOk, HoldsOk, HoldersOwn, Exclusive;
    if id !in s.rows {
      if id in Next(s, e).rows {
        InsertIsWithinBudget(s, e, id);
      }
    } else if e.Record? {
      RecordKeepsBudget(s, e, id);
    } else if e.Reclaim? {
      SweepKeepsBudget(s, id);
    } else if e.Claim? || e.Rearm? || e.RaiseMax? || e.EnqueueInsert? {
      WriteKeepsBudget(s, e, id);
    } else {
      OthersKeepBudget(s, e, id);
    }
  }

  lemma StepKeepsLeased(s: Sys, e: Step, id: nat)
    requires Safe(s) && Leased(s, id) && PromptFor(s, id)
    ensures Leased(Next(s, e), id)
  {
    StepKeepsHoldersOwn(s, e, id);
    StepKeepsExclusive(s, e, id);
    StepKeepsBudget(s, e, id);
    hide Next;
  }

  lemma {:induction false} PromptPrefix(s: Sys, steps: seq<Step>, id: nat, n: nat)
    requires PromptRunFor(s, steps, id) && n <= |steps|
    ensures PromptRunFor(s, steps[..n], id) && (n < |steps| ==> PromptFor(Run(s, steps[..n]), id))
  {
    hide Run, PromptFor;
    forall i | 0 <= i <= n
      ensures steps[..n][..i] == steps[..i]
    {
    }
  }

  lemma {:induction false} PromptRunsAreLeased(s: Sys, steps: seq<Step>, id: nat)
    requires Init(s) && PromptRunFor(s, steps, id)
    ensures Safe(Run(s, steps)) && Leased(Run(s, steps), id)
  {
    RunsAreSafe(s, steps);
    if steps != [] {
      var n := |steps| - 1;
      PromptPrefix(s, steps, id, n);
      PromptRunsAreLeased(s, steps[..n], id);
      StepKeepsLeased(Run(s, steps[..n]), steps[n], id);
    }
    hide Next, Safe;
  }

  /** While the holders of an intent are prompt it has at most one, whose row is `attempting`,
      whatever becomes of the other intents. */
  lemma {:induction false} AtMostOneHolder(s: Sys, steps: seq<Step>, id: nat, q: nat, r: nat)
    requires Init(s) && PromptRunFor(s, steps, id)
    requires q in Run(s, steps).holds && r in Run(s, steps).holds
    requires Run(s, steps).holds[q].intent.id == id && Run(s, steps).holds[r].intent.id == id
    ensures q == r
    ensures id in Run(s, steps).rows && Run(s, steps).rows[id].state.Attempting?
  {
    PromptRunsAreLeased(s, steps, id);
    hide Run, Next, Safe;
    assert Owns(Run(s, steps), Run(s, steps).holds[q]);
  }

  /** The attempts spent on an intent never exceed its budget plus the leases swept since it was armed. */
  lemma {:induction false} AttemptsNeverExceedBudget(s: Sys, steps: seq<Step>, id: nat)
    requires Init(s) && PromptRunFor(s, steps, id) && id in Run(s, steps).rows
    ensures var t := Run(s, steps); t.rows[id].attempts <= t.rows[id].maxAttempts + SweepCount(t.reclaims, id)
  {
    PromptRunsAreLeased(s, steps, id);
    hide Run, Next, Safe;
  }

  // --- delivered is terminal, and exactly when it is not ---

  predicate SameDelivery(a: Row, b: Row) {
    && a.state.Delivered? && b.state.Delivered?
    && a.deliveredAt == b.deliveredAt && a.answerStatus == b.answerStatus && a.answer == b.answer
    && a.attempts == b.attempts
  }

  lemma RecordsAloneUndo(s: Sys, e: Step, id: nat)
    requires IdsBelow(s) && id in s.rows && s.rows[id].state.Delivered? && !e.Record?
    ensures id in Next(s, e).rows && SameDelivery(s.rows[id], Next(s, e).rows[id])
  {
    if e.EnqueueInsert? || e.Claim? || e.Reclaim? || e.Rearm? || e.RaiseMax? {
      assert e.Claim? && NextDue(s.rows, s.now, e.locked, e.id) ==> e.id in s.rows && s.rows[e.id].state.Pending?;
      hide NextDue, HasKey;
    } else {
      QuietRows(s, e);
      hide Next;
    }
  }

  /** With no assumption on time, the one step that takes a row out of `delivered` is the record
      of a relay that holds that intent with another outcome. */
  lemma OnlyARecordUndoesDelivery(s: Sys, e: Step, id: nat)
    requires Safe(s) && id in s.rows && s.rows[id].state.Delivered?
    ensures id in Next(s, e).rows
    ensures !Next(s, e).rows[id].state.Delivered? <==>
            e.Record? && e.relay in s.holds && s.holds[e.relay].phase.Answered?
            && s.holds[e.relay].intent.id == id && !s.holds[e.relay].phase.d.state.Delivered?
    ensures !(e.Record? && e.relay in s.holds && s.holds[e.relay].intent.id == id) ==>
              SameDelivery(s.rows[id], Next(s, e).rows[id])
  {
    if e.Record? {
      hide BackoffSecs, Safe;
    } else {
      RecordsAloneUndo(s, e, id);
      hide Next;
    }
  }

  /** While the holders of an intent are prompt, `delivered` is terminal for it: the row keeps its
      state and its evidence for the rest of the run, however late the relays of other intents. */
  lemma {:induction false} DeliveredIsTerminal(s: Sys, steps: seq<Step>, i: nat, id: nat)
    requires Init(s) && PromptRunFor(s, steps, id) && i <= |steps|
    requires id in Run(s, steps[..i]).rows && Run(s, steps[..i]).rows[id].state.Delivered?
    ensures id in Run(s, steps).rows && SameDelivery(Run(s, steps[..i]).rows[id], Run(s, steps).rows[id])
    decreases |steps| - i
  {
    if i == |steps| {
      assert steps[..i] == steps;
    } else {
      PromptPrefix(s, steps, id, i);
      PromptRunsAreLeased(s, steps[..i], id);
      assert steps[..i + 1][..i] == steps[..i];
      var t, e := Run(s, steps[..i]), steps[i];
      assert e.Record? && e.relay in t.holds && t.holds[e.relay].intent.id == id ==> Owns(t, t.holds[e.relay]);
      OnlyARecordUndoesDelivery(t, e, id);
      DeliveredIsTerminal(s, steps, i + 1, id);
    }
    hide Next, Safe, Leased;
  }

  predicate Late(s: Sys, r: nat, id: nat)
    requires r in s.holds
  {
    s.holds[r].intent.id == id && s.now > s.holds[r].since + LEASE
  }

  /** So whenever a delivery is undone, some relay held that intent past its lease earlier in the
      run. It need not be the relay whose record undid it. */
  lemma {:induction false} UndoneDeliveryHadALateHolder(s: Sys, steps: seq<Step>, i: nat, id: nat)
    requires Init(s) && i <= |steps|
    requires id in Run(s, steps[..i]).rows && Run(s, steps[..i]).rows[id].state.Delivered?
    requires id in Run(s, steps).rows && !SameDelivery(Run(s, steps[..i]).rows[id], Run(s, steps).rows[id])
    ensures exists j, r :: 0 <= j < |steps| && r in Run(s, steps[..j]).holds && Late(Run(s, steps[..j]), r, id)
  {
    hide Run;
    if PromptRunFor(s, steps, id) {
      DeliveredIsTerminal(s, steps, i, id);
      assert false;
    }
  }
}
