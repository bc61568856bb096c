/** How long a retry waits, over whole runs. */
module OutboxBackoff {
  import opened OutboxRows
  import opened OutboxProtocol
  import opened OutboxGuarantees

  /** The intent waits for its next attempt, and nobody holds it. */
  predicate Waits(s: Sys, id: nat, attempts: int, due: Instant) {
    && id in s.rows && s.rows[id].state.Pending? && s.rows[id].attempts == attempts && s.rows[id].nextAttemptAt == due
    && forall r :: r in s.holds ==> s.holds[r].intent.id != id
  }

  lemma WritesLeaveWaiting(s: Sys, e: Step, id: nat, attempts: int, due: Instant)
    requires Waits(s, id, attempts, due) && s.now < due && IdsBelow(s)
    requires e.EnqueueInsert? || e.Claim? || e.Record? || e.Reclaim? || e.Rearm? || e.RaiseMax?
    ensures Waits(Next(s, e), id, attempts, due)
  {
    hide HasKey, BackoffSecs;
  }

  /** Before it is due no step of anybody touches it. */
  lemma StepLeavesWaiting(s: Sys, e: Step, id: nat, attempts: int, due: Instant)
    requires Waits(s, id, attempts, due) && s.now < due && IdsBelow(s)
    ensures Waits(Next(s, e), id, attempts, due)
  {
    if e.EnqueueInsert? || e.Claim? || e.Record? || e.Reclaim? || e.Rearm? || e.RaiseMax? {
      WritesLeaveWaiting(s, e, id, attempts, due);
    } else {
      QuietRows(s, e);
      StepHolds(s, e);
      hide Next;
    }
  }

  lemma ClockOnlyAdvances(s: Sys, e: Step)
    ensures s.now <= Next(s, e).now
  {
  }

  /** The record of a prompt holder whose attempt is to be tried again. */
  lemma RetryWaits(s: Sys, relay: nat, id: nat)
    requires Safe(s) && Leased(s, id) && relay in s.holds && s.holds[relay].intent.id == id
    requires s.holds[relay].phase.Answered? && s.holds[relay].phase.d.state.Pending?
    ensures id in s.rows && s.rows[id].attempts >= 1
    ensures var attempts := s.rows[id].attempts;
            Waits(Next(s, Record(relay)), id, attempts, s.now + Min(15 * Pow2(attempts - 1), 3600) * 1_000_000)
  {
    assert Owns(s, s.holds[relay]);
    BackoffIsCappedDoubling(s.rows[id].attempts);
    hide BackoffSecs, Safe;
  }

  /** What waits goes on waiting while the clock has not reached it. */
  lemma {:induction false} WaitsOn(s: Sys, steps: seq<Step>, i: nat, j: nat, id: nat, attempts: int, due: Instant)
    requires Init(s) && i <= j <= |steps| && Waits(Run(s, steps[..i]), id, attempts, due)
    ensures Run(s, steps[..j]).now < due ==> Waits(Run(s, steps[..j]), id, attempts, due)
    decreases j
  {
    hide Next, Safe, Waits, Init;
    if i < j {
      assert steps[..j][..j - 1] == steps[..j - 1];
      var u := Run(s, steps[..j - 1]);
      WaitsOn(s, steps, i, j - 1, id, attempts, due);
      RunsAreSafe(s, steps[..j - 1]);
      SafeIds(u);
      ClockOnlyAdvances(u, steps[j - 1]);
      if u.now < due {
        StepLeavesWaiting(u, steps[j - 1], id, attempts, due);
      }
    }
  }

  lemma SafeIds(s: Sys)
    requires Safe(s)
    ensures IdsBelow(s)
  {
  }

  lemma {:induction false} RunNext(s: Sys, steps: seq<Step>, i: nat)
    requires i < |steps|
    ensures Run(s, steps[..i + 1]) == Next(Run(s, steps[..i]), steps[i])
  {
    assert steps[..i + 1][..i] == steps[..i];
  }

  lemma WaitingIsNotDue(s: Sys, id: nat, attempts: int, due: Instant)
    requires Waits(s, id, attempts, due)
    ensures s.rows[id].nextAttemptAt == due && (Due(s.rows[id], s.now) <==> due <= s.now) && Due(s.rows[id], due)
  {
  }

  /** Over every run in which the holders of the intent are prompt: once an attempt of it is recorded to be
      tried again, it stays pending and untouched, with that many attempts and held by nobody, until 15
      seconds, doubled once per earlier attempt and an hour at most, have passed; and then it is due. */
  lemma {:induction false} RetryWaitsItsBackoff(s: Sys, steps: seq<Step>, i: nat, j: nat, relay: nat, id: nat)
    requires Init(s) && PromptRunFor(s, steps, id) && i < j <= |steps| && steps[i] == Record(relay)
    requires var t := Run(s, steps[..i]);
             && relay in t.holds && t.holds[relay].intent.id == id
             && t.holds[relay].phase.Answered? && t.holds[relay].phase.d.state.Pending?
    ensures var t, u := Run(s, steps[..i]), Run(s, steps[..j]);
            && id in t.rows && t.rows[id].attempts >= 1
            && var due := t.now + Min(15 * Pow2(t.rows[id].attempts - 1), 3600) * 1_000_000;
               (u.now < due || j == i + 1 ==>
                  Waits(u, id, t.rows[id].attempts, due) && (Due(u.rows[id], u.now) <==> due <= u.now))
  {
    hide *;
    PromptPrefix(s, steps, id, i);
    PromptRunsAreLeased(s, steps[..i], id);
    RunNext(s, steps, i);
    var t := Run(s, steps[..i]);
    RetryWaits(t, relay, id);
    var due := t.now + Min(15 * Pow2(t.rows[id].attempts - 1), 3600) * 1_000_000;
    WaitsOn(s, steps, i + 1, j, id, t.rows[id].attempts, due);
    if Waits(Run(s, steps[..j]), id, t.rows[id].attempts, due) {
      WaitingIsNotDue(Run(s, steps[..j]), id, t.rows[id].attempts, due);
    }
  }
}
