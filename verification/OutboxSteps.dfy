/** What single steps of the outbox protocol come to: an enqueue, a claim, a delivery, a re-arm, and what
    happens to the principals. */
module OutboxSteps {
  import opened Wrappers
  import opened OutboxRows
  import opened OutboxProtocol

  /** An enqueue that nobody comes between: a new key gives a new row, pending and due now. */
  lemma EnqueueLands(s: Sys, w: nat, caller: string, principal: string, route: string, key: string, payload: string)
    requires EnqueueCheck(s.principals, caller, principal).Ok? && route != "" && route[0] == '/' && key != ""
    requires !HasKey(s.rows, caller[16..], key)
    ensures var s' := Next(Next(s, EnqueueLook(w, caller, principal, route, key, payload)), EnqueueInsert(w));
            s'.rows == s.rows[s.nextId := Row(caller[16..], principal, route, key, payload, Pending, 0, 6, None, None,
                                              None, s.now, None, None, s.now, None)]
  {
  }

  /** An enqueue under a key that the producer has used, or that is refused, is over at its look-up; so is one
      that finds its key used by the time it inserts, save that its id is gone. */
  lemma EnqueueFindsItsKey(s: Sys, w: nat, caller: string, principal: string, route: string, key: string,
                           payload: string)
    ensures EnqueueCheck(s.principals, caller, principal).Err? || HasKey(s.rows, caller[16..], key) ==>
              Next(s, EnqueueLook(w, caller, principal, route, key, payload)) == s
    ensures w in s.writers && HasKey(s.rows, s.writers[w].producer, s.writers[w].key) ==>
              Next(s, EnqueueInsert(w)) == s.(writers := s.writers - {w}, nextId := s.nextId + 1)
  {
  }

  /** A claim by an idle relay takes the least due row that nobody has locked, and no other. */
  lemma ClaimTakes(s: Sys, relay: nat, id: nat, locked: set<nat>)
    ensures var s' := Next(s, Claim(relay, id, locked));
            if relay !in s.holds && id in s.rows && id !in locked
               && s.rows[id].state == Pending && s.rows[id].nextAttemptAt <= s.now
               && forall other ::
                    other in s.rows && other < id && other !in locked && s.rows[other].state == Pending ==>
                      s.now < s.rows[other].nextAttemptAt
            then
              && s'.rows.Keys == s.rows.Keys && s'.rows[id].state == Attempting
              && s'.rows[id].attempts == s.rows[id].attempts + 1 && s'.rows[id].claimedAt == Some(s.now)
              && relay in s'.holds && s'.holds[relay].intent.id == id && s'.holds[relay].phase == Fetched
              && s'.holds[relay].intent.attempts == s'.rows[id].attempts && s'.holds[relay].since == s.now
            else s' == s
  {
  }

  /** A relay vets what it fetched: with the principal as it is now, or with none it can read. */
  lemma VetStepAsks(s: Sys, relay: nat, readable: bool, target: Target)
    requires relay in s.holds && s.holds[relay].phase == Fetched
    ensures var h, s' := s.holds[relay], Next(s, VetStep(relay, readable, target));
            var known := h.intent.principal in s.principals;
            && relay in s'.holds && s' == s.(holds := s.holds[relay := h.(phase := s'.holds[relay].phase)])
            && (s'.holds[relay].phase == Vetted <==>
                  && readable && known && s.principals[h.intent.principal].revokedAt == None && target == Gated(None)
                  && DeclaredFor(s.principals[h.intent.principal].producer, h.intent.principal))
            && (!readable ==> s'.holds[relay].phase.Answered?
                              && TriedAgain(s'.holds[relay].phase.d, IsLast(h.intent), None, PrincipalUnreadable))
            && (readable && !known ==> s'.holds[relay].phase.Answered?
                                       && Denied(s'.holds[relay].phase.d, 403, None, NotDeclared))
            && (readable && known && s.principals[h.intent.principal].revokedAt != None ==>
                  s'.holds[relay].phase.Answered? && Denied(s'.holds[relay].phase.d, 403, None, Revoked))
  {
    VetInWords(s.holds[relay].intent, Err(()), target);
    VetInWords(s.holds[relay].intent, Ok(None), target);
    if s.holds[relay].intent.principal in s.principals {
      VetInWords(s.holds[relay].intent, Ok(Some(s.principals[s.holds[relay].intent.principal])), target);
      DeclaredPrincipals(s.principals[s.holds[relay].intent.principal].producer, s.holds[relay].intent.principal);
    }
    hide Vet, TriedAgain, Denied, DeclaredFor, IsLast;
  }

  /** A call that reaches the consumer, or that it answers with a 2xx, is booked, whether or not the answer
      comes back as one; a call that does not reach it books nothing. */
  lemma CallBooks(s: Sys, relay: nat, landed: bool, answer: HandlerAnswer)
    requires relay in s.holds && s.holds[relay].phase == Vetted
    ensures var h, s' := s.holds[relay], Next(s, Call(relay, landed, answer));
            && relay in s'.holds && s'.holds[relay].phase == Answered(Conclude(h.intent, answer)) && s'.rows == s.rows
            && (landed || (answer.Responded? && 200 <= answer.status <= 299) ==>
                  && Booked(s'.ledger, h.intent.producer, h.intent.key)
                  && (!Booked(s.ledger, h.intent.producer, h.intent.key) ==>
                        s'.ledger == s.ledger + [Booking(h.intent.producer, h.intent.key, h.intent.payload)])
                  && (Booked(s.ledger, h.intent.producer, h.intent.key) ==> s'.ledger == s.ledger))
            && (!landed && !(answer.Responded? && 200 <= answer.status <= 299) ==> s'.ledger == s.ledger)
  {
    BookKeeps(s.ledger, s.holds[relay].intent);
    hide Conclude, Booked;
  }

  /** A crash forgets the hold, and nothing else: the row stays as it was claimed. */
  lemma CrashForgets(s: Sys, relay: nat)
    ensures var s' := Next(s, Crash(relay));
            relay !in s'.holds && s'.rows == s.rows && s'.ledger == s.ledger
            && forall r :: r in s.holds && r != relay ==> r in s'.holds && s'.holds[r] == s.holds[r]
  {
  }

  /** A re-arm gives a refused or exhausted intent all its attempts back, due now. */
  lemma RearmArms(s: Sys, id: nat)
    requires id in s.rows
    ensures var row, after := s.rows[id], Next(s, Rearm(id)).rows[id];
            if row.state == Refused || row.state == Exhausted
            then after == row.(state := Pending, attempts := 0, nextAttemptAt := s.now, claimedAt := None)
            else after == row
  {
  }

  /** Raising the budget of an intent does that alone, and never lowers it. */
  lemma RaisesOnly(s: Sys, id: nat, maxAttempts: int)
    requires id in s.rows
    ensures Next(s, RaiseMax(id, maxAttempts)).rows ==
            s.rows[id := s.rows[id].(maxAttempts := if s.rows[id].maxAttempts <= maxAttempts then maxAttempts
                                                    else s.rows[id].maxAttempts)]
  {
  }

  /** Once revoked a principal enqueues nothing, and whatever was claimed in its name and not yet vetted is
      denied; once declared it is as declared. */
  lemma RevocationStops(s: Sys, principal: string, caller: string, relay: nat, target: Target)
    requires principal in s.principals
    ensures var s' := Next(s, Revoke(principal));
            && s'.rows == s.rows && s'.holds == s.holds
            && EnqueueCheck(s'.principals, caller, principal).Err?
            && (relay in s.holds && s.holds[relay].phase == Fetched && s.holds[relay].intent.principal == principal ==>
                  var t := Next(s', VetStep(relay, true, target));
                  relay in t.holds && t.holds[relay].phase.Answered?
                  && Denied(t.holds[relay].phase.d, 403, None, Revoked))
            && (forall other :: other in s.principals && other != principal ==>
                  other in s'.principals && s'.principals[other] == s.principals[other])
  {
    var s' := Next(s, Revoke(principal));
    if relay in s.holds && s.holds[relay].phase == Fetched && s.holds[relay].intent.principal == principal {
      VetStepAsks(s', relay, true, target);
    }
    hide Denied, Vet;
  }

  lemma DeclarationTakes(s: Sys, principal: string, row: PrincipalRow)
    ensures var s' := Next(s, Declare(principal, row));
            s'.principals == s.principals[principal := row] && s'.rows == s.rows && s'.holds == s.holds
  {
  }
}
