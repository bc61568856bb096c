/** The outbox as a protocol: any number of producers and relays, one clock, one table,
    one idempotent consumer. Every database statement is one atomic step; between two
    steps any other participant may move. */
module OutboxProtocol {
  import opened Wrappers
  import opened OutboxRows

  /** What the consumer booked. Its key is determined by the intent. */
  datatype Booking = Booking(producer: string, key: string, payload: string)

  datatype Phase = Fetched | Vetted | Answered(d: Delivery)

  /** A relay between its claim and its record. The ticket numbers the claim. */
  datatype Hold = Hold(ticket: nat, intent: Intent, since: Instant, phase: Phase)

  /** A producer between the look-up and the insert of an enqueue. */
  datatype Writer = Writer(producer: string, principal: string, route: string, key: string, payload: string)

  /** A call of a handler: under which claim, for which intent. */
  datatype CallRecord = CallRecord(ticket: nat, id: nat)

  datatype Sys = Sys(
    now: Instant, rows: Table, nextId: nat,
    principals: map<string, PrincipalRow>,
    writers: map<nat, Writer>,
    holds: map<nat, Hold>,
    ledger: seq<Booking>,
    claims: seq<nat>,          // the intent of each claim, in order; the index is the ticket
    calls: seq<CallRecord>,    // the handler calls, in order
    reclaims: map<nat, nat>)   // per intent, leases swept since it was last armed

  datatype Step =
    | Tick(elapsed: nat)
    | EnqueueLook(w: nat, caller: string, principal: string, route: string, key: string, payload: string)
    | EnqueueInsert(w: nat)
    | Claim(relay: nat, id: nat, locked: set<nat>)
    | VetStep(relay: nat, readable: bool, target: Target)
    | Call(relay: nat, landed: bool, answer: HandlerAnswer)
    | Record(relay: nat)
    | Crash(relay: nat)
    | Reclaim
    | Rearm(id: nat)
    | Revoke(principal: string)
    | Declare(principal: string, row: PrincipalRow)
    | RaiseMax(id: nat, maxAttempts: int)

  // --- enqueue ---

  const PLUGIN_ROLE: string := "adjutant_plugin_"

  datatype EnqueueError =
    | NotAPluginRole | PrincipalUnknown | PrincipalRevoked | OtherProducersPrincipal | NotDeclaredByCore
    | CheckViolation

  /** `LIKE 'adjutant_plugin_%'`: an underscore of a pattern stands for any one character. */
  predicate IsPluginRole(role: string) {
    |role| >= |PLUGIN_ROLE| && role[..8] == "adjutant" && role[9..15] == "plugin"
  }

  /** The producer is read off the session's role; the principal must be its own. */
  function EnqueueCheck(principals: map<string, PrincipalRow>, caller: string, principal: string)
    : Result<string, EnqueueError>
  {
    if !IsPluginRole(caller) then Err(NotAPluginRole)
    else
      var producer := caller[|PLUGIN_ROLE|..];
      if principal !in principals then Err(PrincipalUnknown)
      else if principals[principal].revokedAt.Some? then Err(PrincipalRevoked)
      else if principals[principal].producer != producer then Err(OtherProducersPrincipal)
      else if !principals[principal].declaredByCore then Err(NotDeclaredByCore)
      else Ok(producer)
  }

  /** A session may enqueue exactly as a live principal the core declared for the plugin its own
      role names; there is no producer it can claim to be. */
  lemma EnqueueIsOwnPrincipal(principals: map<string, PrincipalRow>, caller: string, principal: string,
                              producer: string)
    ensures EnqueueCheck(principals, caller, principal) == Ok(producer) <==>
            && IsPluginRole(caller) && caller == caller[..|PLUGIN_ROLE|] + producer
            && principal in principals && principals[principal] == PrincipalRow(producer, None, true)
  {
  }

  /** Which roles those are: the name, with any character where the pattern has an underscore. */
  lemma PluginRolesAre(role: string)
    ensures IsPluginRole(role) <==>
            exists a: char, b: char, name: string :: role == "adjutant" + [a] + "plugin" + [b] + name
  {
    if IsPluginRole(role) {
      assert role == "adjutant" + [role[8]] + "plugin" + [role[15]] + role[16..];
    }
    if a: char, b: char, name: string :| role == "adjutant" + [a] + "plugin" + [b] + name {
      assert role[..8] == "adjutant" && role[9..15] == "plugin";
    }
  }

  /** Every refusal is told apart, the session's own fault first. */
  lemma RefusalsAreTold(principals: map<string, PrincipalRow>, caller: string, principal: string)
    ensures var answer := EnqueueCheck(principals, caller, principal);
            && (answer == Err(NotAPluginRole) <==> !IsPluginRole(caller))
            && (answer == Err(PrincipalUnknown) <==> IsPluginRole(caller) && principal !in principals)
            && (IsPluginRole(caller) && principal in principals ==>
                  var row := principals[principal];
                  && (answer == Err(PrincipalRevoked) <==> row.revokedAt != None)
                  && (answer == Err(OtherProducersPrincipal) <==> row.revokedAt == None && row.producer != caller[16..])
                  && (answer == Err(NotDeclaredByCore) <==>
                        row.revokedAt == None && row.producer == caller[16..] && !row.declaredByCore))
  {
  }

  predicate HasKey(rows: Table, producer: string, key: string) {
    exists id :: id in rows && rows[id].producer == producer && rows[id].key == key
  }

  // --- the consumer ---

  predicate Booked(ledger: seq<Booking>, producer: string, key: string) {
    exists i :: 0 <= i < |ledger| && ledger[i].producer == producer && ledger[i].key == key
  }

  /** The consumer is idempotent on its key: a second request books nothing. */
  function Book(ledger: seq<Booking>, intent: Intent): seq<Booking> {
    if Booked(ledger, intent.producer, intent.key) then ledger
    else ledger + [Booking(intent.producer, intent.key, intent.payload)]
  }

  predicate SuccessAnswer(answer: HandlerAnswer) {
    answer.Responded? && Success(answer.status)
  }

  // --- one step ---

  function SweepCount(reclaims: map<nat, nat>, id: nat): nat {
    if id in reclaims then reclaims[id] else 0
  }

  function Next(s: Sys, e: Step): Sys {
    match e
    case Tick(elapsed) => s.(now := s.now + elapsed)
    case EnqueueLook(w, caller, principal, route, key, payload) =>
      var check := EnqueueCheck(s.principals, caller, principal);
      if check.Ok? && !HasKey(s.rows, check.value, key)
      then s.(writers := s.writers[w := Writer(check.value, principal, route, key, payload)]) else s
    case EnqueueInsert(w) =>
      if w !in s.writers then s
      else
        var n := s.writers[w];
        var s' := s.(writers := s.writers - {w}, nextId := s.nextId + 1);
        if HasKey(s.rows, n.producer, n.key) || !IntentShape(n.route, n.key) then s'
        else s'.(rows := s.rows[s.nextId := NewRow(n.producer, n.principal, n.route, n.key, n.payload, s.now)])
    case Claim(relay, id, locked) =>
      if relay in s.holds || !NextDue(s.rows, s.now, locked, id) then s
      else
        var row := ClaimedRow(s.rows[id], s.now);
        s.(rows := s.rows[id := row],
           holds := s.holds[relay := Hold(|s.claims|, IntentOf(id, row), s.now, Fetched)],
           claims := s.claims + [id])
    case VetStep(relay, readable, target) =>
      if relay !in s.holds || !s.holds[relay].phase.Fetched? then s
      else
        var h := s.holds[relay];
        var found :=
          if !readable then Err(())
          else if h.intent.principal in s.principals then Ok(Some(s.principals[h.intent.principal]))
          else Ok(None);
        var phase := match Vet(h.intent, found, target) case Proceed => Vetted case Concluded(d) => Answered(d);
        s.(holds := s.holds[relay := h.(phase := phase)])
    case Call(relay, landed, answer) =>
      if relay !in s.holds || !s.holds[relay].phase.Vetted? then s
      else
        var h := s.holds[relay];
        s.(holds := s.holds[relay := h.(phase := Answered(Conclude(h.intent, answer)))],
           ledger := if landed || SuccessAnswer(answer) then Book(s.ledger, h.intent) else s.ledger,
           calls := s.calls + [CallRecord(h.ticket, h.intent.id)])
    case Record(relay) =>
      if relay !in s.holds || !s.holds[relay].phase.Answered? then s
      else
        var h := s.holds[relay];
        var s' := s.(holds := s.holds - {relay});
        if h.intent.id !in s.rows then s'
        else s'.(rows := s.rows[h.intent.id := RecordedRow(s.rows[h.intent.id], h.intent.attempts, h.phase.d, s.now)])
    case Crash(relay) => s.(holds := s.holds - {relay})
    case Reclaim =>
      s.(rows := Reclaimed(s.rows, s.now),
         reclaims := map id | id in s.rows :: SweepCount(s.reclaims, id) + if Stale(s.rows[id], s.now) then 1 else 0)
    case Rearm(id) =>
      if id !in s.rows || !Rearmable(s.rows[id]) then s
      else s.(rows := s.rows[id := RearmedRow(s.rows[id], s.now)], reclaims := s.reclaims - {id})
    case Revoke(principal) =>
      if principal in s.principals
      then s.(principals := s.principals[principal := s.principals[principal].(revokedAt := Some(s.now))]) else s
    case Declare(principal, row) => s.(principals := s.principals[principal := row])
    case RaiseMax(id, maxAttempts) =>
      if id in s.rows && s.rows[id].maxAttempts <= maxAttempts
      then s.(rows := s.rows[id := s.rows[id].(maxAttempts := maxAttempts)]) else s
  }

  function Run(s: Sys, steps: seq<Step>): Sys {
    if steps == [] then s else Next(Run(s, steps[..|steps| - 1]), steps[|steps| - 1])
  }

  predicate Init(s: Sys) {
    && s.rows == map[] && s.writers == map[] && s.holds == map[]
    && s.ledger == [] && s.claims == [] && s.calls == [] && s.reclaims == map[]
  }

  // --- what holds in every interleaving, however slow or dead the relays are ---

  predicate IdsBelow(s: Sys) {
    forall id :: id in s.rows ==> id < s.nextId
  }

  predicate OneIntentPerKey(s: Sys) {
    && IdsBelow(s)
    && (forall a, b ::
          a in s.rows && b in s.rows && s.rows[a].producer == s.rows[b].producer && s.rows[a].key == s.rows[b].key ==>
            a == b)
  }

  predicate RowsOk(s: Sys) {
    forall id :: id in s.rows ==> RowOk(s.rows[id])
  }

  predicate OneBookingPerKey(s: Sys) {
    forall i, j :: 0 <= i < j < |s.ledger| ==>
      s.ledger[i].producer != s.ledger[j].producer || s.ledger[i].key != s.ledger[j].key
  }

  predicate BookingOf(b: Booking, row: Row) {
    b.producer == row.producer && b.key == row.key && b.payload == row.payload
  }

  /** Every booking is the booking of some intent. */
  predicate HasIntent(rows: Table, b: Booking) {
    exists id :: id in rows && BookingOf(b, rows[id])
  }

  predicate BookingsAreIntents(s: Sys) {
    forall i :: 0 <= i < |s.ledger| ==> HasIntent(s.rows, s.ledger[i])
  }

  predicate IntentMatches(i: Intent, row: Row) {
    && i.producer == row.producer && i.principal == row.principal && i.route == row.route
    && i.key == row.key && i.payload == row.payload
  }

  /** A relay's copy agrees with its row, and it only holds a `delivered` answer for a booked intent. */
  predicate HoldOk(s: Sys, h: Hold) {
    && h.intent.id in s.rows
    && IntentMatches(h.intent, s.rows[h.intent.id])
    && (h.phase.Answered? ==>
        DeliveryOk(h.phase.d) && (h.phase.d.state.Delivered? ==> Booked(s.ledger, h.intent.producer, h.intent.key)))
  }

  predicate HoldsOk(s: Sys) {
    forall r :: r in s.holds ==> HoldOk(s, s.holds[r])
  }

  predicate DeliveredIsBooked(s: Sys) {
    forall id :: id in s.rows && s.rows[id].state.Delivered? ==> Booked(s.ledger, s.rows[id].producer, s.rows[id].key)
  }

  predicate Spent(calls: seq<CallRecord>, ticket: nat) {
    exists i :: 0 <= i < |calls| && calls[i].ticket == ticket
  }

  /** Every call was made under a claim of its own intent, and no claim made two. */
  predicate CallsOk(calls: seq<CallRecord>, claims: seq<nat>) {
    && (forall i :: 0 <= i < |calls| ==> calls[i].ticket < |claims| && claims[calls[i].ticket] == calls[i].id)
    && (forall i, j :: 0 <= i < j < |calls| ==> calls[i].ticket != calls[j].ticket)
  }

  predicate TicketsOk(s: Sys) {
    && (forall r :: r in s.holds ==>
        s.holds[r].ticket < |s.claims| && s.claims[s.holds[r].ticket] == s.holds[r].intent.id)
    && (forall q, r :: q in s.holds && r in s.holds && s.holds[q].ticket == s.holds[r].ticket ==> q == r)
    && (forall r :: r in s.holds && !s.holds[r].phase.Answered? ==> !Spent(s.calls, s.holds[r].ticket))
    && CallsOk(s.calls, s.claims)
  }

  predicate Safe(s: Sys) {
    && OneIntentPerKey(s) && RowsOk(s) && OneBookingPerKey(s) && BookingsAreIntents(s)
    && HoldsOk(s) && DeliveredIsBooked(s) && TicketsOk(s)
  }

  /** Rows are never removed, keep their fact, and are only added by an insert that found no such key. */
  predicate RowsGrow(s: Sys, s': Sys) {
    && s.nextId <= s'.nextId
    && (forall id :: id in s.rows ==> id in s'.rows && SameFact(s.rows[id], s'.rows[id]))
    && (forall id :: id in s'.rows && id !in s.rows ==>
          id == s.nextId && s.nextId < s'.nextId && !HasKey(s.rows, s'.rows[id].producer, s'.rows[id].key)
          && s'.rows[id] == NewRow(s'.rows[id].producer, s'.rows[id].principal, s'.rows[id].route, s'.rows[id].key,
                                   s'.rows[id].payload, s.now))
  }

  lemma InsertRows(s: Sys, e: Step)
    requires IdsBelow(s) && e.EnqueueInsert?
    ensures RowsGrow(s, Next(s, e))
  {
    hide HasKey;
  }

  lemma OneRowGrows(s: Sys, s': Sys, id: nat, row: Row)
    requires id in s.rows && SameFact(s.rows[id], row) && s'.rows == s.rows[id := row] && s'.nextId == s.nextId
    ensures RowsGrow(s, s')
  {
  }

  lemma SweptRowsGrow(s: Sys, s': Sys)
    requires s'.rows == Reclaimed(s.rows, s.now) && s'.nextId == s.nextId
    ensures RowsGrow(s, s')
  {
  }

  lemma SameRowsGrow(s: Sys, s': Sys)
    requires s'.rows == s.rows && s'.nextId == s.nextId
    ensures RowsGrow(s, s')
  {
  }

  lemma MoveRows(s: Sys, e: Step)
    requires e.Claim? || e.Record? || e.Reclaim? || e.Rearm? || e.RaiseMax?
    ensures RowsGrow(s, Next(s, e))
  {
    hide RowsGrow, BackoffSecs, Reclaimed;
    var s' := Next(s, e);
    if s'.rows == s.rows {
      SameRowsGrow(s, s');
    } else {
      match e
      case Claim(_, id, _) =>
        OneRowGrows(s, s', id, ClaimedRow(s.rows[id], s.now));
      case Record(relay) =>
        var h := s.holds[relay];
        OneRowGrows(s, s', h.intent.id, RecordedRow(s.rows[h.intent.id], h.intent.attempts, h.phase.d, s.now));
      case Reclaim =>
        SweptRowsGrow(s, s');
      case Rearm(id) =>
        OneRowGrows(s, s', id, RearmedRow(s.rows[id], s.now));
      case RaiseMax(id, m) =>
        OneRowGrows(s, s', id, s.rows[id].(maxAttempts := m));
    }
  }

  lemma QuietRows(s: Sys, e: Step)
    requires !(e.EnqueueInsert? || e.Claim? || e.Record? || e.Reclaim? || e.Rearm? || e.RaiseMax?)
    ensures Next(s, e).rows == s.rows && Next(s, e).nextId == s.nextId
  {
  }

  lemma StepRows(s: Sys, e: Step)
    requires IdsBelow(s)
    ensures RowsGrow(s, Next(s, e))
  {
    if e.EnqueueInsert? {
      InsertRows(s, e);
    } else if e.Claim? || e.Record? || e.Reclaim? || e.Rearm? || e.RaiseMax? {
      MoveRows(s, e);
    } else {
      QuietRows(s, e);
      hide Next;
    }
  }

  lemma StepKeepsOneIntentPerKey(s: Sys, e: Step)
    requires OneIntentPerKey(s)
    ensures OneIntentPerKey(Next(s, e))
  {
    StepRows(s, e);
    hide Next;
  }

  lemma StepKeepsRowsOk(s: Sys, e: Step)
    requires RowsOk(s) && HoldsOk(s)
    ensures RowsOk(Next(s, e))
  {
    if e.Claim? {
      assert NextDue(s.rows, s.now, e.locked, e.id) ==> e.id in s.rows;
      hide NextDue;
    } else if e.Record? {
      assert e.relay in s.holds ==> HoldOk(s, s.holds[e.relay]);
      hide BackoffSecs, Booked, HoldsOk;
    } else if !(e.EnqueueInsert? || e.Record? || e.Reclaim? || e.Rearm? || e.RaiseMax?) {
      QuietRows(s, e);
      hide Next;
    }
  }

  lemma BookKeeps(ledger: seq<Booking>, intent: Intent)
    ensures ledger <= Book(ledger, intent) && Booked(Book(ledger, intent), intent.producer, intent.key)
    ensures forall p, k :: Booked(ledger, p, k) ==> Booked(Book(ledger, intent), p, k)
  {
    var after := Book(ledger, intent);
    if !Booked(ledger, intent.producer, intent.key) {
      assert after[|ledger|] == Booking(intent.producer, intent.key, intent.payload);
    }
    forall p, k | Booked(ledger, p, k)
      ensures Booked(after, p, k)
    {
      var i :| 0 <= i < |ledger| && ledger[i].producer == p && ledger[i].key == k;
      assert after[i] == ledger[i];
    }
  }

  lemma StepLedger(s: Sys, e: Step)
    ensures Next(s, e).ledger == s.ledger ||
            (e.Call? && e.relay in s.holds && Next(s, e).ledger == Book(s.ledger, s.holds[e.relay].intent))
    ensures s.ledger <= Next(s, e).ledger
    ensures forall p, k :: Booked(s.ledger, p, k) ==> Booked(Next(s, e).ledger, p, k)
  {
    if e.Call? && e.relay in s.holds {
      BookKeeps(s.ledger, s.holds[e.relay].intent);
    }
    hide Booked, Book, HasKey, EnqueueCheck, NextDue;
  }

  lemma StepKeepsBookings(s: Sys, e: Step)
    requires OneIntentPerKey(s) && OneBookingPerKey(s) && BookingsAreIntents(s) && HoldsOk(s)
    ensures OneBookingPerKey(Next(s, e)) && BookingsAreIntents(Next(s, e))
  {
    StepRows(s, e);
    StepLedger(s, e);
    hide Next;
    var s' := Next(s, e);
    forall i | 0 <= i < |s'.ledger|
      ensures HasIntent(s'.rows, s'.ledger[i])
    {
      if i < |s.ledger| {
        assert HasIntent(s.rows, s.ledger[i]);
        var id :| id in s.rows && BookingOf(s.ledger[i], s.rows[id]);
        assert s'.ledger[i] == s.ledger[i] && BookingOf(s'.ledger[i], s'.rows[id]);
      } else {
        var intent := s.holds[e.relay].intent;
        assert HoldOk(s, s.holds[e.relay]);
        assert BookingOf(s'.ledger[i], s'.rows[intent.id]);
      }
    }
  }

  /** A claim gives an idle relay a new ticket. */
  predicate ClaimMoves(s: Sys, e: Step, s': Sys) {
    && e.Claim? && e.relay !in s.holds && e.id in s.rows
    && s'.claims == s.claims + [e.id] && s'.calls == s.calls
    && s'.holds == s.holds[e.relay := Hold(|s.claims|, IntentOf(e.id, ClaimedRow(s.rows[e.id], s.now)), s.now, Fetched)]
  }

  /** Every other step keeps the tickets; holds only move forward, and a call is recorded
      against the ticket whose answer it produced. */
  predicate OthersMove(s: Sys, e: Step, s': Sys) {
    && s'.claims == s.claims
    && (forall r :: r in s'.holds ==> r in s.holds && Progress(s, s.holds[r], s'.holds[r], s'))
    && (s'.calls == s.calls || CallMoves(s, e, s'))
  }

  predicate CallMoves(s: Sys, e: Step, s': Sys) {
    && e.Call? && e.relay in s.holds && e.relay in s'.holds
    && s.holds[e.relay].phase.Vetted? && s'.holds[e.relay].phase.Answered?
    && s'.calls == s.calls + [CallRecord(s.holds[e.relay].ticket, s.holds[e.relay].intent.id)]
  }

  predicate HoldsMove(s: Sys, e: Step, s': Sys) {
    ClaimMoves(s, e, s') || OthersMove(s, e, s')
  }

  predicate Progress(s: Sys, h: Hold, h': Hold, s': Sys) {
    && h'.ticket == h.ticket && h'.intent == h.intent && h'.since == h.since
    && (h' == h || (h'.phase.Vetted? && h.phase.Fetched?)
        || (!h.phase.Answered? && h'.phase.Answered? && DeliveryOk(h'.phase.d)
            && (h'.phase.d.state.Delivered? ==> Booked(s'.ledger, h.intent.producer, h.intent.key))
            && (h'.phase.d.state.Pending? ==> Max(h.intent.attempts, 1) < Max(h.intent.maxAttempts, 1))))
  }

  lemma OneHoldMoves(s: Sys, e: Step, s': Sys, r: nat, h: Hold)
    requires r in s.holds && s'.holds == s.holds[r := h] && s'.claims == s.claims && Progress(s, s.holds[r], h, s')
    requires s'.calls == s.calls || CallMoves(s, e, s')
    ensures OthersMove(s, e, s')
  {
  }

  lemma CallHolds(s: Sys, e: Step)
    requires e.Call? && e.relay in s.holds && s.holds[e.relay].phase.Vetted?
    ensures OthersMove(s, e, Next(s, e))
  {
    var h := s.holds[e.relay];
    BookKeeps(s.ledger, h.intent);
    ConclusionsAreOk(h.intent, Err(()), NoLiveRoute, e.answer);
    hide Booked, Book, Conclude, DeliveryOk, Max, OthersMove;
    OneHoldMoves(s, e, Next(s, e), e.relay, h.(phase := Answered(Conclude(h.intent, e.answer))));
  }

  lemma VetHolds(s: Sys, e: Step)
    requires e.VetStep? && e.relay in s.holds && s.holds[e.relay].phase.Fetched?
    ensures OthersMove(s, e, Next(s, e))
  {
  }

  lemma ClaimHolds(s: Sys, e: Step)
    requires e.Claim?
    ensures HoldsMove(s, e, Next(s, e))
  {
  }

  lemma OtherHolds(s: Sys, e: Step)
    requires !e.Claim?
    requires !(e.Call? && e.relay in s.holds && s.holds[e.relay].phase.Vetted?)
    requires !(e.VetStep? && e.relay in s.holds && s.holds[e.relay].phase.Fetched?)
    ensures OthersMove(s, e, Next(s, e))
  {
    hide HasKey, EnqueueCheck, Reclaimed, RecordedRow, RearmedRow, DeliveryOk, Booked;
  }

  lemma StepHolds(s: Sys, e: Step)
    ensures HoldsMove(s, e, Next(s, e))
  {
    if e.Call? && e.relay in s.holds && s.holds[e.relay].phase.Vetted? {
      CallHolds(s, e);
    } else if e.VetStep? && e.relay in s.holds && s.holds[e.relay].phase.Fetched? {
      VetHolds(s, e);
    } else if e.Claim? {
      ClaimHolds(s, e);
    } else {
      OtherHolds(s, e);
    }
    hide Next, ClaimMoves, OthersMove;
  }

  lemma HoldOkLater(s: Sys, s': Sys, h: Hold, h': Hold)
    requires HoldOk(s, h) && Progress(s, h, h', s') && RowsGrow(s, s')
    requires forall p, k :: Booked(s.ledger, p, k) ==> Booked(s'.ledger, p, k)
    ensures HoldOk(s', h')
  {
  }

  lemma StepKeepsHolds(s: Sys, e: Step)
    requires OneIntentPerKey(s) && HoldsOk(s)
    ensures HoldsOk(Next(s, e))
  {
    StepRows(s, e);
    StepLedger(s, e);
    StepHolds(s, e);
    var s' := Next(s, e);
    hide Next, Booked, HasKey, DeliveryOk, Progress;
    forall r | r in s'.holds
      ensures HoldOk(s', s'.holds[r])
    {
      if ClaimMoves(s, e, s') {
        assert r != e.relay ==> r in s.holds && HoldOk(s, s.holds[r]);
      } else {
        HoldOkLater(s, s', s.holds[r], s'.holds[r]);
      }
    }
  }

  lemma RecordKeepsDelivered(s: Sys, e: Step)
    requires DeliveredIsBooked(s) && HoldsOk(s) && e.Record?
    ensures DeliveredIsBooked(Next(s, e))
  {
  }

  lemma OthersKeepDelivered(s: Sys, e: Step)
    requires DeliveredIsBooked(s) && !e.Record?
    ensures DeliveredIsBooked(Next(s, e))
  {
    StepLedger(s, e);
    if e.EnqueueInsert? || e.Claim? || e.Reclaim? || e.Rearm? || e.RaiseMax? {
      assert e.Claim? && NextDue(s.rows, s.now, e.locked, e.id) ==> e.id in s.rows;
      hide Booked, HasKey, NextDue;
    } else {
      QuietRows(s, e);
      hide Next, Booked, Book;
    }
  }

  lemma StepKeepsDelivered(s: Sys, e: Step)
    requires DeliveredIsBooked(s) && HoldsOk(s)
    ensures DeliveredIsBooked(Next(s, e))
  {
    if e.Record? {
      RecordKeepsDelivered(s, e);
    } else {
      OthersKeepDelivered(s, e);
    }
    hide Next, DeliveredIsBooked, HoldsOk;
  }

  lemma StepKeepsTickets(s: Sys, e: Step)
    requires TicketsOk(s)
    ensures TicketsOk(Next(s, e))
  {
    StepHolds(s, e);
    hide Next;
    if ClaimMoves(s, e, Next(s, e)) {
      TicketsAfterClaim(s, e, Next(s, e));
    } else {
      TicketsAfterOthers(s, e, Next(s, e));
    }
  }

  lemma TicketsAfterClaim(s: Sys, e: Step, s': Sys)
    requires TicketsOk(s) && ClaimMoves(s, e, s')
    ensures TicketsOk(s')
  {
  }

  lemma SpentOneMore(calls: seq<CallRecord>, c: CallRecord, ticket: nat)
    ensures Spent(calls + [c], ticket) <==> Spent(calls, ticket) || c.ticket == ticket
  {
    if Spent(calls, ticket) {
      var i :| 0 <= i < |calls| && calls[i].ticket == ticket;
      assert (calls + [c])[i].ticket == ticket;
    }
    assert (calls + [c])[|calls|] == c;
  }

  lemma TicketsAfterCall(s: Sys, e: Step, s': Sys)
    requires TicketsOk(s) && OthersMove(s, e, s') && CallMoves(s, e, s')
    ensures TicketsOk(s')
  {
    var h := s.holds[e.relay];
    var c := CallRecord(h.ticket, h.intent.id);
    forall t
      ensures Spent(s'.calls, t) <==> Spent(s.calls, t) || h.ticket == t
    {
      SpentOneMore(s.calls, c, t);
    }
    assert forall i :: 0 <= i < |s.calls| ==> Spent(s.calls, s.calls[i].ticket);
    hide Spent, DeliveryOk, Booked, Max;
  }

  lemma TicketsAfterOthers(s: Sys, e: Step, s': Sys)
    requires TicketsOk(s) && OthersMove(s, e, s')
    ensures TicketsOk(s')
  {
    if CallMoves(s, e, s') {
      TicketsAfterCall(s, e, s');
    } else {
      hide DeliveryOk, Booked, Max, Spent, CallsOk;
    }
  }

  lemma StepKeepsSafe(s: Sys, e: Step)
    requires Safe(s)
    ensures Safe(Next(s, e))
  {
    StepKeepsOneIntentPerKey(s, e);
    StepKeepsRowsOk(s, e);
    StepKeepsBookings(s, e);
    StepKeepsHolds(s, e);
    StepKeepsDelivered(s, e);
    StepKeepsTickets(s, e);
    hide Next, OneIntentPerKey, RowsOk, OneBookingPerKey, BookingsAreIntents, HoldsOk, DeliveredIsBooked, TicketsOk;
  }
}
