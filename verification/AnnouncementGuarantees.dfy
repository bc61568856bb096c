/** What holds in every interleaving of the announcement handlers. */
module AnnouncementGuarantees {
  import opened Wrappers
  import opened Announcements

  // --- status and timestamps ---

  /** The table's own constraints, with the order of the two instants. */
  predicate RowOk(row: Row, now: Instant) {
    && (row.status.Draft? <==> row.publishedAt.None?)
    && (row.status.Retracted? <==> row.retractedAt.Some?)
    && (row.publishedAt.Some? ==> row.publishedAt.value <= now)
    && (row.retractedAt.Some? ==> row.publishedAt.Some? && row.publishedAt.value <= row.retractedAt.value <= now)
  }

  predicate RowsOk(s: Sys) {
    forall id :: id in s.rows ==> id < s.nextId && RowOk(s.rows[id], s.now)
  }

  /** How a row may move in one step: forward only, and an instant once set stays. */
  predicate Forward(a: Row, b: Row) {
    && (b.status == a.status || (a.status.Draft? && b.status.Published?)
        || (a.status.Published? && b.status.Retracted?))
    && (a.publishedAt.Some? ==> b.publishedAt == a.publishedAt)
    && (a.retractedAt.Some? ==> b.retractedAt == a.retractedAt)
    && b.createdBy == a.createdBy
  }

  lemma StepMovesForward(s: Sys, e: Step, id: nat)
    requires RowsOk(s) && id in s.rows && id in Next(s, e).rows
    ensures Forward(s.rows[id], Next(s, e).rows[id])
  {
    assert RowOk(s.rows[id], s.now);
    hide Sees, PublishAllowed, EditAllowed, CreateAllowed, ReceiptsOf;
  }

  lemma StepKeepsRows(s: Sys, e: Step)
    requires RowsOk(s)
    ensures RowsOk(Next(s, e))
  {
    hide Sees, PublishAllowed, EditAllowed, CreateAllowed, ReceiptsOf;
  }

  // --- announced once ---

  predicate Pending(s: Sys, t: nat, id: nat) {
    t in s.tasks && s.tasks[t].Announcing? && s.tasks[t].id == id
  }

  /** Each announcement is announced, or about to be, at most once, and not while it is a draft. */
  predicate Once(s: Sys) {
    && (forall i, j :: 0 <= i < j < |s.events| ==> s.events[i] != s.events[j])
    && (forall t, u ::
          t in s.tasks && u in s.tasks && s.tasks[t].Announcing? && s.tasks[u].Announcing?
          && s.tasks[t].id == s.tasks[u].id ==>
            t == u)
    && (forall t :: t in s.tasks && s.tasks[t].Announcing? ==> s.tasks[t].id !in s.events && Sent(s, s.tasks[t].id))
    && (forall i :: 0 <= i < |s.events| ==> Sent(s, s.events[i]))
  }

  /** The id was used, and what is left of it is no draft. */
  predicate Sent(s: Sys, id: nat) {
    id < s.nextId && (id in s.rows ==> !s.rows[id].status.Draft?)
  }

  // --- receipts ---

  /** Receipts made less receipts unmade is what is stored: nought or one. */
  ghost predicate ReceiptsOk(s: Sys) {
    && (forall k :: k in s.receipts ==> k.0 in s.rows)
    && (forall k: Receipt :: s.created[k] == s.cleared[k] + s.cascaded[k] + if k in s.receipts then 1 else 0)
  }

  /** Ids are not reused and rows do not go back to draft. */
  lemma SentStays(s: Sys, e: Step, id: nat)
    requires RowsOk(s) && Sent(s, id)
    ensures Sent(Next(s, e), id)
  {
    if id in s.rows && id in Next(s, e).rows {
      StepMovesForward(s, e, id);
    }
    hide Sees, PublishAllowed, EditAllowed, CreateAllowed, ReceiptsOf, RowOk, Forward;
  }

  /** Only a creation or a publish makes an announcer, of an id that was not sent before. */
  predicate NewAnnouncer(s: Sys, e: Step, s': Sys) {
    && (e.Create? || e.WritePublish?)
    && s'.events == s.events && e.t in s'.tasks && s'.tasks[e.t].Announcing?
    && s'.tasks == s.tasks[e.t := s'.tasks[e.t]]
    && !Sent(s, s'.tasks[e.t].id) && Sent(s', s'.tasks[e.t].id)
  }

  predicate Announces(s: Sys, e: Step, s': Sys) {
    && e.Emit? && e.t in s.tasks && s.tasks[e.t].Announcing?
    && s'.tasks == s.tasks - {e.t} && s'.events == s.events + [s.tasks[e.t].id]
  }

  predicate NoNewAnnouncer(s: Sys, s': Sys) {
    && s'.events == s.events
    && forall t :: t in s'.tasks && s'.tasks[t].Announcing? ==> t in s.tasks && s'.tasks[t] == s.tasks[t]
  }

  lemma SenderAnnounces(s: Sys, e: Step)
    requires RowsOk(s) && (e.Create? || e.WritePublish?)
    ensures NewAnnouncer(s, e, Next(s, e)) || NoNewAnnouncer(s, Next(s, e))
  {
  }

  lemma StepAnnounces(s: Sys, e: Step)
    requires RowsOk(s)
    ensures var s' := Next(s, e); NewAnnouncer(s, e, s') || Announces(s, e, s') || NoNewAnnouncer(s, s')
  {
    if e.Create? || e.WritePublish? {
      SenderAnnounces(s, e);
      hide Next, NewAnnouncer, NoNewAnnouncer;
    } else {
      hide RowsOk, Sees, PublishAllowed, EditAllowed, ReceiptsOf, NewAnnouncer, CreateNext, WritePublishNext;
    }
  }

  lemma StepKeepsOnce(s: Sys, e: Step)
    requires RowsOk(s) && Once(s)
    ensures Once(Next(s, e))
  {
    StepAnnounces(s, e);
    forall id | Sent(s, id)
      ensures Sent(Next(s, e), id)
    {
      SentStays(s, e, id);
    }
    hide Next, RowsOk, Sent;
  }

  lemma DeleteKeepsReceipts(s: Sys, e: Step)
    requires ReceiptsOk(s) && e.WriteDelete?
    ensures ReceiptsOk(Next(s, e))
  {
  }

  lemma MarkKeepsReceipts(s: Sys, e: Step)
    requires ReceiptsOk(s) && e.WriteMark?
    ensures ReceiptsOk(Next(s, e))
  {
    hide ReceiptsOf;
  }

  lemma WritesKeepReceipts(s: Sys, e: Step)
    requires ReceiptsOk(s) && (e.WriteDelete? || e.WriteMark?)
    ensures ReceiptsOk(Next(s, e))
  {
    hide ReceiptsOk, Next;
    if e.WriteDelete? {
      DeleteKeepsReceipts(s, e);
    } else {
      MarkKeepsReceipts(s, e);
    }
  }

  lemma OthersKeepReceipts(s: Sys, e: Step)
    requires ReceiptsOk(s) && !(e.WriteDelete? || e.WriteMark?)
    ensures ReceiptsOk(Next(s, e))
  {
    hide Sees, PublishAllowed, EditAllowed, CreateAllowed, WriteDeleteNext, WriteMarkNext, Patched;
  }

  lemma StepKeepsReceipts(s: Sys, e: Step)
    requires ReceiptsOk(s)
    ensures ReceiptsOk(Next(s, e))
  {
    hide *;
    if e.WriteDelete? || e.WriteMark? {
      WritesKeepReceipts(s, e);
    } else {
      OthersKeepReceipts(s, e);
    }
  }

  ghost predicate Safe(s: Sys) {
    RowsOk(s) && Once(s) && ReceiptsOk(s)
  }

  lemma {:induction false} RunsAreSafe(s: Sys, steps: seq<Step>)
    requires Init(s)
    ensures Safe(Run(s, steps))
  {
    hide Next;
    if steps != [] {
      var n := |steps| - 1;
      RunsAreSafe(s, steps[..n]);
      StepKeepsRows(Run(s, steps[..n]), steps[n]);
      StepKeepsOnce(Run(s, steps[..n]), steps[n]);
      StepKeepsReceipts(Run(s, steps[..n]), steps[n]);
    }
  }

  /** In every interleaving of the handlers, however slow or dead: every row's status and instants
      agree, an announcement is announced at most once and never as a draft, and the receipts made
      less those unmade, by the member or with the announcement, are the one stored or none. */
  lemma {:induction false} AnnouncementGuarantee(s: Sys, steps: seq<Step>, id: nat, member: string, i: nat, j: nat)
    requires Init(s)
    ensures var t := Run(s, steps);
            && (id in t.rows ==> RowOk(t.rows[id], t.now))
            && (i < j < |t.events| ==> t.events[i] != t.events[j])
            && (i < |t.events| && t.events[i] in t.rows ==> !t.rows[t.events[i]].status.Draft?)
            && t.created[(id, member)] ==
                 t.cleared[(id, member)] + t.cascaded[(id, member)] + if (id, member) in t.receipts then 1 else 0
  {
    RunsAreSafe(s, steps);
    hide Run;
    assert i < |Run(s, steps).events| ==> Sent(Run(s, steps), Run(s, steps).events[i]);
  }

  // --- whole histories of a row ---

  function Rank(st: Status): nat {
    match st case Draft => 0 case Published => 1 case Retracted => 2
  }

  predicate Later(a: Row, b: Row) {
    && Rank(a.status) <= Rank(b.status)
    && (a.publishedAt.Some? ==> b.publishedAt == a.publishedAt)
    && (a.retractedAt.Some? ==> b.retractedAt == a.retractedAt)
  }

  lemma IdsAreNotReused(s: Sys, e: Step, id: nat)
    requires RowsOk(s) && id < s.nextId
    ensures id < Next(s, e).nextId && (id in Next(s, e).rows ==> id in s.rows)
  {
  }

  /** A row only moves forward over a run: draft, published, retracted, with each instant set once. */
  lemma {:induction false} HistoryMovesForward(s: Sys, steps: seq<Step>, i: nat, id: nat)
    requires Init(s) && i <= |steps| && id in Run(s, steps[..i]).rows
    ensures id < Run(s, steps).nextId
    ensures id in Run(s, steps).rows ==> Later(Run(s, steps[..i]).rows[id], Run(s, steps).rows[id])
    decreases |steps|
  {
    hide Next;
    RunsAreSafe(s, steps[..i]);
    if i == |steps| {
      assert steps[..i] == steps;
    } else {
      var n := |steps| - 1;
      assert steps[..n][..i] == steps[..i];
      HistoryMovesForward(s, steps[..n], i, id);
      RunsAreSafe(s, steps[..n]);
      IdsAreNotReused(Run(s, steps[..n]), steps[n], id);
      if id in Run(s, steps).rows {
        StepMovesForward(Run(s, steps[..n]), steps[n], id);
      }
    }
  }

  // --- the urgent category ---

  /** The announcement is sent, urgent, and addressed to the scope. */
  predicate SentUrgent(s: Sys, id: nat, x: Scope) {
    id in s.rows && !s.rows[id].status.Draft? && s.rows[id].category.Urgent? && s.rows[id].scope == x
  }

  /** The step makes the announcement one that is sent, urgent, and addressed to the scope. */
  predicate Escalates(s: Sys, e: Step, id: nat, x: Scope) {
    !SentUrgent(s, id, x) && SentUrgent(Next(s, e), id, x)
  }

  /** The two permissions it takes to send an urgent announcement to a scope. */
  predicate MaySendUrgent(r: Rights, x: Scope) {
    Covers(r.urgent, x) && (Covers(r.write, x) || Covers(r.manage, x))
  }

  /** Whoever takes the step may send urgent announcements to the scope. */
  predicate MayEscalate(s: Sys, e: Step, x: Scope) {
    || (e.Create? && MaySendUrgent(e.rights, x))
    || (e.WritePublish? && e.t in s.tasks && s.tasks[e.t].Publishing? && MaySendUrgent(s.tasks[e.t].rights, x))
    || (e.WriteEdit? && e.t in s.tasks && s.tasks[e.t].Editing? && MaySendUrgent(s.tasks[e.t].rights, x))
  }

  /** What the write does not compare with what was read. */
  predicate Stale(seen: Row, row: Row) {
    row.status != seen.status || row.category != seen.category || row.scope != seen.scope
  }

  /** A publish of a draft that is urgent by now, and either was not when its handler read it or was
      addressed elsewhere. */
  predicate StalePublish(s: Sys, e: Step, id: nat, x: Scope) {
    && e.WritePublish? && e.t in s.tasks && s.tasks[e.t].Publishing? && s.tasks[e.t].id == id
    && id in s.rows && s.rows[id].status.Draft? && s.rows[id].category.Urgent? && s.rows[id].scope == x
    && !MaySendUrgent(s.tasks[e.t].rights, x)
    && (!s.tasks[e.t].seen.category.Urgent? || s.tasks[e.t].seen.scope != x)
  }

  /** A write of an edit that leaves a sent row urgent at a scope where it was not both. */
  predicate EditsIntoUrgent(s: Sys, e: Step, id: nat, x: Scope) {
    && e.WriteEdit? && e.t in s.tasks && s.tasks[e.t].Editing? && s.tasks[e.t].id == id
    && id in s.rows && !s.rows[id].status.Draft? && !(s.rows[id].category.Urgent? && s.rows[id].scope == x)
    && Patched(s.rows[id], s.tasks[e.t].patch).category.Urgent? && Patched(s.rows[id], s.tasks[e.t].patch).scope == x
  }

  /** One of a row that was a draft, or of another category, or addressed elsewhere, when its handler
      read it. */
  predicate StaleEdit(s: Sys, e: Step, id: nat, x: Scope) {
    && EditsIntoUrgent(s, e, id, x) && !MaySendUrgent(s.tasks[e.t].rights, x)
    && Stale(s.tasks[e.t].seen, s.rows[id])
  }

  /** One that readdresses a row just as it was read: an urgent one, for which nothing sharp is asked, or
      one it turns urgent, for which the sharp permission is asked at the old scope. */
  predicate Readdresses(s: Sys, e: Step, id: nat, x: Scope) {
    && EditsIntoUrgent(s, e, id, x) && !Covers(s.tasks[e.t].rights.urgent, x)
    && !Stale(s.tasks[e.t].seen, s.rows[id])
    && s.tasks[e.t].patch.scope == Some(x) && s.rows[id].scope != x
  }

  /** What each handler's guards established about the row it read. */
  predicate Guarded(task: Task) {
    match task
    case Publishing(_, seen, r) =>
      MaySend(seen.category, seen.scope, r) && (Covers(r.write, seen.scope) || Covers(r.manage, seen.scope))
    case Editing(_, seen, p, r) =>
      && (Covers(r.write, seen.scope) || Covers(r.manage, seen.scope))
      && (Patched(seen, p).scope != seen.scope ==> Covers(r.write, Patched(seen, p).scope))
      && (!seen.status.Draft? && !seen.category.Urgent? ==> MaySend(Patched(seen, p).category, seen.scope, r))
    case _ => true
  }

  predicate TasksGuarded(s: Sys) {
    forall t :: t in s.tasks ==> Guarded(s.tasks[t])
  }

  lemma StepKeepsGuarded(s: Sys, e: Step)
    requires TasksGuarded(s)
    ensures TasksGuarded(Next(s, e))
  {
    hide Sees, Past, CreateAllowed, ReceiptsOf, Covers, MaySend;
  }

  /** Only a creation, a publish and an edit make anything sent and urgent. */
  lemma OthersDoNotEscalate(s: Sys, e: Step, id: nat, x: Scope)
    requires !e.Create? && !e.WritePublish? && !e.WriteEdit?
    ensures !Escalates(s, e, id, x)
  {
    hide Sees, Past, PublishAllowed, EditAllowed, ReceiptsOf;
  }

  lemma EditEscalatesIff(s: Sys, e: Step, id: nat, x: Scope)
    requires e.WriteEdit?
    ensures Escalates(s, e, id, x) <==> EditsIntoUrgent(s, e, id, x)
  {
  }

  /** What the guards of an edit leave open. */
  lemma EditGateIsSkippedIff(s: Sys, e: Step, id: nat, x: Scope)
    requires TasksGuarded(s) && EditsIntoUrgent(s, e, id, x)
    ensures !MaySendUrgent(s.tasks[e.t].rights, x) <==> StaleEdit(s, e, id, x) || Readdresses(s, e, id, x)
  {
    assert Guarded(s.tasks[e.t]);
    hide TasksGuarded, Covers;
  }

  /** Exactly when a step gets past the urgent gate: someone without the permissions at the scope makes
      an announcement sent and urgent there exactly by a publish or an edit on a read that did not show
      it, or by an edit that readdresses. */
  lemma GateIsSkippedIff(s: Sys, e: Step, id: nat, x: Scope)
    requires TasksGuarded(s)
    ensures Escalates(s, e, id, x) && !MayEscalate(s, e, x) <==>
            StalePublish(s, e, id, x) || StaleEdit(s, e, id, x) || Readdresses(s, e, id, x)
  {
    if e.WriteEdit? {
      EditEscalatesIff(s, e, id, x);
      if EditsIntoUrgent(s, e, id, x) {
        EditGateIsSkippedIff(s, e, id, x);
      }
      hide Next, Escalates, EditsIntoUrgent, MaySendUrgent, TasksGuarded;
    } else if e.Create? || e.WritePublish? {
      assert e.t in s.tasks ==> Guarded(s.tasks[e.t]);
      hide Sees, Past, TasksGuarded, Covers;
    } else {
      OthersDoNotEscalate(s, e, id, x);
      hide Next, Escalates;
    }
  }

  lemma {:induction false} RunsAreGuarded(s: Sys, steps: seq<Step>)
    requires Init(s)
    ensures TasksGuarded(Run(s, steps))
  {
    if steps != [] {
      var n := |steps| - 1;
      hide Next, TasksGuarded;
      RunsAreGuarded(s, steps[..n]);
      StepKeepsGuarded(Run(s, steps[..n]), steps[n]);
      RunLast(s, steps);
    }
  }

  /** The write finds the status, the category and the scope its read saw. */
  predicate FreshWrite(s: Sys, e: Step) {
    (e.WritePublish? || e.WriteEdit?) && e.t in s.tasks && (s.tasks[e.t].Publishing? || s.tasks[e.t].Editing?)
    && s.tasks[e.t].id in s.rows ==>
      !Stale(s.tasks[e.t].seen, s.rows[s.tasks[e.t].id])
  }

  predicate FreshRun(s: Sys, steps: seq<Step>) {
    forall i :: 0 <= i < |steps| ==> FreshWrite(Run(s, steps[..i]), steps[i])
  }

  lemma FreshIsNotStale(s: Sys, e: Step, id: nat, x: Scope)
    requires FreshWrite(s, e)
    ensures !StalePublish(s, e, id, x) && !StaleEdit(s, e, id, x)
  {
  }

  /** Over every run, every escalation is by someone who may, save the stale publishes, the stale edits
      and the readdressings; when every write finds what its read saw, save the readdressings alone. */
  lemma {:induction false} EscalationsAreAllowedOrStale(s: Sys, steps: seq<Step>, i: nat, id: nat, x: Scope)
    requires Init(s) && i < |steps| && Escalates(Run(s, steps[..i]), steps[i], id, x)
    ensures var t, e := Run(s, steps[..i]), steps[i];
            MayEscalate(t, e, x) <==> !StalePublish(t, e, id, x) && !StaleEdit(t, e, id, x) && !Readdresses(t, e, id, x)
    ensures var t, e := Run(s, steps[..i]), steps[i];
            FreshRun(s, steps) ==> (MayEscalate(t, e, x) <==> !Readdresses(t, e, id, x))
  {
    var t := Run(s, steps[..i]);
    RunsAreGuarded(s, steps[..i]);
    GateIsSkippedIff(t, steps[i], id, x);
    if FreshRun(s, steps) {
      assert FreshWrite(t, steps[i]);
      FreshIsNotStale(t, steps[i], id, x);
    }
    hide *;
  }

  /** The announcement is sent, urgent and addressed to the scope from the `i`-th state of the run to
      its end. */
  predicate UrgentSince(s: Sys, steps: seq<Step>, i: nat, id: nat, x: Scope) {
    forall j :: i <= j <= |steps| ==> SentUrgent(Run(s, steps[..j]), id, x)
  }

  /** Step `i` is the last that made it so. */
  predicate EscalatedAt(s: Sys, steps: seq<Step>, i: nat, id: nat, x: Scope) {
    i < |steps| && Escalates(Run(s, steps[..i]), steps[i], id, x) && UrgentSince(s, steps, i + 1, id, x)
  }

  /** Whatever is sent and urgent to a scope was made so by some step of the run, and has been so since. */
  lemma {:induction false} LastEscalation(s: Sys, steps: seq<Step>, id: nat, x: Scope) returns (i: nat)
    requires Init(s) && SentUrgent(Run(s, steps), id, x)
    ensures EscalatedAt(s, steps, i, id, x)
  {
    hide Next, SentUrgent;
    NothingSent(s, id, x);
    assert steps != [];
    var n := |steps| - 1;
    if SentUrgent(Run(s, steps[..n]), id, x) {
      i := LastEscalation(s, steps[..n], id, x);
      assert steps[..n][..i] == steps[..i] && steps[..n][i] == steps[i];
      forall j | i + 1 <= j <= |steps|
        ensures SentUrgent(Run(s, steps[..j]), id, x)
      {
        if j == |steps| {
          assert steps[..j] == steps;
        } else {
          assert steps[..n][..j] == steps[..j];
        }
      }
    } else {
      i := n;
      RunLast(s, steps);
      assert steps[..n + 1] == steps;
    }
  }

  lemma NothingSent(s: Sys, id: nat, x: Scope)
    ensures s.rows == map[] ==> !SentUrgent(s, id, x)
  {
  }

  /** When every write finds what its read saw, whatever is sent and urgent to a scope was made so, at
      its last change, by someone who may send urgent ones there, unless that change readdressed it. */
  lemma {:induction false} UrgentIsAuthorised(s: Sys, steps: seq<Step>, id: nat, x: Scope)
    requires Init(s) && FreshRun(s, steps) && SentUrgent(Run(s, steps), id, x)
    ensures exists i: nat :: EscalatedAt(s, steps, i, id, x)
                             && (MayEscalate(Run(s, steps[..i]), steps[i], x) <==>
                                 !Readdresses(Run(s, steps[..i]), steps[i], id, x))
  {
    var i := LastEscalation(s, steps, id, x);
    assert i < |steps| && Escalates(Run(s, steps[..i]), steps[i], id, x);
    EscalationsAreAllowedOrStale(s, steps, i, id, x);
    hide *;
  }

  lemma {:induction false} RunLast(s: Sys, steps: seq<Step>)
    requires steps != []
    ensures Run(s, steps) == Next(Run(s, steps[..|steps| - 1]), steps[|steps| - 1])
  {
  }

  // --- urgent announcements nobody was allowed to send ---

  /** One request is enough. In every state with a sent announcement, an edit that leaves it urgent at
      another scope is accepted exactly when its caller manages the old scope, may write at the new one
      and, if it was not urgent, may send urgent ones to the old one. Nothing asks who may send urgent
      ones to the new one. */
  lemma OneEditReaddresses(s: Sys, t: nat, id: nat, caller: string, p: Patch, x: Scope, r: Rights)
    requires t !in s.tasks && id in s.rows && !s.rows[id].status.Draft? && s.rows[id].scope != x
    requires p.scope == Some(x) && Patched(s.rows[id], p).category.Urgent? && !Covers(r.urgent, x)
    ensures EditAllowed(s.rows[id], caller, p, r) <==>
            && Covers(r.manage, s.rows[id].scope) && Covers(r.write, x)
            && (s.rows[id].category.Urgent? || Covers(r.urgent, s.rows[id].scope))
    ensures var read := Next(s, ReadEdit(t, id, caller, p, r));
            EditAllowed(s.rows[id], caller, p, r) ==>
              && FreshWrite(read, WriteEdit(t)) && Readdresses(read, WriteEdit(t), id, x)
              && Escalates(read, WriteEdit(t), id, x) && !MayEscalate(read, WriteEdit(t), x)
  {
    hide Covers;
  }

  /** In every state with an urgent draft: while someone who may send it where it is addressed does so, its
      author, who may only write, moves it. Nobody may send urgent ones to where it goes. */
  lemma MovedUnderItsPublisher(s: Sys, t: nat, u: nat, id: nat, publisher: string, x: Scope, p: Rights, a: Rights)
    requires t !in s.tasks && u !in s.tasks && t != u && id in s.rows
    requires PublishAllowed(s, s.rows[id], publisher, p) && s.rows[id].category.Urgent? && s.rows[id].scope != x
    requires Covers(a.write, s.rows[id].scope) && Covers(a.write, x) && !Covers(p.urgent, x) && a.urgent == {}
    ensures var author := s.rows[id].createdBy;
            var read := Next(s, ReadPublish(t, id, publisher, p));
            var moved := Next(Next(read, ReadEdit(u, id, author, Patch(false, None, Some(x), None), a)), WriteEdit(u));
            StalePublish(moved, WritePublish(t), id, x) && SentUrgent(Next(moved, WritePublish(t)), id, x)
  {
    var row, patch := s.rows[id], Patch(false, None, Some(x), None);
    var read := Next(s, ReadPublish(t, id, publisher, p));
    assert read == s.(tasks := s.tasks[t := Publishing(id, row, p)]);
    hide PublishAllowed;
    var edited := Next(read, ReadEdit(u, id, row.createdBy, patch, a));
    assert edited == read.(tasks := read.tasks[u := Editing(id, row, patch, a)]);
    hide EditAllowed;
    var moved := Next(edited, WriteEdit(u));
    assert moved.rows[id] == row.(scope := x) && moved.tasks[t] == read.tasks[t];
  }

  const PLAIN: Rights := Rights({Troop}, {Troop}, {})

  function Empty(): Sys {
    Sys(0, map[], 1, {}, map[], [], multiset{}, multiset{}, multiset{})
  }

  function DraftRow(category: Category): Row {
    Row(Draft, category, Troop, "author", None, None, None)
  }

  /** While a manager sends the draft, its author turns it urgent. Neither may send urgent ones. */
  function RaceSteps(): seq<Step> {
    [Create(0, DraftRow(Informational), false, PLAIN),
     ReadPublish(1, 1, "manager", PLAIN),
     ReadEdit(2, 1, "author", Patch(false, Some(Urgent), None, None), PLAIN),
     WriteEdit(2),
     WritePublish(1)]
  }

  function Drafted(category: Category): Sys {
    Empty().(rows := map[1 := DraftRow(category)], nextId := 2)
  }

  lemma RaceBegins()
    ensures Next(Empty(), RaceSteps()[0]) == Drafted(Informational)
    ensures var s := Next(Drafted(Informational), RaceSteps()[1]);
            s == Drafted(Informational).(tasks := map[1 := Publishing(1, DraftRow(Informational), PLAIN)])
  {
  }

  function BothRead(): Sys {
    Drafted(Informational).(tasks := map[
      1 := Publishing(1, DraftRow(Informational), PLAIN),
      2 := Editing(1, DraftRow(Informational), Patch(false, Some(Urgent), None, None), PLAIN)])
  }

  lemma RaceReads()
    ensures Next(Drafted(Informational).(tasks := map[1 := Publishing(1, DraftRow(Informational), PLAIN)]),
                 RaceSteps()[2]) == BothRead()
  {
  }

  lemma RaceWrites()
    ensures Next(BothRead(), RaceSteps()[3]) ==
              Drafted(Urgent).(tasks := map[1 := Publishing(1, DraftRow(Informational), PLAIN)])
    ensures var t := Next(Drafted(Urgent).(tasks := map[1 := Publishing(1, DraftRow(Informational), PLAIN)]),
                          RaceSteps()[4]);
            t.rows == map[1 := DraftRow(Urgent).(status := Published, publishedAt := Some(0))]
  {
  }

  /** Five steps in which nobody may send urgent announcements, and one is sent. */
  lemma {:induction false} UrgentWithoutAuthority()
    ensures Init(Empty())
    ensures forall e :: e in RaceSteps() && (e.Create? || e.ReadPublish? || e.ReadEdit?) ==> e.rights.urgent == {}
    ensures SentUrgent(Run(Empty(), RaceSteps()), 1, Troop)
  {
    var s, steps := Empty(), RaceSteps();
    RaceBegins();
    RaceReads();
    RaceWrites();
    RunFive(s, steps);
    hide Next, Drafted, BothRead, Run;
  }

  lemma {:induction false} RunFive(s: Sys, steps: seq<Step>)
    requires |steps| == 5
    ensures Run(s, steps) == Next(Next(Next(Next(Next(s, steps[0]), steps[1]), steps[2]), steps[3]), steps[4])
  {
    hide Next;
    assert steps[..4][..3] == steps[..3] && steps[..3][..2] == steps[..2] && steps[..2][..1] == steps[..1]
           && steps[..1][..0] == [];
    RunLast(s, steps);
    RunLast(s, steps[..4]);
    RunLast(s, steps[..3]);
    RunLast(s, steps[..2]);
    RunLast(s, steps[..1]);
  }

  // --- the badge ---

  lemma SplitCount(whole: set<nat>, a: set<nat>, b: set<nat>)
    requires whole == a + b && a !! b
    ensures |whole| == |a| + |b|
  {
  }

  lemma BadgeIsVisible(s: Sys, a: Audience, id: nat)
    requires id in Visible(s, a)
    ensures Sees(a, s.rows[id])
  {
  }

  /** The badge, in so many words: a published announcement that has not expired, and that is addressed to
      a scope the member reads, or is the member's own, or lies where the member manages. */
  lemma BadgeMeans(s: Sys, a: Audience, id: nat)
    ensures id in Visible(s, a) <==>
            && id in s.rows && s.rows[id].status == Published
            && (s.rows[id].expiresAt.Some? ==> s.now < s.rows[id].expiresAt.value)
            && (|| (s.rows[id].scope == Troop && a.troopRead)
                || (s.rows[id].scope.Lodge? && s.rows[id].scope.id in a.readLodges)
                || s.rows[id].createdBy == a.caller || a.troopManage
                || (s.rows[id].scope.Lodge? && s.rows[id].scope.id in a.manageLodges))
    ensures id in Unread(s, a) <==> id in Visible(s, a) && (id, a.caller) !in s.receipts
    ensures id in Read(s, a) <==> id in Visible(s, a) && (id, a.caller) in s.receipts
    ensures forall c :: id in UnreadIn(s, a, c) <==> id in Unread(s, a) && s.rows[id].category == c
  {
  }

  /** What the badge counts is visible by the rule every read path shares; the read and the unread
      make up the visible, and the three categories the unread. */
  lemma BadgeAddsUp(s: Sys, a: Audience)
    ensures forall id :: id in Visible(s, a) ==> Sees(a, s.rows[id])
    ensures |Visible(s, a)| == |Read(s, a)| + |Unread(s, a)|
    ensures |Unread(s, a)| == |UnreadIn(s, a, Urgent)| + |UnreadIn(s, a, Informational)| + |UnreadIn(s, a, Event)|
  {
    forall id | id in Visible(s, a)
      ensures Sees(a, s.rows[id])
    {
      BadgeIsVisible(s, a, id);
    }
    hide OnBadge, Sees;
    SplitCount(Visible(s, a), Read(s, a), Unread(s, a));
    CategoriesAddUp(s, a);
  }

  lemma CategoriesAddUp(s: Sys, a: Audience)
    ensures |Unread(s, a)| == |UnreadIn(s, a, Urgent)| + |UnreadIn(s, a, Informational)| + |UnreadIn(s, a, Event)|
  {
    hide Unread, Visible, OnBadge;
    var urgent, news, events := UnreadIn(s, a, Urgent), UnreadIn(s, a, Informational), UnreadIn(s, a, Event);
    assert Unread(s, a) == urgent + (news + events) && urgent !! (news + events) && news !! events;
    hide UnreadIn;
    SplitCount(news + events, news, events);
    SplitCount(Unread(s, a), urgent, news + events);
  }

  predicate SameBadge(s: Sys, s': Sys, a: Audience) {
    Visible(s', a) == Visible(s, a) && Unread(s', a) == Unread(s, a) && Read(s', a) == Read(s, a)
  }

  lemma MarkingRead(s: Sys, t: nat, a: Audience, id: nat)
    requires t in s.tasks && s.tasks[t] == Marking(id, a.caller, false)
    ensures var s' := Next(s, WriteMark(t));
            && Visible(s', a) == Visible(s, a)
            && Unread(s', a) == Unread(s, a) - {id} && Read(s', a) == Read(s, a) + ({id} * Visible(s, a))
  {
  }

  lemma MarkingUnread(s: Sys, t: nat, a: Audience, id: nat)
    requires t in s.tasks && s.tasks[t] == Marking(id, a.caller, true)
    ensures var s' := Next(s, WriteMark(t));
            && Visible(s', a) == Visible(s, a)
            && Read(s', a) == Read(s, a) - {id} && Unread(s', a) == Unread(s, a) + ({id} * Visible(s, a))
  {
  }

  /** Marking an announcement read, or unread, moves that one announcement for that one member
      when it is on the badge; marking it again, or one that has left the badge, changes nothing. */
  lemma MarkingMovesOne(s: Sys, t: nat, a: Audience, id: nat, unread: bool)
    requires t in s.tasks && s.tasks[t] == Marking(id, a.caller, unread)
    ensures var s' := Next(s, WriteMark(t));
            && Visible(s', a) == Visible(s, a)
            && (id in Visible(s, a) && unread ==>
                Unread(s', a) == Unread(s, a) + {id} && Read(s', a) == Read(s, a) - {id})
            && (id in Visible(s, a) && !unread ==>
                Unread(s', a) == Unread(s, a) - {id} && Read(s', a) == Read(s, a) + {id})
            && (id !in Visible(s, a) ==> SameBadge(s, s', a))
  {
    if unread {
      MarkingUnread(s, t, a, id);
    } else {
      MarkingRead(s, t, a, id);
    }
    hide Next;
  }

  lemma OthersKeepTheirBadge(s: Sys, t: nat, b: Audience)
    requires t in s.tasks && s.tasks[t].Marking? && s.tasks[t].member != b.caller
    ensures SameBadge(s, Next(s, WriteMark(t)), b)
  {
  }
}
