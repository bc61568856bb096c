/** What a whole handler comes to when nobody moves between its read and its write, and what its write does
    when somebody has. */
module AnnouncementSteps {
  import opened Wrappers
  import opened Announcements

  /** A grant over the troop, or over this very scope. */
  predicate Granted(held: set<Scope>, scope: Scope) {
    scope in held || Scope.Troop in held
  }

  /** Creating asks for the ordinary permission there; sending at once asks for the sharp one too when the notice
      is urgent, and that it has not expired. The new row is a draft, or sent now. */
  lemma CreateMakes(s: Sys, t: nat, row: Row, publish: bool, r: Rights)
    ensures var v := Next(s, Create(t, row, publish, r));
            if t !in s.tasks && Granted(r.write, row.scope)
               && (publish ==> (row.category == Urgent ==> Granted(r.urgent, row.scope))
                               && (row.expiresAt.Some? ==> s.now < row.expiresAt.value))
            then
              && v.rows == s.rows[s.nextId := Row(if publish then Published else Draft, row.category, row.scope,
                                                  row.createdBy, if publish then Some(s.now) else None, None,
                                                  row.expiresAt)]
              && v.nextId == s.nextId + 1 && v.events == s.events && v.receipts == s.receipts
              && v.tasks == if publish then s.tasks[t := Announcing(s.nextId)] else s.tasks
            else v == s
  {
  }

  /** Who may send a draft: its author with the ordinary permission there, or who manages there; for an urgent one
      with the sharp one too; and before it expires. */
  predicate MayPublish(s: Sys, row: Row, caller: string, r: Rights) {
    && row.status == Draft && Granted(if caller == row.createdBy then r.write else r.manage, row.scope)
    && (row.category == Urgent ==> Granted(r.urgent, row.scope))
    && (row.expiresAt.Some? ==> s.now < row.expiresAt.value)
  }

  lemma PublishSends(s: Sys, t: nat, id: nat, caller: string, r: Rights)
    requires t !in s.tasks
    ensures var v := Next(Next(s, ReadPublish(t, id, caller, r)), WritePublish(t));
            if id in s.rows && MayPublish(s, s.rows[id], caller, r)
            then v == s.(rows := s.rows[id := s.rows[id].(status := Published, publishedAt := Some(s.now))],
                         tasks := s.tasks[t := Announcing(id)])
            else v == s
  {
  }

  /** A write that comes late still sends no row twice, and none that is gone. */
  lemma LatePublish(s: Sys, t: nat)
    requires t in s.tasks && s.tasks[t].Publishing?
    requires s.tasks[t].id in s.rows ==> s.rows[s.tasks[t].id].status != Draft
    ensures Next(s, WritePublish(t)) == s.(tasks := s.tasks - {t})
  {
  }

  lemma EmitAnnounces(s: Sys, t: nat)
    requires t in s.tasks && s.tasks[t].Announcing?
    ensures Next(s, Emit(t)) == s.(tasks := s.tasks - {t}, events := s.events + [s.tasks[t].id])
  {
  }

  /** The row as the patch supplies it. */
  predicate IsPatched(row: Row, p: Patch, after: Row) {
    && after.status == row.status && after.createdBy == row.createdBy
    && after.publishedAt == row.publishedAt && after.retractedAt == row.retractedAt
    && (p.category == None ==> after.category == row.category)
    && (p.category.Some? ==> after.category == p.category.value)
    && (p.scope == None ==> after.scope == row.scope) && (p.scope.Some? ==> after.scope == p.scope.value)
    && (p.expiresAt == None ==> after.expiresAt == row.expiresAt)
    && (p.expiresAt.Some? ==> after.expiresAt == p.expiresAt.value)
  }

  /** Who may edit: the author of a draft with the ordinary permission, of anything who manages there; with the
      ordinary one where a patch moves it to, and the sharp one where it is if the patch turns a sent one urgent. */
  predicate MayEdit(row: Row, caller: string, p: Patch, r: Rights) {
    && Granted(if caller == row.createdBy && row.status == Draft then r.write else r.manage, row.scope)
    && (p.scope.Some? && p.scope.value != row.scope ==> Granted(r.write, p.scope.value))
    && (p.category == Some(Urgent) && row.category != Urgent && row.status != Draft ==> Granted(r.urgent, row.scope))
    && (p.text || p.category.Some? || p.scope.Some? || p.expiresAt.Some?)
  }

  lemma EditPatches(s: Sys, t: nat, id: nat, caller: string, p: Patch, r: Rights)
    requires t !in s.tasks
    ensures var v := Next(Next(s, ReadEdit(t, id, caller, p, r)), WriteEdit(t));
            if id in s.rows && MayEdit(s.rows[id], caller, p, r)
            then id in v.rows && IsPatched(s.rows[id], p, v.rows[id]) && v == s.(rows := s.rows[id := v.rows[id]])
            else v == s
  {
    if id in s.rows {
      MayEditIs(s.rows[id], caller, p, r);
      hide EditAllowed, MayEdit;
      if MayEdit(s.rows[id], caller, p, r) {
        var read := Next(s, ReadEdit(t, id, caller, p, r));
        assert read == s.(tasks := s.tasks[t := Editing(id, s.rows[id], p, r)]);
        LateEdit(read, t);
        assert read.tasks - {t} == s.tasks;
        hide Next, IsPatched;
      }
    }
  }

  lemma MayEditIs(row: Row, caller: string, p: Patch, r: Rights)
    ensures EditAllowed(row, caller, p, r) <==> MayEdit(row, caller, p, r)
  {
  }

  /** A write that comes late patches the row as it is by then. */
  lemma LateEdit(s: Sys, t: nat)
    requires t in s.tasks && s.tasks[t].Editing?
    ensures var id, v := s.tasks[t].id, Next(s, WriteEdit(t));
            if id in s.rows
            then id in v.rows && IsPatched(s.rows[id], s.tasks[t].patch, v.rows[id])
                 && v == s.(tasks := s.tasks - {t}, rows := s.rows[id := v.rows[id]])
            else v == s.(tasks := s.tasks - {t})
  {
  }

  lemma RetractStamps(s: Sys, t: nat, id: nat, r: Rights)
    requires t !in s.tasks
    ensures Next(Next(s, ReadRetract(t, id, r)), WriteRetract(t)) ==
            if id in s.rows && s.rows[id].status == Published && Granted(r.manage, s.rows[id].scope)
            then s.(rows := s.rows[id := s.rows[id].(status := Retracted, retractedAt := Some(s.now))]) else s
  {
    assert id in s.rows ==> s.tasks[t := Retracting(id)] - {t} == s.tasks;
  }

  /** Deleting asks for the permission over the whole troop, and takes every receipt of the announcement along. */
  lemma DeleteTakesReceipts(s: Sys, t: nat, id: nat, r: Rights)
    requires t !in s.tasks
    ensures var v := Next(Next(s, ReadDelete(t, id, r)), WriteDelete(t));
            if id in s.rows && Scope.Troop in r.manage
            then && v.rows == s.rows - {id} && v.tasks == s.tasks && v.events == s.events && v.nextId == s.nextId
                 && (forall k: Receipt :: k in v.receipts <==> k in s.receipts && k.0 != id)
                 && v.created == s.created && v.cleared == s.cleared
                 && (forall k: Receipt ::
                       v.cascaded[k] == s.cascaded[k] + if k in s.receipts && k.0 == id then 1 else 0)
            else v == s
  {
  }

  /** A draft is shown to its author and to who manages there; one that was sent, or taken back, also to who
      reads there. */
  lemma SeesMeans(a: Audience, row: Row)
    ensures Sees(a, row) <==>
            || row.createdBy == a.caller || a.troopManage || (row.scope.Lodge? && row.scope.id in a.manageLodges)
            || (row.status != Draft
                && ((row.scope == Scope.Troop && a.troopRead) || (row.scope.Lodge? && row.scope.id in a.readLodges)))
  {
  }

  /** The receipt of one member for one announcement that the member sees: there after a read, and gone after an
      unread. Only what is published can be marked read. */
  lemma MarkToggles(s: Sys, t: nat, id: nat, a: Audience, unread: bool)
    requires t !in s.tasks
    ensures var v := Next(Next(s, ReadMark(t, id, a, unread)), WriteMark(t));
            if id in s.rows && Sees(a, s.rows[id]) && (!unread ==> s.rows[id].status == Published)
            then && v.rows == s.rows && v.tasks == s.tasks && v.events == s.events
                 && v.receipts == if unread then s.receipts - {(id, a.caller)} else s.receipts + {(id, a.caller)}
            else v == s
  {
    hide Sees;
    var read := Next(s, ReadMark(t, id, a, unread));
    if id in s.rows && Sees(a, s.rows[id]) && (!unread ==> s.rows[id].status == Published) {
      assert read == s.(tasks := s.tasks[t := Marking(id, a.caller, unread)]);
      assert read.tasks - {t} == s.tasks;
      LateMark(read, t);
      hide Next;
    }
  }

  /** A write that comes late makes no receipt for an announcement that is gone. */
  lemma LateMark(s: Sys, t: nat)
    requires t in s.tasks && s.tasks[t].Marking?
    ensures var task, v := s.tasks[t], Next(s, WriteMark(t));
            && v == s.(tasks := s.tasks - {t}, receipts := v.receipts, created := v.created, cleared := v.cleared)
            && v.receipts == if task.unread then s.receipts - {(task.id, task.member)}
                             else if task.id in s.rows then s.receipts + {(task.id, task.member)} else s.receipts
  {
  }

  /** A handler that is dropped writes nothing more, and an announcement it had sent is never announced. */
  lemma DropForgets(s: Sys, t: nat, u: nat)
    ensures var v := Next(s, Drop(t));
            && v == s.(tasks := v.tasks) && t !in v.tasks
            && (u != t ==> (u in v.tasks <==> u in s.tasks) && (u in s.tasks ==> v.tasks[u] == s.tasks[u]))
  {
  }
}
