/** Announcements and read receipts. A handler is a read followed by a conditional write, and
    any other handler may run between the two. */
module Announcements {
  import opened Wrappers

  type Instant = int

  datatype Category = Urgent | Informational | Event
  datatype Status = Draft | Published | Retracted
  datatype Scope = Troop | Lodge(id: string)

  datatype Row = Row(
    status: Status, category: Category, scope: Scope, createdBy: string,
    publishedAt: Option<Instant>, retractedAt: Option<Instant>, expiresAt: Option<Instant>)

  /** The fields an edit supplies. */
  datatype Patch = Patch(text: bool, category: Option<Category>, scope: Option<Scope>,
                         expiresAt: Option<Option<Instant>>)

  predicate IsEmpty(p: Patch) {
    !p.text && p.category.None? && p.scope.None? && p.expiresAt.None?
  }

  function Patched(row: Row, p: Patch): Row {
    row.(category := if p.category.Some? then p.category.value else row.category,
         scope := if p.scope.Some? then p.scope.value else row.scope,
         expiresAt := if p.expiresAt.Some? then p.expiresAt.value else row.expiresAt)
  }

  // --- who is addressed ---

  datatype Audience = Audience(caller: string, troopRead: bool, readLodges: set<string>, troopManage: bool,
                               manageLodges: set<string>)

  /** The one visibility rule every read path shares. */
  predicate Sees(a: Audience, row: Row) {
    || (!row.status.Draft? && (match row.scope case Troop => a.troopRead case Lodge(id) => id in a.readLodges))
    || row.createdBy == a.caller
    || a.troopManage
    || (row.scope.Lodge? && row.scope.id in a.manageLodges)
  }

  // --- who may do what, and where ---

  /** The scopes at which a caller holds each permission. */
  datatype Rights = Rights(write: set<Scope>, manage: set<Scope>, urgent: set<Scope>)

  /** A troop-wide grant covers every scope, and a lodge grant that lodge. */
  predicate Covers(held: set<Scope>, scope: Scope) {
    Troop in held || scope in held
  }

  /** What the handlers ask before they send to a scope. */
  predicate MaySend(category: Category, scope: Scope, r: Rights) {
    category.Urgent? ==> Covers(r.urgent, scope)
  }

  // --- the protocol ---

  type Receipt = (nat, string)

  datatype Task =
    | Publishing(id: nat, seen: Row, rights: Rights)    // read a draft, passed the guards
    | Announcing(id: nat)                               // the row is sent, the event is not out yet
    | Editing(id: nat, seen: Row, patch: Patch, rights: Rights)
    | Retracting(id: nat)
    | Deleting(id: nat)
    | Marking(id: nat, member: string, unread: bool)

  datatype Sys = Sys(
    now: Instant, rows: map<nat, Row>, nextId: nat, receipts: set<Receipt>,
    tasks: map<nat, Task>,
    events: seq<nat>,                       // the ids announced, in order
    created: multiset<Receipt>, cleared: multiset<Receipt>, cascaded: multiset<Receipt>)

  datatype Step =
    | Tick(elapsed: nat)
    | Create(t: nat, row: Row, publish: bool, rights: Rights)
    | ReadPublish(t: nat, id: nat, caller: string, rights: Rights)
    | WritePublish(t: nat)
    | Emit(t: nat)
    | ReadEdit(t: nat, id: nat, caller: string, patch: Patch, rights: Rights)
    | WriteEdit(t: nat)
    | ReadRetract(t: nat, id: nat, rights: Rights)
    | WriteRetract(t: nat)
    | ReadDelete(t: nat, id: nat, rights: Rights)
    | WriteDelete(t: nat)
    | ReadMark(t: nat, id: nat, audience: Audience, unread: bool)
    | WriteMark(t: nat)
    | Drop(t: nat)

  predicate Past(at: Option<Instant>, now: Instant) {
    at.Some? && at.value <= now
  }

  predicate CreateAllowed(s: Sys, row: Row, publish: bool, r: Rights) {
    && !(publish && Past(row.expiresAt, s.now)) && Covers(r.write, row.scope)
    && (publish ==> MaySend(row.category, row.scope, r))
  }

  function CreateNext(s: Sys, t: nat, row: Row, publish: bool, r: Rights): Sys {
    if t in s.tasks || !CreateAllowed(s, row, publish, r) then s
    else
      var id := s.nextId;
      var made := row.(status := if publish then Published else Draft,
                       publishedAt := if publish then Some(s.now) else None, retractedAt := None);
      var s' := s.(rows := s.rows[id := made], nextId := id + 1);
      if publish then s'.(tasks := s.tasks[t := Announcing(id)]) else s'
  }

  predicate PublishAllowed(s: Sys, row: Row, caller: string, r: Rights) {
    && row.status.Draft?
    && Covers(if row.createdBy == caller then r.write else r.manage, row.scope)
    && MaySend(row.category, row.scope, r) && !Past(row.expiresAt, s.now)
  }

  function WritePublishNext(s: Sys, t: nat): Sys
    requires t in s.tasks && s.tasks[t].Publishing?
  {
    var id := s.tasks[t].id;
    if id !in s.rows || !s.rows[id].status.Draft? then s.(tasks := s.tasks - {t})
    else s.(rows := s.rows[id := s.rows[id].(status := Published, publishedAt := Some(s.now))],
            tasks := s.tasks[t := Announcing(id)])
  }

  /** Moving a notice asks for the ordinary permission at the new scope; turning a sent one urgent asks
      for the sharp one at the old. */
  predicate EditAllowed(row: Row, caller: string, p: Patch, r: Rights) {
    && Covers(if row.status.Draft? && row.createdBy == caller then r.write else r.manage, row.scope)
    && (Patched(row, p).scope != row.scope ==> Covers(r.write, Patched(row, p).scope))
    && (!row.status.Draft? && !row.category.Urgent? ==> MaySend(Patched(row, p).category, row.scope, r))
    && !IsEmpty(p)
  }

  /** The write asks nothing of the row but that it is there. */
  function WriteEditNext(s: Sys, t: nat): Sys
    requires t in s.tasks && s.tasks[t].Editing?
  {
    var id, p := s.tasks[t].id, s.tasks[t].patch;
    var s' := s.(tasks := s.tasks - {t});
    if id !in s.rows then s'
    else s'.(rows := s.rows[id := Patched(s.rows[id], p)])
  }

  function WriteRetractNext(s: Sys, t: nat): Sys
    requires t in s.tasks && s.tasks[t].Retracting?
  {
    var id := s.tasks[t].id;
    var s' := s.(tasks := s.tasks - {t});
    if id !in s.rows || !s.rows[id].status.Published? then s'
    else s'.(rows := s.rows[id := s.rows[id].(status := Retracted, retractedAt := Some(s.now))])
  }

  function ReceiptsOf(receipts: set<Receipt>, id: nat): set<Receipt> {
    set k | k in receipts && k.0 == id
  }

  /** Deleting an announcement deletes its receipts with it. */
  function WriteDeleteNext(s: Sys, t: nat): Sys
    requires t in s.tasks && s.tasks[t].Deleting?
  {
    var gone := ReceiptsOf(s.receipts, s.tasks[t].id);
    s.(tasks := s.tasks - {t}, rows := s.rows - {s.tasks[t].id}, receipts := s.receipts - gone,
       cascaded := s.cascaded + multiset(gone))
  }

  /** Marking needs the announcement to be there still; marking twice, either way, changes nothing. */
  function WriteMarkNext(s: Sys, t: nat): Sys
    requires t in s.tasks && s.tasks[t].Marking?
  {
    var key := (s.tasks[t].id, s.tasks[t].member);
    var s' := s.(tasks := s.tasks - {t});
    if s.tasks[t].unread then
      if key in s.receipts then s'.(receipts := s.receipts - {key}, cleared := s.cleared + multiset{key}) else s'
    else if key.0 in s.rows && key !in s.receipts then
      s'.(receipts := s.receipts + {key}, created := s.created + multiset{key})
    else s'
  }

  function Next(s: Sys, e: Step): Sys {
    match e
    case Tick(elapsed) => s.(now := s.now + elapsed)
    case Create(t, row, publish, r) => CreateNext(s, t, row, publish, r)
    case ReadPublish(t, id, caller, r) =>
      if t !in s.tasks && id in s.rows && PublishAllowed(s, s.rows[id], caller, r)
      then s.(tasks := s.tasks[t := Publishing(id, s.rows[id], r)]) else s
    case WritePublish(t) => if t in s.tasks && s.tasks[t].Publishing? then WritePublishNext(s, t) else s
    case Emit(t) =>
      if t in s.tasks && s.tasks[t].Announcing?
      then s.(tasks := s.tasks - {t}, events := s.events + [s.tasks[t].id]) else s
    case ReadEdit(t, id, caller, p, r) =>
      if t !in s.tasks && id in s.rows && EditAllowed(s.rows[id], caller, p, r)
      then s.(tasks := s.tasks[t := Editing(id, s.rows[id], p, r)]) else s
    case WriteEdit(t) => if t in s.tasks && s.tasks[t].Editing? then WriteEditNext(s, t) else s
    case ReadRetract(t, id, r) =>
      if t !in s.tasks && id in s.rows && Covers(r.manage, s.rows[id].scope) && s.rows[id].status.Published?
      then s.(tasks := s.tasks[t := Retracting(id)]) else s
    case WriteRetract(t) => if t in s.tasks && s.tasks[t].Retracting? then WriteRetractNext(s, t) else s
    case ReadDelete(t, id, r) =>
      if t !in s.tasks && id in s.rows && Troop in r.manage then s.(tasks := s.tasks[t := Deleting(id)]) else s
    case WriteDelete(t) => if t in s.tasks && s.tasks[t].Deleting? then WriteDeleteNext(s, t) else s
    case ReadMark(t, id, audience, unread) =>
      if t !in s.tasks && id in s.rows && Sees(audience, s.rows[id]) && (unread || s.rows[id].status.Published?)
      then s.(tasks := s.tasks[t := Marking(id, audience.caller, unread)]) else s
    case WriteMark(t) => if t in s.tasks && s.tasks[t].Marking? then WriteMarkNext(s, t) else s
    case Drop(t) => s.(tasks := s.tasks - {t})
  }

  function Run(s: Sys, steps: seq<Step>): Sys {
    if steps == [] then s else Next(Run(s, steps[..|steps| - 1]), steps[|steps| - 1])
  }

  predicate Init(s: Sys) {
    && s.rows == map[] && s.receipts == {} && s.tasks == map[] && s.events == []
    && s.created == multiset{} && s.cleared == multiset{} && s.cascaded == multiset{}
  }

  // --- the badge ---

  predicate OnBadge(a: Audience, row: Row, now: Instant) {
    row.status.Published? && (row.expiresAt.None? || row.expiresAt.value > now) && Sees(a, row)
  }

  function Visible(s: Sys, a: Audience): set<nat> {
    set id | id in s.rows && OnBadge(a, s.rows[id], s.now)
  }

  function Unread(s: Sys, a: Audience): set<nat> {
    set id | id in Visible(s, a) && (id, a.caller) !in s.receipts
  }

  function Read(s: Sys, a: Audience): set<nat> {
    set id | id in Visible(s, a) && (id, a.caller) in s.receipts
  }

  function UnreadIn(s: Sys, a: Audience, c: Category): set<nat> {
    set id | id in Unread(s, a) && s.rows[id].category == c
  }
}
