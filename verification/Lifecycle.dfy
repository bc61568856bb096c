/** Enable, disable and dispatch as interleaved tasks. Each step holds a lock or runs one
    statement; between two steps of a task any other task may move. */
module Lifecycle {
  import opened Wrappers
  import opened Registry
  import opened LifecycleRules
  import opened IdentityHub
  import opened InFlight

  datatype Kind = Enable | Disable

  datatype Phase =
    | Waiting                       // has the lifecycle lock, has checked nothing
    | Checked                       // the guards passed
    | Audited                       // the audit row is written
    | Prepared(plugin: Loaded)            // enable: the library is loaded
    | InPlace                       // enable: the slot is live
    | Bound                         // enable: the provider is on; the flag is next
    | Reverting                     // enable: the flag write failed
    | Reverted                      // enable: the slot was taken back
    | Unflagged                     // disable: the flag says disabled
    | Unrouted(parts: Option<nat>)  // disable: routing stopped; the pool is still open
    | Draining(pool: nat)           // disable: waiting for the requests inside
    | Idle(pool: nat)               // disable: the wait saw no request inside
    | TimedOut(pool: nat)           // disable: the wait ran out

  datatype Task = Task(kind: Kind, name: string, phase: Phase)

  datatype Change = FlagOn | FlagOff | SlotLive | SlotStopped

  datatype Event =
    | AuditRow(task: nat, kind: Kind, name: string, refused: bool)
    | Applied(task: nat, kind: Kind, name: string, change: Change)

  datatype Sys = Sys(
    slots: seq<Slot>, flags: map<string, bool>, hub: Hub,
    tasks: map<nat, Task>, nextTask: nat,
    inside: Inside, counts: Counts,
    log: seq<Event>, closings: seq<Closing>, devHeaders: bool)

  datatype Outcome = LoadFailed | Declares(plugin: Loaded)

  datatype Step =
    | Begin(kind: Kind, name: string)
    | Check(t: nat, libraryThere: bool, refusalAudited: bool)
    | Audit(t: nat, written: bool)
    | Load(t: nat, outcome: Outcome, registers: Option<string>, refusalAudited: bool)
    | Install(t: nat)
    | BindProvider(t: nat)
    | WriteFlag(t: nat, written: bool)
    | Stop(t: nat)
    | UnbindProvider(t: nat)
    | Wait(t: nat, expired: bool)
    | Close(t: nat)
    | Cancel(t: nat)              // the caller's connection is gone: the handler stops where it waits
    | Enter(request: nat, plugin: string)
    | Leave(request: nat)
    | Crash(generation: seq<Slot>, providers: map<string, nat>)

  function LoadedIds(slots: seq<Slot>): set<string> {
    set i | 0 <= i < |slots| && slots[i].Live? :: slots[i].Info().id
  }

  predicate Flagged(flags: map<string, bool>, name: string) {
    name in flags && flags[name]
  }

  /** A generation built at start: every plugin whose flag is on is live, and no other. */
  ghost predicate Boots(generation: seq<Slot>, flags: map<string, bool>) {
    Consistent(generation) && forall id :: IsLive(generation, id) <==> Flagged(flags, id)
  }

  function With(s: Sys, t: nat, phase: Phase): Sys
    requires t in s.tasks
  {
    s.(tasks := s.tasks[t := s.tasks[t].(phase := phase)])
  }

  function Ended(s: Sys, t: nat): Sys {
    s.(tasks := s.tasks - {t})
  }

  function Logged(s: Sys, e: Event): Sys {
    s.(log := s.log + [e])
  }

  function Refuse(s: Sys, t: nat, audited: bool): Sys
    requires t in s.tasks
  {
    var task := s.tasks[t];
    var s' := Ended(s, t);
    if audited then Logged(s', AuditRow(t, task.kind, task.name, true)) else s'
  }

  function CheckNext(s: Sys, t: nat, libraryThere: bool, refusalAudited: bool): Sys
    requires t in s.tasks
  {
    var task := s.tasks[t];
    if !Contains(s.slots, task.name) then Ended(s, t)
    else match task.kind
      case Enable =>
        if IsLive(s.slots, task.name) then Ended(s, t)
        else if EnableRefused(task.name, LoadedIds(s.slots)) || !libraryThere then Refuse(s, t, refusalAudited)
        else With(s, t, Checked)
      case Disable =>
        if DisableRefused(task.name, LoadedIds(s.slots)) then Refuse(s, t, refusalAudited)
        else if !s.devHeaders && Enabled(s.hub) == {task.name} then Refuse(s, t, refusalAudited)
        else With(s, t, Checked)
  }

  function AuditNext(s: Sys, t: nat, written: bool): Sys
    requires t in s.tasks
  {
    if written then Logged(With(s, t, Audited), AuditRow(t, s.tasks[t].kind, s.tasks[t].name, false)) else Ended(s, t)
  }

  const STAYS_DISABLED: string := "stays disabled"

  /** A load may register a provider before it fails; a library that declares another id is refused. */
  function LoadNext(s: Sys, t: nat, outcome: Outcome, registers: Option<string>, refusalAudited: bool): Sys
    requires t in s.tasks
  {
    var task := s.tasks[t];
    var s' := if registers.Some? then s.(hub := Registered(s.hub, registers.value, t)) else s;
    if outcome.LoadFailed? || outcome.plugin.info.id != task.name then
      Refuse(s'.(slots := Errored(s.slots, task.name, STAYS_DISABLED)), t, refusalAudited)
    else if Agrees(Live(outcome.plugin)) then With(s', t, Prepared(outcome.plugin))
    else s
  }

  function InstallNext(s: Sys, t: nat): Sys
    requires t in s.tasks && s.tasks[t].phase.Prepared?
  {
    var s' := With(s, t, InPlace).(slots := Installed(s.slots, s.tasks[t].phase.plugin));
    Logged(s', Applied(t, Enable, s.tasks[t].name, SlotLive))
  }

  function FlagNext(s: Sys, t: nat, written: bool): Sys
    requires t in s.tasks
  {
    var task := s.tasks[t];
    var on := task.kind.Enable?;
    var flags := if task.name in s.flags then s.flags[task.name := on] else s.flags;
    var s' := Logged(s.(flags := flags), Applied(t, task.kind, task.name, if on then FlagOn else FlagOff));
    if on then (if written then Ended(s', t) else With(s, t, Reverting))
    else (if written then With(s', t, Unflagged) else Ended(s, t))
  }

  function PoolOf(slots: seq<Slot>, name: string): Option<nat> {
    if IsLive(slots, name) then Some(slots[Position(slots, name)].plugin.pool) else None
  }

  function StopNext(s: Sys, t: nat): Sys
    requires t in s.tasks
  {
    var task := s.tasks[t];
    var parts := PoolOf(s.slots, task.name);
    var s' := Logged(s.(slots := Stopped(s.slots, task.name)), Applied(t, task.kind, task.name, SlotStopped));
    if task.kind.Disable? then With(s', t, Unrouted(parts))
    else With(s'.(closings := s.closings + if parts.Some? then [Closing(parts.value, task.name)] else []), t, Reverted)
  }

  function UnbindNext(s: Sys, t: nat): Sys
    requires t in s.tasks && (s.tasks[t].phase.Unrouted? || s.tasks[t].phase.Reverted?)
  {
    var task := s.tasks[t];
    var s' := s.(hub := Switched(s.hub, task.name, false));
    if task.phase.Reverted? || task.phase.parts.None? then Ended(s', t)
    else With(s', t, Draining(task.phase.parts.value))
  }

  function WaitNext(s: Sys, t: nat, expired: bool): Sys
    requires t in s.tasks && s.tasks[t].phase.Draining?
  {
    var task := s.tasks[t];
    if Count(s.counts, task.name) == 0 then With(s, t, Idle(task.phase.pool))
    else if expired then With(s, t, TimedOut(task.phase.pool))
    else s
  }

  function CloseNext(s: Sys, t: nat): Sys
    requires t in s.tasks && (s.tasks[t].phase.Idle? || s.tasks[t].phase.TimedOut?)
  {
    Ended(s.(closings := s.closings + [Closing(s.tasks[t].phase.pool, s.tasks[t].name)]), t)
  }

  /** A handler may be dropped only where it waits: not between the slot and the provider, nor
      between the end of the drain and the closing of the pool. */
  predicate Waits(p: Phase) {
    !p.InPlace? && !p.Unrouted? && !p.Idle? && !p.TimedOut?
  }

  predicate NameIsFree(s: Sys, name: string) {
    forall t :: t in s.tasks ==> s.tasks[t].name != name
  }

  predicate At(s: Sys, t: nat, phase: Phase) {
    t in s.tasks && s.tasks[t].phase == phase
  }

  ghost function Next(s: Sys, e: Step): Sys {
    match e
    case Begin(kind, name) =>
      if NameIsFree(s, name)
      then s.(tasks := s.tasks[s.nextTask := Task(kind, name, Waiting)], nextTask := s.nextTask + 1) else s
    case Check(t, there, audited) => if At(s, t, Waiting) then CheckNext(s, t, there, audited) else s
    case Audit(t, written) => if At(s, t, Checked) then AuditNext(s, t, written) else s
    case Load(t, outcome, registers, audited) =>
      if At(s, t, Audited) && s.tasks[t].kind.Enable? then LoadNext(s, t, outcome, registers, audited) else s
    case Install(t) => if t in s.tasks && s.tasks[t].phase.Prepared? then InstallNext(s, t) else s
    case BindProvider(t) =>
      if At(s, t, InPlace) then With(s.(hub := Switched(s.hub, s.tasks[t].name, true)), t, Bound) else s
    case WriteFlag(t, written) =>
      if At(s, t, Bound) || (At(s, t, Audited) && s.tasks[t].kind.Disable?) then FlagNext(s, t, written) else s
    case Stop(t) => if At(s, t, Reverting) || At(s, t, Unflagged) then StopNext(s, t) else s
    case UnbindProvider(t) =>
      if t in s.tasks && (s.tasks[t].phase.Unrouted? || At(s, t, Reverted)) then UnbindNext(s, t) else s
    case Wait(t, expired) => if t in s.tasks && s.tasks[t].phase.Draining? then WaitNext(s, t, expired) else s
    case Close(t) =>
      if t in s.tasks && (s.tasks[t].phase.Idle? || s.tasks[t].phase.TimedOut?) then CloseNext(s, t) else s
    case Cancel(t) => if t in s.tasks && Waits(s.tasks[t].phase) then Ended(s, t) else s
    case Enter(request, plugin) =>
      if request !in s.inside && IsLive(s.slots, plugin)
      then s.(inside := s.inside[request := plugin], counts := Entered(s.counts, plugin)) else s
    case Leave(request) =>
      if request in s.inside then s.(inside := s.inside - {request}, counts := Left(s.counts, s.inside[request])) else s
    case Crash(generation, providers) =>
      if Boots(generation, s.flags)
      then s.(slots := generation, hub := Hub(providers, {}), tasks := map[], inside := map[], counts := map[]) else s
  }

  ghost function Run(s: Sys, steps: seq<Step>): Sys {
    if steps == [] then s else Next(Run(s, steps[..|steps| - 1]), steps[|steps| - 1])
  }

  /** A server that has just booted. */
  ghost predicate Init(s: Sys) {
    Boots(s.slots, s.flags) && s.tasks == map[] && s.inside == map[] && s.counts == map[] && s.log == []
  }

  // --- what every step keeps ---

  predicate Started(p: Phase) {
    !p.Waiting? && !p.Checked?
  }

  /** Where a task stands says what the flag and the slot of its plugin say. */
  predicate TaskOk(s: Sys, task: Task) {
    match task.phase
    case Waiting => true
    case Checked => task.kind.Enable? ==> !Flagged(s.flags, task.name) && !IsLive(s.slots, task.name)
    case Audited => task.kind.Enable? ==> !Flagged(s.flags, task.name) && !IsLive(s.slots, task.name)
    case Prepared(p) =>
      && task.kind.Enable? && !Flagged(s.flags, task.name) && !IsLive(s.slots, task.name)
      && p.info.id == task.name && Agrees(Live(p))
    case InPlace => task.kind.Enable? && !Flagged(s.flags, task.name) && IsLive(s.slots, task.name)
    case Bound => task.kind.Enable? && !Flagged(s.flags, task.name) && IsLive(s.slots, task.name)
    case Reverting => task.kind.Enable? && !Flagged(s.flags, task.name) && IsLive(s.slots, task.name)
    case Reverted => task.kind.Enable? && !Flagged(s.flags, task.name) && !IsLive(s.slots, task.name)
    case Unflagged => task.kind.Disable? && !Flagged(s.flags, task.name)
    case Idle(_) =>
      && task.kind.Disable? && !Flagged(s.flags, task.name) && !IsLive(s.slots, task.name)
      && Count(s.counts, task.name) == 0
    case _ => task.kind.Disable? && !Flagged(s.flags, task.name) && !IsLive(s.slots, task.name)
  }

  predicate TasksOk(s: Sys) {
    && (forall t :: t in s.tasks ==> t < s.nextTask && TaskOk(s, s.tasks[t]))
    && (forall t, u :: t in s.tasks && u in s.tasks && s.tasks[t].name == s.tasks[u].name ==> t == u)
  }

  /** The flag of the database never promises more than is loaded. */
  ghost predicate FlagsAreLive(s: Sys) {
    forall name :: Flagged(s.flags, name) ==> IsLive(s.slots, name)
  }

  predicate AuditedBefore(log: seq<Event>, i: nat, task: nat, kind: Kind, name: string) {
    exists j :: 0 <= j < i && j < |log| && log[j] == AuditRow(task, kind, name, false)
  }

  /** Every applied change comes after the audit row of its own task. */
  predicate LogOk(log: seq<Event>) {
    forall i :: 0 <= i < |log| && log[i].Applied? ==> AuditedBefore(log, i, log[i].task, log[i].kind, log[i].name)
  }

  predicate TasksAudited(s: Sys) {
    forall t :: t in s.tasks && Started(s.tasks[t].phase) ==>
      AuditedBefore(s.log, |s.log|, t, s.tasks[t].kind, s.tasks[t].name)
  }

  ghost predicate Safe(s: Sys) {
    && Consistent(s.slots) && TasksOk(s) && FlagsAreLive(s)
    && LogOk(s.log) && TasksAudited(s) && Tallies(s.counts, s.inside)
  }
}
