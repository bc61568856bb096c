/** The last way to authenticate, through every enable and disable. */
module LifecycleProviders {
  import opened Wrappers
  import opened Registry
  import opened LifecycleRules
  import opened IdentityHub
  import opened InFlight
  import opened Lifecycle
  import opened LifecycleGuarantees
  import opened LifecycleShape
  import opened LifecycleRaces
  import opened LifecycleAlone

  // --- the step that takes the last provider away ---

  /** A disable past its stop, or an enable that took its plugin back, switches its provider off. */
  predicate Unbinds(s: Sys, e: Step) {
    e.UnbindProvider? && e.t in s.tasks && (s.tasks[e.t].phase.Unrouted? || s.tasks[e.t].phase.Reverted?)
  }

  lemma LoadRegisters(s: Sys, t: nat, outcome: Outcome, registers: Option<string>, audited: bool)
    requires t in s.tasks
    ensures var s' := LoadNext(s, t, outcome, registers, audited);
            s'.devHeaders == s.devHeaders
            && (s'.hub == s.hub || (registers.Some? && s'.hub == Registered(s.hub, registers.value, t)))
  {
    hide Errored, Agrees, Registered;
  }

  /** How a step may change the hub: a load registers, an enable switches on, and only these switch off. */
  lemma HubMoves(s: Sys, e: Step)
    requires !e.Crash?
    ensures Next(s, e).devHeaders == s.devHeaders
    ensures Unbinds(s, e) ==> Next(s, e).hub == Switched(s.hub, s.tasks[e.t].name, false)
    ensures !Unbinds(s, e) ==>
              || Next(s, e).hub == s.hub
              || (e.Load? && e.registers.Some? && Next(s, e).hub == Registered(s.hub, e.registers.value, e.t))
              || (e.BindProvider? && e.t in s.tasks && Next(s, e).hub == Switched(s.hub, s.tasks[e.t].name, true))
  {
    hide IsLive, CheckNext, LoadNext, Registered, Switched, Installed, Stopped, Count, NameIsFree, Entered, Left,
         PoolOf;
    if e.Check? && e.t in s.tasks {
      CheckShape(s, e.t, e.libraryThere, e.refusalAudited);
    } else if e.Load? && e.t in s.tasks {
      LoadRegisters(s, e.t, e.outcome, e.registers, e.refusalAudited);
    }
  }

  /** In every state: the last provider that answers goes exactly when its own plugin's provider is
      switched off while it is the only one. A restart registers whatever it loads. */
  lemma LastProviderGoesIff(s: Sys, e: Step)
    requires Enabled(s.hub) != {} && !e.Crash?
    ensures Enabled(Next(s, e).hub) == {} <==> Unbinds(s, e) && Enabled(s.hub) == {s.tasks[e.t].name}
  {
    HubMoves(s, e);
    if Unbinds(s, e) {
      ChangesToEnabled(s.hub, s.tasks[e.t].name, 0, {});
    } else if e.Load? && e.registers.Some? {
      ChangesToEnabled(s.hub, e.registers.value, e.t, {});
    } else if e.BindProvider? && e.t in s.tasks {
      ChangesToEnabled(s.hub, s.tasks[e.t].name, 0, {});
    }
    hide Next, Unbinds, Enabled, Switched, Registered;
  }

  // --- one change at a time ---

  /** A disable whose guard has passed and whose provider is still to be switched off. */
  predicate PastGuard(task: Task) {
    task.kind.Disable? && (task.phase.Checked? || task.phase.Audited? || task.phase.Unflagged? || task.phase.Unrouted?)
  }

  predicate Spares(s: Sys, name: string) {
    s.devHeaders || Enabled(s.hub) != {name}
  }

  /** What the guard found is still so. */
  predicate Spared(s: Sys) {
    forall t :: t in s.tasks && PastGuard(s.tasks[t]) ==> Spares(s, s.tasks[t].name)
  }

  /** A task that comes out of a step past its guard was past it before, or has just passed it, and
      the step left the hub alone. */
  predicate GuardMoves(s: Sys, s': Sys, t: nat) {
    t in s.tasks && t in s'.tasks && PastGuard(s'.tasks[t]) ==>
      s'.hub == s.hub && s'.devHeaders == s.devHeaders && s'.tasks[t].name == s.tasks[t].name
      && (PastGuard(s.tasks[t]) || Spares(s, s.tasks[t].name))
  }

  lemma CheckGuards(s: Sys, t: nat, there: bool, audited: bool)
    requires At(s, t, Waiting)
    ensures GuardMoves(s, CheckNext(s, t, there, audited), t)
  {
    hide IsLive, LoadedIds, EnableRefused, DisableRefused, Contains;
  }

  lemma WritesGuard(s: Sys, e: Step)
    requires (e.Audit? || e.WriteFlag?) && TasksSound(s) && Next(s, e) != s
    ensures GuardMoves(s, Next(s, e), e.t)
  {
    assert TaskSound(s.tasks[e.t]);
    hide Spares, TasksSound, IsLive, Flagged, CheckNext, LoadNext, InstallNext, StopNext, UnbindNext, WaitNext,
         CloseNext;
  }

  lemma SlotsGuard(s: Sys, e: Step)
    requires (e.Install? || e.Stop?) && TasksSound(s) && Next(s, e) != s
    ensures GuardMoves(s, Next(s, e), e.t)
  {
    assert TaskSound(s.tasks[e.t]);
    hide Spares, TasksSound, IsLive, Installed, Stopped, PoolOf, Flagged, Agrees;
  }

  lemma LoadGuards(s: Sys, e: Step)
    requires e.Load? && Next(s, e) != s
    ensures GuardMoves(s, Next(s, e), e.t)
  {
    LoadPhase(s, e.t, e.outcome, e.registers, e.refusalAudited);
    hide Spares, LoadNext;
  }

  lemma LateGuards(s: Sys, e: Step)
    requires (e.Wait? || e.Close? || e.Cancel?) && Next(s, e) != s
    ensures GuardMoves(s, Next(s, e), e.t)
  {
    hide Spares, Switched, Count, IsLive, CheckNext, LoadNext, InstallNext, StopNext, FlagNext, AuditNext;
  }

  lemma SwitchesGuard(s: Sys, e: Step)
    requires (e.BindProvider? || e.UnbindProvider?) && Next(s, e) != s
    ensures GuardMoves(s, Next(s, e), e.t)
  {
    hide Spares, Switched, IsLive;
  }

  lemma StepGuards(s: Sys, e: Step)
    requires TasksSound(s) && !(e.Begin? || e.Enter? || e.Leave? || e.Crash?) && Next(s, e) != s
    ensures GuardMoves(s, Next(s, e), e.t)
  {
    hide GuardMoves, TasksSound;
    if e.Check? {
      hide CheckNext;
      CheckGuards(s, e.t, e.libraryThere, e.refusalAudited);
    } else if e.Load? {
      LoadGuards(s, e);
    } else if e.Install? || e.Stop? {
      SlotsGuard(s, e);
    } else if e.Audit? || e.WriteFlag? {
      WritesGuard(s, e);
    } else if e.BindProvider? || e.UnbindProvider? {
      SwitchesGuard(s, e);
    } else {
      LateGuards(s, e);
    }
  }

  lemma OutsideSpares(s: Sys, e: Step)
    requires Spared(s) && (e.Begin? || e.Enter? || e.Leave? || e.Crash?)
    ensures Spared(Next(s, e)) && Next(s, e).devHeaders == s.devHeaders
  {
    hide Enabled, IsLive, Entered, Left, NameIsFree;
  }

  lemma StepKeepsSpared(s: Sys, e: Step)
    requires TasksSound(s) && Alone(s) && Spared(s)
    ensures Spared(Next(s, e)) && Next(s, e).devHeaders == s.devHeaders
  {
    hide TasksSound;
    if e.Begin? || e.Enter? || e.Leave? || e.Crash? {
      OutsideSpares(s, e);
    } else if Next(s, e) != s {
      HubMoves(s, e);
      TaskStepShifts(s, e);
      StepGuards(s, e);
      hide Next, Unbinds, Enabled, LogMoves, SlotShift, HeldShift, TaskSound;
      OnlyThisTask(s, Next(s, e), e.t);
    }
  }

  lemma NoTasksSpared(s: Sys)
    requires s.tasks == map[]
    ensures Spared(s)
  {
  }

  lemma {:induction false} RunsAreSound(s: Sys, steps: seq<Step>)
    requires Init(s)
    ensures TasksSound(Run(s, steps))
  {
    RunsAreSafe(s, steps);
    assert TasksOk(Run(s, steps));
    OkIsSound(Run(s, steps));
    hide Run, TasksOk, TasksSound;
  }

  lemma {:induction false} OneAtATimeSpares(s: Sys, steps: seq<Step>)
    requires Init(s) && OneAtATime(s, steps)
    ensures Spared(Run(s, steps)) && Run(s, steps).devHeaders == s.devHeaders
  {
    hide Next, TasksSound, Spared, OneAtATime;
    if steps == [] {
      NoTasksSpared(s);
    } else {
      var n := |steps| - 1;
      OneAtATimePrefix(s, steps, n);
      OneAtATimeSpares(s, steps[..n]);
      RunsAreSound(s, steps[..n]);
      StepKeepsSpared(Run(s, steps[..n]), steps[n]);
    }
  }

  /** An enable that took its plugin back switches off the only provider that answers. */
  predicate RevertTakesTheLast(s: Sys, e: Step) {
    e.UnbindProvider? && At(s, e.t, Reverted) && Enabled(s.hub) == {s.tasks[e.t].name}
  }

  lemma DisableSpares(s: Sys, e: Step)
    requires TasksSound(s) && Spared(s) && !s.devHeaders
    ensures Unbinds(s, e) && Enabled(s.hub) == {s.tasks[e.t].name} <==> RevertTakesTheLast(s, e)
  {
    assert e.UnbindProvider? && e.t in s.tasks ==> TaskSound(s.tasks[e.t]);
    hide Enabled;
  }

  /** While changes do not overlap, and with dev headers off, a disable never takes the last provider:
      over every such run, with drops and failures anywhere, the one step but a restart that does is
      the revert of an enable whose flag write failed. */
  lemma {:induction false} OnlyARevertTakesTheLast(s: Sys, steps: seq<Step>, i: nat)
    requires Init(s) && !s.devHeaders && OneAtATime(s, steps)
    requires i < |steps| && !steps[i].Crash? && Enabled(Run(s, steps[..i]).hub) != {}
    ensures Enabled(Run(s, steps[..i + 1]).hub) == {} <==> RevertTakesTheLast(Run(s, steps[..i]), steps[i])
  {
    var u := Run(s, steps[..i]);
    OneAtATimePrefix(s, steps, i);
    OneAtATimeSpares(s, steps[..i]);
    RunsAreSound(s, steps[..i]);
    assert steps[..i + 1][..i] == steps[..i];
    assert Run(s, steps[..i + 1]) == Next(u, steps[i]);
    hide *;
    LastProviderGoesIff(u, steps[i]);
    DisableSpares(u, steps[i]);
  }

  /** So a provider stays through any stretch without a restart and without such a revert. */
  lemma {:induction false} AProviderStays(s: Sys, steps: seq<Step>, i: nat, j: nat)
    requires Init(s) && !s.devHeaders && OneAtATime(s, steps) && i <= j <= |steps|
    requires forall k :: i <= k < j ==> !steps[k].Crash? && !RevertTakesTheLast(Run(s, steps[..k]), steps[k])
    requires Enabled(Run(s, steps[..i]).hub) != {}
    ensures Enabled(Run(s, steps[..j]).hub) != {}
    decreases j
  {
    hide *;
    if i < j {
      AProviderStays(s, steps, i, j - 1);
      OnlyARevertTakesTheLast(s, steps, j - 1);
    }
  }

  // --- a run in which the revert does ---

  /** An enable whose load registers a provider and then fails. */
  lemma {:induction false} FailedLoadAlone(s: Sys, u: Sys, name: string) returns (t: Sys)
    requires ReachesAlone(s, u) && u.tasks == map[] && Contains(u.slots, name)
    requires !IsLive(u.slots, name) && !EnableRefused(name, LoadedIds(u.slots))
    ensures ReachesAlone(s, t) && t.tasks == map[] && t.slots == Errored(u.slots, name, STAYS_DISABLED)
    ensures t.inside == u.inside && t.counts == u.counts && t.devHeaders == u.devHeaders
    ensures t.flags == u.flags && t.hub == Registered(u.hub, name, u.nextTask)
  {
    hide ReachesAlone, IsLive, LoadedIds, EnableRefused, Contains, Errored, Registered, Alone;
    var a := u.nextTask;
    var v := AuditedAlone(s, u, Enable, name);
    OnlyIsAlone(v, a, Task(Enable, name, Audited));
    t := Next(v, Load(a, LoadFailed, Some(name), true));
    NoneIsAlone(t);
    AloneNext(s, v, Load(a, LoadFailed, Some(name), true));
  }

  /** A disable from its audit to its stop. */
  lemma {:induction false} StopAlone(s: Sys, v: Sys, b: nat, name: string) returns (t: Sys)
    requires ReachesAlone(s, v) && Only(v, b, Task(Disable, name, Audited)) && name in v.flags
    ensures ReachesAlone(s, t) && Only(t, b, Task(Disable, name, Unrouted(PoolOf(v.slots, name))))
    ensures t == v.(tasks := t.tasks, log := t.log, slots := Stopped(v.slots, name), flags := v.flags[name := false])
  {
    hide ReachesAlone, Stopped, PoolOf, Alone;
    OnlyIsAlone(v, b, Task(Disable, name, Audited));
    DisableStops(v, b);
    var w := Next(v, WriteFlag(b, true));
    OnlyIsAlone(w, b, Task(Disable, name, Unflagged));
    AloneNext(s, v, WriteFlag(b, true));
    t := Next(w, Stop(b));
    OnlyIsAlone(t, b, Task(Disable, name, Unrouted(PoolOf(v.slots, name))));
    AloneNext(s, w, Stop(b));
  }

  /** A disable with nobody inside, from its stop to its end. */
  lemma {:induction false} EndAlone(s: Sys, v: Sys, b: nat, name: string, pool: nat) returns (t: Sys)
    requires ReachesAlone(s, v) && Only(v, b, Task(Disable, name, Unrouted(Some(pool)))) && v.counts == map[]
    ensures ReachesAlone(s, t) && t.tasks == map[] && t.hub == Switched(v.hub, name, false)
    ensures t == v.(tasks := map[], closings := t.closings, hub := t.hub)
  {
    hide ReachesAlone, Switched, Alone;
    OnlyIsAlone(v, b, Task(Disable, name, Unrouted(Some(pool))));
    var w := Next(v, UnbindProvider(b));
    OnlyIsAlone(w, b, Task(Disable, name, Draining(pool)));
    AloneNext(s, v, UnbindProvider(b));
    var x := Next(w, Wait(b, false));
    OnlyIsAlone(x, b, Task(Disable, name, Idle(pool)));
    AloneNext(s, w, Wait(b, false));
    t := Next(x, Close(b));
    NoneIsAlone(t);
    AloneNext(s, x, Close(b));
  }

  /** An enable from its audit to the revert of its load. */
  lemma {:induction false} RevertAlone(s: Sys, v: Sys, c: nat, p: Loaded) returns (t: Sys)
    requires ReachesAlone(s, v) && Only(v, c, Task(Enable, p.info.id, Audited)) && Agrees(Live(p))
    ensures ReachesAlone(s, t) && t.tasks == map[]
    ensures t.hub == Switched(Switched(v.hub, p.info.id, true), p.info.id, false)
  {
    var name := p.info.id;
    hide ReachesAlone, Switched, Agrees, Alone, Installed, Stopped, PoolOf;
    OnlyIsAlone(v, c, Task(Enable, name, Audited));
    var w := Next(v, Load(c, Declares(p), None, true));
    OnlyIsAlone(w, c, Task(Enable, name, Prepared(p)));
    AloneNext(s, v, Load(c, Declares(p), None, true));
    var x := Next(w, Install(c));
    OnlyIsAlone(x, c, Task(Enable, name, InPlace));
    AloneNext(s, w, Install(c));
    var z := BindAlone(s, x, c, name);
    t := UndoAlone(s, z, c, name);
  }

  lemma {:induction false} BindAlone(s: Sys, x: Sys, c: nat, name: string) returns (z: Sys)
    requires ReachesAlone(s, x) && Only(x, c, Task(Enable, name, InPlace))
    ensures ReachesAlone(s, z) && Only(z, c, Task(Enable, name, Reverting)) && z.hub == Switched(x.hub, name, true)
  {
    hide ReachesAlone, Switched, Alone;
    OnlyIsAlone(x, c, Task(Enable, name, InPlace));
    var y := Next(x, BindProvider(c));
    OnlyIsAlone(y, c, Task(Enable, name, Bound));
    AloneNext(s, x, BindProvider(c));
    z := Next(y, WriteFlag(c, false));
    OnlyIsAlone(z, c, Task(Enable, name, Reverting));
    AloneNext(s, y, WriteFlag(c, false));
  }

  lemma {:induction false} UndoAlone(s: Sys, z: Sys, c: nat, name: string) returns (t: Sys)
    requires ReachesAlone(s, z) && Only(z, c, Task(Enable, name, Reverting))
    ensures ReachesAlone(s, t) && t.tasks == map[] && t.hub == Switched(z.hub, name, false)
  {
    hide ReachesAlone, Switched, Alone, Stopped, PoolOf;
    OnlyIsAlone(z, c, Task(Enable, name, Reverting));
    var w := Next(z, Stop(c));
    OnlyIsAlone(w, c, Task(Enable, name, Reverted));
    AloneNext(s, z, Stop(c));
    t := Next(w, UnbindProvider(c));
    NoneIsAlone(t);
    AloneNext(s, w, UnbindProvider(c));
  }

  /** What the slots say after the failed load, and after the disable that follows it. */
  lemma SlotsAlong(slots: seq<Slot>, name: string, last: string)
    requires Consistent(slots) && Contains(slots, name) && IsLive(slots, last) && !IsLive(slots, name)
    requires !EnableRefused(name, LoadedIds(slots)) && (name, last) !in PLUGIN_DEPENDENCIES
    requires !DisableRefused(last, LoadedIds(slots))
    ensures var failed := Errored(slots, name, STAYS_DISABLED);
            && Consistent(failed) && Contains(failed, last) && IsLive(failed, last)
            && !DisableRefused(last, LoadedIds(failed))
            && var stopped := Stopped(failed, last);
               Contains(stopped, name) && !IsLive(stopped, name) && !EnableRefused(name, LoadedIds(stopped))
  {
    var failed := Errored(slots, name, STAYS_DISABLED);
    var stopped := Stopped(failed, last);
    ErroredConsistent(slots, name, STAYS_DISABLED);
    StoppedConsistent(failed, last);
    forall id
      ensures Contains(failed, id) == Contains(slots, id) && Contains(stopped, id) == Contains(slots, id)
      ensures id in LoadedIds(failed) <==> id in LoadedIds(slots)
      ensures id in LoadedIds(stopped) <==> id != last && id in LoadedIds(slots)
      ensures IsLive(failed, id) == IsLive(slots, id) && IsLive(stopped, id) == (id != last && IsLive(slots, id))
    {
      ErroredLookup(slots, name, STAYS_DISABLED, id);
      StoppedLookup(failed, last, id);
      LoadedIsLive(slots, id);
      LoadedIsLive(failed, id);
      LoadedIsLive(stopped, id);
    }
    hide Errored, Stopped, IsLive, Contains, LoadedIds, Consistent;
    assert IsLive(slots, last) ==> Contains(slots, last) by {
      LiveIsKnown(slots, last);
    }
  }

  lemma LiveIsKnown(slots: seq<Slot>, id: string)
    ensures IsLive(slots, id) ==> Contains(slots, id)
  {
  }

  lemma LivePool(slots: seq<Slot>, id: string)
    ensures IsLive(slots, id) ==> PoolOf(slots, id).Some?
  {
  }

  lemma ProvidersAlong(hub: Hub, name: string, last: string, t: nat)
    requires Enabled(hub) == {last} && name != last && name !in hub.disabled
    ensures var registered := Registered(hub, name, t);
            && Enabled(registered) == {last, name} && Enabled(registered) != {last}
            && var switched := Switched(registered, last, false);
               Enabled(Switched(Switched(switched, name, true), name, false)) == {}
  {
    assert name in Enabled(Registered(hub, name, t));
  }

  /** From every booted server with one provider, of a plugin that may be disabled, and another plugin
      that registers one: its enable fails after registering; the disable of the last provider is then
      allowed, for the guard counts the new one; and a second enable whose flag write fails switches
      that one off too. Never did two changes overlap. */
  lemma {:induction false} RevertLeavesNoProvider(s: Sys, last: string, p: Loaded)
    requires Init(s) && !s.devHeaders && Enabled(s.hub) == {last} && p.info.id !in s.hub.disabled && p.info.id != last
    requires IsLive(s.slots, last) && !DisableRefused(last, LoadedIds(s.slots)) && Agrees(Live(p))
    requires Contains(s.slots, p.info.id) && !IsLive(s.slots, p.info.id)
             && !EnableRefused(p.info.id, LoadedIds(s.slots))
    requires (p.info.id, last) !in PLUGIN_DEPENDENCIES
    ensures exists t :: ReachesAlone(s, t) && Enabled(t.hub) == {}
  {
    var name := p.info.id;
    assert Consistent(s.slots) && Flagged(s.flags, last) && s.tasks == map[];
    SlotsAlong(s.slots, name, last);
    ProvidersAlong(s.hub, name, last, s.nextTask);
    NoneIsAlone(s);
    AloneItself(s);
    LivePool(Errored(s.slots, name, STAYS_DISABLED), last);
    hide ReachesAlone, IsLive, LoadedIds, EnableRefused, DisableRefused, Contains, Errored, Stopped, PoolOf, Consistent;
    hide Boots, Enabled, Registered, Switched, Agrees, Alone;
    var u := FailedLoadAlone(s, s, name);
    var v := AuditedAlone(s, u, Disable, last);
    v := StopAlone(s, v, u.nextTask, last);
    v := EndAlone(s, v, u.nextTask, last, PoolOf(u.slots, last).value);
    var w := AuditedAlone(s, v, Enable, name);
    var t := RevertAlone(s, w, v.nextTask, p);
  }
}
