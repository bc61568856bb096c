/** What holds in every interleaving of enables, disables, uninstalls, reloads, choices, requests,
    dropped handlers and restarts. */
module DoorGuarantees {
  import opened Registry
  import opened IdentityHub
  import opened InFlight
  import opened Lifecycle
  import opened LifecycleGuarantees
  import opened LifecycleShape
  import opened LifecycleDoors
  import Governance
  import Providers = IdentityHub

  // --- the pools a registry routes to ---

  lemma RoutedErrored(slots: seq<Slot>, id: string, message: string)
    ensures Routed(Errored(slots, id, message)) == Routed(slots)
  {
    var after := Errored(slots, id, message);
    forall k | 0 <= k < |slots|
      ensures after[k].Live? == slots[k].Live?
      ensures slots[k].Live? ==>
                after[k].plugin.pool == slots[k].plugin.pool && after[k].plugin.info.id == slots[k].plugin.info.id
    {
    }
    hide Errored;
    assert forall x :: x in Routed(after) ==> x in Routed(slots);
    assert forall x :: x in Routed(slots) ==> x in Routed(after);
  }

  lemma RoutedInstalled(slots: seq<Slot>, p: Loaded)
    ensures Routed(Installed(slots, p)) <= Routed(slots) + {(p.pool, p.info.id)}
  {
  }

  lemma RoutedStopped(slots: seq<Slot>, id: string)
    requires Consistent(slots)
    ensures Routed(Stopped(slots, id)) <= Routed(slots)
    ensures forall x :: x in Routed(Stopped(slots, id)) ==> x.1 != id
  {
    StoppedConsistent(slots, id);
    StoppedLookup(slots, id, id);
    RoutedIsLive(Stopped(slots, id), id);
  }

  lemma RoutedRemoved(slots: seq<Slot>, id: string)
    ensures Routed(Registry.Removed(slots, id)) <= Routed(slots)
  {
  }

  lemma RoutedIsLive(slots: seq<Slot>, id: string)
    requires Consistent(slots)
    ensures forall x :: x in Routed(slots) && x.1 == id ==> IsLive(slots, id)
  {
    forall k | 0 <= k < |slots| && slots[k].Live? && slots[k].plugin.info.id == id
      ensures IsLive(slots, id)
    {
      PositionIs(slots, id, k);
    }
  }

  lemma {:induction false} LiveIsRouted(slots: seq<Slot>, id: string)
    requires IsLive(slots, id)
    ensures (slots[Position(slots, id)].plugin.pool, id) in Routed(slots)
  {
  }

  lemma {:induction false} OwnedHas(generation: seq<Slot>, x: (nat, string))
    requires forall x, y :: x in Routed(generation) && y in Routed(generation) && x.0 == y.0 ==> x == y
    requires x in Routed(generation)
    ensures x.0 in Owned(generation) && Owned(generation)[x.0] == x.1
    decreases |generation|
  {
    var own, rest := generation[0], generation[1..];
    assert forall y :: y in Routed(rest) ==> y in Routed(generation) by {
      RoutedRest(generation);
    }
    if own.Live? && x == (own.plugin.pool, own.plugin.info.id) {
    } else {
      var k :| 0 <= k < |generation| && generation[k].Live?
        && x == (generation[k].plugin.pool, generation[k].plugin.info.id);
      assert rest[k - 1] == generation[k];
      OwnedHas(rest, x);
      assert own.Live? ==> (own.plugin.pool, own.plugin.info.id) in Routed(generation);
    }
  }

  lemma RoutedRest(slots: seq<Slot>)
    requires slots != []
    ensures Routed(slots[1..]) <= Routed(slots)
  {
  }

  lemma {:induction false} OwnedOnly(generation: seq<Slot>, pool: nat)
    ensures pool in Owned(generation) ==> exists x :: x in Routed(generation) && x.0 == pool
  {
    if generation != [] {
      OwnedOnly(generation[1..], pool);
      RoutedRest(generation);
      assert generation[0].Live? ==> (generation[0].plugin.pool, generation[0].plugin.info.id) in Routed(generation);
    }
  }

  // --- the invariants ---

  /** Each request inside works on a pool of the plugin it entered. */
  predicate UsesOk(w: World) {
    && w.uses.Keys == w.sys.inside.Keys
    && forall r :: r in w.uses ==> w.uses[r] in w.owner && w.owner[w.uses[r]] == w.sys.inside[r]
  }

  predicate SlotsOwned(w: World) {
    forall x :: x in Routed(w.sys.slots) ==> x.0 in w.owner && w.owner[x.0] == x.1
  }

  predicate NotRouted(slots: seq<Slot>, pool: nat) {
    forall x :: x in Routed(slots) ==> x.0 != pool
  }

  predicate Unused(w: World, pool: nat) {
    forall r :: r in w.uses ==> w.uses[r] != pool
  }

  /** The pool a disable holds is its plugin's and is not routed to; once it was idle nobody is on it. */
  predicate HeldOk(w: World, task: Task) {
    Held(task.phase).Some? ==>
      var pool := Held(task.phase).value;
      && pool in w.owner && w.owner[pool] == task.name && NotRouted(w.sys.slots, pool)
      && (task.phase.Idle? ==> Unused(w, pool))
  }

  predicate AllHeldOk(w: World) {
    forall t :: t in w.sys.tasks ==> HeldOk(w, w.sys.tasks[t])
  }

  /** The audit row comes first at every door: an uninstall's and a reload's before the slots move, a
      choice's before the flags do. */
  predicate DoorsOk(w: World) {
    forall u :: u in w.doors ==> u < w.nextDoor && (!w.doors[u].Guarded? && !w.doors[u].Built? ==> u in w.audited)
  }

  ghost predicate Sound(w: World) {
    && Consistent(w.sys.slots) && TasksSound(w.sys) && LogOk(w.sys.log) && TasksAudited(w.sys)
    && Tallies(w.sys.counts, w.sys.inside)
    && UsesOk(w) && SlotsOwned(w) && AllHeldOk(w) && DoorsOk(w)
  }

  // --- a step of the locked protocol keeps them ---

  predicate IsTaskStep(e: Step) {
    !(e.Begin? || e.Enter? || e.Leave? || e.Crash?)
  }

  /** Owners are never changed, and what is routed to is old or new. */
  predicate PoolsGrow(w: World, w': World) {
    && (forall p :: p in w.owner ==> p in w'.owner && w'.owner[p] == w.owner[p])
    && (forall x :: x in Routed(w'.sys.slots) ==>
          x in Routed(w.sys.slots) || (x.0 !in w.owner && x.0 in w'.owner && w'.owner[x.0] == x.1))
  }

  lemma GrowKeepsSlots(w: World, w': World)
    requires SlotsOwned(w) && PoolsGrow(w, w')
    ensures SlotsOwned(w')
  {
    hide Routed;
  }

  lemma GrowKeepsHeld(w: World, w': World, task: Task)
    requires HeldOk(w, task) && PoolsGrow(w, w')
    requires forall r :: r in w'.uses ==>
               || (r in w.uses && w'.uses[r] == w.uses[r])
               || exists x :: x in Routed(w.sys.slots) && x.0 == w'.uses[r]
    ensures HeldOk(w', task)
  {
    hide Routed;
  }

  lemma ShiftGrows(w: World, e: Step)
    requires TasksSound(w.sys) && Consistent(w.sys.slots) && IsTaskStep(e) && Possible(w, e) && Next(w.sys, e) != w.sys
    ensures PoolsGrow(w, InnerNext(w, e))
  {
    TaskStepShifts(w.sys, e);
    assert SlotShift(w.sys, e, Next(w.sys, e)) && TaskSound(w.sys.tasks[e.t]);
    hide Next, TasksSound, Shifts, TaskSound, Consistent, SlotShift;
    SlotsGrow(w, e, Next(w.sys, e));
  }

  lemma SlotsGrow(w: World, e: Step, s': Sys)
    requires IsTaskStep(e) && e.t in w.sys.tasks && SlotShift(w.sys, e, s')
    requires Consistent(w.sys.slots) && Possible(w, e)
    ensures PoolsGrow(w, w.(sys := s', uses := UsesNext(w, e), owner := OwnerNext(w, e)))
  {
    var slots, task := w.sys.slots, w.sys.tasks[e.t];
    hide Routed, Consistent, Errored, Installed, Stopped, UsesNext;
    if e.Load? {
      RoutedErrored(slots, task.name, STAYS_DISABLED);
    } else if e.Stop? {
      RoutedStopped(slots, task.name);
    } else if e.Install? && task.phase.Prepared? {
      RoutedInstalled(slots, task.phase.plugin);
    }
  }

  lemma QuietGrows(w: World, e: Step)
    requires Next(w.sys, e) == w.sys || e.Begin? || e.Enter? || e.Leave?
    requires Possible(w, e)
    ensures PoolsGrow(w, InnerNext(w, e))
  {
    assert Installs(w, e) ==> Next(w.sys, e) != w.sys by {
      InstallMovesOn(w.sys, e);
    }
    hide Routed, IsLive, Entered, Left;
  }

  lemma InstallMovesOn(s: Sys, e: Step)
    ensures e.Install? && e.t in s.tasks && s.tasks[e.t].phase.Prepared? ==> Next(s, e) != s
  {
    if e.Install? && e.t in s.tasks && s.tasks[e.t].phase.Prepared? {
      assert Next(s, e).tasks[e.t].phase.InPlace?;
    }
  }

  /** What a task newly holds after its step. */
  lemma ShiftKeepsHeld(w: World, e: Step)
    requires Sound(w) && IsTaskStep(e) && Possible(w, e) && Next(w.sys, e) != w.sys
    ensures AllHeldOk(InnerNext(w, e))
  {
    var s, s', w' := w.sys, Next(w.sys, e), InnerNext(w, e);
    TaskStepShifts(s, e);
    ShiftGrows(w, e);
    assert w'.uses == w.uses && w'.sys == s';
    hide Next, InnerNext, Routed, Consistent, TasksSound, TaskSound, LogMoves, SlotShift, PoolsGrow, LogOk,
         TasksAudited;
    forall t | t in s'.tasks
      ensures HeldOk(w', s'.tasks[t])
    {
      if t != e.t || Held(s'.tasks[t].phase).None? {
        assert t in s.tasks && HeldOk(w, s.tasks[t]);
        GrowKeepsHeld(w, w', s.tasks[t]);
      } else {
        OwnHeld(w, e, w');
      }
    }
  }

  lemma OwnHeld(w: World, e: Step, w': World)
    requires Sound(w) && IsTaskStep(e) && Possible(w, e) && Shifts(w.sys, e, w'.sys, e.t) && PoolsGrow(w, w')
    requires w'.uses == w.uses && w'.sys == Next(w.sys, e)
    requires e.t in w'.sys.tasks && Held(w'.sys.tasks[e.t].phase).Some?
    ensures HeldOk(w', w'.sys.tasks[e.t])
  {
    var s, s' := w.sys, w'.sys;
    var task, task' := s.tasks[e.t], s'.tasks[e.t];
    assert HeldOk(w, task) && task'.name == task.name && HeldShift(s, e, task, task');
    hide Routed, Consistent, TasksSound, TaskSound, LogMoves, TaskMoves, Next, LogOk, TasksAudited, PoolOf;
    if Held(task'.phase) == Held(task.phase) {
      GrowKeepsHeld(w, w', task);
      if task'.phase.Idle? && !task.phase.Idle? {
        DrainedIsUnused(w, task);
      }
    } else {
      StoppedIsHeld(w, e, w');
    }
  }

  /** Nobody is on the pool of a plugin whose count is zero. */
  lemma DrainedIsUnused(w: World, task: Task)
    requires Tallies(w.sys.counts, w.sys.inside) && UsesOk(w) && HeldOk(w, task) && Held(task.phase).Some?
    requires Count(w.sys.counts, task.name) == 0
    ensures Unused(w, Held(task.phase).value)
  {
    hide NotRouted;
    assert Of(w.sys.inside, task.name) == {};
    forall r | r in w.uses
      ensures w.uses[r] != Held(task.phase).value
    {
      assert w.sys.inside[r] == task.name ==> r in Of(w.sys.inside, task.name);
    }
  }

  /** The pool a disable takes at its stop is its plugin's, and is routed to no more. */
  lemma StoppedIsHeld(w: World, e: Step, w': World)
    requires Consistent(w.sys.slots) && SlotsOwned(w) && PoolsGrow(w, w')
    requires e.Stop? && (At(w.sys, e.t, Reverting) || At(w.sys, e.t, Unflagged)) && w'.sys == StopNext(w.sys, e.t)
    requires e.t in w'.sys.tasks && w.sys.tasks[e.t].kind.Disable?
    ensures HeldOk(w', w'.sys.tasks[e.t])
  {
    var s, name := w.sys, w.sys.tasks[e.t].name;
    StopLogs(s, e.t);
    assert w'.sys.tasks[e.t] == s.tasks[e.t].(phase := Unrouted(PoolOf(s.slots, name)));
    if IsLive(s.slots, name) {
      LiveIsRouted(s.slots, name);
      RoutedStopped(s.slots, name);
      hide Routed, Stopped, Consistent, StopNext;
    }
  }

  lemma InnerKeepsUses(w: World, e: Step)
    requires UsesOk(w) && SlotsOwned(w) && Possible(w, e) && PoolsGrow(w, InnerNext(w, e))
    requires IsTaskStep(e) ==> Next(w.sys, e).inside == w.sys.inside
    ensures UsesOk(InnerNext(w, e))
  {
    hide Routed, Entered, Left, Consistent;
    if e.Enter? && e.request !in w.sys.inside && IsLive(w.sys.slots, e.plugin) {
      LiveIsRouted(w.sys.slots, e.plugin);
      hide IsLive;
    } else if e.Enter? || e.Leave? || e.Begin? {
      hide IsLive;
    } else {
      hide Next;
    }
  }

  lemma InnerKeepsHeld(w: World, e: Step)
    requires Sound(w) && Possible(w, e)
    ensures AllHeldOk(InnerNext(w, e)) && PoolsGrow(w, InnerNext(w, e))
  {
    hide Sound, InnerNext, AllHeldOk, PoolsGrow;
    SoundParts(w);
    if IsTaskStep(e) && Next(w.sys, e) != w.sys {
      ShiftGrows(w, e);
      ShiftKeepsHeld(w, e);
    } else {
      QuietGrows(w, e);
      QuietKeepsHeld(w, e);
    }
  }

  lemma SoundParts(w: World)
    requires Sound(w)
    ensures Consistent(w.sys.slots) && TasksSound(w.sys) && LogOk(w.sys.log) && TasksAudited(w.sys)
    ensures Tallies(w.sys.counts, w.sys.inside) && UsesOk(w) && SlotsOwned(w) && AllHeldOk(w) && DoorsOk(w)
  {
  }

  lemma QuietKeepsHeld(w: World, e: Step)
    requires AllHeldOk(w) && Possible(w, e) && PoolsGrow(w, InnerNext(w, e))
    requires (IsTaskStep(e) && Next(w.sys, e) == w.sys) || e.Begin? || e.Enter? || e.Leave?
    ensures AllHeldOk(InnerNext(w, e))
  {
    var w' := InnerNext(w, e);
    UsesGrow(w, e);
    assert forall t :: t in w'.sys.tasks ==>
             (t in w.sys.tasks && w'.sys.tasks[t] == w.sys.tasks[t]) || w'.sys.tasks[t].phase.Waiting? by {
      hide IsLive, Entered, Left, UsesNext, OwnerNext;
    }
    hide InnerNext, Routed, PoolsGrow, HeldOk;
    forall t | t in w'.sys.tasks
      ensures HeldOk(w', w'.sys.tasks[t])
    {
      if t in w.sys.tasks && w'.sys.tasks[t] == w.sys.tasks[t] {
        GrowKeepsHeld(w, w', w.sys.tasks[t]);
      } else {
        WaitingHolds(w', w'.sys.tasks[t]);
      }
    }
  }

  lemma WaitingHolds(w: World, task: Task)
    requires task.phase.Waiting?
    ensures HeldOk(w, task)
  {
  }

  lemma UsesGrow(w: World, e: Step)
    ensures forall r :: r in UsesNext(w, e) ==>
              || (r in w.uses && UsesNext(w, e)[r] == w.uses[r])
              || exists x :: x in Routed(w.sys.slots) && x.0 == UsesNext(w, e)[r]
  {
    if e.Enter? && e.request !in w.sys.inside && IsLive(w.sys.slots, e.plugin) {
      LiveIsRouted(w.sys.slots, e.plugin);
    }
    hide Routed, IsLive;
  }

  lemma InnerKeepsSys(w: World, e: Step)
    requires Sound(w) && !e.Crash?
    ensures var s' := Next(w.sys, e);
            && Consistent(s'.slots) && TasksSound(s') && LogOk(s'.log) && TasksAudited(s')
            && Tallies(s'.counts, s'.inside)
            && (IsTaskStep(e) ==> s'.inside == w.sys.inside)
  {
    SoundParts(w);
    var s, s' := w.sys, Next(w.sys, e);
    hide Sound, Consistent, TasksSound, LogOk, TasksAudited, Tallies, Shifts;
    if e.Begin? || e.Enter? || e.Leave? {
      OutsideKeepsTasks(s, e);
      OutsideKeepsLog(s, e);
      OutsideKeepsSlots(s, e);
      if !e.Begin? {
        TalliesKept(s, e);
      }
    } else if s' != s {
      TaskStepShifts(s, e);
      ShiftsKeepSlots(s, e, s', e.t);
      ShiftsKeepTasks(s, e, s', e.t);
      ShiftsKeepLog(s, e, s', e.t);
      ShiftsKeepInside(s, e, s', e.t);
      hide Next;
    }
  }

  lemma OutsideKeepsSlots(s: Sys, e: Step)
    requires e.Begin? || e.Enter? || e.Leave?
    ensures Next(s, e).slots == s.slots && (e.Begin? ==> Next(s, e).counts == s.counts && Next(s, e).inside == s.inside)
  {
    hide IsLive, Entered, Left;
  }

  lemma ShiftsKeepInside(s: Sys, e: Step, s': Sys, t: nat)
    requires Shifts(s, e, s', t)
    ensures s'.inside == s.inside && s'.counts == s.counts
  {
  }

  lemma InnerKeepsSound(w: World, e: Step)
    requires Sound(w)
    ensures Sound(InnerNext(w, e))
  {
    if Possible(w, e) {
      InnerKeepsSys(w, e);
      InnerKeepsHeld(w, e);
      SoundParts(w);
      InnerKeepsUses(w, e);
      GrowKeepsSlots(w, InnerNext(w, e));
      hide Next, Consistent, TasksSound, LogOk, TasksAudited, Tallies, UsesOk, SlotsOwned, AllHeldOk, PoolsGrow,
           IsTaskStep;
    }
  }

  // --- the doors keep them ---

  /** A step that leaves the tasks, the requests and the log alone. */
  predicate DoorMoves(w: World, w': World) {
    && w'.sys.tasks == w.sys.tasks && w'.sys.nextTask == w.sys.nextTask && w'.sys.log == w.sys.log
    && w'.sys.inside == w.sys.inside && w'.sys.counts == w.sys.counts && w'.uses == w.uses
  }

  lemma DoorKeepsSound(w: World, w': World)
    requires Sound(w) && DoorMoves(w, w') && PoolsGrow(w, w') && Consistent(w'.sys.slots) && DoorsOk(w')
    ensures Sound(w')
  {
    SoundParts(w);
    GrowKeepsSlots(w, w');
    hide Consistent, LogOk, AuditedBefore, Tallies, SlotsOwned, PoolsGrow, Routed, TaskSound;
    assert UsesOk(w') by {
      assert forall p :: p in w.owner ==> p in w'.owner && w'.owner[p] == w.owner[p] by {
        GrowsOwners(w, w');
      }
    }
    forall t | t in w'.sys.tasks
      ensures HeldOk(w', w'.sys.tasks[t])
    {
      assert HeldOk(w, w.sys.tasks[t]);
      GrowKeepsHeld(w, w', w.sys.tasks[t]);
    }
    hide HeldOk, UsesOk;
  }

  lemma GrowsOwners(w: World, w': World)
    requires PoolsGrow(w, w')
    ensures forall p :: p in w.owner ==> p in w'.owner && w'.owner[p] == w.owner[p]
  {
  }

  lemma SameSlotsGrow(w: World, w': World)
    requires w'.sys.slots == w.sys.slots && w'.owner == w.owner
    ensures PoolsGrow(w, w')
  {
  }

  /** The steps of a door that move no slot. */
  predicate Paper(e: WorldStep) {
    !(e.Inner? || e.Restart? || e.Remove? || e.Swap?)
  }

  lemma PaperMoves(w: World, e: WorldStep)
    requires Paper(e)
    ensures DoorMoves(w, WorldNext(w, e))
    ensures WorldNext(w, e).sys.slots == w.sys.slots && WorldNext(w, e).owner == w.owner
    ensures WorldNext(w, e).sys.closings == w.sys.closings
  {
    hide Governance.ApplyChoice, Enabled, Contains, Retained, Providers.Removed;
  }

  lemma DoorsStayOk(w: World, e: WorldStep)
    requires DoorsOk(w) && !e.Inner?
    ensures DoorsOk(WorldNext(w, e))
  {
    hide Governance.ApplyChoice, Enabled, Contains, Retained, Providers.Removed, Boots, Owned, Routed, ClosingOf,
         LiveClosings,
         FreshPools, Consistent;
  }

  lemma RemoveGrows(w: World, u: nat)
    requires u in w.doors && w.doors[u].Logged? && Consistent(w.sys.slots)
    ensures var w' := RemoveNext(w, u); DoorMoves(w, w') && PoolsGrow(w, w') && Consistent(w'.sys.slots)
  {
    RemovedConsistent(w.sys.slots, w.doors[u].name);
    RoutedRemoved(w.sys.slots, w.doors[u].name);
    hide Consistent, Routed, Contains, Registry.Removed, ClosingOf;
  }

  lemma SwapGrows(w: World, e: WorldStep)
    requires Swaps(w, e)
    ensures var w' := SwapNext(w, e.u, e.generation); DoorMoves(w, w') && PoolsGrow(w, w') && Consistent(w'.sys.slots)
  {
    GenerationIsOwned(w.owner, e.generation);
    hide Consistent, Routed, Owned, LiveClosings;
  }

  lemma {:induction false} GenerationIsOwned(owner: map<nat, string>, generation: seq<Slot>)
    requires FreshPools(generation, owner)
    ensures forall p :: p in owner ==> (owner + Owned(generation))[p] == owner[p]
    ensures forall x :: x in Routed(generation) ==>
              x.0 in owner + Owned(generation) && (owner + Owned(generation))[x.0] == x.1
  {
    hide Routed, Owned;
    forall p | p in owner
      ensures p !in Owned(generation)
    {
      OwnedOnly(generation, p);
    }
    forall x | x in Routed(generation)
      ensures x.0 in Owned(generation) && Owned(generation)[x.0] == x.1
    {
      OwnedHas(generation, x);
    }
  }

  lemma RestartKeepsSound(w: World, generation: seq<Slot>, providers: map<string, nat>)
    requires Sound(w)
    ensures Sound(RestartNext(w, generation, providers))
  {
    if Boots(generation, WantedFlags(w)) && FreshPools(generation, w.owner) {
      GenerationIsOwned(w.owner, generation);
      hide Routed, Owned, LogOk, AuditedBefore, IsLive;
    }
  }

  /** One step of anybody keeps every invariant. */
  lemma StepKeepsSound(w: World, e: WorldStep)
    requires Sound(w)
    ensures Sound(WorldNext(w, e))
  {
    var w' := WorldNext(w, e);
    if e.Inner? {
      InnerKeepsSound(w, e.e);
      hide InnerNext, Sound;
    } else if e.Restart? {
      RestartKeepsSound(w, e.generation, e.providers);
      hide RestartNext, Sound;
    } else {
      SoundParts(w);
      DoorsStayOk(w, e);
      if Paper(e) {
        PaperMoves(w, e);
        SameSlotsGrow(w, w');
        hide WorldNext;
      } else if e.Remove? && e.u in w.doors && w.doors[e.u].Logged? {
        RemoveGrows(w, e.u);
        hide RemoveNext;
      } else if Swaps(w, e) {
        SwapGrows(w, e);
        hide SwapNext;
      }
      hide Sound, DoorMoves, PoolsGrow, Consistent, DoorsOk, TasksSound, LogOk, TasksAudited, Tallies, UsesOk,
           SlotsOwned, AllHeldOk;
      if w' != w {
        DoorKeepsSound(w, w');
      }
    }
  }

  lemma InitIsSound(w: World)
    requires WorldInit(w)
    ensures Sound(w)
  {
    GenerationIsOwned(map[], w.sys.slots);
    assert map[] + Owned(w.sys.slots) == Owned(w.sys.slots);
    hide Routed, Owned, IsLive;
  }

  lemma {:induction false} WorldRunsAreSound(w: World, steps: seq<WorldStep>)
    requires WorldInit(w)
    ensures Sound(WorldRun(w, steps))
  {
    hide WorldNext, Sound;
    if steps == [] {
      InitIsSound(w);
    } else {
      WorldRunsAreSound(w, steps[..|steps| - 1]);
      StepKeepsSound(WorldRun(w, steps[..|steps| - 1]), steps[|steps| - 1]);
    }
  }
}
