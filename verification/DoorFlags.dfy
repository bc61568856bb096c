/** With every door open: exactly which steps leave what is live and what a restart would load apart,
    or break the dependency rules, and that whatever changes either was audited first. */
module DoorFlags {
  import opened Registry
  import opened LifecycleRules
  import opened IdentityHub
  import opened InFlight
  import opened Lifecycle
  import opened LifecycleGuarantees
  import opened LifecycleShape
  import opened LifecycleSerial
  import opened LifecycleDoors
  import opened DoorGuarantees
  import Governance
  import Providers = IdentityHub

  // --- what each step does to one plugin ---

  lemma WantedIsFlagged(w: World, name: string)
    ensures Flagged(WantedFlags(w), name) <==> Wanted(w, name)
  {
  }

  /** A flag write that reaches its row. */
  predicate Writes(w: World, e: Step, name: string) {
    && e.WriteFlag? && e.written && e.t in w.sys.tasks && w.sys.tasks[e.t].name == name && name in w.sys.flags
    && (At(w.sys, e.t, Bound) || (At(w.sys, e.t, Audited) && w.sys.tasks[e.t].kind.Disable?))
  }

  predicate Stops(w: World, e: Step, name: string) {
    e.Stop? && (At(w.sys, e.t, Reverting) || At(w.sys, e.t, Unflagged)) && w.sys.tasks[e.t].name == name
  }

  predicate InstallsOf(w: World, e: Step, name: string) {
    Installs(w, e) && w.sys.tasks[e.t].name == name
  }

  lemma InnerFlags(w: World, e: Step, name: string)
    requires Possible(w, e)
    ensures var w' := InnerNext(w, e);
            && w'.gone == w.gone && (name in w'.sys.flags <==> name in w.sys.flags)
            && Flagged(w'.sys.flags, name) ==
               if Writes(w, e, name) then w.sys.tasks[e.t].kind.Enable? else Flagged(w.sys.flags, name)
  {
    if e.WriteFlag? {
      hide IsLive;
    } else {
      OnlyFlagWritesWrite(w.sys, e);
      hide Next;
    }
  }

  lemma InnerLive(w: World, e: Step, name: string)
    requires Sound(w) && Possible(w, e)
    ensures IsLive(InnerNext(w, e).sys.slots, name) ==
            if InstallsOf(w, e, name) then true else if Stops(w, e, name) then false else IsLive(w.sys.slots, name)
  {
    assert Consistent(w.sys.slots) && TasksSound(w.sys);
    hide Sound, Consistent;
    if e.Install? {
      InstallLive(w, e, name);
    } else if e.Stop? {
      StopLive(w, e, name);
    } else if e.WriteFlag? {
      FlagKeepsSlots(w.sys, e);
      hide Next, IsLive;
    } else {
      OthersKeepTheWorld(w.sys, e, name);
      hide Next, IsLive;
    }
  }

  lemma InstallLive(w: World, e: Step, name: string)
    requires Consistent(w.sys.slots) && TasksSound(w.sys) && e.Install?
    ensures IsLive(Next(w.sys, e).slots, name) == (InstallsOf(w, e, name) || IsLive(w.sys.slots, name))
  {
    if Installs(w, e) {
      assert TaskSound(w.sys.tasks[e.t]);
      InstalledLookup(w.sys.slots, w.sys.tasks[e.t].phase.plugin, name);
    }
    hide IsLive, Installed, Agrees;
  }

  lemma StopLive(w: World, e: Step, name: string)
    requires Consistent(w.sys.slots) && e.Stop?
    ensures IsLive(Next(w.sys, e).slots, name) == (!Stops(w, e, name) && IsLive(w.sys.slots, name))
  {
    if At(w.sys, e.t, Reverting) || At(w.sys, e.t, Unflagged) {
      StopLogs(w.sys, e.t);
      StoppedLookup(w.sys.slots, w.sys.tasks[e.t].name, name);
    }
    hide IsLive, Stopped, StopNext;
  }

  predicate Removes(w: World, e: WorldStep, name: string) {
    e.Remove? && e.u in w.doors && w.doors[e.u] == Logged(name)
  }

  predicate Marks(w: World, e: WorldStep, name: string) {
    e.Mark? && e.written && e.u in w.doors && w.doors[e.u] == Taken(name) && name in w.sys.flags
  }

  /** A choice that is written. */
  predicate Chooses(w: World, e: WorldStep) {
    && e.WriteChoice? && e.committed && e.u in w.doors && w.doors[e.u].Decided?
    && Governance.ApplyChoice(w.sys.flags, w.doors[e.u].chosen).Ok?
  }

  lemma DoorFlagged(w: World, e: WorldStep, name: string)
    requires !e.Inner?
    ensures var w' := WorldNext(w, e);
            && (name in w'.sys.flags <==> name in w.sys.flags)
            && (name in w'.gone <==> name in w.gone || Marks(w, e, name))
            && Flagged(w'.sys.flags, name) ==
               if Chooses(w, e) then name in w.sys.flags && name in w.doors[e.u].chosen else Flagged(w.sys.flags, name)
  {
    hide Enabled, Contains, Retained, Providers.Removed, Registry.Removed, Owned, Routed, ClosingOf, LiveClosings,
         FreshPools, Consistent, Boots, IsLive, WantedFlags;
    if e.WriteChoice? {
      ChoiceFlags(w, e, name);
    } else if e.Mark? {
      hide Governance.ApplyChoice;
    } else {
      OthersLeaveRows(w, e);
      hide WorldNext, Governance.ApplyChoice;
    }
  }

  lemma ChoiceFlags(w: World, e: WorldStep, name: string)
    requires e.WriteChoice?
    ensures var w' := WorldNext(w, e);
            && (name in w'.sys.flags <==> name in w.sys.flags) && w'.gone == w.gone
            && Flagged(w'.sys.flags, name) ==
               if Chooses(w, e) then name in w.sys.flags && name in w.doors[e.u].chosen else Flagged(w.sys.flags, name)
  {
    hide Governance.ApplyChoice;
    if Chooses(w, e) {
      Governance.ChoiceIsExact(w.sys.flags, w.doors[e.u].chosen);
      assert name in w.doors[e.u].chosen <==> name in set c | c in w.doors[e.u].chosen;
      assert Flagged(WorldNext(w, e).sys.flags, name) <==> name in Governance.ChosenSet(WorldNext(w, e).sys.flags);
    }
  }

  lemma OthersLeaveRows(w: World, e: WorldStep)
    requires !e.Inner? && !e.WriteChoice? && !e.Mark?
    ensures WorldNext(w, e).sys.flags == w.sys.flags && WorldNext(w, e).gone == w.gone
  {
    hide Governance.ApplyChoice, Enabled, Contains, Retained, Providers.Removed, Registry.Removed, Owned, Routed,
         ClosingOf, LiveClosings, FreshPools, Consistent, Boots, IsLive, WantedFlags;
  }

  lemma DoorLive(w: World, e: WorldStep, name: string)
    requires Consistent(w.sys.slots) && !e.Inner? && !e.Restart?
    ensures IsLive(WorldNext(w, e).sys.slots, name) ==
            if Removes(w, e, name) then false
            else if Swaps(w, e) then IsLive(e.generation, name)
            else IsLive(w.sys.slots, name)
  {
    if Paper(e) {
      PaperMoves(w, e);
      hide WorldNext, IsLive;
    } else if e.Remove? {
      if e.u in w.doors && w.doors[e.u].Logged? {
        RemovedLookup(w.sys.slots, w.doors[e.u].name, name);
        KnownIfLive(w.sys.slots, name);
      }
      hide Consistent, IsLive, Registry.Removed, ClosingOf, Contains;
    } else {
      hide Consistent, IsLive, LiveClosings, Owned, FreshPools;
    }
  }

  lemma KnownIfLive(slots: seq<Slot>, id: string)
    ensures IsLive(slots, id) ==> Contains(slots, id)
  {
  }

  lemma RestartLive(w: World, e: WorldStep, name: string)
    requires e.Restart? && WorldNext(w, e) != w
    ensures IsLive(WorldNext(w, e).sys.slots, name) <==> Wanted(w, name)
  {
    WantedIsFlagged(w, name);
    hide IsLive, Consistent, FreshPools, Owned, WantedFlags;
  }

  // --- what a restart would load is live ---

  /** A restart would load the plugin, and it is not live. */
  predicate Lost(w: World, name: string) {
    Wanted(w, name) && !IsLive(w.sys.slots, name)
  }

  /** An enable that turns the flag on when its plugin is gone from under it, a stop or an uninstall of a
      plugin whose flag is on, a choice of one that is not live, or a swap to a generation without it. */
  predicate Loses(w: World, e: WorldStep, name: string) {
    match e
    case Inner(s) =>
      || (Writes(w, s, name) && w.sys.tasks[s.t].kind.Enable? && name !in w.gone && !IsLive(w.sys.slots, name))
      || (Stops(w, s, name) && Wanted(w, name))
    case Remove(_) => Removes(w, e, name) && Wanted(w, name)
    case WriteChoice(u, _) =>
      Chooses(w, e) && name in w.sys.flags && name in w.doors[u].chosen && name !in w.gone && !IsLive(w.sys.slots, name)
    case Swap(_, generation) => Swaps(w, e) && Wanted(w, name) && !IsLive(generation, name)
    case _ => false
  }

  /** Exactly when a plugin that a restart would load stops being live, or one that is not live is
      wanted, with every door open. */
  lemma LostIff(w: World, e: WorldStep, name: string)
    requires Sound(w) && !Lost(w, name)
    ensures Lost(WorldNext(w, e), name) <==> Loses(w, e, name)
  {
    SoundParts(w);
    hide Sound, Consistent, Boots, FreshPools, InstallsOf, Writes, Stops, Possible;
    if e.Inner? {
      InnerLostIff(w, e.e, name);
    } else if e.Restart? {
      if WorldNext(w, e) != w {
        RestartLive(w, e, name);
        DoorFlagged(w, e, name);
      }
      hide WorldNext, IsLive;
    } else {
      DoorFlagged(w, e, name);
      DoorLive(w, e, name);
      hide WorldNext, IsLive;
    }
  }

  lemma InnerLostIff(w: World, e: Step, name: string)
    requires Sound(w) && !Lost(w, name)
    ensures Lost(InnerNext(w, e), name) <==> Loses(w, Inner(e), name)
  {
    if Possible(w, e) {
      InnerFlags(w, e, name);
      InnerLive(w, e, name);
      hide InnerNext, IsLive, Sound;
    } else {
      hide IsLive, Sound;
    }
  }

  // --- what is live is what a restart would load ---

  /** Live, though a restart would not load it, and no change under way is about to settle it. */
  predicate Stray(w: World, name: string) {
    name in w.sys.flags && IsLive(w.sys.slots, name) && !Wanted(w, name) && !InTransit(w.sys, name)
  }

  predicate Unwanted(w: World, name: string) {
    name in w.sys.flags && !Wanted(w, name)
  }

  /** The end of a task that was about to settle its plugin: a dropped handler, or a flag write that
      turns on the flag of a plugin that was uninstalled meanwhile. */
  predicate Abandons(w: World, e: Step, name: string) {
    || (e.Cancel? && e.t in w.sys.tasks && w.sys.tasks[e.t].name == name && Unwanted(w, name)
        && (At(w.sys, e.t, Bound) || At(w.sys, e.t, Reverting) || At(w.sys, e.t, Unflagged)))
    || (Writes(w, e, name) && w.sys.tasks[e.t].kind.Enable? && name in w.gone)
  }

  /** A task abandoned, or while no change of it is under way: an uninstall of a plugin that came back, a
      choice without it, or a swap to a generation that has it. */
  predicate Strays(w: World, e: WorldStep, name: string) {
    match e
    case Inner(s) => Abandons(w, s, name) && IsLive(w.sys.slots, name)
    case Mark(_, _) => Marks(w, e, name) && IsLive(w.sys.slots, name) && !InTransit(w.sys, name)
    case WriteChoice(u, _) =>
      && Chooses(w, e) && name in w.sys.flags && name !in w.doors[u].chosen
      && IsLive(w.sys.slots, name) && !InTransit(w.sys, name)
    case Swap(_, generation) =>
      Swaps(w, e) && Unwanted(w, name) && IsLive(generation, name) && !InTransit(w.sys, name)
    case _ => false
  }

  /** Exactly when a plugin is left live that a restart would not load, with every door open. */
  lemma StrayIff(w: World, e: WorldStep, name: string)
    requires Sound(w) && !Stray(w, name)
    ensures Stray(WorldNext(w, e), name) <==> Strays(w, e, name)
  {
    SoundParts(w);
    hide Sound, Consistent, Boots, FreshPools, InTransit;
    if e.Inner? {
      InnerStrayIff(w, e.e, name);
    } else if e.Restart? {
      if WorldNext(w, e) != w {
        RestartLive(w, e, name);
        DoorFlagged(w, e, name);
      }
      hide WorldNext, IsLive;
    } else {
      DoorFlagged(w, e, name);
      DoorLive(w, e, name);
      DoorTransit(w, e, name);
      hide WorldNext, IsLive;
    }
  }

  lemma DoorTransit(w: World, e: WorldStep, name: string)
    requires Sound(w) && !e.Inner? && !e.Restart?
    ensures InTransit(WorldNext(w, e).sys, name) <==> InTransit(w.sys, name)
  {
    DoorsKeepTasks(w, e);
    hide WorldNext, Sound;
  }

  lemma DoorsKeepTasks(w: World, e: WorldStep)
    requires !e.Inner? && !e.Restart?
    ensures WorldNext(w, e).sys.tasks == w.sys.tasks
  {
    if Paper(e) {
      PaperMoves(w, e);
    }
    hide Registry.Removed, Consistent, FreshPools, Owned, LiveClosings, ClosingOf, IsLive, Contains;
  }

  lemma InnerStrayIff(w: World, e: Step, name: string)
    requires Sound(w) && !Stray(w, name)
    ensures Stray(InnerNext(w, e), name) <==> Strays(w, Inner(e), name)
  {
    hide Sound, Stray, Strays, InnerNext;
    if Possible(w, e) {
      PossibleStrayIff(w, e, name);
    } else {
      ImpossibleStrays(w, e, name);
    }
  }

  lemma ImpossibleStrays(w: World, e: Step, name: string)
    requires !Possible(w, e) && !Stray(w, name)
    ensures InnerNext(w, e) == w && !Strays(w, Inner(e), name)
  {
    hide IsLive;
  }

  lemma PossibleStrayIff(w: World, e: Step, name: string)
    requires Sound(w) && Possible(w, e) && !Stray(w, name)
    ensures Stray(InnerNext(w, e), name) <==> Strays(w, Inner(e), name)
  {
    SoundParts(w);
    InnerFlags(w, e, name);
    InnerLive(w, e, name);
    InnerTransit(w, e, name);
    hide Sound, InnerNext, IsLive, InTransit, Consistent, TasksSound;
  }

  predicate Enters(w: World, e: Step, name: string) {
    InstallsOf(w, e, name) || (Writes(w, e, name) && w.sys.tasks[e.t].kind.Disable?)
  }

  /** A task comes into the transit by its install or by the flag write of a disable, and out of it by
      the flag write of an enable, a stop, or being dropped. */
  predicate StaysInTransit(s: Sys, e: Step, task: Task) {
    && Transit(task.phase) && !e.Cancel? && !e.Stop?
    && !(e.WriteFlag? && e.written && task.phase.Bound?)
  }

  predicate ComesInTransit(e: Step, task: Task) {
    || (e.Install? && task.phase.Prepared?)
    || (e.WriteFlag? && e.written && task.phase.Audited? && task.kind.Disable?)
  }

  lemma EarlyTransit(s: Sys, e: Step)
    requires (e.Check? || e.Audit? || e.Load?) && Next(s, e) != s
    ensures e.t in s.tasks && !Transit(s.tasks[e.t].phase)
    ensures e.t in Next(s, e).tasks ==> !Transit(Next(s, e).tasks[e.t].phase)
  {
    hide IsLive, CheckNext, LoadNext;
    if e.Check? {
      CheckShape(s, e.t, e.libraryThere, e.refusalAudited);
    } else if e.Load? {
      LoadPhase(s, e.t, e.outcome, e.registers, e.refusalAudited);
    }
  }

  lemma SlotTransit(s: Sys, e: Step)
    requires (e.Install? || e.Stop?) && Next(s, e) != s
    ensures e.t in s.tasks && e.t in Next(s, e).tasks
    ensures Transit(Next(s, e).tasks[e.t].phase) <==> e.Install?
    ensures e.Install? ==> s.tasks[e.t].phase.Prepared?
  {
    hide IsLive, Installed, Stopped, PoolOf;
  }

  lemma FlagTransit(s: Sys, e: Step)
    requires (e.WriteFlag? || e.BindProvider?) && Next(s, e) != s
    requires e.t in s.tasks ==> TaskSound(s.tasks[e.t])
    ensures e.t in s.tasks
    ensures (e.t in Next(s, e).tasks && Transit(Next(s, e).tasks[e.t].phase)) <==>
            ComesInTransit(e, s.tasks[e.t]) || StaysInTransit(s, e, s.tasks[e.t])
  {
    hide IsLive, Switched;
  }

  lemma LateTransit(s: Sys, e: Step)
    requires (e.UnbindProvider? || e.Wait? || e.Close? || e.Cancel?) && Next(s, e) != s
    ensures e.t in s.tasks && (!e.Cancel? ==> !Transit(s.tasks[e.t].phase))
    ensures e.t in Next(s, e).tasks ==> !Transit(Next(s, e).tasks[e.t].phase)
  {
    hide IsLive, Switched, Count;
  }

  lemma TransitShift(s: Sys, e: Step)
    requires TasksSound(s) && IsTaskStep(e) && Next(s, e) != s
    ensures e.t in s.tasks
    ensures (e.t in Next(s, e).tasks && Transit(Next(s, e).tasks[e.t].phase)) <==>
            ComesInTransit(e, s.tasks[e.t]) || StaysInTransit(s, e, s.tasks[e.t])
  {
    assert e.t in s.tasks ==> TaskSound(s.tasks[e.t]);
    hide Next, TasksSound, TaskSound;
    if e.Check? || e.Audit? || e.Load? {
      EarlyTransit(s, e);
    } else if e.Install? || e.Stop? {
      SlotTransit(s, e);
    } else if e.WriteFlag? || e.BindProvider? {
      FlagTransit(s, e);
    } else {
      LateTransit(s, e);
    }
  }

  /** With one task to a name, a plugin is in transit exactly when that task is. */
  lemma OwnTransit(s: Sys, s': Sys, t: nat, name: string)
    requires TasksSound(s) && t in s.tasks && TaskMoves(s, s', t)
    ensures name == s.tasks[t].name ==>
              (InTransit(s, name) <==> Transit(s.tasks[t].phase))
              && (InTransit(s', name) <==> t in s'.tasks && Transit(s'.tasks[t].phase))
    ensures name != s.tasks[t].name ==> (InTransit(s', name) <==> InTransit(s, name))
  {
    hide TaskSound, Transit;
    if name == s.tasks[t].name {
      assert forall u :: u in s.tasks && s.tasks[u].name == name ==> u == t;
    } else {
      assert forall u :: u != t ==> (u in s'.tasks <==> u in s.tasks) && (u in s.tasks ==> s'.tasks[u] == s.tasks[u]);
    }
  }

  lemma OutsideTransit(s: Sys, e: Step, name: string)
    requires TasksSound(s) && (e.Begin? || e.Enter? || e.Leave?)
    ensures InTransit(Next(s, e), name) <==> InTransit(s, name)
  {
    var s' := Next(s, e);
    assert e.Begin? ==> s.nextTask !in s.tasks;
    assert forall u :: u in s.tasks ==> u in s'.tasks && s'.tasks[u] == s.tasks[u];
    assert forall u :: u in s'.tasks && u !in s.tasks ==> s'.tasks[u].phase.Waiting?;
    hide Next, TasksSound;
  }

  /** What a step does to the transit of one plugin. */
  predicate TransitOk(w: World, e: Step, name: string, after: bool) {
    && (Abandons(w, e, name) ==> !after)
    && (Enters(w, e, name) ==> after)
    && (!Abandons(w, e, name) && !Enters(w, e, name) && !Stops(w, e, name)
        && !(Writes(w, e, name) && name !in w.gone) && Unwanted(w, name) ==>
          (after <==> InTransit(w.sys, name)))
  }

  lemma OutsideTransitOk(w: World, e: Step, name: string)
    requires e.Begin? || e.Enter? || e.Leave?
    ensures TransitOk(w, e, name, InTransit(w.sys, name))
  {
    hide InTransit;
  }

  lemma StillTransitOk(w: World, e: Step, name: string)
    requires IsTaskStep(e)
    requires !(e.Install? && e.t in w.sys.tasks && w.sys.tasks[e.t].phase.Prepared?)
    requires !(e.Cancel? && e.t in w.sys.tasks && Waits(w.sys.tasks[e.t].phase))
    requires !(e.WriteFlag? && (At(w.sys, e.t, Bound) || (At(w.sys, e.t, Audited) && w.sys.tasks[e.t].kind.Disable?)))
    ensures TransitOk(w, e, name, InTransit(w.sys, name))
  {
    hide InTransit, Unwanted;
  }

  lemma OtherTransitOk(w: World, e: Step, name: string)
    requires IsTaskStep(e) && e.t in w.sys.tasks && w.sys.tasks[e.t].name != name
    ensures TransitOk(w, e, name, InTransit(w.sys, name))
  {
    hide InTransit, Unwanted;
  }

  lemma OwnTransitOk(w: World, e: Step, after: bool)
    requires IsTaskStep(e) && e.t in w.sys.tasks && TaskSound(w.sys.tasks[e.t])
    requires InTransit(w.sys, w.sys.tasks[e.t].name) <==> Transit(w.sys.tasks[e.t].phase)
    requires after <==> ComesInTransit(e, w.sys.tasks[e.t]) || StaysInTransit(w.sys, e, w.sys.tasks[e.t])
    requires e.Cancel? ==> Waits(w.sys.tasks[e.t].phase)
    requires e.Stop? ==> At(w.sys, e.t, Reverting) || At(w.sys, e.t, Unflagged)
    ensures TransitOk(w, e, w.sys.tasks[e.t].name, after)
  {
    hide InTransit;
  }

  /** Whether a plugin is in transit after a step: as before, unless the step is one of its own task
      that enters, or leaves, the transit. */
  lemma InnerTransit(w: World, e: Step, name: string)
    requires TasksSound(w.sys) && Possible(w, e)
    ensures TransitOk(w, e, name, InTransit(InnerNext(w, e).sys, name))
  {
    var s, s' := w.sys, Next(w.sys, e);
    hide TransitOk, InTransit, TasksSound, TaskSound, ComesInTransit, StaysInTransit, Shifts, IsLive;
    if e.Begin? || e.Enter? || e.Leave? {
      OutsideTransit(s, e, name);
      OutsideTransitOk(w, e, name);
      hide Next;
    } else if s' != s {
      assert e.Cancel? ==> e.t in s.tasks && Waits(s.tasks[e.t].phase);
      assert e.Stop? ==> At(s, e.t, Reverting) || At(s, e.t, Unflagged);
      hide Next;
      TransitShift(s, e);
      TaskStepShifts(s, e);
      ShiftsMoveTasks(s, e, s', e.t);
      OwnTransit(s, s', e.t, name);
      TaskIsSound(s, e.t);
      if name == s.tasks[e.t].name {
        OwnTransitOk(w, e, InTransit(s', name));
      } else {
        OtherTransitOk(w, e, name);
      }
    } else {
      StillTransit(s, e);
      StillTransitOk(w, e, name);
      hide Next;
    }
  }

  lemma ShiftsMoveTasks(s: Sys, e: Step, s': Sys, t: nat)
    requires Shifts(s, e, s', t)
    ensures TaskMoves(s, s', t)
  {
  }

  lemma TaskIsSound(s: Sys, t: nat)
    requires TasksSound(s) && t in s.tasks
    ensures TaskSound(s.tasks[t])
  {
  }

  /** A step that changes nothing is none of these. */
  lemma StillTransit(s: Sys, e: Step)
    ensures Next(s, e) == s ==>
              && !(e.Install? && e.t in s.tasks && s.tasks[e.t].phase.Prepared?)
              && !(e.Cancel? && e.t in s.tasks && Waits(s.tasks[e.t].phase))
              && !(e.WriteFlag? && (At(s, e.t, Bound) || (At(s, e.t, Audited) && s.tasks[e.t].kind.Disable?)))
  {
    InstallMovesOn(s, e);
    hide Installed, IsLive;
    if e.WriteFlag? && (At(s, e.t, Bound) || (At(s, e.t, Audited) && s.tasks[e.t].kind.Disable?)) {
      assert e.t !in Next(s, e).tasks || Next(s, e).tasks[e.t].phase != s.tasks[e.t].phase;
    }
    if e.Cancel? && e.t in s.tasks && Waits(s.tasks[e.t].phase) {
      assert e.t !in Next(s, e).tasks;
    }
  }

  // --- when the two come together again ---

  /** An enable that installs the plugin, a flag written off, a mark or a choice without it, a swap to a
      generation that has it, or a restart. */
  ghost predicate Finds(w: World, e: WorldStep, name: string) {
    match e
    case Inner(s) => Possible(w, s) && Enters(w, s, name)
    case Restart(_, _) => WorldNext(w, e) != w
    case Mark(_, _) => Marks(w, e, name)
    case WriteChoice(u, _) => Chooses(w, e) && name !in w.doors[u].chosen
    case Swap(_, generation) => Swaps(w, e) && IsLive(generation, name)
    case _ => false
  }

  /** A task that takes the plugin up again, an uninstall, a choice with it, a swap to a generation
      without it, or a restart. */
  ghost predicate Settles(w: World, e: WorldStep, name: string) {
    match e
    case Inner(s) => Possible(w, s) && Enters(w, s, name)
    case Restart(_, _) => WorldNext(w, e) != w
    case Remove(_) => Removes(w, e, name)
    case WriteChoice(u, _) => Chooses(w, e) && name in w.doors[u].chosen && name !in w.gone
    case Swap(_, generation) => Swaps(w, e) && !IsLive(generation, name)
    case _ => false
  }

  /** Exactly what ends either. */
  lemma LostEndsIff(w: World, e: WorldStep, name: string)
    requires Sound(w) && Lost(w, name)
    ensures !Lost(WorldNext(w, e), name) <==> Finds(w, e, name)
  {
    SoundParts(w);
    hide Sound, Consistent, Boots, FreshPools, InstallsOf, Writes, Possible;
    if e.Inner? {
      InnerLostEndsIff(w, e.e, name);
    } else if e.Restart? {
      if WorldNext(w, e) != w {
        RestartLive(w, e, name);
        DoorFlagged(w, e, name);
      }
      hide WorldNext, IsLive;
    } else {
      DoorFlagged(w, e, name);
      DoorLive(w, e, name);
      hide WorldNext, IsLive;
    }
  }

  lemma InnerLostEndsIff(w: World, e: Step, name: string)
    requires Sound(w) && Lost(w, name)
    ensures !Lost(InnerNext(w, e), name) <==> Finds(w, Inner(e), name)
  {
    if Possible(w, e) {
      InnerFlags(w, e, name);
      InnerLive(w, e, name);
      hide InnerNext, IsLive, Sound;
    } else {
      hide IsLive, Sound;
    }
  }

  lemma StrayEndsIff(w: World, e: WorldStep, name: string)
    requires Sound(w) && Stray(w, name)
    ensures !Stray(WorldNext(w, e), name) <==> Settles(w, e, name)
  {
    SoundParts(w);
    hide Sound, Consistent, Boots, FreshPools, InTransit;
    if e.Inner? {
      InnerStrayEndsIff(w, e.e, name);
    } else if e.Restart? {
      if WorldNext(w, e) != w {
        RestartLive(w, e, name);
        DoorFlagged(w, e, name);
      }
      hide WorldNext, IsLive;
    } else {
      DoorFlagged(w, e, name);
      DoorLive(w, e, name);
      DoorTransit(w, e, name);
      hide WorldNext, IsLive;
    }
  }

  lemma InnerStrayEndsIff(w: World, e: Step, name: string)
    requires Sound(w) && Stray(w, name)
    ensures !Stray(InnerNext(w, e), name) <==> Settles(w, Inner(e), name)
  {
    if Possible(w, e) {
      SoundParts(w);
      InnerFlags(w, e, name);
      InnerLive(w, e, name);
      InnerTransit(w, e, name);
      assert Writes(w, e, name) && w.sys.tasks[e.t].kind.Enable? ==> InTransit(w.sys, name);
      assert Stops(w, e, name) ==> InTransit(w.sys, name);
      hide Sound, InnerNext, IsLive, InTransit, Consistent, TasksSound;
    } else {
      hide IsLive, Sound;
    }
  }

  // --- over whole runs ---

  lemma InitIsTogether(w: World, name: string)
    requires WorldInit(w)
    ensures !Lost(w, name) && !Stray(w, name)
  {
    WantedIsFlagged(w, name);
    hide IsLive, Consistent, FreshPools, Owned, WantedFlags;
  }

  ghost predicate LostSince(w: World, steps: seq<WorldStep>, i: nat, name: string) {
    forall j :: i <= j <= |steps| ==> Lost(WorldRun(w, steps[..j]), name)
  }

  ghost predicate StraySince(w: World, steps: seq<WorldStep>, i: nat, name: string) {
    forall j :: i <= j <= |steps| ==> Stray(WorldRun(w, steps[..j]), name)
  }

  /** Step `i` lost the plugin, and it has been so since. */
  ghost predicate LostAt(w: World, steps: seq<WorldStep>, i: nat, name: string) {
    i < |steps| && Loses(WorldRun(w, steps[..i]), steps[i], name) && LostSince(w, steps, i + 1, name)
  }

  ghost predicate StrayedAt(w: World, steps: seq<WorldStep>, i: nat, name: string) {
    i < |steps| && Strays(WorldRun(w, steps[..i]), steps[i], name) && StraySince(w, steps, i + 1, name)
  }

  /** Over every run of everybody: a plugin that a restart would load and that is not live came to be
      so by one of those steps, and has been so since. */
  lemma {:induction false} LostComesFrom(w: World, steps: seq<WorldStep>, name: string) returns (i: nat)
    requires WorldInit(w) && Lost(WorldRun(w, steps), name)
    ensures LostAt(w, steps, i, name)
  {
    hide WorldNext, Lost, Loses, WorldInit, Sound;
    InitIsTogether(w, name);
    var n := |steps| - 1;
    assert steps != [];
    WorldRunsAreSound(w, steps[..n]);
    if Lost(WorldRun(w, steps[..n]), name) {
      i := LostComesFrom(w, steps[..n], name);
      assert steps[..n][..i] == steps[..i] && steps[..n][i] == steps[i];
      forall j | i + 1 <= j <= |steps|
        ensures Lost(WorldRun(w, steps[..j]), name)
      {
        if j == |steps| {
          assert steps[..j] == steps;
        } else {
          assert steps[..n][..j] == steps[..j] && Lost(WorldRun(w, steps[..n][..j]), name);
        }
      }
    } else {
      i := n;
      LostIff(WorldRun(w, steps[..n]), steps[n], name);
      assert steps[..n + 1] == steps;
    }
  }

  /** And so did one that is live though a restart would not load it. */
  lemma {:induction false} StrayComesFrom(w: World, steps: seq<WorldStep>, name: string) returns (i: nat)
    requires WorldInit(w) && Stray(WorldRun(w, steps), name)
    ensures StrayedAt(w, steps, i, name)
  {
    hide WorldNext, Stray, Strays, WorldInit, Sound;
    InitIsTogether(w, name);
    var n := |steps| - 1;
    assert steps != [];
    WorldRunsAreSound(w, steps[..n]);
    if Stray(WorldRun(w, steps[..n]), name) {
      i := StrayComesFrom(w, steps[..n], name);
      assert steps[..n][..i] == steps[..i] && steps[..n][i] == steps[i];
      forall j | i + 1 <= j <= |steps|
        ensures Stray(WorldRun(w, steps[..j]), name)
      {
        if j == |steps| {
          assert steps[..j] == steps;
        } else {
          assert steps[..n][..j] == steps[..j] && Stray(WorldRun(w, steps[..n][..j]), name);
        }
      }
    } else {
      i := n;
      StrayIff(WorldRun(w, steps[..n]), steps[n], name);
      assert steps[..n + 1] == steps;
    }
  }

  /** Whenever no change of a provisioned plugin is under way it is live exactly when a restart would
      load it, unless one of those steps parted them and they have been apart since. */
  lemma {:induction false} QuietPluginsAreSynced(w: World, steps: seq<WorldStep>, name: string)
    requires WorldInit(w)
    requires name in WorldRun(w, steps).sys.flags && NameIsFree(WorldRun(w, steps).sys, name)
    ensures var v := WorldRun(w, steps);
            || (IsLive(v.sys.slots, name) <==> Wanted(v, name))
            || (exists i :: LostAt(w, steps, i, name))
            || (exists i :: StrayedAt(w, steps, i, name))
  {
    var v := WorldRun(w, steps);
    hide WorldRun, LostAt, StrayedAt, IsLive, WorldInit;
    if Lost(v, name) {
      var i := LostComesFrom(w, steps, name);
    } else if Stray(v, name) {
      var i := StrayComesFrom(w, steps, name);
    }
  }

  // --- the dependency rules ---

  /** What a restart would load is closed under the dependencies. */
  predicate WantedClosed(w: World) {
    forall d :: d in PLUGIN_DEPENDENCIES && Wanted(w, d.0) ==> Wanted(w, d.1)
  }

  predicate NeedUnwanted(w: World, name: string) {
    exists d :: d in PLUGIN_DEPENDENCIES && d.0 == name && !Wanted(w, d.1)
  }

  predicate DependentWanted(w: World, name: string) {
    exists d :: d in PLUGIN_DEPENDENCIES && d.1 == name && Wanted(w, d.0)
  }

  /** A flag written on while a need would not be loaded, a flag written off or a row marked uninstalled
      while a dependent would be, or a choice that counts an uninstalled plugin as there. */
  predicate BreaksWanted(w: World, e: WorldStep) {
    match e
    case Inner(s) =>
      && Possible(w, s) && s.WriteFlag? && s.t in w.sys.tasks && Writes(w, s, w.sys.tasks[s.t].name)
      && if w.sys.tasks[s.t].kind.Enable?
         then w.sys.tasks[s.t].name !in w.gone && NeedUnwanted(w, w.sys.tasks[s.t].name)
         else DependentWanted(w, w.sys.tasks[s.t].name)
    case Mark(u, _) =>
      u in w.doors && w.doors[u].Taken? && Marks(w, e, w.doors[u].name) && DependentWanted(w, w.doors[u].name)
    case WriteChoice(u, _) =>
      && Chooses(w, e)
      && exists d :: d in PLUGIN_DEPENDENCIES && d.0 in w.doors[u].chosen && d.0 !in w.gone && d.1 in w.gone
    case _ => false
  }

  /** Exactly when what a restart would load stops being closed, with every door open. */
  lemma WantedBreaksIff(w: World, e: WorldStep)
    requires WantedClosed(w)
    ensures !WantedClosed(WorldNext(w, e)) <==> BreaksWanted(w, e)
  {
    hide Possible, IsLive;
    if e.Inner? {
      InnerWantedBreaksIff(w, e.e);
    } else if e.WriteChoice? {
      ChoiceWantedBreaksIff(w, e);
    } else if e.Mark? {
      MarkWantedBreaksIff(w, e);
    } else {
      OthersLeaveRows(w, e);
      hide WorldNext;
    }
  }

  lemma InnerWantedBreaksIff(w: World, e: Step)
    requires WantedClosed(w)
    ensures !WantedClosed(InnerNext(w, e)) <==> BreaksWanted(w, Inner(e))
  {
    if Possible(w, e) {
      forall d | d in PLUGIN_DEPENDENCIES
        ensures Wanted(InnerNext(w, e), d.0) ==
                  (if Writes(w, e, d.0) then w.sys.tasks[e.t].kind.Enable? && d.0 !in w.gone else Wanted(w, d.0))
        ensures Wanted(InnerNext(w, e), d.1) ==
                  (if Writes(w, e, d.1) then w.sys.tasks[e.t].kind.Enable? && d.1 !in w.gone else Wanted(w, d.1))
        ensures d.0 != d.1
      {
        InnerFlags(w, e, d.0);
        InnerFlags(w, e, d.1);
      }
      hide InnerNext, Wanted, Possible;
    } else {
      hide Wanted;
    }
  }

  lemma ChoiceWantedBreaksIff(w: World, e: WorldStep)
    requires WantedClosed(w) && e.WriteChoice?
    ensures !WantedClosed(WorldNext(w, e)) <==> BreaksWanted(w, e)
  {
    forall d | d in PLUGIN_DEPENDENCIES
      ensures Chooses(w, e) && d.0 in w.doors[e.u].chosen ==>
                d.1 in w.doors[e.u].chosen && d.0 in w.sys.flags && d.1 in w.sys.flags
    {
      if Chooses(w, e) {
        Governance.ChoiceIsExact(w.sys.flags, w.doors[e.u].chosen);
        assert d.0 in w.doors[e.u].chosen ==> d.0 in (set c | c in w.doors[e.u].chosen);
      }
    }
    forall d | d in PLUGIN_DEPENDENCIES
      ensures Wanted(WorldNext(w, e), d.0) ==
                (if Chooses(w, e) then d.0 in w.sys.flags && d.0 in w.doors[e.u].chosen && d.0 !in w.gone
                 else Wanted(w, d.0))
      ensures Wanted(WorldNext(w, e), d.1) ==
                (if Chooses(w, e) then d.1 in w.sys.flags && d.1 in w.doors[e.u].chosen && d.1 !in w.gone
                 else Wanted(w, d.1))
    {
      ChoiceFlags(w, e, d.0);
      ChoiceFlags(w, e, d.1);
    }
    hide WorldNext, Wanted, Chooses;
  }

  lemma MarkWantedBreaksIff(w: World, e: WorldStep)
    requires WantedClosed(w) && e.Mark?
    ensures !WantedClosed(WorldNext(w, e)) <==> BreaksWanted(w, e)
  {
    forall d | d in PLUGIN_DEPENDENCIES
      ensures Wanted(WorldNext(w, e), d.0) == (Wanted(w, d.0) && !Marks(w, e, d.0))
      ensures Wanted(WorldNext(w, e), d.1) == (Wanted(w, d.1) && !Marks(w, e, d.1))
      ensures d.0 != d.1
    {
    }
    hide WorldNext, Wanted;
  }

  /** A step of the locked protocol that breaks what is live, an uninstall of a plugin that a live one
      needs, a swap to a generation that is not closed, or a restart from rows that are not. */
  ghost predicate BreaksLiveWorld(w: World, e: WorldStep) {
    match e
    case Inner(s) => Possible(w, s) && BreaksLive(w.sys, s)
    case Restart(_, _) => WorldNext(w, e) != w && !WantedClosed(w)
    case Remove(u) => u in w.doors && w.doors[u].Logged? && DependentLive(w.sys, w.doors[u].name)
    case Swap(_, generation) =>
      Swaps(w, e) && exists d :: d in PLUGIN_DEPENDENCIES && IsLive(generation, d.0) && !IsLive(generation, d.1)
    case _ => false
  }

  /** Exactly when what is live stops being closed, with every door open. */
  lemma LiveBreaksWorldIff(w: World, e: WorldStep)
    requires Consistent(w.sys.slots) && LiveClosed(w.sys)
    ensures !LiveClosed(WorldNext(w, e).sys) <==> BreaksLiveWorld(w, e)
  {
    if e.Inner? {
      if Possible(w, e.e) {
        LiveBreaksIff(w.sys, e.e);
      }
      hide Next, LiveClosed, BreaksLive, Consistent, IsLive;
    } else if e.Restart? {
      RestartBreaksIff(w, e);
    } else {
      forall d | d in PLUGIN_DEPENDENCIES
        ensures IsLive(WorldNext(w, e).sys.slots, d.0) ==
                (if Removes(w, e, d.0) then false else if Swaps(w, e) then IsLive(e.generation, d.0)
                 else IsLive(w.sys.slots, d.0))
        ensures IsLive(WorldNext(w, e).sys.slots, d.1) ==
                (if Removes(w, e, d.1) then false else if Swaps(w, e) then IsLive(e.generation, d.1)
                 else IsLive(w.sys.slots, d.1))
        ensures d.0 != d.1
      {
        DoorLive(w, e, d.0);
        DoorLive(w, e, d.1);
      }
      hide WorldNext, IsLive, Consistent, FreshPools;
    }
  }

  lemma RestartBreaksIff(w: World, e: WorldStep)
    requires LiveClosed(w.sys) && e.Restart?
    ensures !LiveClosed(WorldNext(w, e).sys) <==> BreaksLiveWorld(w, e)
  {
    if WorldNext(w, e) != w {
      forall d | d in PLUGIN_DEPENDENCIES
        ensures IsLive(WorldNext(w, e).sys.slots, d.0) == Wanted(w, d.0)
        ensures IsLive(WorldNext(w, e).sys.slots, d.1) == Wanted(w, d.1)
      {
        RestartLive(w, e, d.0);
        RestartLive(w, e, d.1);
      }
    }
    hide WorldNext, IsLive, Wanted;
  }

  // --- the required plugins ---

  /** No disable of a required plugin got past its guard. */
  predicate RequiredSpared(s: Sys) {
    forall t :: t in s.tasks && s.tasks[t].kind.Disable? && s.tasks[t].name in REQUIRED_PLUGINS ==>
      s.tasks[t].phase.Waiting?
  }

  lemma CheckSparesRequired(s: Sys, t: nat, there: bool, audited: bool)
    requires At(s, t, Waiting) && s.tasks[t].kind.Disable? && s.tasks[t].name in REQUIRED_PLUGINS
    ensures t !in CheckNext(s, t, there, audited).tasks
  {
    hide LoadedIds, Contains;
  }

  /** What waits moves on only by its check. */
  lemma WaitingMoves(s: Sys, e: Step)
    requires IsTaskStep(e) && Next(s, e) != s && e.t in s.tasks && s.tasks[e.t].phase.Waiting?
    ensures e.Check? || e.Cancel?
  {
    hide IsLive, CheckNext;
  }

  lemma InnerSparesRequired(s: Sys, e: Step)
    requires TasksSound(s) && RequiredSpared(s)
    ensures RequiredSpared(Next(s, e))
  {
    if e.Begin? || e.Enter? || e.Leave? || e.Crash? {
      hide IsLive, Entered, Left, NameIsFree;
    } else if Next(s, e) != s {
      TaskStepShifts(s, e);
      ShiftsMoveTasks(s, e, Next(s, e), e.t);
      var task := s.tasks[e.t];
      if task.kind.Disable? && task.name in REQUIRED_PLUGINS {
        WaitingMoves(s, e);
        if e.Check? {
          CheckSparesRequired(s, e.t, e.libraryThere, e.refusalAudited);
        }
      }
      hide CheckNext, Shifts, TasksSound;
    }
  }

  lemma StepSparesRequired(w: World, e: WorldStep)
    requires Sound(w) && RequiredSpared(w.sys)
    ensures RequiredSpared(WorldNext(w, e).sys)
  {
    SoundParts(w);
    hide Sound, RequiredSpared;
    if e.Inner? {
      if Possible(w, e.e) {
        InnerSparesRequired(w.sys, e.e);
      }
      hide Next;
    } else if e.Restart? {
      RestartSparesRequired(w, e);
    } else {
      DoorsKeepTasks(w, e);
      SameTasksSpared(w.sys, WorldNext(w, e).sys);
      hide WorldNext;
    }
  }

  lemma SameTasksSpared(s: Sys, s': Sys)
    requires RequiredSpared(s) && s'.tasks == s.tasks
    ensures RequiredSpared(s')
  {
  }

  lemma RestartSparesRequired(w: World, e: WorldStep)
    requires e.Restart? && RequiredSpared(w.sys)
    ensures RequiredSpared(WorldNext(w, e).sys)
  {
    hide Boots, FreshPools, Owned;
  }

  lemma {:induction false} RunsSpareRequired(w: World, steps: seq<WorldStep>)
    requires WorldInit(w)
    ensures RequiredSpared(WorldRun(w, steps).sys)
  {
    hide WorldNext, Sound;
    if steps == [] {
    } else {
      var n := |steps| - 1;
      RunsSpareRequired(w, steps[..n]);
      WorldRunsAreSound(w, steps[..n]);
      StepSparesRequired(WorldRun(w, steps[..n]), steps[n]);
    }
  }

  /** The revert of an enable, an uninstall, or a swap to a generation without the plugin. */
  predicate StopsRequired(w: World, e: WorldStep, name: string) {
    match e
    case Inner(s) => s.Stop? && At(w.sys, s.t, Reverting) && w.sys.tasks[s.t].name == name
    case Remove(_) => Removes(w, e, name)
    case Swap(_, generation) => Swaps(w, e) && !IsLive(generation, name)
    case _ => false
  }

  /** Over every run of everybody, restarts apart: exactly these steps stop a live required plugin, and no
      disable does; and only the mark of an uninstall keeps a restart from loading one. */
  lemma {:induction false} RequiredGoesIff(w: World, steps: seq<WorldStep>, i: nat, name: string)
    requires WorldInit(w) && i < |steps| && !steps[i].Restart? && name in REQUIRED_PLUGINS
    ensures var v, e := WorldRun(w, steps[..i]), steps[i];
            && (IsLive(v.sys.slots, name) ==> (!IsLive(WorldNext(v, e).sys.slots, name) <==> StopsRequired(v, e, name)))
            && (Wanted(v, name) ==> (!Wanted(WorldNext(v, e), name) <==> Marks(v, e, name)))
  {
    var v, e := WorldRun(w, steps[..i]), steps[i];
    WorldRunsAreSound(w, steps[..i]);
    RunsSpareRequired(w, steps[..i]);
    hide *;
    if IsLive(v.sys.slots, name) {
      RequiredStopsIff(v, e, name);
    }
    if Wanted(v, name) {
      RequiredIsUnwantedIff(v, e, name);
    }
  }

  lemma RequiredStopsIff(w: World, e: WorldStep, name: string)
    requires Sound(w) && RequiredSpared(w.sys) && !e.Restart? && name in REQUIRED_PLUGINS && IsLive(w.sys.slots, name)
    ensures !IsLive(WorldNext(w, e).sys.slots, name) <==> StopsRequired(w, e, name)
  {
    SoundParts(w);
    hide Sound, Consistent, FreshPools, InstallsOf;
    if e.Inner? {
      if Possible(w, e.e) {
        InnerLive(w, e.e, name);
        SparedStops(w, e.e, name);
      }
      hide InnerNext, IsLive, RequiredSpared, Stops, TasksSound;
    } else {
      DoorLive(w, e, name);
      hide WorldNext, IsLive;
    }
  }

  lemma SparedStops(w: World, e: Step, name: string)
    requires TasksSound(w.sys) && RequiredSpared(w.sys) && name in REQUIRED_PLUGINS
    ensures Stops(w, e, name) <==> e.Stop? && At(w.sys, e.t, Reverting) && w.sys.tasks[e.t].name == name
    ensures InstallsOf(w, e, name) ==> !e.Stop?
  {
    if Stops(w, e, name) {
      TaskIsSound(w.sys, e.t);
    }
    hide TasksSound;
  }

  lemma RequiredIsUnwantedIff(w: World, e: WorldStep, name: string)
    requires Sound(w) && RequiredSpared(w.sys) && !e.Restart? && name in REQUIRED_PLUGINS && Wanted(w, name)
    ensures !Wanted(WorldNext(w, e), name) <==> Marks(w, e, name)
  {
    if e.Inner? {
      if Possible(w, e.e) {
        InnerFlags(w, e.e, name);
        assert Writes(w, e.e, name) ==> w.sys.tasks[e.e.t].kind.Enable?;
      }
      hide InnerNext, Possible, Sound;
    } else {
      DoorFlagged(w, e, name);
      if Chooses(w, e) {
        Governance.ChoiceIsExact(w.sys.flags, w.doors[e.u].chosen);
      }
      hide WorldNext, Sound, Governance.ApplyChoice;
    }
  }

  // --- the audit row comes first ---

  /** A step of a task, or of a door, whose audit row is written. */
  predicate AuditedStep(w: World, e: WorldStep, name: string) {
    match e
    case Inner(s) =>
      && (s.WriteFlag? || s.Install? || s.Stop?) && s.t in w.sys.tasks && w.sys.tasks[s.t].name == name
      && AuditedBefore(w.sys.log, |w.sys.log|, s.t, w.sys.tasks[s.t].kind, name)
    case Remove(u) => Removes(w, e, name) && u in w.audited
    case Mark(u, _) => Marks(w, e, name) && u in w.audited
    case WriteChoice(u, _) => u in w.doors && u in w.audited
    case Swap(u, _) => u in w.doors && u in w.audited
    case _ => false
  }

  /** Whatever changes what is live, or what a restart would load, restarts apart, is a step of a request
      whose audit row is already written, with every door open. */
  lemma ChangesAreAuditedFirst(w: World, e: WorldStep, name: string)
    requires Sound(w) && !e.Restart?
    requires var w' := WorldNext(w, e);
             IsLive(w'.sys.slots, name) != IsLive(w.sys.slots, name) || Wanted(w', name) != Wanted(w, name)
    ensures AuditedStep(w, e, name)
  {
    SoundParts(w);
    if e.Inner? {
      InnerIsAudited(w, e.e, name);
    } else {
      DoorFlagged(w, e, name);
      DoorLive(w, e, name);
      hide WorldNext, IsLive, Sound, Consistent, FreshPools, TasksAudited;
    }
  }

  lemma InnerIsAudited(w: World, e: Step, name: string)
    requires Sound(w)
    requires var w' := InnerNext(w, e);
             IsLive(w'.sys.slots, name) != IsLive(w.sys.slots, name) || Wanted(w', name) != Wanted(w, name)
    ensures AuditedStep(w, Inner(e), name)
  {
    SoundParts(w);
    assert Possible(w, e) by {
      hide IsLive, Sound;
    }
    InnerFlags(w, e, name);
    InnerLive(w, e, name);
    hide InnerNext, IsLive, Sound, Possible, TasksSound, LogOk, AuditedBefore;
    assert e.t in w.sys.tasks && Started(w.sys.tasks[e.t].phase) && w.sys.tasks[e.t].name == name;
  }
}
