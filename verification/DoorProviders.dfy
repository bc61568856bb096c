/** The last way to authenticate, with every door open. */
module DoorProviders {
  import opened Registry
  import opened IdentityHub
  import opened InFlight
  import opened Lifecycle
  import opened LifecycleShape
  import opened LifecycleAlone
  import opened LifecycleDoors
  import opened DoorGuarantees
  import L = LifecycleProviders
  import Governance
  import Providers = IdentityHub

  /** The switch of a task, the end of an uninstall, or the pruning after a swap, with no other provider. */
  predicate TakesTheLast(w: World, e: WorldStep) {
    match e
    case Inner(s) => Possible(w, s) && L.Unbinds(w.sys, s) && Enabled(w.sys.hub) == {w.sys.tasks[s.t].name}
    case Forget(u) => u in w.doors && w.doors[u].Marked? && Enabled(w.sys.hub) == {w.doors[u].name}
    case Prune(u) => u in w.doors && w.doors[u].Swapped? && Enabled(w.sys.hub) !! SlotIds(w.sys.slots)
    case _ => false
  }

  lemma InnerHub(w: World, e: Step)
    requires Enabled(w.sys.hub) != {}
    ensures Enabled(InnerNext(w, e).sys.hub) == {} <==> TakesTheLast(w, Inner(e))
    ensures InnerNext(w, e).sys.devHeaders == w.sys.devHeaders
  {
    if Possible(w, e) {
      L.LastProviderGoesIff(w.sys, e);
      L.HubMoves(w.sys, e);
      hide Next, L.Unbinds, Enabled;
    } else {
      hide Enabled, Possible, L.Unbinds;
    }
  }

  lemma StartingAdds(hub: Hub, providers: map<string, nat>)
    ensures Enabled(hub) <= Enabled(hub.(providers := hub.providers + providers))
  {
  }

  /** What the other steps do to the providers that answer. */
  lemma DoorHub(w: World, e: WorldStep)
    requires !e.Inner? && !e.Restart?
    ensures var hub := WorldNext(w, e).sys.hub;
            || hub == w.sys.hub
            || ((e.Build? || e.BuildChoice?) && hub == w.sys.hub.(providers := w.sys.hub.providers + e.providers))
            || (e.Forget? && e.u in w.doors && w.doors[e.u].Marked?
                && hub == Providers.Removed(w.sys.hub, w.doors[e.u].name))
            || (e.Prune? && e.u in w.doors && w.doors[e.u].Swapped? && hub == Retained(w.sys.hub, SlotIds(w.sys.slots)))
    ensures e.Forget? && e.u in w.doors && w.doors[e.u].Marked? ==>
              WorldNext(w, e).sys.hub == Providers.Removed(w.sys.hub, w.doors[e.u].name)
    ensures e.Prune? && e.u in w.doors && w.doors[e.u].Swapped? ==>
              WorldNext(w, e).sys.hub == Retained(w.sys.hub, SlotIds(w.sys.slots))
    ensures WorldNext(w, e).sys.devHeaders == w.sys.devHeaders
  {
    hide Governance.ApplyChoice, Enabled, Contains, Retained, Providers.Removed, Registry.Removed, Owned, Routed,
         ClosingOf, LiveClosings, FreshPools, Consistent, Boots, IsLive;
  }

  /** In every state, with every door open: the last provider goes exactly when its own switch, uninstall
      or pruning takes it. A restart registers whatever it loads. */
  lemma LastProviderGoesIff(w: World, e: WorldStep)
    requires Enabled(w.sys.hub) != {} && !e.Restart?
    ensures Enabled(WorldNext(w, e).sys.hub) == {} <==> TakesTheLast(w, e)
  {
    if e.Inner? {
      InnerHub(w, e.e);
      hide InnerNext, TakesTheLast;
    } else {
      DoorHub(w, e);
      if e.Build? || e.BuildChoice? {
        StartingAdds(w.sys.hub, e.providers);
      } else if e.Forget? && e.u in w.doors && w.doors[e.u].Marked? {
        ChangesToEnabled(w.sys.hub, w.doors[e.u].name, 0, {});
      } else if e.Prune? {
        ChangesToEnabled(w.sys.hub, "", 0, SlotIds(w.sys.slots));
      }
      hide WorldNext, Enabled, Retained, Providers.Removed, SlotIds;
    }
  }

  // --- one request at a time ---

  /** At most one enable, disable, uninstall, reload or choice is under way. */
  predicate OneRequest(w: World) {
    && Alone(w.sys) && (forall u, v :: u in w.doors && v in w.doors ==> u == v)
    && (w.sys.tasks == map[] || w.doors == map[])
  }

  predicate PastGuard(door: Door) {
    door.Guarded? || door.Logged? || door.Taken? || door.Marked?
  }

  /** What the guards found is still so. */
  predicate AllSpared(w: World) {
    && L.Spared(w.sys)
    && forall u :: u in w.doors && PastGuard(w.doors[u]) ==> L.Spares(w.sys, w.doors[u].name)
  }

  lemma IdleSteps(w: World, e: Step)
    requires TasksSound(w.sys) && w.sys.tasks == map[] && !e.Crash?
    ensures Next(w.sys, e).hub == w.sys.hub && Next(w.sys, e).devHeaders == w.sys.devHeaders
  {
    if e.Begin? || e.Enter? || e.Leave? {
      hide IsLive, Entered, Left;
    } else if Next(w.sys, e) != w.sys {
      TaskStepShifts(w.sys, e);
      hide Next;
    }
  }

  lemma InnerKeepsSpared(w: World, e: Step)
    requires Sound(w) && OneRequest(w) && AllSpared(w)
    ensures AllSpared(InnerNext(w, e))
  {
    SoundParts(w);
    hide Sound, TasksSound, L.Spared;
    if Possible(w, e) {
      L.StepKeepsSpared(w.sys, e);
      if w.doors != map[] {
        IdleSteps(w, e);
      }
      hide Next, Enabled;
    }
  }

  /** A door past the guard of an uninstall was past it before, with the same plugin, or has just passed it. */
  predicate GuardedBefore(w: World, e: WorldStep, u: nat, name: string) {
    || (u in w.doors && PastGuard(w.doors[u]) && w.doors[u].name == name)
    || (e.Uninstall? && L.Spares(w.sys, name))
  }

  /** How the doors move. */
  ghost predicate DoorsFollow(w: World, e: WorldStep) {
    && WorldNext(w, e).sys.tasks == w.sys.tasks
    && forall u :: u in WorldNext(w, e).doors && PastGuard(WorldNext(w, e).doors[u]) ==>
         GuardedBefore(w, e, u, WorldNext(w, e).doors[u].name)
  }

  lemma UninstallsFollow(w: World, e: WorldStep)
    requires e.Uninstall? || e.UninstallAudit? || e.Remove? || e.Mark? || e.Forget?
    ensures DoorsFollow(w, e)
  {
    hide Enabled, Contains, Providers.Removed, Registry.Removed, ClosingOf, IsLive;
  }

  lemma DoorsFollowAll(w: World, e: WorldStep)
    requires !e.Inner? && !e.Restart?
    ensures DoorsFollow(w, e)
  {
    if e.Uninstall? || e.UninstallAudit? || e.Remove? || e.Mark? || e.Forget? {
      UninstallsFollow(w, e);
      hide WorldNext, DoorsFollow;
    } else {
      hide Governance.ApplyChoice, Enabled, Retained, Owned, Routed, LiveClosings, FreshPools, Consistent, L.Spares;
    }
  }

  /** A step that changes the hub is the only request, and not past a guard after it. */
  lemma HubMoversAreAlone(w: World, e: WorldStep)
    requires OneRequest(w) && OneRequest(WorldNext(w, e)) && !e.Inner? && !e.Restart?
    requires WorldNext(w, e).sys.hub != w.sys.hub
    ensures WorldNext(w, e).sys.tasks == map[]
    ensures forall u :: u in WorldNext(w, e).doors ==> !PastGuard(WorldNext(w, e).doors[u])
  {
    DoorsFollowAll(w, e);
    hide Governance.ApplyChoice, Enabled, Contains, Retained, Providers.Removed, Registry.Removed, Owned, Routed,
         ClosingOf, LiveClosings, FreshPools, Consistent, Boots, IsLive, Alone, GuardedBefore;
    if e.Build? {
      assert w.nextDoor in WorldNext(w, e).doors;
    }
  }

  lemma DoorKeepsSpared(w: World, e: WorldStep)
    requires OneRequest(w) && AllSpared(w) && OneRequest(WorldNext(w, e)) && !e.Inner?
    ensures AllSpared(WorldNext(w, e))
  {
    var w' := WorldNext(w, e);
    if !e.Restart? {
      DoorsFollowAll(w, e);
      DoorHub(w, e);
      if w'.sys.hub != w.sys.hub {
        HubMoversAreAlone(w, e);
      }
      hide WorldNext, OneRequest, Enabled, Retained, Providers.Removed;
    } else {
      hide Boots, FreshPools, Owned, Enabled, L.Spares, OneRequest;
    }
  }

  ghost predicate OneRequestAtATime(w: World, steps: seq<WorldStep>) {
    forall i :: 0 <= i <= |steps| ==> OneRequest(WorldRun(w, steps[..i]))
  }

  lemma {:induction false} OneRequestPrefix(w: World, steps: seq<WorldStep>, n: nat)
    requires OneRequestAtATime(w, steps) && n <= |steps|
    ensures OneRequestAtATime(w, steps[..n]) && OneRequest(WorldRun(w, steps[..n]))
  {
    hide WorldRun, OneRequest;
    forall i | 0 <= i <= n
      ensures steps[..n][..i] == steps[..i]
    {
    }
  }

  lemma InitIsSpared(w: World)
    requires WorldInit(w)
    ensures AllSpared(w)
  {
  }

  lemma StepKeepsSpared(w: World, e: WorldStep)
    requires Sound(w) && OneRequest(w) && AllSpared(w) && OneRequest(WorldNext(w, e))
    ensures AllSpared(WorldNext(w, e)) && WorldNext(w, e).sys.devHeaders == w.sys.devHeaders
  {
    hide Sound, OneRequest, AllSpared, Boots, FreshPools, Owned;
    if e.Inner? {
      InnerKeepsSpared(w, e.e);
      InnerKeepsHeaders(w, e.e);
      hide InnerNext;
    } else {
      DoorKeepsSpared(w, e);
      if !e.Restart? {
        DoorHub(w, e);
        hide WorldNext;
      }
    }
  }

  lemma InnerKeepsHeaders(w: World, e: Step)
    ensures InnerNext(w, e).sys.devHeaders == w.sys.devHeaders
  {
    if Possible(w, e) {
      L.HubMoves(w.sys, e);
      hide Next;
    }
  }

  lemma {:induction false} OneRequestSpares(w: World, steps: seq<WorldStep>)
    requires WorldInit(w) && OneRequestAtATime(w, steps)
    ensures AllSpared(WorldRun(w, steps)) && WorldRun(w, steps).sys.devHeaders == w.sys.devHeaders
  {
    hide WorldNext, WorldInit, AllSpared, Sound, OneRequest, OneRequestAtATime;
    if steps == [] {
      InitIsSpared(w);
    } else {
      var n := |steps| - 1;
      OneRequestPrefix(w, steps, n);
      OneRequestPrefix(w, steps, |steps|);
      assert steps[..|steps|] == steps;
      OneRequestSpares(w, steps[..n]);
      WorldRunsAreSound(w, steps[..n]);
      StepKeepsSpared(WorldRun(w, steps[..n]), steps[n]);
    }
  }

  /** The revert of an enable, or the pruning after a swap to a generation without the providers there are. */
  predicate TakesTheLastAlone(w: World, e: WorldStep) {
    match e
    case Inner(s) => L.RevertTakesTheLast(w.sys, s)
    case Prune(u) => u in w.doors && w.doors[u].Swapped? && Enabled(w.sys.hub) !! SlotIds(w.sys.slots)
    case _ => false
  }

  lemma SparedTakesIff(w: World, e: WorldStep)
    requires TasksSound(w.sys) && AllSpared(w) && !w.sys.devHeaders
    ensures TakesTheLast(w, e) <==> TakesTheLastAlone(w, e)
  {
    if e.Inner? {
      L.DisableSpares(w.sys, e.e);
    }
    hide Enabled, SlotIds, TasksSound, L.Spared;
  }

  /** One request at a time and with dev headers off no disable and no uninstall takes the last
      provider: over every such run, restarts apart, exactly a reverted enable does, or the swap of a
      reload or choice to a generation that knows none of the providers. */
  lemma {:induction false} OnlyTheseTakeTheLast(w: World, steps: seq<WorldStep>, i: nat)
    requires WorldInit(w) && !w.sys.devHeaders && OneRequestAtATime(w, steps)
    requires i < |steps| && !steps[i].Restart? && Enabled(WorldRun(w, steps[..i]).sys.hub) != {}
    ensures Enabled(WorldRun(w, steps[..i + 1]).sys.hub) == {} <==>
            TakesTheLastAlone(WorldRun(w, steps[..i]), steps[i])
  {
    var v := WorldRun(w, steps[..i]);
    OneRequestPrefix(w, steps, i);
    OneRequestSpares(w, steps[..i]);
    WorldRunsAreSound(w, steps[..i]);
    assert TasksSound(v.sys) by {
      SoundParts(v);
    }
    assert steps[..i + 1][..i] == steps[..i];
    assert WorldRun(w, steps[..i + 1]) == WorldNext(v, steps[i]);
    hide *;
    LastProviderGoesIff(v, steps[i]);
    SparedTakesIff(v, steps[i]);
  }
}
