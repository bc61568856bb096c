/** What the doors that take no lifecycle lock let through, from every booted server. */
module DoorRaces {
  import opened Registry
  import opened LifecycleRules
  import opened IdentityHub
  import opened InFlight
  import opened Lifecycle
  import opened LifecycleRaces
  import opened LifecycleDoors
  import opened DoorGuarantees
  import opened DoorClosings
  import opened DoorFlags
  import opened DoorProviders
  import Governance
  import L = LifecycleProviders
  import Providers = IdentityHub

  // --- reachability ---

  ghost predicate ReachesWorld(w: World, v: World) {
    exists steps :: WorldRun(w, steps) == v
  }

  /** Reached with one request at a time. */
  ghost predicate ReachesOne(w: World, v: World) {
    exists steps :: OneRequestAtATime(w, steps) && WorldRun(w, steps) == v
  }

  lemma {:induction false} WorldRunExtends(w: World, steps: seq<WorldStep>, e: WorldStep)
    ensures WorldRun(w, steps + [e]) == WorldNext(WorldRun(w, steps), e)
  {
  }

  lemma {:induction false} ReachesItselfWorld(w: World)
    ensures ReachesWorld(w, w)
  {
    assert WorldRun(w, []) == w;
  }

  lemma {:induction false} ReachesStep(w: World, v: World, e: WorldStep)
    requires ReachesWorld(w, v)
    ensures ReachesWorld(w, WorldNext(v, e))
  {
    var steps :| WorldRun(w, steps) == v;
    WorldRunExtends(w, steps, e);
  }

  lemma {:induction false} OneItself(w: World)
    requires OneRequest(w)
    ensures ReachesOne(w, w)
  {
    hide OneRequest;
    assert OneRequestAtATime(w, []) && WorldRun(w, []) == w;
  }

  lemma {:induction false} OneStep(w: World, v: World, e: WorldStep)
    requires ReachesOne(w, v) && OneRequest(WorldNext(v, e))
    ensures ReachesOne(w, WorldNext(v, e))
  {
    hide OneRequest, WorldNext;
    var steps :| OneRequestAtATime(w, steps) && WorldRun(w, steps) == v;
    WorldRunExtends(w, steps, e);
    var longer := steps + [e];
    forall i | 0 <= i <= |longer|
      ensures OneRequest(WorldRun(w, longer[..i]))
    {
      if i <= |steps| {
        assert longer[..i] == steps[..i];
      } else {
        assert longer[..i] == longer;
      }
    }
  }

  lemma {:induction false} ReachedIsSound(w: World, v: World)
    requires WorldInit(w) && ReachesOne(w, v)
    ensures Sound(v)
  {
    var steps :| OneRequestAtATime(w, steps) && WorldRun(w, steps) == v;
    hide *;
    WorldRunsAreSound(w, steps);
  }

  lemma QuietIsOne(w: World)
    requires w.sys.tasks == map[] && w.doors == map[]
    ensures OneRequest(w)
  {
  }

  lemma OneDoorIsOne(w: World, u: nat, door: Door)
    requires w.sys.tasks == map[] && w.doors == map[u := door]
    ensures OneRequest(w)
  {
  }

  // --- closing under a request ---

  /** A request enters a booted server. */
  lemma {:induction false} EntersFirst(w: World, name: string, request: nat) returns (v: World)
    requires WorldInit(w) && IsLive(w.sys.slots, name)
    ensures ReachesOne(w, v) && v == w.(sys := v.sys, uses := v.uses)
    ensures v.sys == w.sys.(inside := map[request := name], counts := v.sys.counts)
    ensures v.uses == map[request := w.sys.slots[Position(w.sys.slots, name)].plugin.pool]
    ensures LiveInUse(v, name)
  {
    hide ReachesOne, OneRequest, Boots, FreshPools, Owned, Entered;
    QuietIsOne(w);
    OneItself(w);
    v := WorldNext(w, Inner(Enter(request, name)));
    QuietIsOne(v);
    OneStep(w, w, Inner(Enter(request, name)));
    assert v.uses[request] == v.sys.slots[Position(v.sys.slots, name)].plugin.pool;
  }

  /** An uninstall alone, from its guard to its audit row. */
  lemma {:induction false} UninstallLogged(w: World, v: World, name: string) returns (x: World)
    requires ReachesOne(w, v) && v.sys.tasks == map[] && v.doors == map[]
    requires Contains(v.sys.slots, name) && L.Spares(v.sys, name)
    ensures ReachesOne(w, x) && x.sys == v.sys && x.uses == v.uses && x.gone == v.gone
    ensures x.doors == map[v.nextDoor := Door.Logged(name)]
  {
    var u := v.nextDoor;
    hide ReachesOne, OneRequest, Contains, Enabled;
    var y := WorldNext(v, Uninstall(name));
    OneDoorIsOne(y, u, Guarded(name));
    OneStep(w, v, Uninstall(name));
    x := WorldNext(y, UninstallAudit(u, true));
    OneDoorIsOne(x, u, Door.Logged(name));
    OneStep(w, y, UninstallAudit(u, true));
  }

  /** An uninstall waits for nobody: it closes the pool under a request that is inside. */
  lemma {:induction false} UninstallClosesOnARequest(w: World, name: string, request: nat)
    requires WorldInit(w) && IsLive(w.sys.slots, name) && L.Spares(w.sys, name)
    ensures exists v, u :: ReachesOne(w, v) && ClosesUnder(v, Remove(u)) && v.sys.inside == map[request := name]
  {
    KnownIfLive(w.sys.slots, name);
    hide ReachesOne, Boots, FreshPools, Owned, Contains, IsLive, Enabled, InUse, ClosesUnder, Sound;
    var v := EntersFirst(w, name, request);
    assert v.sys.tasks == map[] && v.doors == map[] && L.Spares(v.sys, name);
    var x := UninstallLogged(w, v, name);
    ReachedIsSound(w, x);
    SameUse(v, x, name);
    ClosesUnderARequestIff(x, Remove(v.nextDoor));
  }

  lemma SameUse(v: World, x: World, name: string)
    requires x.sys == v.sys && x.uses == v.uses
    ensures LiveInUse(v, name) ==> LiveInUse(x, name)
  {
    hide IsLive;
  }

  /** A reload alone, from its loading to the moment before its swap. */
  lemma {:induction false} ReloadReady(w: World, v: World) returns (x: World)
    requires ReachesOne(w, v) && v.sys.tasks == map[] && v.doors == map[]
    ensures ReachesOne(w, x) && x.doors == map[v.nextDoor := Ready]
    ensures x.sys.slots == v.sys.slots && x.sys.inside == v.sys.inside && x.uses == v.uses && x.owner == v.owner
  {
    var u := v.nextDoor;
    hide ReachesOne, OneRequest;
    var y := WorldNext(v, Build(map[]));
    OneDoorIsOne(y, u, Built);
    OneStep(w, v, Build(map[]));
    x := WorldNext(y, ReloadAudit(u, true));
    OneDoorIsOne(x, u, Ready);
    OneStep(w, y, ReloadAudit(u, true));
  }

  /** Nor does a reload: whatever generation it swaps in, the pools of the old one close under the
      requests inside. */
  lemma {:induction false} ReloadClosesOnARequest(w: World, name: string, request: nat, generation: seq<Slot>)
    requires WorldInit(w) && IsLive(w.sys.slots, name) && Consistent(generation) && FreshPools(generation, w.owner)
    ensures exists v, u ::
              ReachesOne(w, v) && ClosesUnder(v, Swap(u, generation)) && v.sys.inside == map[request := name]
  {
    var pool := w.sys.slots[Position(w.sys.slots, name)].plugin.pool;
    LiveIsRouted(w.sys.slots, name);
    assert w.sys.tasks == map[] && w.doors == map[];
    hide ReachesOne, WorldInit, FreshPools, IsLive, Consistent, ClosesUnder, Sound, Routed, WorldNext, LiveInUse;
    var v := EntersFirst(w, name, request);
    var x := ReloadReady(w, v);
    ReachedIsSound(w, x);
    SwapClosesEarly(x, v.nextDoor, generation, request, (pool, name));
    hide *;
    ClosesUnderARequestIff(x, Swap(v.nextDoor, generation));
  }

  lemma SwapClosesEarly(x: World, u: nat, generation: seq<Slot>, request: nat, pool: (nat, string))
    requires u in x.doors && x.doors[u].Ready? && Consistent(generation) && FreshPools(generation, x.owner)
    requires pool in Routed(x.sys.slots) && request in x.uses && x.uses[request] == pool.0
    ensures ClosesEarly(x, Swap(u, generation))
  {
    hide Routed, Consistent, FreshPools;
    assert InUse(x, pool.0);
  }

  // --- the dependency rules ---

  /** An uninstall does not ask whether another plugin needs this one: one request, and store serves
      without stripe, now and after every restart. */
  lemma {:induction false} UninstallLeavesADependent(w: World)
    requires WorldInit(w) && IsLive(w.sys.slots, "store") && IsLive(w.sys.slots, "stripe") && L.Spares(w.sys, "stripe")
    ensures exists v :: ReachesOne(w, v) && v.doors == map[] && v.sys.tasks == map[]
                        && IsLive(v.sys.slots, "store") && !IsLive(v.sys.slots, "stripe")
                        && Wanted(v, "store") && !Wanted(v, "stripe")
  {
    KnownIfLive(w.sys.slots, "stripe");
    WantedIsFlagged(w, "store");
    WantedIsFlagged(w, "stripe");
    assert Wanted(w, "store") && Wanted(w, "stripe") && Consistent(w.sys.slots);
    RemovedLookup(w.sys.slots, "stripe", "store");
    RemovedLookup(w.sys.slots, "stripe", "stripe");
    hide ReachesOne, OneRequest, Boots, FreshPools, Owned, Contains, IsLive, Enabled, Registry.Removed, ClosingOf,
         Providers.Removed, WantedFlags, Consistent;
    QuietIsOne(w);
    OneItself(w);
    var x := UninstallLogged(w, w, "stripe");
    var y := RemovedAlone(w, x, w.nextDoor, "stripe");
  }

  /** Required or needed, or not: from every booted server, one uninstall stops any live plugin that is not
      the only provider, and no restart loads it again. */
  lemma {:induction false} UninstallAsksNobody(w: World, name: string)
    requires WorldInit(w) && IsLive(w.sys.slots, name) && L.Spares(w.sys, name)
    ensures exists v :: ReachesOne(w, v) && !IsLive(v.sys.slots, name) && !Wanted(v, name)
  {
    KnownIfLive(w.sys.slots, name);
    WantedIsFlagged(w, name);
    assert Wanted(w, name);
    RemovedLookup(w.sys.slots, name, name);
    hide ReachesOne, OneRequest, Boots, FreshPools, Owned, Contains, IsLive, Enabled, Registry.Removed, ClosingOf,
         Providers.Removed, WantedFlags, Consistent;
    QuietIsOne(w);
    OneItself(w);
    var x := UninstallLogged(w, w, name);
    var y := RemovedAlone(w, x, w.nextDoor, name);
  }

  /** An uninstall alone, from its audit row to its end. */
  lemma {:induction false} RemovedAlone(w: World, x: World, u: nat, name: string) returns (v: World)
    requires ReachesOne(w, x) && x.sys.tasks == map[] && x.doors == map[u := Door.Logged(name)]
    requires Contains(x.sys.slots, name) && name in x.sys.flags
    ensures ReachesOne(w, v) && v.doors == map[] && v.gone == x.gone + {name}
    ensures v.sys.slots == Registry.Removed(x.sys.slots, name) && v.sys.flags == x.sys.flags && v.sys.tasks == map[]
  {
    hide ReachesOne, OneRequest, Contains, Registry.Removed, ClosingOf, Providers.Removed;
    var y := WorldNext(x, Remove(u));
    OneDoorIsOne(y, u, Taken(name));
    OneStep(w, x, Remove(u));
    var z := WorldNext(y, Mark(u, true));
    OneDoorIsOne(z, u, Marked(name));
    OneStep(w, y, Mark(u, true));
    v := WorldNext(z, Forget(u));
    QuietIsOne(v);
    OneStep(w, z, Forget(u));
  }

  /** A choice counts every row, and a row that says uninstalled is one: a set with store in it is
      accepted while stripe is uninstalled, and every restart then loads store alone. */
  lemma {:induction false} ChoiceCountsAnUninstalledPlugin(w: World, chosen: seq<string>)
    requires WorldInit(w) && "stripe" in w.gone && "store" !in w.gone
    requires Governance.ApplyChoice(w.sys.flags, chosen).Ok? && "store" in chosen
    ensures exists v :: ReachesOne(w, v) && !WantedClosed(v)
                        && forall generation :: Boots(generation, WantedFlags(v)) ==>
                             IsLive(generation, "store") && !IsLive(generation, "stripe")
  {
    var u := w.nextDoor;
    hide ReachesOne, OneRequest, Boots, FreshPools, Owned, IsLive, WantedFlags;
    QuietIsOne(w);
    OneItself(w);
    assert "store" in w.sys.flags;
    var y := WorldNext(w, Choose(chosen, true));
    OneDoorIsOne(y, u, Decided(chosen));
    OneStep(w, w, Choose(chosen, true));
    var v := WorldNext(y, WriteChoice(u, true));
    OneDoorIsOne(v, u, Written);
    OneStep(w, y, WriteChoice(u, true));
    assert Wanted(v, "store") && !Wanted(v, "stripe");
    assert ("store", "stripe") in PLUGIN_DEPENDENCIES;
    hide WorldNext, Wanted;
    forall generation | Boots(generation, WantedFlags(v))
      ensures IsLive(generation, "store") && !IsLive(generation, "stripe")
    {
      BootsAsFlagged(generation, WantedFlags(v), "store");
      BootsAsFlagged(generation, WantedFlags(v), "stripe");
      WantedIsFlagged(v, "store");
      WantedIsFlagged(v, "stripe");
    }
  }

  // --- the last provider ---

  /** A step of the locked protocol that installs nothing. */
  lemma {:induction false} ReachesInner(w: World, v: World, e: Step)
    requires ReachesWorld(w, v) && !e.Install? && !e.Crash?
    ensures ReachesWorld(w, WorldNext(v, Inner(e)))
    ensures WorldNext(v, Inner(e)) == v.(sys := Next(v.sys, e), uses := UsesNext(v, e))
  {
    hide Next, UsesNext, ReachesWorld;
    ReachesStep(w, v, Inner(e));
  }

  /** From every booted server with two providers: the uninstall of one passes its guard, the other is
      disabled, and the uninstall goes on. Each is refused after the other. */
  lemma {:induction false} UninstallDisableRace(w: World, x: string, y: string)
    requires WorldInit(w) && !w.sys.devHeaders && x != y && Enabled(w.sys.hub) == {x, y}
    requires IsLive(w.sys.slots, x) && IsLive(w.sys.slots, y) && !DisableRefused(y, LoadedIds(w.sys.slots))
    ensures exists v :: ReachesWorld(w, v) && Enabled(v.sys.hub) == {}
  {
    assert x in Enabled(w.sys.hub) && y in Enabled(w.sys.hub);
    KnownIfLive(w.sys.slots, x);
    KnownIfLive(w.sys.slots, y);
    WantedIsFlagged(w, y);
    assert y in w.sys.flags;
    StoppedLookup(w.sys.slots, y, x);
    TwoGoInTurn(w.sys.hub, y, x);
    hide ReachesWorld, Boots, FreshPools, Owned, Contains, IsLive, Enabled, Stopped, Switched, Providers.Removed,
         WantedFlags, Consistent, LoadedIds, DisableRefused;
    ReachesItselfWorld(w);
    ReachesStep(w, w, Uninstall(x));
    var v := WorldNext(w, Uninstall(x));
    assert v == w.(doors := map[w.nextDoor := Guarded(x)], nextDoor := w.nextDoor + 1);
    v := DisabledMeanwhile(w, v, y);
    v := UninstallGoesOn(w, v, w.nextDoor, x);
  }

  lemma TwoGoInTurn(hub: Hub, x: string, y: string)
    requires Enabled(hub) == {x, y}
    ensures Enabled(Providers.Removed(Switched(hub, x, false), y)) == {}
  {
    ChangesToEnabled(hub, x, 0, {});
    ChangesToEnabled(Switched(hub, x, false), y, 0, {});
    hide Enabled, Switched, Providers.Removed;
  }

  /** A disable, from its beginning to the switch of its provider, whatever stands at the doors. */
  lemma {:induction false} DisabledMeanwhile(w: World, u: World, name: string) returns (v: World)
    requires ReachesWorld(w, u) && u.sys.tasks == map[] && Contains(u.sys.slots, name) && name in u.sys.flags
    requires !DisableRefused(name, LoadedIds(u.sys.slots)) && Enabled(u.sys.hub) != {name}
    ensures ReachesWorld(w, v) && v.doors == u.doors
    ensures v.sys.slots == Stopped(u.sys.slots, name) && v.sys.hub == Switched(u.sys.hub, name, false)
  {
    hide *;
    v := DisableAudited(w, u, name);
    v := DisableSwitches(w, v, u.sys.nextTask, name);
  }

  lemma {:induction false} DisableAudited(w: World, u: World, name: string) returns (v: World)
    requires ReachesWorld(w, u) && u.sys.tasks == map[] && Contains(u.sys.slots, name)
    requires !DisableRefused(name, LoadedIds(u.sys.slots)) && Enabled(u.sys.hub) != {name}
    ensures ReachesWorld(w, v) && v.doors == u.doors && At(v.sys, u.sys.nextTask, Audited)
    ensures v.sys.tasks[u.sys.nextTask].kind.Disable? && v.sys.tasks[u.sys.nextTask].name == name
    ensures v.sys.slots == u.sys.slots && v.sys.hub == u.sys.hub && v.sys.flags == u.sys.flags
  {
    var b := u.sys.nextTask;
    hide ReachesWorld, Contains, IsLive, LoadedIds, DisableRefused, Enabled, CheckNext, WorldNext, UsesNext;
    ReachesInner(w, u, Begin(Disable, name));
    v := WorldNext(u, Inner(Begin(Disable, name)));
    CheckPasses(v.sys, b);
    ReachesInner(w, v, Check(b, true, true));
    v := WorldNext(v, Inner(Check(b, true, true)));
    AuditPasses(v.sys, b);
    ReachesInner(w, v, Audit(b, true));
    v := WorldNext(v, Inner(Audit(b, true)));
  }

  lemma {:induction false} DisableSwitches(w: World, u: World, b: nat, name: string) returns (v: World)
    requires ReachesWorld(w, u) && At(u.sys, b, Audited) && u.sys.tasks[b].kind.Disable? && u.sys.tasks[b].name == name
    requires name in u.sys.flags
    ensures ReachesWorld(w, v) && v.doors == u.doors
    ensures v.sys.slots == Stopped(u.sys.slots, name) && v.sys.hub == Switched(u.sys.hub, name, false)
  {
    hide ReachesWorld, IsLive, Stopped, Switched, PoolOf, WorldNext, UsesNext;
    DisableStops(u.sys, b);
    ReachesInner(w, u, WriteFlag(b, true));
    v := WorldNext(u, Inner(WriteFlag(b, true)));
    ReachesInner(w, v, Stop(b));
    v := WorldNext(v, Inner(Stop(b)));
    ReachesInner(w, v, UnbindProvider(b));
    UnbindKeepsSlots(v.sys, b);
    v := WorldNext(v, Inner(UnbindProvider(b)));
  }

  lemma UnbindKeepsSlots(s: Sys, b: nat)
    requires b in s.tasks && s.tasks[b].phase.Unrouted?
    ensures Next(s, UnbindProvider(b)).slots == s.slots
    ensures Next(s, UnbindProvider(b)).hub == Switched(s.hub, s.tasks[b].name, false)
  {
    hide Switched;
  }

  /** An uninstall past its guard, to its end. */
  lemma {:induction false} UninstallGoesOn(w: World, u: World, d: nat, name: string) returns (v: World)
    requires ReachesWorld(w, u) && d in u.doors && u.doors[d] == Guarded(name) && Contains(u.sys.slots, name)
    ensures ReachesWorld(w, v) && v.sys.hub == Providers.Removed(u.sys.hub, name)
  {
    hide ReachesWorld, Contains, Registry.Removed, ClosingOf, Providers.Removed;
    ReachesStep(w, u, UninstallAudit(d, true));
    v := WorldNext(u, UninstallAudit(d, true));
    ReachesStep(w, v, Remove(d));
    v := WorldNext(v, Remove(d));
    ReachesStep(w, v, Mark(d, true));
    v := WorldNext(v, Mark(d, true));
    ReachesStep(w, v, Forget(d));
    v := WorldNext(v, Forget(d));
  }
}
