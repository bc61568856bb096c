/** Whole requests through every door, one after another, are runs of the server in which nobody comes between
    the steps of another: what the operator's requests say of the server is what their steps come to. */
module DoorRequests {
  import opened Wrappers
  import opened Registry
  import opened IdentityHub
  import opened InFlight
  import opened Lifecycle
  import opened LifecycleRules
  import opened LifecycleDoors
  import opened LifecycleRequests
  import G = Governance
  import Providers = IdentityHub

  predicate QuietWorld(w: World) {
    Quiet(w.sys) && w.doors == map[]
  }

  // --- the steps of each request ---

  /** A door step, of a request that is on its way. */
  predicate OnTheWay(e: WorldStep) {
    !e.Inner? && !e.Restart? && !e.Uninstall? && !e.Build? && !e.Choose?
  }

  function SwapSteps(u: nat, built: bool, generation: seq<Slot>): seq<WorldStep> {
    if built then [Swap(u, generation)] + [Prune(u)] else [Drop(u)]
  }

  /** A reload whose generation cannot be built has registered what it started before. */
  function ReloadSteps(u: nat, e: G.Op, generation: seq<Slot>, providers: map<string, nat>): seq<WorldStep>
    requires e.Reload?
  {
    [Build(providers)] + (if e.built then [ReloadAudit(u, e.audited)] + SwapSteps(u, true, generation) else [Drop(u)])
  }

  function ChooseSteps(u: nat, e: G.Op, generation: seq<Slot>, providers: map<string, nat>): seq<WorldStep>
    requires e.Choose?
  {
    [WorldStep.Choose(e.chosen, e.audited)] + ([WriteChoice(u, e.committed)] +
                                               ([BuildChoice(u, providers)] + SwapSteps(u, e.built, generation)))
  }

  function UninstallSteps(u: nat, name: string, written: bool): seq<WorldStep> {
    [Uninstall(name)] + ([UninstallAudit(u, written)] + ([Remove(u)] + ([Mark(u, true)] + [Forget(u)])))
  }

  function Inners(steps: seq<Step>): seq<WorldStep> {
    seq(|steps|, i requires 0 <= i < |steps| => Inner(steps[i]))
  }

  // --- runs, from their first step ---

  lemma {:induction false} WorldFromFront(w: World, e: WorldStep, rest: seq<WorldStep>)
    ensures WorldRun(w, [e] + rest) == WorldRun(WorldNext(w, e), rest)
    decreases |rest|
  {
    hide WorldNext;
    if rest == [] {
      assert WorldRun(w, [e]) == WorldNext(WorldRun(w, []), e) by { assert [e][..0] == []; }
      assert [e] + rest == [e];
    } else {
      var n := |rest| - 1;
      WorldFromFront(w, e, rest[..n]);
      assert ([e] + rest)[..|rest|] == [e] + rest[..n];
    }
  }

  lemma {:induction false} OneWorldStep(w: World, e: WorldStep)
    ensures WorldRun(w, [e]) == WorldNext(w, e)
  {
    hide WorldNext;
    assert [e] == [e] + [];
    WorldFromFront(w, e, []);
  }

  lemma {:induction false} DoorsAreShut(w: World, steps: seq<WorldStep>)
    requires w.doors == map[] && forall e :: e in steps ==> OnTheWay(e)
    ensures WorldRun(w, steps) == w
  {
    if steps != [] {
      DoorsAreShut(w, steps[..|steps| - 1]);
      NoDoorNoStep(w, steps[|steps| - 1]);
      hide WorldNext;
    }
  }

  lemma NoDoorNoStep(w: World, e: WorldStep)
    requires w.doors == map[] && OnTheWay(e)
    ensures WorldNext(w, e) == w
  {
    assert w.doors - {if e.Drop? then e.u else 0} == w.doors;
  }

  // --- reload ---

  function Ajar(u: nat, door: Door): map<nat, Door> {
    map[u := door]
  }

  /** What a swapped generation is: new pools, and the plugins the request is to load and to know. */
  predicate Fits(w: World, generation: seq<Slot>, loaded: set<string>, known: set<string>) {
    && Consistent(generation) && FreshPools(generation, w.owner)
    && LoadedIds(generation) == loaded && SlotIds(generation) == known
  }

  lemma SwapAlone(w: World, u: nat, generation: seq<Slot>)
    requires w.doors == Ajar(u, Ready) && Consistent(generation) && FreshPools(generation, w.owner)
    ensures var v := WorldNext(w, Swap(u, generation));
            v.doors == Ajar(u, Swapped) && v.gone == w.gone
            && v.sys == w.sys.(slots := generation, closings := w.sys.closings + LiveClosings(w.sys.slots))
  {
    hide Consistent, FreshPools, Owned, LiveClosings;
  }

  lemma PruneAlone(w: World, u: nat)
    requires w.doors == Ajar(u, Swapped)
    ensures var v := WorldNext(w, Prune(u));
            v.doors == map[] && v.gone == w.gone && v.sys == w.sys.(hub := Retained(w.sys.hub, SlotIds(w.sys.slots)))
  {
    hide Retained, SlotIds;
  }

  lemma DropAlone(w: World, u: nat, door: Door)
    requires w.doors == Ajar(u, door)
    ensures WorldNext(w, Drop(u)) == w.(doors := map[])
  {
  }

  lemma {:induction false} SwapTail(w: World, u: nat, built: bool, generation: seq<Slot>)
    requires w.doors == Ajar(u, Ready) && (built ==> Consistent(generation) && FreshPools(generation, w.owner))
    ensures var v := WorldRun(w, SwapSteps(u, built, generation));
            && v.doors == map[] && v.gone == w.gone
            && v.sys == if built
                        then w.sys.(slots := generation, closings := w.sys.closings + LiveClosings(w.sys.slots),
                                    hub := Retained(w.sys.hub, SlotIds(generation)))
                        else w.sys
  {
    hide WorldNext, WorldRun, Consistent, FreshPools, LiveClosings, Retained, SlotIds, Ajar;
    if built {
      WorldFromFront(w, Swap(u, generation), [Prune(u)]);
      SwapAlone(w, u, generation);
      var x := WorldNext(w, Swap(u, generation));
      OneWorldStep(x, Prune(u));
      PruneAlone(x, u);
    } else {
      OneWorldStep(w, Drop(u));
      DropAlone(w, u, Ready);
    }
  }

  lemma BuildAlone(w: World, providers: map<string, nat>)
    requires w.doors == map[]
    ensures var v := WorldNext(w, Build(providers));
            v.doors == Ajar(w.nextDoor, Built) && v.gone == w.gone && v.owner == w.owner
            && v.sys == w.sys.(hub := w.sys.hub.(providers := w.sys.hub.providers + providers))
  {
  }

  lemma ReloadAuditAlone(w: World, u: nat, written: bool)
    requires w.doors == Ajar(u, Built)
    ensures var v := WorldNext(w, ReloadAudit(u, written));
            && v.doors == (if written then Ajar(u, Ready) else map[])
            && v.gone == w.gone && v.owner == w.owner && v.sys == w.sys
  {
  }

  lemma {:induction false} ReloadEnds(w: World, e: G.Op, generation: seq<Slot>, providers: map<string, nat>)
    requires w.doors == map[] && e.Reload? && Consistent(generation) && FreshPools(generation, w.owner)
    ensures var v := WorldRun(w, ReloadSteps(w.nextDoor, e, generation, providers));
            var hub := w.sys.hub.(providers := w.sys.hub.providers + providers);
            && v.doors == map[] && v.gone == w.gone
            && v.sys == if e.built && e.audited
                        then w.sys.(slots := generation, closings := w.sys.closings + LiveClosings(w.sys.slots),
                                    hub := Retained(hub, SlotIds(generation)))
                        else w.sys.(hub := hub)
  {
    var u := w.nextDoor;
    hide WorldNext, WorldRun, Consistent, FreshPools, LiveClosings, Retained, SlotIds, Ajar;
    var rest := if e.built then [ReloadAudit(u, e.audited)] + SwapSteps(u, true, generation) else [Drop(u)];
    WorldFromFront(w, Build(providers), rest);
    BuildAlone(w, providers);
    var x := WorldNext(w, Build(providers));
    if e.built {
      WorldFromFront(x, ReloadAudit(u, e.audited), SwapSteps(u, true, generation));
      ReloadAuditAlone(x, u, e.audited);
      var y := WorldNext(x, ReloadAudit(u, e.audited));
      if e.audited {
        SwapTail(y, u, true, generation);
      } else {
        DoorsAreShut(y, SwapSteps(u, true, generation));
      }
    } else {
      OneWorldStep(x, Drop(u));
      DropAlone(x, u, Built);
    }
  }

  lemma FacesOfMore(hub: Hub, providers: map<string, nat>, known: set<string>)
    ensures var more := hub.(providers := hub.providers + providers);
            && Faces(more) == Faces(hub).(providers := Faces(hub).providers + map id | id in providers.Keys :: 0)
            && Faces(Retained(more, known)) == Retained(Faces(more), known)
  {
  }

  /** The steps of a reload come to the request: the providers it started are registered whatever fails, and
      the generation it loads serves when nothing does. */
  lemma {:induction false} ReloadIsItsSteps(w: World, e: G.Op, generation: seq<Slot>, providers: map<string, nat>,
                                            disk: set<string>, bring: set<string>)
    requires QuietWorld(w) && e.Reload?
    requires Fits(w, generation, G.Fresh(Seen(w.sys, disk, bring)), disk)
    requires providers.Keys == if e.built && e.audited then G.Fresh(Seen(w.sys, disk, bring)) * bring else e.started
    ensures var v := WorldRun(w, ReloadSteps(w.nextDoor, e, generation, providers));
            QuietWorld(v) && Seen(v.sys, disk, bring) == G.ReloadOp(Seen(w.sys, disk, bring), e)
  {
    ReloadEnds(w, e, generation, providers);
    FacesOfMore(w.sys.hub, providers, disk);
    hide WorldRun, ReloadSteps, Consistent, FreshPools, LiveClosings, Retained, SlotIds, LoadedIds, Faces, G.Fresh;
  }

  // --- the choice of a set ---

  lemma ChooseAlone(w: World, chosen: seq<string>, written: bool)
    requires w.doors == map[]
    ensures var v := WorldNext(w, WorldStep.Choose(chosen, written));
            v.doors == (if written then Ajar(w.nextDoor, Decided(chosen)) else map[]) && v.gone == w.gone
            && v.owner == w.owner && v.sys == w.sys
  {
  }

  lemma WriteAlone(w: World, u: nat, chosen: seq<string>, committed: bool)
    requires w.doors == Ajar(u, Decided(chosen))
    ensures var v, choice := WorldNext(w, WriteChoice(u, committed)), G.ApplyChoice(w.sys.flags, chosen);
            v.gone == w.gone && v.owner == w.owner
            && if choice.Ok? && committed then v.doors == Ajar(u, Written) && v.sys == w.sys.(flags := choice.value)
               else v.doors == map[] && v.sys == w.sys
  {
    hide G.ApplyChoice;
  }

  lemma BuildChoiceAlone(w: World, u: nat, providers: map<string, nat>)
    requires w.doors == Ajar(u, Written)
    ensures var v := WorldNext(w, BuildChoice(u, providers));
            v.doors == Ajar(u, Ready) && v.gone == w.gone && v.owner == w.owner
            && v.sys == w.sys.(hub := w.sys.hub.(providers := w.sys.hub.providers + providers))
  {
  }

  lemma {:induction false} ChooseEnds(w: World, e: G.Op, generation: seq<Slot>, providers: map<string, nat>)
    requires w.doors == map[] && e.Choose? && Consistent(generation) && FreshPools(generation, w.owner)
    ensures var v, choice := WorldRun(w, ChooseSteps(w.nextDoor, e, generation, providers)),
                             G.ApplyChoice(w.sys.flags, e.chosen);
            && v.doors == map[] && v.gone == w.gone
            && if !e.audited || choice.Err? || !e.committed then v.sys == w.sys
               else var hub := w.sys.hub.(providers := w.sys.hub.providers + providers);
                    v.sys == if e.built
                             then w.sys.(slots := generation, closings := w.sys.closings + LiveClosings(w.sys.slots),
                                         hub := Retained(hub, SlotIds(generation)), flags := choice.value)
                             else w.sys.(hub := hub, flags := choice.value)
  {
    var u := w.nextDoor;
    var swap := SwapSteps(u, e.built, generation);
    var rest := [WriteChoice(u, e.committed)] + ([BuildChoice(u, providers)] + swap);
    assert forall step :: step in rest ==> OnTheWay(step);
    hide WorldNext, WorldRun, Consistent, FreshPools, LiveClosings, Retained, SlotIds, Ajar, G.ApplyChoice, SwapSteps,
         OnTheWay;
    WorldFromFront(w, WorldStep.Choose(e.chosen, e.audited), rest);
    ChooseAlone(w, e.chosen, e.audited);
    var x := WorldNext(w, WorldStep.Choose(e.chosen, e.audited));
    if !e.audited {
      DoorsAreShut(x, rest);
      return;
    }
    WorldFromFront(x, WriteChoice(u, e.committed), [BuildChoice(u, providers)] + swap);
    WriteAlone(x, u, e.chosen, e.committed);
    var y := WorldNext(x, WriteChoice(u, e.committed));
    if G.ApplyChoice(w.sys.flags, e.chosen).Err? || !e.committed {
      DoorsAreShut(y, [BuildChoice(u, providers)] + swap);
      return;
    }
    WorldFromFront(y, BuildChoice(u, providers), swap);
    BuildChoiceAlone(y, u, providers);
    SwapTail(WorldNext(y, BuildChoice(u, providers)), u, e.built, generation);
  }

  /** What a choice is to load. */
  function Chosen(a: G.Server, chosen: seq<string>): set<string> {
    var choice := G.ApplyChoice(a.flags, chosen);
    if choice.Ok? then G.Fresh(a.(flags := choice.value)) else {}
  }

  /** So do the steps of a choice: its flags stay written when its generation is not adopted. */
  lemma {:induction false} ChooseIsItsSteps(w: World, e: G.Op, generation: seq<Slot>, providers: map<string, nat>,
                                            disk: set<string>, bring: set<string>)
    requires QuietWorld(w) && e.Choose?
    requires Fits(w, generation, Chosen(Seen(w.sys, disk, bring), e.chosen), disk)
    requires providers.Keys == if e.built then Chosen(Seen(w.sys, disk, bring), e.chosen) * bring else e.started
    ensures var v := WorldRun(w, ChooseSteps(w.nextDoor, e, generation, providers));
            QuietWorld(v) && Seen(v.sys, disk, bring) == G.ChooseOp(Seen(w.sys, disk, bring), e)
  {
    ChooseEnds(w, e, generation, providers);
    FacesOfMore(w.sys.hub, providers, disk);
    hide WorldRun, ChooseSteps, Consistent, FreshPools, LiveClosings, Retained, SlotIds, LoadedIds, Faces, G.Fresh,
         G.ApplyChoice;
  }

  // --- uninstall ---

  lemma UninstallAlone(w: World, name: string)
    requires w.doors == map[]
    ensures WorldNext(w, Uninstall(name)) ==
            if w.sys.devHeaders || Enabled(w.sys.hub) != {name}
            then w.(doors := Ajar(w.nextDoor, Guarded(name)), nextDoor := w.nextDoor + 1) else w
  {
    hide Enabled;
  }

  lemma UninstallAuditAlone(w: World, u: nat, name: string, written: bool)
    requires w.doors == Ajar(u, Guarded(name))
    ensures var v := WorldNext(w, UninstallAudit(u, written));
            v.doors == (if Contains(w.sys.slots, name) && written then Ajar(u, Door.Logged(name)) else map[])
            && v.gone == w.gone && v.sys == w.sys
  {
    hide Contains;
  }

  lemma RemoveAlone(w: World, u: nat, name: string)
    requires w.doors == Ajar(u, Door.Logged(name)) && Contains(w.sys.slots, name)
    ensures var v := WorldNext(w, Remove(u));
            v.doors == Ajar(u, Taken(name)) && v.gone == w.gone
            && v.sys == w.sys.(slots := Registry.Removed(w.sys.slots, name),
                               closings := w.sys.closings + ClosingOf(w.sys.slots, name))
  {
    hide Contains, Registry.Removed, ClosingOf;
  }

  lemma MarkAlone(w: World, u: nat, name: string)
    requires w.doors == Ajar(u, Taken(name))
    ensures var v := WorldNext(w, Mark(u, true));
            v.doors == Ajar(u, Marked(name)) && v.sys == w.sys
            && v.gone == (if name in w.sys.flags then w.gone + {name} else w.gone)
  {
  }

  lemma ForgetAlone(w: World, u: nat, name: string)
    requires w.doors == Ajar(u, Marked(name))
    ensures var v := WorldNext(w, Forget(u));
            v.doors == map[] && v.gone == w.gone && v.sys == w.sys.(hub := Providers.Removed(w.sys.hub, name))
  {
    hide Providers.Removed;
  }

  /** An uninstall that gets past its guard and its audit row. */
  predicate Uninstalls(s: Sys, name: string, written: bool) {
    (s.devHeaders || Enabled(s.hub) != {name}) && Contains(s.slots, name) && written
  }

  lemma {:induction false} RemoveTail(w: World, u: nat, name: string)
    requires w.doors == Ajar(u, Door.Logged(name)) && Contains(w.sys.slots, name)
    ensures var v := WorldRun(w, [Remove(u)] + ([Mark(u, true)] + [Forget(u)]));
            && v.doors == map[] && v.gone == (if name in w.sys.flags then w.gone + {name} else w.gone)
            && v.sys == w.sys.(slots := Registry.Removed(w.sys.slots, name), hub := Providers.Removed(w.sys.hub, name),
                               closings := w.sys.closings + ClosingOf(w.sys.slots, name))
  {
    hide WorldNext, WorldRun, Contains, Registry.Removed, ClosingOf, Providers.Removed, Ajar;
    WorldFromFront(w, Remove(u), [Mark(u, true)] + [Forget(u)]);
    RemoveAlone(w, u, name);
    var x := WorldNext(w, Remove(u));
    WorldFromFront(x, Mark(u, true), [Forget(u)]);
    MarkAlone(x, u, name);
    var y := WorldNext(x, Mark(u, true));
    OneWorldStep(y, Forget(u));
    ForgetAlone(y, u, name);
  }

  lemma {:induction false} UninstallEnds(w: World, name: string, written: bool)
    requires w.doors == map[]
    ensures var v := WorldRun(w, UninstallSteps(w.nextDoor, name, written));
            && v.doors == map[]
            && if Uninstalls(w.sys, name, written)
               then && v.gone == (if name in w.sys.flags then w.gone + {name} else w.gone)
                    && v.sys == w.sys.(slots := Registry.Removed(w.sys.slots, name),
                                       hub := Providers.Removed(w.sys.hub, name),
                                       closings := w.sys.closings + ClosingOf(w.sys.slots, name))
               else v.gone == w.gone && v.sys == w.sys
  {
    var u := w.nextDoor;
    var rest := [Remove(u)] + ([Mark(u, true)] + [Forget(u)]);
    assert forall step :: step in [UninstallAudit(u, written)] + rest ==> OnTheWay(step);
    hide WorldNext, WorldRun, Contains, Registry.Removed, ClosingOf, Providers.Removed, Ajar, OnTheWay, Enabled;
    WorldFromFront(w, Uninstall(name), [UninstallAudit(u, written)] + rest);
    UninstallAlone(w, name);
    var x := WorldNext(w, Uninstall(name));
    if !w.sys.devHeaders && Enabled(w.sys.hub) == {name} {
      DoorsAreShut(x, [UninstallAudit(u, written)] + rest);
      return;
    }
    WorldFromFront(x, UninstallAudit(u, written), rest);
    UninstallAuditAlone(x, u, name, written);
    var y := WorldNext(x, UninstallAudit(u, written));
    if Contains(w.sys.slots, name) && written {
      RemoveTail(y, u, name);
    } else {
      DoorsAreShut(y, rest);
    }
  }

  lemma RemovedSeen(slots: seq<Slot>, name: string)
    requires Consistent(slots)
    ensures var after := Registry.Removed(slots, name);
            && Consistent(after) && LoadedIds(after) == LoadedIds(slots) - {name}
            && SlotIds(after) == SlotIds(slots) - {name}
  {
    var after := Registry.Removed(slots, name);
    RemovedConsistent(slots, name);
    hide Consistent;
    forall other
      ensures other in LoadedIds(after) <==> other in LoadedIds(slots) - {name}
      ensures other in SlotIds(after) <==> other in SlotIds(slots) - {name}
    {
      hide *;
      RemovedLookup(slots, name, other);
      LiveIsLoaded(slots, other);
      LiveIsLoaded(after, other);
    }
  }

  lemma FacesOfFewer(hub: Hub, name: string)
    ensures Faces(Providers.Removed(hub, name)) == Providers.Removed(Faces(hub), name)
    ensures Enabled(Faces(hub)) == Enabled(hub)
  {
  }

  /** And those of an uninstall, whose row is marked only when it was provisioned. */
  lemma {:induction false} UninstallIsItsSteps(w: World, name: string, written: bool, disk: set<string>,
                                               bring: set<string>)
    requires QuietWorld(w)
    ensures var v := WorldRun(w, UninstallSteps(w.nextDoor, name, written));
            && QuietWorld(v) && Seen(v.sys, disk, bring) == G.UninstallOp(Seen(w.sys, disk, bring), name, written)
            && v.gone == (if Uninstalls(w.sys, name, written) && name in w.sys.flags then w.gone + {name} else w.gone)
  {
    UninstallEnds(w, name, written);
    RemovedSeen(w.sys.slots, name);
    FacesOfFewer(w.sys.hub, name);
    LiveIsLoaded(w.sys.slots, name);
    hide WorldRun, UninstallSteps, Consistent, ClosingOf, Registry.Removed, Providers.Removed, SlotIds, LoadedIds,
         Faces, Enabled, Contains;
  }

  // --- the locked requests, among the doors ---

  lemma {:induction false} InnerRuns(w: World, steps: seq<Step>)
    requires forall e :: e in steps ==> !e.Install? && !e.Crash?
    ensures var v := WorldRun(w, Inners(steps));
            v == w.(sys := Run(w.sys, steps), uses := v.uses)
  {
    if steps == [] {
      assert Inners(steps) == [];
    } else {
      var n := |steps| - 1;
      InnerRuns(w, steps[..n]);
      assert Inners(steps)[..n] == Inners(steps[..n]);
      var v := WorldRun(w, Inners(steps[..n]));
      assert steps[n] in steps;
      InnerMoves(v, steps[n]);
      hide Next, WorldNext;
    }
  }

  lemma InnerMoves(w: World, e: Step)
    requires !e.Install? && !e.Crash?
    ensures WorldNext(w, Inner(e)) == w.(sys := Next(w.sys, e), uses := UsesNext(w, e))
  {
    hide Next, UsesNext;
  }

  lemma InstallMoves(w: World, t: nat, p: Loaded)
    requires p.pool !in w.owner && HoldsOnly(w.sys, p)
    ensures var v := WorldNext(w, Inner(Install(t)));
            v == w.(sys := Next(w.sys, Install(t)), uses := v.uses, owner := v.owner)
  {
    hide Next;
  }

  /** Whatever a task has loaded is this plugin. */
  predicate HoldsOnly(s: Sys, p: Loaded) {
    forall t :: t in s.tasks && s.tasks[t].phase.Prepared? ==> s.tasks[t].phase.plugin == p
  }

  lemma LoadHoldsOnly(s: Sys, t: nat, outcome: Lifecycle.Outcome, registers: Option<string>, audited: bool, p: Loaded)
    requires HoldsOnly(s, p) && (outcome == LoadFailed || outcome == Declares(p))
    ensures HoldsOnly(Next(s, Load(t, outcome, registers, audited)), p)
  {
    hide Errored, Registered, Agrees;
  }

  lemma {:induction false} InnersSplit(a: seq<Step>, b: seq<Step>)
    ensures Inners(a + b) == Inners(a) + Inners(b)
  {
  }

  lemma {:induction false} WorldRunsOn(w: World, a: seq<WorldStep>, b: seq<WorldStep>)
    ensures WorldRun(w, a + b) == WorldRun(WorldRun(w, a), b)
    decreases |b|
  {
    hide WorldNext;
    if b == [] {
      assert a + b == a;
    } else {
      var n := |b| - 1;
      WorldRunsOn(w, a, b[..n]);
      assert (a + b)[..|a + b| - 1] == a + b[..n];
    }
  }

  lemma GuardHoldsOnly(s: Sys, e: Step, p: Loaded)
    requires HoldsOnly(s, p) && (e.Begin? || e.Check? || e.Audit?)
    ensures HoldsOnly(Next(s, e), p)
  {
    hide NameIsFree, Contains, IsLive, Enabled;
  }

  function Before(t: nat, e: G.Op, p: Loaded, bring: set<string>, refusalAudited: bool): seq<Step>
    requires e.Enable?
  {
    [Begin(Enable, e.name), Check(t, e.libraryThere, refusalAudited), Audit(t, e.audited),
     Load(t, Loading(e, p), Registers(e, bring), refusalAudited)]
  }

  lemma {:induction false} BeforeHoldsOnly(s: Sys, e: G.Op, p: Loaded, bring: set<string>, refusalAudited: bool)
    requires s.tasks == map[] && e.Enable?
    ensures HoldsOnly(Run(s, Before(s.nextTask, e, p, bring, refusalAudited)), p)
  {
    var t := s.nextTask;
    var begin, check, audit := Begin(Enable, e.name), Check(t, e.libraryThere, refusalAudited), Audit(t, e.audited);
    var load := Load(t, Loading(e, p), Registers(e, bring), refusalAudited);
    assert HoldsOnly(s, p);
    assert Loading(e, p) == LoadFailed || Loading(e, p) == Declares(p);
    hide Run, Next, HoldsOnly, Loading, Registers;
    assert Before(t, e, p, bring, refusalAudited) == [begin] + ([check] + ([audit] + ([load] + [])));
    GuardHoldsOnly(s, begin, p);
    var a := Next(s, begin);
    RunFromFront(s, begin, [check] + ([audit] + ([load] + [])));
    GuardHoldsOnly(a, check, p);
    var b := Next(a, check);
    RunFromFront(a, check, [audit] + ([load] + []));
    GuardHoldsOnly(b, audit, p);
    var c := Next(b, audit);
    RunFromFront(b, audit, [load] + []);
    RunFromFront(c, load, []);
    LoadHoldsOnly(c, t, Loading(e, p), Registers(e, bring), refusalAudited, p);
    NoStep(Next(c, load));
  }

  lemma {:induction false} NoStep(s: Sys)
    ensures Run(s, []) == s
  {
  }

  lemma EnableParts(t: nat, e: G.Op, p: Loaded, bring: set<string>, refusalAudited: bool)
    requires e.Enable?
    ensures EnableSteps(t, e, p, bring, refusalAudited) ==
            Before(t, e, p, bring, refusalAudited) +
            ([Install(t)] + [BindProvider(t), WriteFlag(t, e.flagWritten), Stop(t), UnbindProvider(t)])
    ensures forall step :: step in Before(t, e, p, bring, refusalAudited) ==> !step.Install? && !step.Crash?
  {
  }

  /** The steps of an enable run among the doors as they run alone, as its plugin's pool is its own. */
  lemma {:induction false} EnableInWorld(w: World, e: G.Op, p: Loaded, bring: set<string>, refusalAudited: bool)
    requires w.sys.tasks == map[] && e.Enable? && p.pool !in w.owner
    ensures var steps := EnableSteps(w.sys.nextTask, e, p, bring, refusalAudited);
            var v := WorldRun(w, Inners(steps));
            v == w.(sys := Run(w.sys, steps), uses := v.uses, owner := v.owner)
  {
    var t := w.sys.nextTask;
    var before := Before(t, e, p, bring, refusalAudited);
    var after := [BindProvider(t), WriteFlag(t, e.flagWritten), Stop(t), UnbindProvider(t)];
    EnableParts(t, e, p, bring, refusalAudited);
    BeforeHoldsOnly(w.sys, e, p, bring, refusalAudited);
    assert forall step :: step in after ==> !step.Install? && !step.Crash?;
    hide Run, Next, WorldRun, WorldNext, HoldsOnly, EnableSteps, Before, Inners;
    InnersSplit(before, [Install(t)] + after);
    InnersSplit([Install(t)], after);
    OneInner(Install(t));
    InnerRuns(w, before);
    var x := WorldRun(w, Inners(before));
    WorldRunsOn(w, Inners(before), [Inner(Install(t))] + Inners(after));
    RunsOn(w.sys, before, [Install(t)] + after);
    WorldFromFront(x, Inner(Install(t)), Inners(after));
    RunFromFront(x.sys, Install(t), after);
    InstallMoves(x, t, p);
    InnerRuns(WorldNext(x, Inner(Install(t))), after);
  }

  lemma OneInner(e: Step)
    ensures Inners([e]) == [Inner(e)]
  {
  }

  lemma {:induction false} RunsOn(s: Sys, a: seq<Step>, b: seq<Step>)
    ensures Run(s, a + b) == Run(Run(s, a), b)
    decreases |b|
  {
    hide Next;
    if b == [] {
      assert a + b == a;
    } else {
      var n := |b| - 1;
      RunsOn(s, a, b[..n]);
      assert (a + b)[..|a + b| - 1] == a + b[..n];
    }
  }

  // --- every serial history ---

  /** A request, and what its steps run into: what a library declares, what a generation loads. */
  datatype Asked = Asked(op: G.Op, plugin: Loaded, generation: seq<Slot>, providers: map<string, nat>)

  function StepsOf(w: World, a: Asked, bring: set<string>): seq<WorldStep> {
    match a.op
    case Enable(_, _, _, _, _, _) => Inners(EnableSteps(w.sys.nextTask, a.op, a.plugin, bring, true))
    case Disable(_, _, _) => Inners(DisableSteps(w.sys.nextTask, a.op, true, true))
    case Choose(_, _, _, _, _) => ChooseSteps(w.nextDoor, a.op, a.generation, a.providers)
    case Reload(_, _, _) => ReloadSteps(w.nextDoor, a.op, a.generation, a.providers)
  }

  /** The library declares the plugin that was asked for, and a generation loads what its flags say. */
  predicate Suits(w: World, a: Asked, disk: set<string>, bring: set<string>) {
    var seen := Seen(w.sys, disk, bring);
    match a.op
    case Enable(_, _, _, _, _, _) =>
      a.plugin.info.id == a.op.name && Agrees(Live(a.plugin)) && a.plugin.pool !in w.owner
    case Disable(_, _, _) => true
    case Choose(_, _, _, _, _) =>
      && Fits(w, a.generation, Chosen(seen, a.op.chosen), disk)
      && a.providers.Keys == if a.op.built then Chosen(seen, a.op.chosen) * bring else a.op.started
    case Reload(_, _, _) =>
      && Fits(w, a.generation, G.Fresh(seen), disk)
      && a.providers.Keys == if a.op.built && a.op.audited then G.Fresh(seen) * bring else a.op.started
  }

  lemma {:induction false} RequestIsItsSteps(w: World, a: Asked, disk: set<string>, bring: set<string>)
    requires QuietWorld(w) && Suits(w, a, disk, bring)
    ensures var v := WorldRun(w, StepsOf(w, a, bring));
            QuietWorld(v) && Seen(v.sys, disk, bring) == G.Do(Seen(w.sys, disk, bring), a.op)
  {
    hide Run, WorldRun, Seen, Inners, EnableSteps, DisableSteps, ChooseSteps, ReloadSteps, Quiet, Fits, Agrees,
         G.EnableOp, G.DisableOp, G.ChooseOp, G.ReloadOp, Chosen, G.Fresh;
    match a.op {
      case Enable(_, _, _, _, _, _) =>
        NobodyIn(w);
        EnableInWorld(w, a.op, a.plugin, bring, true);
        EnableIsItsSteps(w.sys, a.op, a.plugin, disk, bring, true);
      case Disable(_, _, _) =>
        DisableHasNoInstall(w.sys.nextTask, a.op);
        InnerRuns(w, DisableSteps(w.sys.nextTask, a.op, true, true));
        DisableIsItsSteps(w.sys, a.op, disk, bring, true, true);
      case Choose(_, _, _, _, _) =>
        ChooseIsItsSteps(w, a.op, a.generation, a.providers, disk, bring);
      case Reload(_, _, _) =>
        ReloadIsItsSteps(w, a.op, a.generation, a.providers, disk, bring);
    }
  }

  lemma NobodyIn(w: World)
    requires QuietWorld(w)
    ensures w.sys.tasks == map[]
  {
    hide Consistent;
  }

  lemma DisableHasNoInstall(t: nat, e: G.Op)
    requires e.Disable?
    ensures forall step :: step in DisableSteps(t, e, true, true) ==> !step.Install? && !step.Crash?
  {
  }

  ghost function Served(w: World, asked: seq<Asked>, bring: set<string>): World {
    if asked == [] then w
    else
      var v := Served(w, asked[..|asked| - 1], bring);
      WorldRun(v, StepsOf(v, asked[|asked| - 1], bring))
  }

  function Ops(asked: seq<Asked>): seq<G.Op> {
    seq(|asked|, i requires 0 <= i < |asked| => asked[i].op)
  }

  ghost predicate AllSuit(w: World, asked: seq<Asked>, disk: set<string>, bring: set<string>) {
    forall k :: 0 <= k < |asked| ==> Suits(Served(w, asked[..k], bring), asked[k], disk, bring)
  }

  /** One after another, the steps of the requests come to what the requests say, with failures anywhere. */
  lemma {:induction false} RequestsInTurn(w: World, asked: seq<Asked>, disk: set<string>, bring: set<string>)
    requires QuietWorld(w) && AllSuit(w, asked, disk, bring)
    ensures var v := Served(w, asked, bring);
            QuietWorld(v) && Seen(v.sys, disk, bring) == G.DoAll(Seen(w.sys, disk, bring), Ops(asked))
  {
    hide Seen, Suits, StepsOf, QuietWorld, G.Do, WorldRun;
    if asked == [] {
    } else {
      var n := |asked| - 1;
      var earlier := asked[..n];
      assert Ops(asked)[..n] == Ops(earlier);
      forall k | 0 <= k < n
        ensures Suits(Served(w, earlier[..k], bring), earlier[k], disk, bring)
      {
        assert earlier[..k] == asked[..k];
      }
      RequestsInTurn(w, earlier, disk, bring);
      RequestIsItsSteps(Served(w, earlier, bring), asked[n], disk, bring);
    }
  }

  /** So what serial requests keep, the steps of requests that do not overlap keep: the loaded plugins are those the
      flags say, the set is closed under the dependencies, and every required plugin is in it. */
  lemma {:induction false} RequestsInTurnStayGoverned(w: World, asked: seq<Asked>, disk: set<string>,
                                                      bring: set<string>)
    requires QuietWorld(w) && AllSuit(w, asked, disk, bring) && G.Governed(Seen(w.sys, disk, bring))
    requires forall k :: 0 <= k < |asked| ==> G.Adopts(asked[k].op)
    ensures var v := Served(w, asked, bring);
            && LoadedIds(v.sys.slots) == (set name | name in v.sys.flags && v.sys.flags[name])
            && ("store" in LoadedIds(v.sys.slots) ==> "stripe" in LoadedIds(v.sys.slots))
            && forall name :: name in ["auth", "membership"] && name in disk ==> name in LoadedIds(v.sys.slots)
  {
    var v := Served(w, asked, bring);
    RequestsInTurn(w, asked, disk, bring);
    G.SerialRunsStayGoverned(Seen(w.sys, disk, bring), Ops(asked));
    hide AllSuit, QuietWorld, Served, G.DoAll, LoadedIds, SlotIds, Faces;
    var seen := Seen(v.sys, disk, bring);
    assert G.Governed(seen);
    assert ("store", "stripe") in PLUGIN_DEPENDENCIES;
    assert REQUIRED_PLUGINS == ["auth", "membership"];
  }

  // --- there always are such a library and such a generation ---

  lemma {:induction false} NewPool(owner: map<nat, string>) returns (pool: nat)
    ensures forall other :: other in owner ==> other < pool
    decreases |owner|
  {
    if owner == map[] {
      return 0;
    }
    var some :| some in owner;
    var below := NewPool(owner - {some});
    assert forall other :: other in owner ==> other == some || other in owner - {some};
    return if below <= some then some + 1 else below;
  }

  function Sample(id: string, pool: nat): Loaded {
    Loaded(PluginInfo(id, "", true, true, 0, None), [], "", pool)
  }

  function Providing(ids: set<string>): map<string, nat> {
    map id | id in ids :: 0
  }

  lemma {:induction false} NewGeneration(disk: set<string>, loaded: set<string>, pool: nat)
      returns (generation: seq<Slot>)
    requires loaded <= disk
    ensures Consistent(generation) && LoadedIds(generation) == loaded && SlotIds(generation) == disk
    ensures forall k :: 0 <= k < |generation| && generation[k].Live? ==>
              pool <= generation[k].plugin.pool < pool + |generation|
    ensures forall j, k :: 0 <= j < k < |generation| && generation[j].Live? && generation[k].Live? ==>
              generation[j].plugin.pool != generation[k].plugin.pool
    decreases disk
  {
    if disk == {} {
      return [];
    }
    var id :| id in disk;
    var rest := NewGeneration(disk - {id}, loaded - {id}, pool);
    var p := Sample(id, pool + |rest|);
    var own := if id in loaded then Live(p) else RecordOf(p);
    assert id !in SlotIds(rest);
    generation := rest + [own];
    OneMore(rest, own);
  }

  lemma OneMore(rest: seq<Slot>, own: Slot)
    requires Consistent(rest) && Agrees(own) && own.Info().id !in SlotIds(rest)
    ensures Consistent(rest + [own]) && SlotIds(rest + [own]) == SlotIds(rest) + {own.Info().id}
    ensures LoadedIds(rest + [own]) == LoadedIds(rest) + if own.Live? then {own.Info().id} else {}
  {
    var all := rest + [own];
    assert all[|rest|] == own;
    assert forall k :: 0 <= k < |rest| ==> all[k] == rest[k] && rest[k].Info().id in SlotIds(rest);
    forall id | id in LoadedIds(rest)
      ensures id in LoadedIds(all)
    {
      var k :| 0 <= k < |rest| && rest[k].Live? && rest[k].Info().id == id;
      assert all[k] == rest[k];
    }
    forall id | id in SlotIds(rest)
      ensures id in SlotIds(all)
    {
      var k :| 0 <= k < |rest| && rest[k].Info().id == id;
      assert all[k] == rest[k];
    }
  }

  lemma {:induction false} FittingGeneration(w: World, loaded: set<string>, disk: set<string>)
      returns (generation: seq<Slot>)
    requires loaded <= disk
    ensures Fits(w, generation, loaded, disk)
  {
    hide Consistent, LoadedIds, SlotIds;
    var pool := NewPool(w.owner);
    generation := NewGeneration(disk, loaded, pool);
  }

  lemma {:induction false} SomeSuits(w: World, op: G.Op, disk: set<string>, bring: set<string>) returns (a: Asked)
    ensures a.op == op && Suits(w, a, disk, bring)
  {
    var seen := Seen(w.sys, disk, bring);
    hide Seen, Fits;
    var pool := NewPool(w.owner);
    match op {
      case Enable(name, _, _, _, _, _) =>
        a := Asked(op, Sample(name, pool), [], map[]);
      case Disable(name, _, _) =>
        a := Asked(op, Sample(name, pool), [], map[]);
      case Choose(chosen, _, _, built, started) =>
        var loaded := Chosen(seen, chosen);
        SeenDisk(w.sys, disk, bring, chosen);
        var generation := FittingGeneration(w, loaded, disk);
        a := Asked(op, Sample("", pool), generation, Providing(if built then loaded * bring else started));
      case Reload(built, started, audited) =>
        var loaded := G.Fresh(seen);
        SeenDisk(w.sys, disk, bring, []);
        var generation := FittingGeneration(w, loaded, disk);
        a := Asked(op, Sample("", pool), generation, Providing(if built && audited then loaded * bring else started));
    }
  }

  lemma SeenDisk(s: Sys, disk: set<string>, bring: set<string>, chosen: seq<string>)
    ensures G.Fresh(Seen(s, disk, bring)) <= disk && Chosen(Seen(s, disk, bring), chosen) <= disk
  {
    hide G.ApplyChoice;
  }

  /** Every serial history of enables, disables, choices and reloads, with failures anywhere, is a run of the
      server: one after another, the steps of the requests come to what the requests say. */
  lemma {:induction false} HistoriesAreRuns(w: World, ops: seq<G.Op>, disk: set<string>, bring: set<string>)
      returns (steps: seq<WorldStep>)
    requires QuietWorld(w)
    ensures var v := WorldRun(w, steps);
            QuietWorld(v) && Seen(v.sys, disk, bring) == G.DoAll(Seen(w.sys, disk, bring), ops)
  {
    hide WorldNext, Seen, Suits, StepsOf, QuietWorld, G.Do;
    if ops == [] {
      return [];
    }
    var n := |ops| - 1;
    var earlier := HistoriesAreRuns(w, ops[..n], disk, bring);
    var v := WorldRun(w, earlier);
    var a := SomeSuits(v, ops[n], disk, bring);
    RequestIsItsSteps(v, a, disk, bring);
    WorldRunsOn(w, earlier, StepsOf(v, a, bring));
    steps := earlier + StepsOf(v, a, bring);
  }
}
