/** The doors that take no lifecycle lock: uninstall, reload and the choice of a set, between the
    steps of the enables, disables and requests. */
module LifecycleDoors {
  import opened Registry
  import opened IdentityHub
  import opened Lifecycle
  import Governance
  import Providers = IdentityHub

  /** Where a request through such a door stands. */
  datatype Door =
    | Guarded(name: string)          // uninstall: not the only provider
    | Logged(name: string)           // uninstall: the audit row is written
    | Taken(name: string)            // uninstall: the slot is gone and its pool told to close
    | Marked(name: string)           // uninstall: the row says uninstalled
    | Built                          // reload: a generation is loaded
    | Decided(chosen: seq<string>)   // choice: the audit row is written
    | Written                        // choice: the flags are in place
    | Ready                          // reload or choice: about to swap
    | Swapped                        // the new generation serves

  datatype World = World(
    sys: Sys,
    gone: set<string>,               // the plugins whose row says uninstalled
    doors: map<nat, Door>, nextDoor: nat,
    uses: map<nat, nat>,             // the pool each request inside works on
    owner: map<nat, string>,         // whose each pool is that was ever routed to
    audited: set<nat>)               // the door requests whose audit row is written

  datatype WorldStep =
    | Inner(e: Step)
    | Restart(generation: seq<Slot>, providers: map<string, nat>)
    | Uninstall(name: string)
    | UninstallAudit(u: nat, written: bool)
    | Remove(u: nat)
    | Mark(u: nat, written: bool)
    | Forget(u: nat)
    | Build(providers: map<string, nat>)
    | ReloadAudit(u: nat, written: bool)
    | Choose(chosen: seq<string>, written: bool)
    | WriteChoice(u: nat, committed: bool)
    | BuildChoice(u: nat, providers: map<string, nat>)
    | Swap(u: nat, generation: seq<Slot>)
    | Prune(u: nat)
    | Drop(u: nat)

  /** What a restart loads: the flag is on and the row does not say uninstalled. */
  predicate Wanted(w: World, name: string) {
    Flagged(w.sys.flags, name) && name !in w.gone
  }

  function WantedFlags(w: World): map<string, bool> {
    map id | id in w.sys.flags :: w.sys.flags[id] && id !in w.gone
  }

  // --- pools ---

  /** The pools a registry routes to, each with its plugin. */
  function Routed(slots: seq<Slot>): set<(nat, string)> {
    set k | 0 <= k < |slots| && slots[k].Live? :: (slots[k].plugin.pool, slots[k].plugin.info.id)
  }

  /** Every load opens a pool of its own. */
  predicate FreshPools(generation: seq<Slot>, owner: map<nat, string>) {
    && (forall x :: x in Routed(generation) ==> x.0 !in owner)
    && (forall x, y :: x in Routed(generation) && y in Routed(generation) && x.0 == y.0 ==> x == y)
  }

  function Owned(generation: seq<Slot>): map<nat, string> {
    if generation == [] then map[]
    else
      var own := generation[0];
      Owned(generation[1..]) + if own.Live? then map[own.plugin.pool := own.plugin.info.id] else map[]
  }

  // --- the steps of the locked protocol ---

  predicate Installs(w: World, e: Step) {
    e.Install? && e.t in w.sys.tasks && w.sys.tasks[e.t].phase.Prepared?
  }

  /** Restarts have a step of their own, and a pool is never routed to twice. */
  predicate Possible(w: World, e: Step) {
    !e.Crash? && (Installs(w, e) ==> w.sys.tasks[e.t].phase.plugin.pool !in w.owner)
  }

  function UsesNext(w: World, e: Step): map<nat, nat> {
    if e.Enter? && e.request !in w.sys.inside && IsLive(w.sys.slots, e.plugin)
    then w.uses[e.request := w.sys.slots[Position(w.sys.slots, e.plugin)].plugin.pool]
    else if e.Leave? then w.uses - {e.request} else w.uses
  }

  function OwnerNext(w: World, e: Step): map<nat, string> {
    if Installs(w, e) then w.owner[w.sys.tasks[e.t].phase.plugin.pool := w.sys.tasks[e.t].phase.plugin.info.id]
    else w.owner
  }

  ghost function InnerNext(w: World, e: Step): World {
    if Possible(w, e) then w.(sys := Next(w.sys, e), uses := UsesNext(w, e), owner := OwnerNext(w, e)) else w
  }

  // --- the steps of the doors ---

  function Through(w: World, u: nat, door: Door): World {
    w.(doors := w.doors[u := door])
  }

  function Shut(w: World, u: nat): World {
    w.(doors := w.doors - {u})
  }

  function Opened(w: World, door: Door): World {
    w.(doors := w.doors[w.nextDoor := door], nextDoor := w.nextDoor + 1)
  }

  function Audits(w: World, u: nat): World {
    w.(audited := w.audited + {u})
  }

  function WithSlots(w: World, slots: seq<Slot>, closed: seq<Closing>): World {
    w.(sys := w.sys.(slots := slots, closings := w.sys.closings + closed))
  }

  function WithHub(w: World, hub: Hub): World {
    w.(sys := w.sys.(hub := hub))
  }

  /** Starting plugins registers their providers, whether or not their generation is adopted. */
  function Starting(w: World, providers: map<string, nat>): World {
    WithHub(w, w.sys.hub.(providers := w.sys.hub.providers + providers))
  }

  function UninstallNext(w: World, name: string): World {
    if w.sys.devHeaders || Enabled(w.sys.hub) != {name} then Opened(w, Guarded(name)) else w
  }

  function UninstallAuditNext(w: World, u: nat, written: bool): World
    requires u in w.doors && w.doors[u].Guarded?
  {
    var name := w.doors[u].name;
    if Contains(w.sys.slots, name) && written then Audits(Through(w, u, Logged(name)), u) else Shut(w, u)
  }

  function RemoveNext(w: World, u: nat): World
    requires u in w.doors && w.doors[u].Logged?
  {
    var name := w.doors[u].name;
    if !Contains(w.sys.slots, name) then Shut(w, u)
    else WithSlots(Through(w, u, Taken(name)), Registry.Removed(w.sys.slots, name), ClosingOf(w.sys.slots, name))
  }

  /** The flag is left as it is: a later reinstall comes back serving. */
  function MarkNext(w: World, u: nat, written: bool): World
    requires u in w.doors && w.doors[u].Taken?
  {
    var name := w.doors[u].name;
    if !written then Shut(w, u)
    else Through(w.(gone := if name in w.sys.flags then w.gone + {name} else w.gone), u, Marked(name))
  }

  function ForgetNext(w: World, u: nat): World
    requires u in w.doors && w.doors[u].Marked?
  {
    WithHub(Shut(w, u), Providers.Removed(w.sys.hub, w.doors[u].name))
  }

  function WriteChoiceNext(w: World, u: nat, committed: bool): World
    requires u in w.doors && w.doors[u].Decided?
  {
    var choice := Governance.ApplyChoice(w.sys.flags, w.doors[u].chosen);
    if choice.Err? || !committed then Shut(w, u)
    else Through(w.(sys := w.sys.(flags := choice.value)), u, Written)
  }

  function SwapNext(w: World, u: nat, generation: seq<Slot>): World
    requires u in w.doors
  {
    var w' := WithSlots(Through(w, u, Swapped), generation, LiveClosings(w.sys.slots));
    w'.(owner := w.owner + Owned(generation))
  }

  function SlotIds(slots: seq<Slot>): set<string> {
    set k | 0 <= k < |slots| :: slots[k].Info().id
  }

  /** Whoever has a slot, live or recorded, keeps its provider. */
  function PruneNext(w: World, u: nat): World {
    WithHub(Shut(w, u), Retained(w.sys.hub, SlotIds(w.sys.slots)))
  }

  ghost function RestartNext(w: World, generation: seq<Slot>, providers: map<string, nat>): World {
    if Boots(generation, WantedFlags(w)) && FreshPools(generation, w.owner) then
      var calm := w.sys.(tasks := map[], inside := map[], counts := map[]);
      w.(sys := calm.(slots := generation, hub := Hub(providers, {})), doors := map[], uses := map[],
         owner := w.owner + Owned(generation))
    else w
  }

  predicate Swaps(w: World, e: WorldStep) {
    e.Swap? && e.u in w.doors && w.doors[e.u].Ready? && Consistent(e.generation) && FreshPools(e.generation, w.owner)
  }

  ghost function WorldNext(w: World, e: WorldStep): World {
    match e
    case Inner(s) => InnerNext(w, s)
    case Restart(generation, providers) => RestartNext(w, generation, providers)
    case Uninstall(name) => UninstallNext(w, name)
    case UninstallAudit(u, written) =>
      if u in w.doors && w.doors[u].Guarded? then UninstallAuditNext(w, u, written) else w
    case Remove(u) => if u in w.doors && w.doors[u].Logged? then RemoveNext(w, u) else w
    case Mark(u, written) => if u in w.doors && w.doors[u].Taken? then MarkNext(w, u, written) else w
    case Forget(u) => if u in w.doors && w.doors[u].Marked? then ForgetNext(w, u) else w
    case Build(providers) => Starting(Opened(w, Built), providers)
    case ReloadAudit(u, written) =>
      if u in w.doors && w.doors[u].Built? then (if written then Audits(Through(w, u, Ready), u) else Shut(w, u)) else w
    case Choose(chosen, written) => if written then Audits(Opened(w, Decided(chosen)), w.nextDoor) else w
    case WriteChoice(u, committed) =>
      if u in w.doors && w.doors[u].Decided? then WriteChoiceNext(w, u, committed) else w
    case BuildChoice(u, providers) =>
      if u in w.doors && w.doors[u].Written? then Starting(Through(w, u, Ready), providers) else w
    case Swap(u, generation) => if Swaps(w, e) then SwapNext(w, u, generation) else w
    case Prune(u) => if u in w.doors && w.doors[u].Swapped? then PruneNext(w, u) else w
    case Drop(u) => Shut(w, u)
  }

  ghost function WorldRun(w: World, steps: seq<WorldStep>): World {
    if steps == [] then w else WorldNext(WorldRun(w, steps[..|steps| - 1]), steps[|steps| - 1])
  }

  /** A server that has just booted, whatever was uninstalled before. */
  ghost predicate WorldInit(w: World) {
    && Boots(w.sys.slots, WantedFlags(w)) && w.sys.tasks == map[] && w.sys.inside == map[] && w.sys.counts == map[]
    && w.sys.log == [] && w.doors == map[] && w.uses == map[] && w.audited == {}
    && FreshPools(w.sys.slots, map[]) && w.owner == Owned(w.sys.slots)
  }
}
