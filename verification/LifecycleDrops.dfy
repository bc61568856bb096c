/** What a handler dropped halfway leaves behind. */
module LifecycleDrops {
  import opened Wrappers
  import opened Registry
  import opened LifecycleRules
  import opened IdentityHub
  import opened Lifecycle
  import opened LifecycleRaces
  import opened LifecycleAlone

  /** A disable dropped after its flag write: the plugin stays live with its flag off. */
  lemma {:induction false} DisableDropped(s: Sys, name: string) returns (t: Sys)
    requires Init(s) && IsLive(s.slots, name) && !DisableRefused(name, LoadedIds(s.slots)) && name in s.flags
    requires Contains(s.slots, name) && (s.devHeaders || Enabled(s.hub) != {name})
    ensures ReachesAlone(s, t) && t.tasks == map[] && t.slots == s.slots && t.flags == s.flags[name := false]
  {
    hide ReachesAlone, IsLive, LoadedIds, DisableRefused, Contains, Enabled, Alone, Boots;
    NoneIsAlone(s);
    AloneItself(s);
    var b := s.nextTask;
    var v := AuditedAlone(s, s, Disable, name);
    OnlyIsAlone(v, b, Task(Disable, name, Audited));
    var w := Next(v, WriteFlag(b, true));
    OnlyIsAlone(w, b, Task(Disable, name, Unflagged));
    AloneNext(s, v, WriteFlag(b, true));
    t := Next(w, Cancel(b));
    NoneIsAlone(t);
    AloneNext(s, w, Cancel(b));
  }

  /** An enable from its audit to its end. */
  lemma {:induction false} EnableAlone(s: Sys, v: Sys, a: nat, p: Loaded) returns (t: Sys)
    requires ReachesAlone(s, v) && Only(v, a, Task(Enable, p.info.id, Audited))
    requires Agrees(Live(p)) && p.info.id in v.flags
    ensures ReachesAlone(s, t) && t.tasks == map[] && t.flags == v.flags[p.info.id := true]
  {
    var name := p.info.id;
    hide ReachesAlone, Agrees, Alone, Installed;
    OnlyIsAlone(v, a, Task(Enable, name, Audited));
    var w := Next(v, Load(a, Declares(p), None, true));
    OnlyIsAlone(w, a, Task(Enable, name, Prepared(p)));
    AloneNext(s, v, Load(a, Declares(p), None, true));
    var x := Next(w, Install(a));
    OnlyIsAlone(x, a, Task(Enable, name, InPlace));
    AloneNext(s, w, Install(a));
    t := FlagAlone(s, x, a, name);
  }

  lemma {:induction false} FlagAlone(s: Sys, x: Sys, a: nat, name: string) returns (t: Sys)
    requires ReachesAlone(s, x) && Only(x, a, Task(Enable, name, InPlace)) && name in x.flags
    ensures ReachesAlone(s, t) && t.tasks == map[] && t.flags == x.flags[name := true]
  {
    hide ReachesAlone, Alone, Switched;
    OnlyIsAlone(x, a, Task(Enable, name, InPlace));
    var y := Next(x, BindProvider(a));
    OnlyIsAlone(y, a, Task(Enable, name, Bound));
    AloneNext(s, x, BindProvider(a));
    t := Next(y, WriteFlag(a, true));
    NoneIsAlone(t);
    AloneNext(s, y, WriteFlag(a, true));
  }

  /** From every booted server with stripe loaded and store off, never with two changes at once: the
      disable of stripe is dropped after its flag write, so stripe is live but will not be loaded
      again; store may be enabled; and the next restart loads store without the plugin it needs. */
  lemma {:induction false} DroppedDisableBreaksClosure(s: Sys, p: Loaded, generation: seq<Slot>,
                                                       providers: map<string, nat>)
    requires Init(s) && IsLive(s.slots, "stripe") && Contains(s.slots, "store") && !IsLive(s.slots, "store")
    requires "store" in s.flags && p.info.id == "store" && Agrees(Live(p))
    requires s.devHeaders || Enabled(s.hub) != {"stripe"}
    requires Boots(generation, s.flags["stripe" := false]["store" := true])
    ensures exists t :: ReachesAlone(s, t) && t.tasks == map[] && IsLive(t.slots, "store") && !IsLive(t.slots, "stripe")
  {
    hide ReachesAlone, IsLive, LoadedIds, EnableRefused, DisableRefused, Contains, Enabled, Agrees, Boots, Alone;
    MayChange(s);
    BootedLive(generation, s.flags["stripe" := false]["store" := true]);
    var t := DisableDropped(s, "stripe");
    var v := AuditedAlone(s, t, Enable, "store");
    v := EnableAlone(s, v, t.nextTask, p);
    var u := Next(v, Crash(generation, providers));
    NoneIsAlone(u);
    AloneNext(s, v, Crash(generation, providers));
    assert u.slots == generation;
  }

  lemma MayChange(s: Sys)
    requires Init(s) && IsLive(s.slots, "stripe") && !IsLive(s.slots, "store")
    ensures "stripe" in s.flags && Contains(s.slots, "stripe")
    ensures !EnableRefused("store", LoadedIds(s.slots)) && !DisableRefused("stripe", LoadedIds(s.slots))
  {
    assert Flagged(s.flags, "stripe");
    LoadedIsLive(s.slots, "store");
    LoadedIsLive(s.slots, "stripe");
    hide LoadedIds, Consistent;
  }

  lemma BootedLive(generation: seq<Slot>, flags: map<string, bool>)
    requires Boots(generation, flags)
    ensures forall id :: IsLive(generation, id) == Flagged(flags, id)
  {
  }
}
