/** What the per-plugin locks do not prevent: two lifecycle changes of different plugins, each
    allowed by what it read, that together break a rule. */
module LifecycleRaces {
  import opened Wrappers
  import opened Registry
  import opened LifecycleRules
  import opened IdentityHub
  import opened InFlight
  import opened Lifecycle
  import opened LifecycleGuarantees

  lemma {:induction false} RunExtends(s: Sys, steps: seq<Step>, e: Step)
    ensures Run(s, steps + [e]) == Next(Run(s, steps), e)
  {
  }

  /** Two tasks on different plugins, and where they stand. */
  predicate Pair(s: Sys, a: nat, b: nat, ta: Task, tb: Task) {
    a != b && a in s.tasks && b in s.tasks && s.tasks[a] == ta && s.tasks[b] == tb && ta.name != tb.name
  }

  /** Both tasks begin and pass their guards, on the same view of what is loaded. */
  lemma BothBegin(s: Sys, ka: Kind, na: string, kb: Kind, nb: string)
    requires s.tasks == map[] && na != nb
    ensures var s' := Next(Next(s, Begin(ka, na)), Begin(kb, nb));
            && Pair(s', s.nextTask, s.nextTask + 1, Task(ka, na, Waiting), Task(kb, nb, Waiting))
            && s' == s.(tasks := s'.tasks, nextTask := s.nextTask + 2)
  {
  }

  lemma CheckPasses(s: Sys, t: nat)
    requires At(s, t, Waiting) && Contains(s.slots, s.tasks[t].name)
    requires s.tasks[t].kind.Enable? ==>
               !IsLive(s.slots, s.tasks[t].name) && !EnableRefused(s.tasks[t].name, LoadedIds(s.slots))
    requires s.tasks[t].kind.Disable? ==>
               !DisableRefused(s.tasks[t].name, LoadedIds(s.slots))
               && (s.devHeaders || Enabled(s.hub) != {s.tasks[t].name})
    ensures Next(s, Check(t, true, true)) == With(s, t, Checked)
  {
  }

  lemma AuditPasses(s: Sys, t: nat)
    requires At(s, t, Checked)
    ensures var s' := Next(s, Audit(t, true)); s' == With(s, t, Audited).(log := s'.log)
  {
  }

  lemma LoadAndInstall(s: Sys, a: nat, p: Loaded)
    requires At(s, a, Audited) && s.tasks[a].kind.Enable? && p.info.id == s.tasks[a].name && Agrees(Live(p))
    ensures var s' := Next(Next(s, Load(a, Declares(p), None, true)), Install(a));
            s' == With(s, a, InPlace).(slots := Installed(s.slots, p), log := s'.log)
  {
  }

  lemma BindAndFlag(s: Sys, a: nat)
    requires At(s, a, InPlace) && s.tasks[a].kind.Enable? && s.tasks[a].name in s.flags
    ensures var s' := Next(Next(s, BindProvider(a)), WriteFlag(a, true));
            s' == s.(tasks := s.tasks - {a}, flags := s.flags[s.tasks[a].name := true],
                     hub := Switched(s.hub, s.tasks[a].name, true), log := s'.log)
  {
  }

  lemma DisableStops(s: Sys, b: nat)
    requires At(s, b, Audited) && s.tasks[b].kind.Disable? && s.tasks[b].name in s.flags
    ensures var name := s.tasks[b].name; var s' := Next(Next(s, WriteFlag(b, true)), Stop(b));
            s' == With(s, b, Unrouted(PoolOf(s.slots, name))).(
                    slots := Stopped(s.slots, name), flags := s.flags[name := false], log := s'.log)
  {
    hide Stopped, PoolOf;
  }

  lemma DisableUnbinds(s: Sys, b: nat)
    requires b in s.tasks && s.tasks[b].phase.Unrouted?
    ensures Next(s, UnbindProvider(b)).hub == Switched(s.hub, s.tasks[b].name, false)
    ensures forall t :: t in s.tasks && t != b ==>
              t in Next(s, UnbindProvider(b)).tasks && Next(s, UnbindProvider(b)).tasks[t] == s.tasks[t]
  {
    hide Switched;
  }

  // --- reachability ---

  ghost predicate Reaches(s: Sys, t: Sys) {
    exists steps :: Run(s, steps) == t
  }

  lemma {:induction false} ReachesItself(s: Sys)
    ensures Reaches(s, s)
  {
    assert Run(s, []) == s;
  }

  lemma {:induction false} ReachesNext(s: Sys, t: Sys, e: Step)
    requires Reaches(s, t)
    ensures Reaches(s, Next(t, e))
  {
    var steps :| Run(s, steps) == t;
    RunExtends(s, steps, e);
  }

  lemma {:induction false} ReachesTwo(s: Sys, t: Sys, d: Step, e: Step)
    requires Reaches(s, t)
    ensures Reaches(s, Next(Next(t, d), e))
  {
    hide Next, Reaches;
    ReachesNext(s, t, d);
    ReachesNext(s, Next(t, d), e);
  }

  lemma LoadedIsLive(slots: seq<Slot>, id: string)
    requires Consistent(slots)
    ensures id in LoadedIds(slots) <==> IsLive(slots, id)
  {
  }

  /** Both tasks get as far as their audit rows. */
  lemma {:induction false} BothAudited(s: Sys, ka: Kind, na: string, kb: Kind, nb: string) returns (t: Sys)
    requires s.tasks == map[] && na != nb && Contains(s.slots, na) && Contains(s.slots, nb)
    requires ka.Enable? ==> !IsLive(s.slots, na) && !EnableRefused(na, LoadedIds(s.slots))
    requires ka.Disable? ==> !DisableRefused(na, LoadedIds(s.slots)) && (s.devHeaders || Enabled(s.hub) != {na})
    requires kb.Disable? && !DisableRefused(nb, LoadedIds(s.slots)) && (s.devHeaders || Enabled(s.hub) != {nb})
    ensures Reaches(s, t)
    ensures Pair(t, s.nextTask, s.nextTask + 1, Task(ka, na, Audited), Task(kb, nb, Audited))
    ensures t.slots == s.slots && t.flags == s.flags && t.hub == s.hub
  {
    var a, b := s.nextTask, s.nextTask + 1;
    hide Next, Reaches, EnableRefused, DisableRefused, LoadedIds, IsLive, Contains, Enabled;
    ReachesItself(s);
    BothBegin(s, ka, na, kb, nb);
    ReachesTwo(s, s, Begin(ka, na), Begin(kb, nb));
    t := Next(Next(s, Begin(ka, na)), Begin(kb, nb));
    CheckPasses(t, a);
    ReachesNext(s, t, Check(a, true, true));
    t := Next(t, Check(a, true, true));
    CheckPasses(t, b);
    ReachesNext(s, t, Check(b, true, true));
    t := Next(t, Check(b, true, true));
    AuditPasses(t, a);
    ReachesNext(s, t, Audit(a, true));
    t := Next(t, Audit(a, true));
    AuditPasses(t, b);
    ReachesNext(s, t, Audit(b, true));
    t := Next(t, Audit(b, true));
  }

  /** Once both are audited, the enable runs to its end and the disable stops its plugin. */
  lemma {:induction false} EnableThenStop(s: Sys, u: Sys, a: nat, b: nat, x: string, y: string, p: Loaded)
    returns (t: Sys)
    requires Reaches(s, u) && Pair(u, a, b, Task(Enable, x, Audited), Task(Disable, y, Audited))
    requires x in u.flags && y in u.flags && p.info.id == x && Agrees(Live(p))
    ensures Reaches(s, t) && t.slots == Stopped(Installed(u.slots, p), y) && t.flags == u.flags[x := true][y := false]
  {
    hide Next, Reaches, Installed, Stopped, Agrees, Switched, PoolOf;
    t := u;
    LoadAndInstall(t, a, p);
    ReachesTwo(s, t, Load(a, Declares(p), None, true), Install(a));
    t := Next(Next(t, Load(a, Declares(p), None, true)), Install(a));
    BindAndFlag(t, a);
    ReachesTwo(s, t, BindProvider(a), WriteFlag(a, true));
    t := Next(Next(t, BindProvider(a)), WriteFlag(a, true));
    DisableStops(t, b);
    ReachesTwo(s, t, WriteFlag(b, true), Stop(b));
    t := Next(Next(t, WriteFlag(b, true)), Stop(b));
  }

  /** From every booted server where stripe is live and store is not: enabling store and disabling
      stripe at once can leave store live, and flagged, without the plugin it needs. */
  lemma {:induction false} DependencyRace(s: Sys, p: Loaded)
    requires Init(s) && IsLive(s.slots, "stripe") && Contains(s.slots, "store") && !IsLive(s.slots, "store")
    requires "store" in s.flags && p.info.id == "store" && Agrees(Live(p))
    requires s.devHeaders || Enabled(s.hub) != {"stripe"}
    ensures exists t :: Reaches(s, t) && IsLive(t.slots, "store") && !IsLive(t.slots, "stripe")
                        && Flagged(t.flags, "store")
  {
    assert "stripe" in s.flags;
    LoadedIsLive(s.slots, "store");
    LoadedIsLive(s.slots, "stripe");
    assert !EnableRefused("store", LoadedIds(s.slots)) && !DisableRefused("stripe", LoadedIds(s.slots));
    InstalledConsistent(s.slots, p);
    InstalledLookup(s.slots, p, "store");
    StoppedLookup(Installed(s.slots, p), "stripe", "store");
    StoppedLookup(Installed(s.slots, p), "stripe", "stripe");
    hide Next, Reaches, Consistent, IsLive, Installed, Stopped, LoadedIds, Enabled, Boots, Agrees, Contains;
    var u := BothAudited(s, Enable, "store", Disable, "stripe");
    var t := EnableThenStop(s, u, s.nextTask, s.nextTask + 1, "store", "stripe", p);
  }

  /** From every booted server whose two providers belong to two plugins that may each be disabled:
      disabling both at once can leave no provider, although each alone would be refused after the other. */
  lemma {:induction false} ProviderRace(s: Sys, x: string, y: string)
    requires Init(s) && !s.devHeaders && x != y && Enabled(s.hub) == {x, y}
    requires IsLive(s.slots, x) && IsLive(s.slots, y) && x in s.flags && y in s.flags
    requires !DisableRefused(x, LoadedIds(s.slots)) && !DisableRefused(y, LoadedIds(s.slots))
    ensures exists t :: Reaches(s, t) && Enabled(t.hub) == {}
  {
    assert Enabled(s.hub) != {x} && Enabled(s.hub) != {y} by {
      assert x in Enabled(s.hub) && y in Enabled(s.hub);
    }
    var t := BothAudited(s, Disable, x, Disable, y);
    var a, b := s.nextTask, s.nextTask + 1;
    ChangesToEnabled(s.hub, x, 0, {});
    ChangesToEnabled(Switched(s.hub, x, false), y, 0, {});
    assert Enabled(Switched(Switched(s.hub, x, false), y, false)) == {};
    hide Next, Reaches, IsLive, Stopped, LoadedIds, Enabled, Boots, DisableRefused, PoolOf, Switched;
    DisableStops(t, a);
    ReachesTwo(s, t, WriteFlag(a, true), Stop(a));
    t := Next(Next(t, WriteFlag(a, true)), Stop(a));
    DisableStops(t, b);
    ReachesTwo(s, t, WriteFlag(b, true), Stop(b));
    t := Next(Next(t, WriteFlag(b, true)), Stop(b));
    DisableUnbinds(t, a);
    ReachesNext(s, t, UnbindProvider(a));
    t := Next(t, UnbindProvider(a));
    DisableUnbinds(t, b);
    ReachesNext(s, t, UnbindProvider(b));
  }

  /** One task, from its beginning to its audit row. */
  lemma {:induction false} OneAudited(s: Sys, u: Sys, kind: Kind, name: string) returns (t: Sys)
    requires Reaches(s, u) && u.tasks == map[] && Contains(u.slots, name)
    requires kind.Enable? ==> !IsLive(u.slots, name) && !EnableRefused(name, LoadedIds(u.slots))
    requires kind.Disable? ==> !DisableRefused(name, LoadedIds(u.slots)) && (u.devHeaders || Enabled(u.hub) != {name})
    ensures Reaches(s, t) && t.tasks == map[u.nextTask := Task(kind, name, Audited)]
    ensures t == u.(tasks := t.tasks, nextTask := t.nextTask, log := t.log)
  {
    var a := u.nextTask;
    hide Reaches, EnableRefused, DisableRefused, LoadedIds, IsLive, Contains, Enabled, CheckNext;
    t := Next(u, Begin(kind, name));
    ReachesNext(s, u, Begin(kind, name));
    CheckPasses(t, a);
    ReachesNext(s, t, Check(a, true, true));
    t := With(t, a, Checked);
    AuditPasses(t, a);
    ReachesNext(s, t, Audit(a, true));
    t := Next(t, Audit(a, true));
  }

  /** Only a disable drains. From every booted server: an enable whose flag write fails takes its
      plugin back and closes the pool at once, under a request that came in meanwhile. */
  lemma {:induction false} RevertClosesOnARequest(s: Sys, p: Loaded, request: nat)
    requires Init(s) && Contains(s.slots, p.info.id) && !IsLive(s.slots, p.info.id)
             && !EnableRefused(p.info.id, LoadedIds(s.slots))
    requires Agrees(Live(p))
    ensures exists t, e :: Reaches(s, t) && Closes(t, e, p.info.id) && request in Of(t.inside, p.info.id)
  {
    var name, a := p.info.id, s.nextTask;
    InstalledLookup(s.slots, p, name);
    PoolOfInstalled(s.slots, p);
    hide Reaches, IsLive, Contains, Installed, LoadedIds, EnableRefused, Boots, Agrees, Consistent, Enabled, Switched,
         Stopped, PoolOf, CheckNext;
    ReachesItself(s);
    var t := OneAudited(s, s, Enable, name);
    LoadAndInstall(t, a, p);
    ReachesTwo(s, t, Load(a, Declares(p), None, true), Install(a));
    t := Next(Next(t, Load(a, Declares(p), None, true)), Install(a));
    assert At(t, a, InPlace) && t.tasks[a].name == name && t.tasks[a].kind == Enable
           && t.slots == Installed(s.slots, p) && t.inside == map[];
    EnterAndRevert(s, t, a, request, p);
  }

  lemma PoolOfInstalled(slots: seq<Slot>, p: Loaded)
    requires Consistent(slots)
    ensures PoolOf(Installed(slots, p), p.info.id) == Some(p.pool)
  {
    var k := Position(slots, p.info.id);
    assert Installed(slots, p)[k] == Live(p);
    assert Position(Installed(slots, p), p.info.id) == k;
  }

  lemma {:induction false} EnterAndRevert(s: Sys, u: Sys, a: nat, request: nat, p: Loaded)
    requires Reaches(s, u) && At(u, a, InPlace) && u.tasks[a].kind.Enable? && u.tasks[a].name == p.info.id
    requires IsLive(u.slots, p.info.id) && PoolOf(u.slots, p.info.id) == Some(p.pool) && request !in u.inside
    ensures exists t, e :: Reaches(s, t) && Closes(t, e, p.info.id) && request in Of(t.inside, p.info.id)
  {
    hide Reaches, IsLive, PoolOf, Stopped, Switched, Closes;
    var t := Next(u, Enter(request, p.info.id));
    ReachesNext(s, u, Enter(request, p.info.id));
    ReachesTwo(s, t, BindProvider(a), WriteFlag(a, false));
    t := Next(Next(t, BindProvider(a)), WriteFlag(a, false));
    assert At(t, a, Reverting) && t.slots == u.slots && request in Of(t.inside, p.info.id);
    hide Next;
    RevertCloses(t, a, p.info.id, p.pool);
  }

  lemma RevertCloses(t: Sys, a: nat, name: string, pool: nat)
    requires At(t, a, Reverting) && t.tasks[a].name == name && t.tasks[a].kind.Enable?
    requires PoolOf(t.slots, name) == Some(pool)
    ensures Closes(t, Stop(a), name)
  {
    hide PoolOf, Stopped;
    assert Next(t, Stop(a)).closings == t.closings + [Closing(pool, name)];
  }

  /** The wait of a disable is bounded. From every booted server with a plugin that may be disabled:
      when the wait runs out the pool is closed under the request it was waiting for. */
  lemma {:induction false} TimedOutClosesOnARequest(s: Sys, name: string, request: nat)
    requires Init(s) && IsLive(s.slots, name) && !DisableRefused(name, LoadedIds(s.slots))
    requires s.devHeaders || Enabled(s.hub) != {name}
    ensures exists t, e :: Reaches(s, t) && Closes(t, e, name) && request in Of(t.inside, name)
  {
    var b := s.nextTask;
    assert name in s.flags && Contains(s.slots, name);
    hide Reaches, IsLive, Contains, LoadedIds, DisableRefused, Boots, Consistent, Enabled, Switched, Stopped,
         CheckNext, Closes;
    assert PoolOf(s.slots, name).Some?;
    hide PoolOf;
    var t := Next(s, Enter(request, name));
    ReachesItself(s);
    ReachesNext(s, s, Enter(request, name));
    assert t.tasks == map[] && t.slots == s.slots && t.hub == s.hub;
    t := OneAudited(s, t, Disable, name);
    DisableStops(t, b);
    ReachesTwo(s, t, WriteFlag(b, true), Stop(b));
    t := Next(Next(t, WriteFlag(b, true)), Stop(b));
    assert t.inside == map[request := name] && t.counts == map[name := 1];
    assert b in t.tasks && t.tasks[b].phase == Unrouted(PoolOf(s.slots, name)) && t.tasks[b].name == name;
    hide Next;
    WaitRunsOut(s, t, b, name, request);
  }

  lemma {:induction false} WaitRunsOut(s: Sys, u: Sys, b: nat, name: string, request: nat)
    requires Reaches(s, u) && b in u.tasks && u.tasks[b].name == name
    requires u.tasks[b].phase.Unrouted? && u.tasks[b].phase.parts.Some?
    requires u.inside == map[request := name] && u.counts == map[name := 1]
    ensures exists t, e :: Reaches(s, t) && Closes(t, e, name) && request in Of(t.inside, name)
  {
    hide Reaches, Switched;
    var t := Next(u, UnbindProvider(b));
    ReachesTwo(s, u, UnbindProvider(b), Wait(b, true));
    t := Next(t, Wait(b, true));
    assert b in t.tasks && t.tasks[b].phase.TimedOut? && t.tasks[b].name == name && request in Of(t.inside, name);
    assert Next(t, Close(b)).closings == t.closings + [Closing(t.tasks[b].phase.pool, name)];
    assert Closes(t, Close(b), name);
  }

  // --- a reload that read the flags too early ---

  /** Adopting a generation built from the flags as they were read: every flag that is on is backed by a
      live plugin exactly when nothing was flagged since; every live plugin has its flag on exactly when
      nothing was unflagged since; and what is live is what is flagged exactly when the flags now are
      those that were read. */
  lemma AdoptionIsRightIff(flags: map<string, bool>, generation: seq<Slot>, read: map<string, bool>)
    requires Boots(generation, read)
    ensures (forall name :: Flagged(flags, name) ==> IsLive(generation, name))
            <==> forall name :: Flagged(flags, name) ==> Flagged(read, name)
    ensures (forall name :: IsLive(generation, name) ==> Flagged(flags, name))
            <==> forall name :: Flagged(read, name) ==> Flagged(flags, name)
    ensures (forall name :: IsLive(generation, name) == Flagged(flags, name))
            <==> forall name :: Flagged(flags, name) == Flagged(read, name)
  {
    assert forall name :: IsLive(generation, name) == Flagged(read, name);
    hide IsLive, Consistent, Boots;
    if forall name :: IsLive(generation, name) == Flagged(flags, name) {
      forall name
        ensures Flagged(flags, name) == Flagged(read, name)
      {
        assert IsLive(generation, name) == Flagged(flags, name);
      }
    }
    if forall name :: Flagged(flags, name) ==> IsLive(generation, name) {
      forall name | Flagged(flags, name)
        ensures Flagged(read, name)
      {
        assert IsLive(generation, name);
      }
    }
    if forall name :: IsLive(generation, name) ==> Flagged(flags, name) {
      forall name | Flagged(read, name)
        ensures Flagged(flags, name)
      {
        assert IsLive(generation, name);
      }
    }
  }

  /** A reload does not take the lifecycle locks. From every booted server: an enable that finishes
      between the reading of the flags and the swap is flagged, and no generation built from what
      was read has it live. */
  lemma {:induction false} ReloadLosesAnEnable(s: Sys, p: Loaded)
    requires Init(s) && Contains(s.slots, p.info.id) && !IsLive(s.slots, p.info.id) && p.info.id in s.flags
    requires !EnableRefused(p.info.id, LoadedIds(s.slots)) && Agrees(Live(p))
    ensures exists t :: Reaches(s, t) && NameIsFree(t, p.info.id) && Flagged(t.flags, p.info.id)
                        && forall generation :: Boots(generation, s.flags) ==>
                             !IsLive(generation, p.info.id)
  {
    var name, a := p.info.id, s.nextTask;
    assert !Flagged(s.flags, name);
    ReachesItself(s);
    hide Reaches, IsLive, Contains, Installed, LoadedIds, EnableRefused, Boots, Agrees, Enabled, CheckNext, Switched;
    var t := OneAudited(s, s, Enable, name);
    LoadAndInstall(t, a, p);
    ReachesTwo(s, t, Load(a, Declares(p), None, true), Install(a));
    t := Next(Next(t, Load(a, Declares(p), None, true)), Install(a));
    BindAndFlag(t, a);
    ReachesTwo(s, t, BindProvider(a), WriteFlag(a, true));
    t := Next(Next(t, BindProvider(a)), WriteFlag(a, true));
    assert t.tasks == map[] && Flagged(t.flags, name);
    hide Next;
    forall generation | Boots(generation, s.flags)
      ensures !IsLive(generation, name)
    {
      BootsAsFlagged(generation, s.flags, name);
    }
  }

  lemma BootsAsFlagged(generation: seq<Slot>, flags: map<string, bool>, name: string)
    requires Boots(generation, flags)
    ensures IsLive(generation, name) == Flagged(flags, name)
  {
  }

  /** Nor the other way: a disable that finishes in between is unflagged, and every generation built
      from what was read has its plugin live again, with nobody about to settle it. */
  lemma {:induction false} ReloadUndoesADisable(s: Sys, name: string)
    requires Init(s) && IsLive(s.slots, name) && !DisableRefused(name, LoadedIds(s.slots))
    requires s.devHeaders || Enabled(s.hub) != {name}
    ensures exists t :: Reaches(s, t) && t.tasks == map[] && name in t.flags && !Flagged(t.flags, name)
                        && forall generation :: Boots(generation, s.flags) ==> IsLive(generation, name)
  {
    var b := s.nextTask;
    assert Flagged(s.flags, name) && Contains(s.slots, name);
    ReachesItself(s);
    hide Reaches, IsLive, Contains, LoadedIds, DisableRefused, Boots, Consistent, Enabled, Switched, Stopped, CheckNext;
    assert PoolOf(s.slots, name).Some?;
    hide PoolOf;
    var t := OneAudited(s, s, Disable, name);
    DisableStops(t, b);
    ReachesTwo(s, t, WriteFlag(b, true), Stop(b));
    t := Next(Next(t, WriteFlag(b, true)), Stop(b));
    assert t.tasks == map[b := Task(Disable, name, Unrouted(PoolOf(s.slots, name)))] && t.counts == map[];
    assert t.flags == s.flags[name := false];
    hide Next;
    t := DisableEnds(s, t, b);
    forall generation | Boots(generation, s.flags)
      ensures IsLive(generation, name)
    {
      BootsAsFlagged(generation, s.flags, name);
    }
  }

  /** A disable with nobody inside, from its stop to its end. */
  lemma {:induction false} DisableEnds(s: Sys, u: Sys, b: nat) returns (t: Sys)
    requires Reaches(s, u) && u.tasks.Keys == {b} && u.counts == map[]
    requires u.tasks[b].phase.Unrouted? && u.tasks[b].phase.parts.Some?
    ensures Reaches(s, t) && t.tasks == map[] && t.flags == u.flags
  {
    hide Reaches, Switched;
    ReachesTwo(s, u, UnbindProvider(b), Wait(b, false));
    var v := Next(Next(u, UnbindProvider(b)), Wait(b, false));
    assert v.tasks.Keys == {b} && v.tasks[b].phase.Idle?;
    ReachesNext(s, v, Close(b));
    t := Next(v, Close(b));
  }
}
