/** Whole requests are runs of the step protocol: with no other change between its steps, an enable or a
    disable comes to what the operator's request says. */
module LifecycleRequests {
  import opened Wrappers
  import opened Registry
  import opened LifecycleRules
  import opened IdentityHub
  import opened InFlight
  import opened Lifecycle
  import opened LifecycleDoors
  import G = Governance

  // --- what the operator sees ---

  /** The providers by owner, whichever registration is the current one. */
  function Faces(hub: Hub): Hub {
    Hub(map owner | owner in hub.providers :: 0, hub.disabled)
  }

  /** Which libraries are on disk, and which plugins bring a provider, is not the protocol's to say. */
  function Seen(s: Sys, disk: set<string>, providers: set<string>): G.Server {
    G.Server(s.flags, disk, LoadedIds(s.slots), SlotIds(s.slots), providers, Faces(s.hub), s.devHeaders)
  }

  predicate Quiet(s: Sys) {
    Consistent(s.slots) && s.tasks == map[]
  }

  // --- the steps of a request ---

  /** A step some task makes, and nobody else. */
  predicate Own(e: Step) {
    !e.Begin? && !e.Enter? && !e.Leave? && !e.Crash?
  }

  function Loading(e: G.Op, p: Loaded): Lifecycle.Outcome
    requires e.Enable?
  {
    if e.loads then Declares(p) else LoadFailed
  }

  function Registers(e: G.Op, providers: set<string>): Option<string>
    requires e.Enable?
  {
    if e.registers && e.name in providers then Some(e.name) else None
  }

  function EnableSteps(t: nat, e: G.Op, p: Loaded, providers: set<string>, refusalAudited: bool): seq<Step>
    requires e.Enable?
  {
    [Begin(Enable, e.name), Check(t, e.libraryThere, refusalAudited), Audit(t, e.audited),
     Load(t, Loading(e, p), Registers(e, providers), refusalAudited), Install(t), BindProvider(t),
     WriteFlag(t, e.flagWritten), Stop(t), UnbindProvider(t)]
  }

  function DisableSteps(t: nat, e: G.Op, expired: bool, refusalAudited: bool): seq<Step>
    requires e.Disable?
  {
    [Begin(Disable, e.name), Check(t, true, refusalAudited), Audit(t, e.audited), WriteFlag(t, e.flagWritten), Stop(t),
     UnbindProvider(t), Wait(t, expired), Close(t)]
  }

  lemma {:induction false} RunFromFront(s: Sys, e: Step, rest: seq<Step>)
    ensures Run(s, [e] + rest) == Run(Next(s, e), rest)
    decreases |rest|
  {
    hide Next;
    if rest == [] {
      assert Run(s, [e]) == Next(Run(s, []), e) by { assert [e][..0] == []; }
      assert [e] + rest == [e];
    } else {
      var n := |rest| - 1;
      RunFromFront(s, e, rest[..n]);
      assert ([e] + rest)[..|rest|] == [e] + rest[..n];
    }
  }

  /** Once its task is over a request does nothing more. */
  lemma {:induction false} OverIsOver(s: Sys, steps: seq<Step>)
    requires s.tasks == map[] && forall e :: e in steps ==> Own(e)
    ensures Run(s, steps) == s
  {
    if steps != [] {
      OverIsOver(s, steps[..|steps| - 1]);
      NothingLeft(s, steps[|steps| - 1]);
      hide Next;
    }
  }

  lemma NothingLeft(s: Sys, e: Step)
    requires s.tasks == map[] && Own(e)
    ensures Next(s, e) == s
  {
  }

  // --- what each step of a lone task comes to ---

  function Alone(t: nat, task: Task): map<nat, Task> {
    map[t := task]
  }

  lemma BeginAlone(s: Sys, kind: Kind, name: string)
    requires s.tasks == map[]
    ensures Next(s, Begin(kind, name)) ==
            s.(tasks := Alone(s.nextTask, Task(kind, name, Waiting)), nextTask := s.nextTask + 1)
  {
  }

  /** The guards of an enable and of a disable, on what is loaded now. */
  predicate Passes(s: Sys, kind: Kind, name: string, libraryThere: bool) {
    && Contains(s.slots, name)
    && (kind.Enable? ==> !IsLive(s.slots, name) && !EnableRefused(name, LoadedIds(s.slots)) && libraryThere)
    && (kind.Disable? ==> !DisableRefused(name, LoadedIds(s.slots)) && (s.devHeaders || Enabled(s.hub) != {name}))
  }

  /** A check passes or ends the request; a rule that refuses is logged when its row can be written, an unknown
      plugin and one that is live already are not. */
  lemma CheckMeans(s: Sys, t: nat, libraryThere: bool, refusalAudited: bool)
    requires At(s, t, Waiting)
    ensures var task, s' := s.tasks[t], Next(s, Check(t, libraryThere, refusalAudited));
            if Passes(s, task.kind, task.name, libraryThere)
            then s' == s.(tasks := s.tasks[t := task.(phase := Checked)])
            else s' == s.(tasks := s.tasks - {t},
                          log := if Contains(s.slots, task.name) && !(task.kind.Enable? && IsLive(s.slots, task.name))
                                    && refusalAudited
                                 then s.log + [AuditRow(t, task.kind, task.name, true)] else s.log)
  {
    hide Contains, IsLive, EnableRefused, DisableRefused, Enabled, LoadedIds;
  }

  /** Nothing is applied before the audit row is there: without it the request ends. */
  lemma AuditMeans(s: Sys, t: nat, written: bool)
    requires At(s, t, Checked)
    ensures var task := s.tasks[t];
            Next(s, Audit(t, written)) ==
            if written
            then s.(tasks := s.tasks[t := task.(phase := Audited)],
                    log := s.log + [AuditRow(t, task.kind, task.name, false)])
            else s.(tasks := s.tasks - {t})
  {
  }

  lemma LoadMeans(s: Sys, t: nat, outcome: Lifecycle.Outcome, registers: Option<string>, refusalAudited: bool)
    requires At(s, t, Audited) && s.tasks[t].kind.Enable?
    requires outcome.Declares? ==> outcome.plugin.info.id == s.tasks[t].name && Agrees(Live(outcome.plugin))
    ensures var name, s' := s.tasks[t].name, Next(s, Load(t, outcome, registers, refusalAudited));
            var hub := if registers.Some? then Registered(s.hub, registers.value, t) else s.hub;
            s' == if outcome.Declares?
                  then s.(tasks := s.tasks[t := Task(Enable, name, Prepared(outcome.plugin))], hub := hub)
                  else s.(tasks := s.tasks - {t}, hub := hub, slots := Errored(s.slots, name, STAYS_DISABLED),
                          log := s'.log)
  {
    hide Errored, Registered, Agrees;
  }

  lemma RevertStops(s: Sys, t: nat, name: string)
    requires s.tasks == Alone(t, Task(Enable, name, Reverting))
    ensures var v := Next(s, Stop(t));
            v == s.(tasks := Alone(t, Task(Enable, name, Reverted)), slots := Stopped(s.slots, name),
                    log := v.log, closings := v.closings)
  {
    hide Stopped, PoolOf;
  }

  lemma RevertUnbinds(s: Sys, t: nat, name: string)
    requires s.tasks == Alone(t, Task(Enable, name, Reverted))
    ensures Next(s, UnbindProvider(t)) == s.(tasks := map[], hub := Switched(s.hub, name, false))
  {
    hide Switched;
  }

  lemma {:induction false} RevertTail(s: Sys, t: nat, name: string)
    requires s.tasks == Alone(t, Task(Enable, name, Reverting))
    ensures var v := Run(s, [Stop(t), UnbindProvider(t)]);
            v == s.(tasks := map[], slots := Stopped(s.slots, name), hub := Switched(s.hub, name, false),
                    log := v.log, closings := v.closings)
  {
    hide Next, Run, Stopped, Switched;
    assert [Stop(t), UnbindProvider(t)] == [Stop(t)] + [UnbindProvider(t)];
    RunFromFront(s, Stop(t), [UnbindProvider(t)]);
    RevertStops(s, t, name);
    var u := Next(s, Stop(t));
    assert [UnbindProvider(t)] == [UnbindProvider(t)] + [];
    RunFromFront(u, UnbindProvider(t), []);
    RevertUnbinds(u, t, name);
    OverIsOver(Next(u, UnbindProvider(t)), []);
  }

  lemma {:induction false} FlagTail(s: Sys, t: nat, name: string, written: bool)
    requires s.tasks == Alone(t, Task(Enable, name, Bound))
    ensures var v := Run(s, [WriteFlag(t, written), Stop(t), UnbindProvider(t)]);
            if written
            then v == s.(tasks := map[], flags := if name in s.flags then s.flags[name := true] else s.flags,
                         log := v.log)
            else v == s.(tasks := map[], slots := Stopped(s.slots, name), hub := Switched(s.hub, name, false),
                         log := v.log, closings := v.closings)
  {
    hide Stopped, PoolOf, Run, Switched;
    var rest := [Stop(t), UnbindProvider(t)];
    assert [WriteFlag(t, written), Stop(t), UnbindProvider(t)] == [WriteFlag(t, written)] + rest;
    RunFromFront(s, WriteFlag(t, written), rest);
    var u := Next(s, WriteFlag(t, written));
    if written {
      assert u == s.(tasks := map[], flags := if name in s.flags then s.flags[name := true] else s.flags, log := u.log);
      hide Next;
      OverIsOver(u, rest);
    } else {
      assert u == s.(tasks := Alone(t, Task(Enable, name, Reverting)));
      hide Next;
      RevertTail(u, t, name);
    }
  }

  lemma {:induction false} InstallTail(s: Sys, t: nat, p: Loaded, written: bool)
    requires s.tasks == Alone(t, Task(Enable, p.info.id, Prepared(p)))
    ensures var name := p.info.id;
            var v := Run(s, [Install(t), BindProvider(t), WriteFlag(t, written), Stop(t), UnbindProvider(t)]);
            if written
            then v == s.(tasks := map[], flags := if name in s.flags then s.flags[name := true] else s.flags,
                         slots := Installed(s.slots, p), hub := Switched(s.hub, name, true), log := v.log)
            else v == s.(tasks := map[], slots := Stopped(Installed(s.slots, p), name),
                         hub := Switched(Switched(s.hub, name, true), name, false),
                         log := v.log, closings := v.closings)
  {
    hide Installed, Stopped, Run, Switched;
    var rest := [WriteFlag(t, written), Stop(t), UnbindProvider(t)];
    assert [Install(t), BindProvider(t), WriteFlag(t, written), Stop(t), UnbindProvider(t)] ==
           [Install(t)] + ([BindProvider(t)] + rest);
    RunFromFront(s, Install(t), [BindProvider(t)] + rest);
    var u := Next(s, Install(t));
    assert u.tasks == Alone(t, Task(Enable, p.info.id, InPlace));
    RunFromFront(u, BindProvider(t), rest);
    var x := Next(u, BindProvider(t));
    assert x.tasks == Alone(t, Task(Enable, p.info.id, Bound));
    FlagTail(x, t, p.info.id, written);
  }

  // --- what the operator sees of each change ---

  lemma SlotsSeen(slots: seq<Slot>, p: Loaded, message: string)
    requires Consistent(slots) && Contains(slots, p.info.id)
    ensures LoadedIds(Errored(slots, p.info.id, message)) == LoadedIds(slots)
    ensures SlotIds(Errored(slots, p.info.id, message)) == SlotIds(slots)
    ensures LoadedIds(Installed(slots, p)) == LoadedIds(slots) + {p.info.id}
    ensures SlotIds(Installed(slots, p)) == SlotIds(slots)
  {
    var k := Position(slots, p.info.id);
    var errored, installed := Errored(slots, p.info.id, message), Installed(slots, p);
    assert forall i :: 0 <= i < |slots| ==>
             errored[i].Info().id == slots[i].Info().id && errored[i].Live? == slots[i].Live?;
    assert forall i :: 0 <= i < |slots| ==> installed[i].Info().id == slots[i].Info().id;
    assert forall i :: 0 <= i < |slots| && i != k ==> installed[i] == slots[i];
    SameSeen(slots, errored);
    forall id | id in LoadedIds(slots) + {p.info.id}
      ensures id in LoadedIds(installed)
    {
      if id == p.info.id {
        assert installed[k].Live?;
      } else {
        var i :| 0 <= i < |slots| && slots[i].Live? && slots[i].Info().id == id;
        assert installed[i] == slots[i];
      }
    }
    forall id | id in SlotIds(slots)
      ensures id in SlotIds(installed)
    {
      var i :| 0 <= i < |slots| && slots[i].Info().id == id;
      assert installed[i].Info().id == id;
    }
  }

  lemma SameSeen(a: seq<Slot>, b: seq<Slot>)
    requires |a| == |b|
    requires forall i :: 0 <= i < |a| ==> a[i].Info().id == b[i].Info().id && a[i].Live? == b[i].Live?
    ensures LoadedIds(a) == LoadedIds(b) && SlotIds(a) == SlotIds(b)
  {
    assert forall i :: 0 <= i < |a| ==> b[i].Info().id == a[i].Info().id;
  }

  lemma StoppedSeen(slots: seq<Slot>, id: string)
    requires Consistent(slots)
    ensures LoadedIds(Stopped(slots, id)) == LoadedIds(slots) - {id} && SlotIds(Stopped(slots, id)) == SlotIds(slots)
  {
    var after := Stopped(slots, id);
    forall i | 0 <= i < |slots| && slots[i].Info().id == id
      ensures Position(slots, id) == i
    {
      PositionIs(slots, id, i);
    }
    assert forall i :: 0 <= i < |slots| ==> after[i].Info().id == slots[i].Info().id;
    assert forall i :: 0 <= i < |slots| ==> after[i].Live? == (slots[i].Live? && slots[i].Info().id != id);
    forall other | other in SlotIds(slots)
      ensures other in SlotIds(after)
    {
      var i :| 0 <= i < |slots| && slots[i].Info().id == other;
      assert after[i].Info().id == other;
    }
    forall other | other in LoadedIds(slots) - {id}
      ensures other in LoadedIds(after)
    {
      var i :| 0 <= i < |slots| && slots[i].Live? && slots[i].Info().id == other;
      assert after[i].Info().id == other;
    }
  }

  lemma InstalledThenStopped(slots: seq<Slot>, p: Loaded)
    requires Consistent(slots) && Contains(slots, p.info.id) && !IsLive(slots, p.info.id) && Agrees(Live(p))
    ensures var after := Stopped(Installed(slots, p), p.info.id);
            Consistent(after) && LoadedIds(after) == LoadedIds(slots) && SlotIds(after) == SlotIds(slots)
  {
    InstalledConsistent(slots, p);
    StoppedConsistent(Installed(slots, p), p.info.id);
    StoppedSeen(Installed(slots, p), p.info.id);
    SlotsSeen(slots, p, "");
    LiveIsLoaded(slots, p.info.id);
    hide *;
  }

  lemma LiveIsLoaded(slots: seq<Slot>, id: string)
    requires Consistent(slots)
    ensures id in LoadedIds(slots) <==> IsLive(slots, id)
    ensures id in SlotIds(slots) <==> Contains(slots, id)
  {
    var k := Position(slots, id);
    forall i | 0 <= i < |slots| && slots[i].Info().id == id
      ensures k == i
    {
      PositionIs(slots, id, i);
    }
    if k < |slots| {
      assert slots[k].Info().id == id;
    }
  }

  lemma FacesAre(hub: Hub, owner: string, t: nat)
    ensures Faces(Registered(hub, owner, t)) == Registered(Faces(hub), owner, 0)
    ensures Faces(Switched(hub, owner, true)) == Switched(Faces(hub), owner, true)
    ensures Faces(Switched(hub, owner, false)) == Switched(Faces(hub), owner, false)
    ensures Switched(Switched(hub, owner, true), owner, false) == Switched(hub, owner, false)
    ensures Enabled(Faces(hub)) == Enabled(hub)
  {
  }

  // --- enable ---

  /** The steps of an enable once the check has passed. */
  function LoadSteps(t: nat, e: G.Op, p: Loaded, providers: set<string>, refusalAudited: bool): seq<Step>
    requires e.Enable?
  {
    [Load(t, Loading(e, p), Registers(e, providers), refusalAudited)] +
    [Install(t), BindProvider(t), WriteFlag(t, e.flagWritten), Stop(t), UnbindProvider(t)]
  }

  /** Where they leave the server: as the load, the flag write and what they undo say. */
  predicate LoadEnds(s: Sys, t: nat, e: G.Op, p: Loaded, providers: set<string>, v: Sys)
    requires e.Enable?
  {
    var hub := if Registers(e, providers).Some? then Registered(s.hub, e.name, t) else s.hub;
    var after := s.(tasks := map[], log := v.log, closings := v.closings);
    v == if !e.loads then after.(hub := hub, slots := Errored(s.slots, e.name, STAYS_DISABLED))
         else if e.flagWritten
         then after.(flags := if e.name in s.flags then s.flags[e.name := true] else s.flags,
                     slots := Installed(s.slots, p), hub := Switched(hub, e.name, true))
         else after.(slots := Stopped(Installed(s.slots, p), e.name),
                     hub := Switched(Switched(hub, e.name, true), e.name, false))
  }

  lemma LoadAlone(s: Sys, t: nat, e: G.Op, p: Loaded, providers: set<string>, refusalAudited: bool)
    requires e.Enable? && p.info.id == e.name && Agrees(Live(p)) && s.tasks == Alone(t, Task(Enable, e.name, Audited))
    ensures var v := Next(s, Load(t, Loading(e, p), Registers(e, providers), refusalAudited));
            var hub := if Registers(e, providers).Some? then Registered(s.hub, e.name, t) else s.hub;
            v == if e.loads then s.(tasks := Alone(t, Task(Enable, e.name, Prepared(p))), hub := hub)
                 else s.(tasks := map[], hub := hub, slots := Errored(s.slots, e.name, STAYS_DISABLED), log := v.log)
  {
    hide Errored, Registered, Next, Agrees;
    LoadMeans(s, t, Loading(e, p), Registers(e, providers), refusalAudited);
  }

  lemma InstallEnds(s: Sys, t: nat, e: G.Op, p: Loaded, providers: set<string>)
    requires e.Enable? && e.loads && p.info.id == e.name
    ensures var hub := if Registers(e, providers).Some? then Registered(s.hub, e.name, t) else s.hub;
            var u := s.(tasks := Alone(t, Task(Enable, e.name, Prepared(p))), hub := hub);
            LoadEnds(s, t, e, p, providers,
                     Run(u, [Install(t), BindProvider(t), WriteFlag(t, e.flagWritten), Stop(t), UnbindProvider(t)]))
  {
    hide Installed, Stopped, Errored, Registered, Switched, Run, Registers, Alone;
    var hub := if Registers(e, providers).Some? then Registered(s.hub, e.name, t) else s.hub;
    InstallTail(s.(tasks := Alone(t, Task(Enable, e.name, Prepared(p))), hub := hub), t, p, e.flagWritten);
  }

  lemma {:induction false} LoadTail(s: Sys, t: nat, e: G.Op, p: Loaded, providers: set<string>, refusalAudited: bool)
    requires e.Enable? && p.info.id == e.name && Agrees(Live(p)) && s.tasks == Alone(t, Task(Enable, e.name, Audited))
    ensures LoadEnds(s, t, e, p, providers, Run(s, LoadSteps(t, e, p, providers, refusalAudited)))
  {
    var load := Load(t, Loading(e, p), Registers(e, providers), refusalAudited);
    var tail := [Install(t), BindProvider(t), WriteFlag(t, e.flagWritten), Stop(t), UnbindProvider(t)];
    assert forall step :: step in tail ==> Own(step);
    hide Errored, Registered, Run, Next, Agrees, Loading, Registers, Alone, Own;
    RunFromFront(s, load, tail);
    LoadAlone(s, t, e, p, providers, refusalAudited);
    if e.loads {
      hide LoadEnds;
      InstallEnds(s, t, e, p, providers);
    } else {
      OverIsOver(Next(s, load), tail);
    }
  }

  lemma {:induction false} AuditTail(s: Sys, t: nat, kind: Kind, name: string, written: bool, rest: seq<Step>)
    requires s.tasks == Alone(t, Task(kind, name, Checked)) && forall e :: e in rest ==> Own(e)
    ensures Run(s, [Audit(t, written)] + rest) ==
            if written
            then Run(s.(tasks := Alone(t, Task(kind, name, Audited)), log := s.log + [AuditRow(t, kind, name, false)]),
                     rest)
            else s.(tasks := map[])
  {
    hide Run, Next, Own;
    RunFromFront(s, Audit(t, written), rest);
    AuditMeans(s, t, written);
    var v := Next(s, Audit(t, written));
    if written {
      assert v == s.(tasks := Alone(t, Task(kind, name, Audited)), log := s.log + [AuditRow(t, kind, name, false)]);
    } else {
      assert v == s.(tasks := map[]);
      OverIsOver(v, rest);
    }
  }

  lemma CheckAlone(s: Sys, t: nat, kind: Kind, name: string, there: bool, refusalAudited: bool)
    requires s.tasks == Alone(t, Task(kind, name, Waiting))
    ensures var v := Next(s, Check(t, there, refusalAudited));
            v == if Passes(s, kind, name, there) then s.(tasks := Alone(t, Task(kind, name, Checked)))
                 else s.(tasks := map[], log := v.log)
  {
    hide Passes, Next;
    CheckMeans(s, t, there, refusalAudited);
  }

  lemma {:induction false} CheckTail(s: Sys, t: nat, kind: Kind, name: string, there: bool, refusalAudited: bool,
                                     written: bool, rest: seq<Step>)
    requires s.tasks == Alone(t, Task(kind, name, Waiting)) && forall e :: e in rest ==> Own(e)
    ensures var v := Run(s, [Check(t, there, refusalAudited)] + ([Audit(t, written)] + rest));
            if Passes(s, kind, name, there) && written
            then v == Run(s.(tasks := Alone(t, Task(kind, name, Audited)),
                             log := s.log + [AuditRow(t, kind, name, false)]), rest)
            else v == s.(tasks := map[], log := v.log)
  {
    assert Own(Audit(t, written));
    hide Passes, Run, Next, Own;
    RunFromFront(s, Check(t, there, refusalAudited), [Audit(t, written)] + rest);
    CheckAlone(s, t, kind, name, there, refusalAudited);
    var v := Next(s, Check(t, there, refusalAudited));
    hide Alone;
    if Passes(s, kind, name, there) {
      AuditTail(v, t, kind, name, written, rest);
    } else {
      OverIsOver(v, [Audit(t, written)] + rest);
    }
  }

  /** The guards of a request: if its check or its audit row fails it changes nothing but what is logged. */
  lemma {:induction false} GuardsFirst(s: Sys, kind: Kind, name: string, there: bool, refusalAudited: bool,
                                       written: bool, rest: seq<Step>)
    requires s.tasks == map[] && forall e :: e in rest ==> Own(e)
    ensures var t := s.nextTask;
            var v := Run(s, [Begin(kind, name), Check(t, there, refusalAudited), Audit(t, written)] + rest);
            if Passes(s, kind, name, there) && written
            then v == Run(s.(tasks := Alone(t, Task(kind, name, Audited)), nextTask := t + 1,
                             log := s.log + [AuditRow(t, kind, name, false)]), rest)
            else v == s.(nextTask := t + 1, log := v.log)
  {
    hide Passes, Run, Next, Own;
    var t := s.nextTask;
    var check, audit := Check(t, there, refusalAudited), Audit(t, written);
    assert [Begin(kind, name), check, audit] + rest == [Begin(kind, name)] + ([check] + ([audit] + rest));
    RunFromFront(s, Begin(kind, name), [check] + ([audit] + rest));
    BeginAlone(s, kind, name);
    CheckTail(Next(s, Begin(kind, name)), t, kind, name, there, refusalAudited, written, rest);
    PassesAlike(s, Next(s, Begin(kind, name)), name, there);
  }

  lemma EnableSplits(t: nat, e: G.Op, p: Loaded, providers: set<string>, refusalAudited: bool)
    requires e.Enable?
    ensures EnableSteps(t, e, p, providers, refusalAudited) ==
            [Begin(Enable, e.name), Check(t, e.libraryThere, refusalAudited), Audit(t, e.audited)] +
            LoadSteps(t, e, p, providers, refusalAudited)
    ensures forall step :: step in LoadSteps(t, e, p, providers, refusalAudited) ==> Own(step)
  {
  }

  lemma {:induction false} EnableEnds(s: Sys, e: G.Op, p: Loaded, providers: set<string>, refusalAudited: bool)
    requires Quiet(s) && e.Enable? && p.info.id == e.name && Agrees(Live(p))
    ensures var v := Run(s, EnableSteps(s.nextTask, e, p, providers, refusalAudited));
            if Passes(s, Enable, e.name, e.libraryThere) && e.audited
            then LoadEnds(s.(nextTask := s.nextTask + 1), s.nextTask, e, p, providers, v)
            else v == s.(nextTask := s.nextTask + 1, log := v.log)
  {
    var t := s.nextTask;
    hide Passes, Run, Next, Consistent, Agrees, LoadEnds;
    var rest := LoadSteps(t, e, p, providers, refusalAudited);
    EnableSplits(t, e, p, providers, refusalAudited);
    hide LoadSteps, EnableSteps, Loading, Registers;
    GuardsFirst(s, Enable, e.name, e.libraryThere, refusalAudited, e.audited, rest);
    if Passes(s, Enable, e.name, e.libraryThere) && e.audited {
      var u := s.(tasks := Alone(t, Task(Enable, e.name, Audited)), nextTask := t + 1,
                  log := s.log + [AuditRow(t, Enable, e.name, false)]);
      LoadTail(u, t, e, p, providers, refusalAudited);
      EndsAlike(s.(nextTask := t + 1), u, t, e, p, providers, Run(u, rest));
    }
  }

  lemma EndsAlike(s: Sys, u: Sys, t: nat, e: G.Op, p: Loaded, providers: set<string>, v: Sys)
    requires e.Enable? && s.tasks == map[] && u == s.(tasks := u.tasks, log := u.log)
    ensures LoadEnds(u, t, e, p, providers, v) ==> LoadEnds(s, t, e, p, providers, v)
  {
    hide Installed, Stopped, Errored, Registered, Switched, Registers;
  }

  lemma PassesAlike(s: Sys, a: Sys, name: string, libraryThere: bool)
    requires a.slots == s.slots && a.hub == s.hub && a.devHeaders == s.devHeaders
    ensures forall kind :: Passes(a, kind, name, libraryThere) <==> Passes(s, kind, name, libraryThere)
  {
  }

  /** With no other change between its steps, the steps of an enable come to the request: whatever fails in
      it, and whether or not the flag write fails at its end. */
  lemma {:induction false} EnableIsItsSteps(s: Sys, e: G.Op, p: Loaded, disk: set<string>, providers: set<string>,
                                            refusalAudited: bool)
    requires Quiet(s) && e.Enable? && p.info.id == e.name && Agrees(Live(p))
    ensures var v := Run(s, EnableSteps(s.nextTask, e, p, providers, refusalAudited));
            Quiet(v) && Seen(v, disk, providers) == G.EnableOp(Seen(s, disk, providers), e)
  {
    EnableEnds(s, e, p, providers, refusalAudited);
    var v := Run(s, EnableSteps(s.nextTask, e, p, providers, refusalAudited));
    PassesIsSeen(s, e, disk, providers);
    hide *;
    if Passes(s, Enable, e.name, e.libraryThere) && e.audited {
      EndsSeen(s.(nextTask := s.nextTask + 1), s.nextTask, e, p, disk, providers, v);
    } else {
      NotSeen(s, v, disk, providers);
    }
  }

  lemma NotSeen(s: Sys, v: Sys, disk: set<string>, providers: set<string>)
    requires v == s.(nextTask := v.nextTask, log := v.log)
    ensures Quiet(s) ==> Quiet(v)
    ensures Seen(v, disk, providers) == Seen(s, disk, providers)
  {
    hide Consistent, LoadedIds, SlotIds, Faces;
  }

  /** The operator's guards ask what the check asks. */
  lemma PassesIsSeen(s: Sys, e: G.Op, disk: set<string>, providers: set<string>)
    requires Quiet(s) && e.Enable?
    ensures !(Passes(s, Enable, e.name, e.libraryThere) && e.audited) ==>
              G.EnableOp(Seen(s, disk, providers), e) == Seen(s, disk, providers)
    ensures Seen(s.(nextTask := s.nextTask + 1), disk, providers) == Seen(s, disk, providers)
    ensures Quiet(s.(nextTask := s.nextTask + 1))
    ensures Passes(s.(nextTask := s.nextTask + 1), Enable, e.name, e.libraryThere) ==
            Passes(s, Enable, e.name, e.libraryThere)
  {
    LiveIsLoaded(s.slots, e.name);
    hide LoadedIds, SlotIds, Consistent, Faces, IsLive, Contains, EnableRefused, DisableRefused;
  }

  /** What the request comes to once its guards pass. */
  lemma OpGoesOn(s: Sys, e: G.Op, disk: set<string>, providers: set<string>)
    requires Quiet(s) && e.Enable? && Passes(s, Enable, e.name, e.libraryThere) && e.audited
    ensures var a := Seen(s, disk, providers);
            var hub := if Registers(e, providers).Some? then Registered(a.hub, e.name, 0) else a.hub;
            G.EnableOp(a, e) ==
            if !e.loads then a.(hub := hub)
            else if e.flagWritten
            then a.(live := a.live + {e.name}, hub := Switched(hub, e.name, true),
                    flags := if e.name in a.flags then a.flags[e.name := true] else a.flags)
            else a.(hub := Switched(hub, e.name, false))
  {
    LiveIsLoaded(s.slots, e.name);
    hide LoadedIds, SlotIds, Consistent, Faces, IsLive, Contains, EnableRefused, DisableRefused, Registered, Switched;
  }

  lemma EndsSeen(s: Sys, t: nat, e: G.Op, p: Loaded, disk: set<string>, providers: set<string>, v: Sys)
    requires Quiet(s) && e.Enable? && p.info.id == e.name && Agrees(Live(p))
    requires Passes(s, Enable, e.name, e.libraryThere) && e.audited && LoadEnds(s, t, e, p, providers, v)
    ensures Quiet(v) && Seen(v, disk, providers) == G.EnableOp(Seen(s, disk, providers), e)
  {
    OpGoesOn(s, e, disk, providers);
    SlotsSeen(s.slots, p, STAYS_DISABLED);
    ErroredConsistent(s.slots, e.name, STAYS_DISABLED);
    InstalledConsistent(s.slots, p);
    InstalledThenStopped(s.slots, p);
    FacesAre(s.hub, e.name, t);
    FacesAre(Registered(s.hub, e.name, t), e.name, t);
    hide G.EnableOp, Installed, Stopped, Errored, Registered, Switched, LoadedIds, SlotIds, Consistent, Agrees, Faces,
         IsLive, Contains, EnableRefused, DisableRefused, Registers, Enabled;
  }

  // --- disable ---

  lemma WaitAlone(s: Sys, t: nat, name: string, pool: nat, expired: bool)
    requires s.tasks == Alone(t, Task(Disable, name, Draining(pool))) && (expired || Count(s.counts, name) == 0)
    ensures Next(s, Wait(t, expired)) ==
            s.(tasks := Alone(t, Task(Disable, name,
                                      if Count(s.counts, name) == 0 then Idle(pool) else TimedOut(pool))))
  {
    hide Count;
  }

  lemma CloseAlone(s: Sys, t: nat, name: string, pool: nat)
    requires || s.tasks == Alone(t, Task(Disable, name, Idle(pool)))
             || s.tasks == Alone(t, Task(Disable, name, TimedOut(pool)))
    ensures Next(s, Close(t)) == s.(tasks := map[], closings := s.closings + [Closing(pool, name)])
  {
  }

  lemma {:induction false} WaitTail(s: Sys, t: nat, name: string, pool: nat, expired: bool)
    requires s.tasks == Alone(t, Task(Disable, name, Draining(pool))) && (expired || Count(s.counts, name) == 0)
    ensures Run(s, [Wait(t, expired), Close(t)]) ==
            s.(tasks := map[], closings := s.closings + [Closing(pool, name)])
  {
    hide Next, Run, Count;
    assert [Wait(t, expired), Close(t)] == [Wait(t, expired)] + [Close(t)];
    RunFromFront(s, Wait(t, expired), [Close(t)]);
    WaitAlone(s, t, name, pool, expired);
    var u := Next(s, Wait(t, expired));
    assert [Close(t)] == [Close(t)] + [];
    RunFromFront(u, Close(t), []);
    CloseAlone(u, t, name, pool);
    OverIsOver(Next(u, Close(t)), []);
  }

  lemma {:induction false} DrainTail(s: Sys, t: nat, name: string, parts: Option<nat>, expired: bool)
    requires s.tasks == Alone(t, Task(Disable, name, Unrouted(parts))) && (expired || Count(s.counts, name) == 0)
    ensures Run(s, [UnbindProvider(t), Wait(t, expired), Close(t)]) ==
            s.(tasks := map[], hub := Switched(s.hub, name, false),
               closings := s.closings + if parts.Some? then [Closing(parts.value, name)] else [])
  {
    hide Run, Switched, Count;
    var rest := [Wait(t, expired), Close(t)];
    assert [UnbindProvider(t), Wait(t, expired), Close(t)] == [UnbindProvider(t)] + rest;
    RunFromFront(s, UnbindProvider(t), rest);
    var u := Next(s, UnbindProvider(t));
    if parts.None? {
      assert u == s.(tasks := map[], hub := Switched(s.hub, name, false));
      hide Next;
      OverIsOver(u, rest);
    } else {
      assert u == s.(tasks := Alone(t, Task(Disable, name, Draining(parts.value))),
                     hub := Switched(s.hub, name, false));
      hide Next;
      WaitTail(u, t, name, parts.value, expired);
    }
  }

  /** The steps of a disable once its audit row is there. */
  function StopSteps(t: nat, flagWritten: bool, expired: bool): seq<Step> {
    [WriteFlag(t, flagWritten)] + ([Stop(t)] + [UnbindProvider(t), Wait(t, expired), Close(t)])
  }

  lemma {:induction false} StopTail(s: Sys, t: nat, name: string, written: bool, expired: bool)
    requires s.tasks == Alone(t, Task(Disable, name, Audited)) && (expired || Count(s.counts, name) == 0)
    ensures var v := Run(s, StopSteps(t, written, expired));
            if !written then v == s.(tasks := map[])
            else v == s.(tasks := map[], flags := if name in s.flags then s.flags[name := false] else s.flags,
                         slots := Stopped(s.slots, name), hub := Switched(s.hub, name, false), log := v.log,
                         closings := s.closings + ClosingOf(s.slots, name))
  {
    hide Stopped, Switched, Run, Next, IsLive, Count;
    var tail := [UnbindProvider(t), Wait(t, expired), Close(t)];
    RunFromFront(s, WriteFlag(t, written), [Stop(t)] + tail);
    FlagAlone(s, t, name, written);
    var u := Next(s, WriteFlag(t, written));
    if written {
      RunFromFront(u, Stop(t), tail);
      StopAlone(u, t, name);
      DrainTail(Next(u, Stop(t)), t, name, PoolOf(s.slots, name), expired);
    } else {
      OverIsOver(u, [Stop(t)] + tail);
    }
  }

  lemma {:induction false} DisableEnds(s: Sys, e: G.Op, expired: bool, refusalAudited: bool)
    requires Quiet(s) && e.Disable? && (expired || Count(s.counts, e.name) == 0)
    ensures var v := Run(s, DisableSteps(s.nextTask, e, expired, refusalAudited));
            var after := s.(nextTask := s.nextTask + 1, log := v.log);
            if !Passes(s, Disable, e.name, true) || !e.audited || !e.flagWritten then v == after
            else v == after.(flags := if e.name in s.flags then s.flags[e.name := false] else s.flags,
                             slots := Stopped(s.slots, e.name), hub := Switched(s.hub, e.name, false),
                             closings := s.closings + ClosingOf(s.slots, e.name))
  {
    var t := s.nextTask;
    hide Passes, Stopped, Switched, Run, Next, Consistent, IsLive, Count, ClosingOf;
    var rest := StopSteps(t, e.flagWritten, expired);
    assert DisableSteps(t, e, expired, refusalAudited) ==
           [Begin(Disable, e.name), Check(t, true, refusalAudited), Audit(t, e.audited)] + rest;
    GuardsFirst(s, Disable, e.name, true, refusalAudited, e.audited, rest);
    hide StopSteps, DisableSteps;
    if Passes(s, Disable, e.name, true) && e.audited {
      StopTail(s.(tasks := Alone(t, Task(Disable, e.name, Audited)), nextTask := t + 1,
                  log := s.log + [AuditRow(t, Disable, e.name, false)]), t, e.name, e.flagWritten, expired);
    }
  }

  lemma FlagAlone(s: Sys, t: nat, name: string, written: bool)
    requires s.tasks == Alone(t, Task(Disable, name, Audited))
    ensures var v := Next(s, WriteFlag(t, written));
            v == if written
                 then s.(tasks := Alone(t, Task(Disable, name, Unflagged)), log := v.log,
                         flags := if name in s.flags then s.flags[name := false] else s.flags)
                 else s.(tasks := map[])
  {
  }

  lemma StopAlone(s: Sys, t: nat, name: string)
    requires s.tasks == Alone(t, Task(Disable, name, Unflagged))
    ensures var v := Next(s, Stop(t));
            v == s.(tasks := Alone(t, Task(Disable, name, Unrouted(PoolOf(s.slots, name)))), log := v.log,
                    slots := Stopped(s.slots, name))
  {
    hide Stopped, PoolOf;
  }

  /** So do the steps of a disable, however long the requests inside keep it waiting. */
  lemma {:induction false} DisableIsItsSteps(s: Sys, e: G.Op, disk: set<string>, providers: set<string>, expired: bool,
                                             refusalAudited: bool)
    requires Quiet(s) && e.Disable? && (expired || Count(s.counts, e.name) == 0)
    ensures var v := Run(s, DisableSteps(s.nextTask, e, expired, refusalAudited));
            Quiet(v) && Seen(v, disk, providers) == G.DisableOp(Seen(s, disk, providers), e)
  {
    DisableEnds(s, e, expired, refusalAudited);
    LiveIsLoaded(s.slots, e.name);
    FacesAre(s.hub, e.name, 0);
    StoppedSeen(s.slots, e.name);
    StoppedConsistent(s.slots, e.name);
    hide Run, DisableSteps, Stopped, Switched, LoadedIds, SlotIds, Consistent, Faces, IsLive, Contains, EnableRefused,
         DisableRefused, Enabled, ClosingOf;
  }

  // --- what breaks a request off ---

  /** A caller that is gone stops its request wherever the handler waits: not between the slot and the provider,
      nor between the end of the drain and the closing of the pool. */
  lemma CancelStops(s: Sys, t: nat)
    requires t in s.tasks
    ensures var phase := s.tasks[t].phase;
            Next(s, Cancel(t)) ==
            if phase.Waiting? || phase.Checked? || phase.Audited? || phase.Prepared? || phase.Bound? || phase.Reverting?
               || phase.Reverted? || phase.Unflagged? || phase.Draining?
            then s.(tasks := s.tasks - {t}) else s
  {
  }

  /** A restart keeps the flags and what was logged, and nothing else: the flagged plugins are live, and every
      provider they bring answers, switched off before or not. */
  lemma RestartForgets(s: Sys, generation: seq<Slot>, providers: map<string, nat>)
    requires Boots(generation, s.flags)
    ensures var v := Next(s, Crash(generation, providers));
            && v.flags == s.flags && v.log == s.log && v.closings == s.closings && v.devHeaders == s.devHeaders
            && v.slots == generation && v.tasks == map[] && v.inside == map[] && v.counts == map[]
            && v.hub.providers == providers && Enabled(v.hub) == providers.Keys
    ensures forall name :: name in LoadedIds(generation) <==> name in s.flags && s.flags[name]
  {
    forall name
      ensures name in LoadedIds(generation) <==> name in s.flags && s.flags[name]
    {
      LiveIsLoaded(generation, name);
      assert IsLive(generation, name) <==> Flagged(s.flags, name);
    }
  }
}
