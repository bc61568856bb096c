/** Which routes answer along enables and disables. */
module LifecycleServing {
  import opened Wrappers
  import opened RouteTemplates
  import opened Registry
  import opened RouteResolution
  import opened RouteServing
  import opened Lifecycle
  import opened LifecycleGuarantees
  import opened LifecycleShape

  /** Once an enable installs what it loaded, each of its routes is there, and a request that one of them
      takes is answered; what else was there is untouched. */
  lemma InstallServes(s: Sys, t: nat, r: Route, path: string)
    requires Consistent(s.slots) && TasksSound(s) && t in s.tasks && s.tasks[t].phase.Prepared?
    requires r in s.tasks[t].phase.plugin.routes && Match(r.path, path).Some?
    ensures var p, after := s.tasks[t].phase.plugin, Next(s, Install(t)).slots;
            && p.info.id == s.tasks[t].name && Live(p) in after
            && Entry(p.info.id, r) in LiveEntries(after) && Lookup(LiveEntries(after), r.verb, path).Found?
            && (forall slot :: slot in s.slots && slot.Info().id != p.info.id ==> slot in after)
            && (forall slot :: slot in after && slot != Live(p) ==> slot in s.slots && slot.Info().id != p.info.id)
  {
    var p := s.tasks[t].phase.plugin;
    assert TaskSound(s.tasks[t]);
    InstalledHolds(s.slots, p);
    assert Next(s, Install(t)).slots == Installed(s.slots, p);
    LiveRoutesAnswer(Installed(s.slots, p), p, r, path);
    hide Installed, LiveEntries, Lookup, Match, TasksSound;
  }

  lemma InstalledHolds(slots: seq<Slot>, p: Loaded)
    requires Consistent(slots)
    ensures var after := Installed(slots, p);
            && Live(p) in after
            && (forall slot :: slot in slots && slot.Info().id != p.info.id ==> slot in after)
            && (forall slot :: slot in after && slot != Live(p) ==> slot in slots && slot.Info().id != p.info.id)
  {
    var k, after := Position(slots, p.info.id), Installed(slots, p);
    assert after[k] == Live(p);
    forall slot | slot in slots && slot.Info().id != p.info.id
      ensures slot in after
    {
      var i :| 0 <= i < |slots| && slots[i] == slot;
      assert after[i] == slot;
    }
    forall slot | slot in after && slot != Live(p)
      ensures slot in slots && slot.Info().id != p.info.id
    {
      var i :| 0 <= i < |after| && after[i] == slot;
      assert i != k && slots[i] == slot;
    }
  }

  /** What a load hands to its install is what it loaded. */
  lemma LoadKeepsThePlugin(s: Sys, t: nat, p: Loaded, registers: Option<string>, audited: bool)
    requires At(s, t, Audited) && s.tasks[t].kind.Enable? && p.info.id == s.tasks[t].name && Agrees(Live(p))
    ensures var s' := Next(s, Load(t, Declares(p), registers, audited));
            t in s'.tasks && s'.tasks[t] == Task(Enable, s.tasks[t].name, Prepared(p)) && s'.slots == s.slots
  {
  }

  /** Once a disable, or a revert, stops a plugin, none of its routes is there. */
  lemma StopSilences(s: Sys, t: nat, verb: string, path: string)
    requires Consistent(s.slots) && (At(s, t, Reverting) || At(s, t, Unflagged))
    ensures var name, after := s.tasks[t].name, Next(s, Stop(t)).slots;
            && (forall r :: Entry(name, r) !in LiveEntries(after))
            && (Lookup(LiveEntries(after), verb, path).Found? ==> Lookup(LiveEntries(after), verb, path).owner != name)
            && (forall e: Entry :: e.owner != name ==> (e in LiveEntries(after) <==> e in LiveEntries(s.slots)))
  {
    var name := s.tasks[t].name;
    StopLogs(s, t);
    assert Next(s, Stop(t)).slots == Stopped(s.slots, name);
    StoppedSlots(s.slots, name);
    hide StopNext, Stopped, Consistent;
    SilentUnlessLive(Stopped(s.slots, name), name, verb, path);
    forall e: Entry | e.owner != name
      ensures e in LiveEntries(Stopped(s.slots, name)) <==> e in LiveEntries(s.slots)
    {
      LiveEntriesOfLive(s.slots, e);
      LiveEntriesOfLive(Stopped(s.slots, name), e);
    }
    hide LiveEntries, Lookup;
  }

  lemma StoppedSlots(slots: seq<Slot>, id: string)
    requires Consistent(slots)
    ensures var after := Stopped(slots, id);
            && |after| == |slots|
            && (forall i :: 0 <= i < |slots| ==> slots[i].Info().id == after[i].Info().id)
            && (forall i :: 0 <= i < |slots| && slots[i].Info().id == id ==> after[i].Known?)
            && (forall i :: 0 <= i < |slots| && slots[i].Info().id != id ==> after[i] == slots[i])
  {
    forall i | 0 <= i < |slots| && slots[i].Info().id == id
      ensures Position(slots, id) == i
    {
      PositionIs(slots, id, i);
    }
  }

  /** No other step but a restart changes which routes are there, or who answers. */
  lemma OthersAnswerAlike(s: Sys, e: Step)
    requires TasksSound(s) && Next(s, e) != s && !e.Install? && !e.Stop? && !e.Crash?
    ensures LiveEntries(Next(s, e).slots) == LiveEntries(s.slots)
  {
    if e.Begin? || e.Enter? || e.Leave? {
      hide IsLive, LiveEntries;
    } else {
      TaskStepShifts(s, e);
      hide Next, LiveEntries, TasksSound, Errored;
      if Next(s, e).slots != s.slots {
        ErroredEntries(s.slots, s.tasks[e.t].name, STAYS_DISABLED);
      }
    }
  }

  lemma {:induction false} ErroredEntries(slots: seq<Slot>, id: string, message: string)
    ensures LiveEntries(Errored(slots, id, message)) == LiveEntries(slots)
  {
    if slots != [] {
      if slots[0].Info().id == id {
        assert Errored(slots, id, message)[1..] == slots[1..];
      } else {
        ErroredEntries(slots[1..], id, message);
        assert Errored(slots, id, message) == [slots[0]] + Errored(slots[1..], id, message);
      }
    }
  }
}
