/** The dependency rules, through failing writes, dropped handlers and crashes: exactly which steps
    break them, and that none does while changes of plugins that need each other do not overlap. */
module LifecycleSerial {
  import opened Registry
  import opened LifecycleRules
  import opened IdentityHub
  import opened InFlight
  import opened Lifecycle
  import opened LifecycleGuarantees
  import opened LifecycleRaces

  /** One of the two plugins needs the other. */
  predicate Linked(a: string, b: string) {
    exists d :: d in PLUGIN_DEPENDENCIES && ((d.0 == a && d.1 == b) || (d.0 == b && d.1 == a))
  }

  /** No two changes under way are of plugins that need each other. */
  predicate Unlinked(s: Sys) {
    forall t, u :: t in s.tasks && u in s.tasks && t != u ==> !Linked(s.tasks[t].name, s.tasks[u].name)
  }

  /** Every plugin that another needs, and that the registry knows, is provisioned. */
  predicate NeedsKnown(s: Sys) {
    forall d :: d in PLUGIN_DEPENDENCIES && Contains(s.slots, d.1) ==> d.1 in s.flags
  }

  /** No plugin that another needs is adrift. */
  predicate NeedsSettled(s: Sys) {
    forall d :: d in PLUGIN_DEPENDENCIES ==> !Adrift(s, d.1)
  }

  predicate LiveClosed(s: Sys) {
    forall d :: d in PLUGIN_DEPENDENCIES && IsLive(s.slots, d.0) ==> IsLive(s.slots, d.1)
  }

  predicate FlagsClosed(s: Sys) {
    forall d :: d in PLUGIN_DEPENDENCIES && Flagged(s.flags, d.0) ==> Flagged(s.flags, d.1)
  }

  predicate NeedsAreLive(s: Sys, name: string) {
    forall d :: d in PLUGIN_DEPENDENCIES && d.0 == name ==> IsLive(s.slots, d.1)
  }

  predicate NobodyNeeds(s: Sys, name: string) {
    forall d :: d in PLUGIN_DEPENDENCIES && d.1 == name ==> !IsLive(s.slots, d.0)
  }

  /** What the guards found is still so. */
  predicate StillAllowed(s: Sys, task: Task) {
    match task.phase
    case Waiting => true
    case Checked => NobodyNeeds(s, task.name) && (task.kind.Enable? ==> NeedsAreLive(s, task.name))
    case Audited => NobodyNeeds(s, task.name) && (task.kind.Enable? ==> NeedsAreLive(s, task.name))
    case Prepared(_) => NobodyNeeds(s, task.name) && NeedsAreLive(s, task.name)
    case _ => NobodyNeeds(s, task.name)
  }

  ghost predicate InOrder(s: Sys) {
    LiveClosed(s) && FlagsClosed(s) && forall t :: t in s.tasks ==> StillAllowed(s, s.tasks[t])
  }

  // --- exactly which steps break the rules ---

  predicate NeedUnflagged(s: Sys, name: string) {
    exists d :: d in PLUGIN_DEPENDENCIES && d.0 == name && !Flagged(s.flags, d.1)
  }

  predicate DependentFlagged(s: Sys, name: string) {
    exists d :: d in PLUGIN_DEPENDENCIES && d.1 == name && Flagged(s.flags, d.0)
  }

  predicate NeedNotLive(s: Sys, name: string) {
    exists d :: d in PLUGIN_DEPENDENCIES && d.0 == name && !IsLive(s.slots, d.1)
  }

  predicate DependentLive(s: Sys, name: string) {
    exists d :: d in PLUGIN_DEPENDENCIES && d.1 == name && IsLive(s.slots, d.0)
  }

  /** A flag write that reaches its row: on while a plugin this one needs is off, or off while one
      that needs this one is on. */
  predicate BreaksFlags(s: Sys, e: Step) {
    && e.WriteFlag? && e.written && e.t in s.tasks && s.tasks[e.t].name in s.flags
    && (At(s, e.t, Bound) || (At(s, e.t, Audited) && s.tasks[e.t].kind.Disable?))
    && if s.tasks[e.t].kind.Enable? then NeedUnflagged(s, s.tasks[e.t].name) else DependentFlagged(s, s.tasks[e.t].name)
  }

  /** In every state whose flags are closed, a step leaves them not closed exactly when it is such a
      flag write: what a restart would load is broken by nothing else. */
  lemma FlagsBreakIff(s: Sys, e: Step)
    requires FlagsClosed(s)
    ensures !FlagsClosed(Next(s, e)) <==> BreaksFlags(s, e)
  {
    if e.WriteFlag? {
      FlagWriteBreaksIff(s, e);
    } else {
      OnlyFlagWritesWrite(s, e);
      hide Next;
    }
  }

  lemma OnlyFlagWritesWrite(s: Sys, e: Step)
    requires !e.WriteFlag?
    ensures Next(s, e).flags == s.flags
  {
    hide IsLive, CheckNext, LoadNext, Installed, Stopped, Switched, Count, PoolOf, Boots;
    if e.Check? && e.t in s.tasks {
      CheckKeepsWorld(s, e.t, e.libraryThere, e.refusalAudited);
    } else if e.Load? && e.t in s.tasks {
      LoadKeepsWorld(s, e.t, e.outcome, e.registers, e.refusalAudited);
    }
  }

  lemma FlagWriteBreaksIff(s: Sys, e: Step)
    requires FlagsClosed(s) && e.WriteFlag?
    ensures !FlagsClosed(Next(s, e)) <==> BreaksFlags(s, e)
  {
    if e.t in s.tasks && (At(s, e.t, Bound) || (At(s, e.t, Audited) && s.tasks[e.t].kind.Disable?)) {
      var name, on := s.tasks[e.t].name, s.tasks[e.t].kind.Enable?;
      assert Next(s, e).flags == if e.written && name in s.flags then s.flags[name := on] else s.flags;
      hide Next;
      OneFlagBreaksIff(s, Next(s, e), name, on);
    }
  }

  lemma OneFlagBreaksIff(s: Sys, s': Sys, name: string, on: bool)
    requires FlagsClosed(s)
    ensures s'.flags == s.flags ==> FlagsClosed(s')
    ensures name in s.flags && s'.flags == s.flags[name := on] ==>
              (!FlagsClosed(s') <==> if on then NeedUnflagged(s, name) else DependentFlagged(s, name))
  {
  }

  /** An enable that goes live while a plugin it needs is not, a disable or a revert that stops a plugin
      another live one needs, or a restart from flags that are not closed. */
  ghost predicate BreaksLive(s: Sys, e: Step) {
    || (e.Install? && e.t in s.tasks && s.tasks[e.t].phase.Prepared?
        && NeedNotLive(s, s.tasks[e.t].phase.plugin.info.id))
    || (e.Stop? && (At(s, e.t, Reverting) || At(s, e.t, Unflagged)) && DependentLive(s, s.tasks[e.t].name))
    || (e.Crash? && Boots(e.generation, s.flags) && !FlagsClosed(s))
  }

  /** In every state whose live plugins are closed, a step leaves them not closed exactly then. */
  lemma LiveBreaksIff(s: Sys, e: Step)
    requires Consistent(s.slots) && LiveClosed(s)
    ensures !LiveClosed(Next(s, e)) <==> BreaksLive(s, e)
  {
    hide Consistent;
    if e.Install? {
      InstallBreaksIff(s, e);
    } else if e.Stop? {
      StopBreaksIff(s, e);
    } else if e.Crash? {
      CrashBreaksIff(s, e);
    } else {
      OthersKeepLive(s, e);
      hide Next, IsLive;
    }
  }

  lemma InstallBreaksIff(s: Sys, e: Step)
    requires Consistent(s.slots) && LiveClosed(s) && e.Install?
    ensures !LiveClosed(Next(s, e)) <==> BreaksLive(s, e)
  {
    if e.t in s.tasks && s.tasks[e.t].phase.Prepared? {
      var p := s.tasks[e.t].phase.plugin;
      forall d | d in PLUGIN_DEPENDENCIES
        ensures IsLive(Installed(s.slots, p), d.0) == (d.0 == p.info.id || IsLive(s.slots, d.0))
        ensures IsLive(Installed(s.slots, p), d.1) == (d.1 == p.info.id || IsLive(s.slots, d.1))
        ensures d.0 != d.1
      {
        InstalledLookup(s.slots, p, d.0);
        InstalledLookup(s.slots, p, d.1);
      }
    }
    hide Consistent, IsLive, Installed;
  }

  lemma StopBreaksIff(s: Sys, e: Step)
    requires Consistent(s.slots) && LiveClosed(s) && e.Stop?
    ensures !LiveClosed(Next(s, e)) <==> BreaksLive(s, e)
  {
    if At(s, e.t, Reverting) || At(s, e.t, Unflagged) {
      var name := s.tasks[e.t].name;
      StopLogs(s, e.t);
      forall d | d in PLUGIN_DEPENDENCIES
        ensures IsLive(Stopped(s.slots, name), d.0) == (d.0 != name && IsLive(s.slots, d.0))
        ensures IsLive(Stopped(s.slots, name), d.1) == (d.1 != name && IsLive(s.slots, d.1))
        ensures d.0 != d.1
      {
        StoppedLookup(s.slots, name, d.0);
        StoppedLookup(s.slots, name, d.1);
      }
    }
    hide Consistent, IsLive, Stopped, StopNext;
  }

  lemma CrashBreaksIff(s: Sys, e: Step)
    requires LiveClosed(s) && e.Crash?
    ensures !LiveClosed(Next(s, e)) <==> BreaksLive(s, e)
  {
    hide IsLive, Consistent;
  }

  lemma OthersKeepLive(s: Sys, e: Step)
    requires Consistent(s.slots) && !(e.Install? || e.Stop? || e.Crash?)
    ensures forall name :: IsLive(Next(s, e).slots, name) == IsLive(s.slots, name)
    ensures !BreaksLive(s, e)
  {
    forall name
      ensures IsLive(Next(s, e).slots, name) == IsLive(s.slots, name)
    {
      if e.WriteFlag? {
        FlagKeepsSlots(s, e);
      } else {
        OthersKeepTheWorld(s, e, name);
      }
      hide Next, IsLive;
    }
    hide Next, IsLive, Consistent;
  }

  // --- while changes of linked plugins do not overlap ---

  /** A step that leaves liveness and flags as they were, and whose task's next phase is covered. */
  lemma QuietKeepsOrder(s: Sys, s': Sys)
    requires InOrder(s)
    requires forall name ::
               IsLive(s'.slots, name) == IsLive(s.slots, name) && Flagged(s'.flags, name) == Flagged(s.flags, name)
    requires forall t :: t in s'.tasks && !(t in s.tasks && s'.tasks[t] == s.tasks[t]) ==> StillAllowed(s', s'.tasks[t])
    ensures InOrder(s')
  {
  }

  lemma CheckedIsAllowed(s: Sys, t: nat, there: bool, audited: bool)
    requires Consistent(s.slots) && LiveClosed(s) && At(s, t, Waiting)
    ensures CheckNext(s, t, there, audited) == With(s, t, Checked) ==> StillAllowed(s, s.tasks[t].(phase := Checked))
  {
    var name := s.tasks[t].name;
    forall d | d in PLUGIN_DEPENDENCIES
      ensures d.0 in LoadedIds(s.slots) <==> IsLive(s.slots, d.0)
      ensures d.1 in LoadedIds(s.slots) <==> IsLive(s.slots, d.1)
    {
      LoadedIsLive(s.slots, d.0);
      LoadedIsLive(s.slots, d.1);
    }
    assert t in CheckNext(s, t, there, audited).tasks ==>
      if s.tasks[t].kind.Enable? then !IsLive(s.slots, name) && !EnableRefused(name, LoadedIds(s.slots))
      else !DisableRefused(name, LoadedIds(s.slots));
    hide IsLive, LoadedIds, CheckNext, Consistent;
  }

  /** The two guards say the same of a state with the same live plugins. */
  lemma AllowedElsewhere(s: Sys, s': Sys, task: Task)
    requires forall name :: IsLive(s'.slots, name) == IsLive(s.slots, name)
    ensures StillAllowed(s', task) == StillAllowed(s, task)
  {
  }

  lemma CheckKeepsOrder(s: Sys, e: Step)
    requires Safe(s) && InOrder(s) && e.Check? && At(s, e.t, Waiting)
    ensures InOrder(Next(s, e))
  {
    var s' := CheckNext(s, e.t, e.libraryThere, e.refusalAudited);
    CheckShape(s, e.t, e.libraryThere, e.refusalAudited);
    CheckKeepsWorld(s, e.t, e.libraryThere, e.refusalAudited);
    CheckedIsAllowed(s, e.t, e.libraryThere, e.refusalAudited);
    assert Next(s, e) == s';
    hide Safe, InOrder, CheckNext, IsLive, StillAllowed, Next;
    AllowedElsewhere(s, s', s.tasks[e.t].(phase := Checked));
    QuietKeepsOrder(s, s');
  }

  lemma LoadKeepsOrder(s: Sys, e: Step)
    requires Safe(s) && InOrder(s) && e.Load? && At(s, e.t, Audited) && s.tasks[e.t].kind.Enable?
    ensures InOrder(Next(s, e))
  {
    var s' := LoadNext(s, e.t, e.outcome, e.registers, e.refusalAudited);
    LoadKeepsWorld(s, e.t, e.outcome, e.registers, e.refusalAudited);
    forall other
      ensures IsLive(s'.slots, other) == IsLive(s.slots, other)
    {
      ErroredLookup(s.slots, s.tasks[e.t].name, STAYS_DISABLED, other);
    }
    assert StillAllowed(s, s.tasks[e.t]);
    LoadPhase(s, e.t, e.outcome, e.registers, e.refusalAudited);
    hide Safe, InOrder, IsLive, LoadNext;
    if e.t in s'.tasks {
      AllowedElsewhere(s, s', s'.tasks[e.t]);
    }
    QuietKeepsOrder(s, s');
  }

  /** The steps that neither load nor unload nor write a flag. */
  predicate Plain(e: Step) {
    || e.Begin? || e.Audit? || e.BindProvider? || e.UnbindProvider? || e.Wait? || e.Close? || e.Cancel?
    || e.Enter? || e.Leave? || (e.WriteFlag? && !e.written)
  }

  /** How a plain step moves a task on. */
  predicate PlainMove(s: Sys, s': Sys, t: nat) {
    t in s'.tasks ==>
      || (t in s.tasks && s'.tasks[t] == s.tasks[t])
      || s'.tasks[t].phase.Waiting?
      || (t in s.tasks && s'.tasks[t].name == s.tasks[t].name && s'.tasks[t].kind == s.tasks[t].kind
          && !s.tasks[t].phase.Waiting?
          && !s'.tasks[t].phase.Checked? && !s'.tasks[t].phase.Prepared?
          && (s'.tasks[t].phase.Audited? ==> s.tasks[t].phase.Checked?))
  }

  lemma OutsidePhases(s: Sys, e: Step, t: nat)
    requires e.Begin? || e.Enter? || e.Leave?
    ensures PlainMove(s, Next(s, e), t) && Next(s, e).slots == s.slots && Next(s, e).flags == s.flags
  {
  }

  lemma EarlyPhases(s: Sys, e: Step, t: nat)
    requires e.Audit? || e.BindProvider? || (e.WriteFlag? && !e.written)
    ensures PlainMove(s, Next(s, e), t) && Next(s, e).slots == s.slots && Next(s, e).flags == s.flags
  {
    hide Switched;
  }

  lemma LatePhases(s: Sys, e: Step, t: nat)
    requires e.UnbindProvider? || e.Wait? || e.Close? || e.Cancel?
    ensures PlainMove(s, Next(s, e), t) && Next(s, e).slots == s.slots && Next(s, e).flags == s.flags
  {
    hide Switched, Count;
  }

  lemma PlainPhases(s: Sys, e: Step, t: nat)
    requires Plain(e)
    ensures PlainMove(s, Next(s, e), t) && Next(s, e).slots == s.slots && Next(s, e).flags == s.flags
  {
    hide Next, PlainMove;
    if e.Begin? || e.Enter? || e.Leave? {
      OutsidePhases(s, e, t);
    } else if e.UnbindProvider? || e.Wait? || e.Close? || e.Cancel? {
      LatePhases(s, e, t);
    } else {
      EarlyPhases(s, e, t);
    }
  }

  lemma PlainTaskAllowed(s: Sys, s': Sys, t: nat)
    requires PlainMove(s, s', t) && s'.slots == s.slots && t in s'.tasks
    requires t in s.tasks ==> StillAllowed(s, s.tasks[t])
    ensures StillAllowed(s', s'.tasks[t])
  {
    hide IsLive;
  }

  lemma PlainKeepsOrder(s: Sys, e: Step)
    requires InOrder(s) && Plain(e)
    ensures InOrder(Next(s, e))
  {
    var s' := Next(s, e);
    assert forall t :: t in s.tasks ==> StillAllowed(s, s.tasks[t]);
    hide Next, IsLive, InOrder, StillAllowed, PlainMove, Flagged, Plain;
    PlainPhases(s, e, 0);
    forall t | t in s'.tasks
      ensures StillAllowed(s', s'.tasks[t])
    {
      PlainPhases(s, e, t);
      PlainTaskAllowed(s, s', t);
    }
    QuietKeepsOrder(s, s');
  }

  // --- the steps that change what is loaded or flagged ---

  /** What the guards of an unlinked plugin found is not touched by a step of this one. */
  lemma OthersStayAllowed(s: Sys, s': Sys, t: nat)
    requires TasksOk(s) && Unlinked(s) && t in s.tasks && TaskMoves(s, s', t)
    requires SameForOthers(s, s', s.tasks[t].name)
    requires forall u :: u in s.tasks ==> StillAllowed(s, s.tasks[u])
    ensures forall u :: u in s'.tasks && u != t ==> StillAllowed(s', s'.tasks[u])
  {
    hide TaskOk, IsLive, StillAllowed;
    forall u | u in s'.tasks && u != t
      ensures StillAllowed(s', s'.tasks[u])
    {
      assert u in s.tasks && s'.tasks[u] == s.tasks[u] && StillAllowed(s, s.tasks[u]);
      AllowedUnlinked(s, s', s.tasks[u], s.tasks[t].name);
    }
  }

  lemma AllowedUnlinked(s: Sys, s': Sys, task: Task, name: string)
    requires StillAllowed(s, task) && !Linked(name, task.name) && SameForOthers(s, s', name)
    ensures StillAllowed(s', task)
  {
    hide IsLive, Flagged;
    forall d | d in PLUGIN_DEPENDENCIES && (d.0 == task.name || d.1 == task.name)
      ensures d.0 == task.name ==> IsLive(s'.slots, d.1) == IsLive(s.slots, d.1)
      ensures d.1 == task.name ==> IsLive(s'.slots, d.0) == IsLive(s.slots, d.0)
    {
      assert d.0 == task.name ==> d.1 != name && SameFor(s, s', d.1);
      assert d.1 == task.name ==> d.0 != name && SameFor(s, s', d.0);
    }
  }

  lemma InstallKeepsOrder(s: Sys, e: Step)
    requires Safe(s) && Unlinked(s) && InOrder(s) && e.Install? && e.t in s.tasks && s.tasks[e.t].phase.Prepared?
    ensures InOrder(Next(s, e))
  {
    var s', task := InstallNext(s, e.t), s.tasks[e.t];
    assert TaskOk(s, task) && StillAllowed(s, task) && Next(s, e) == s';
    InstallMoves(s, e.t);
    assert !NeedNotLive(s, task.name);
    LiveBreaksIff(s, e);
    OthersStayAllowed(s, s', e.t);
    hide Safe, Next, LiveClosed, IsLive, Installed, Agrees, Linked, NeedNotLive;
    InstalledOwn(s, s', e.t);
  }

  /** Going live does not change who needs this plugin. */
  lemma InstalledOwn(s: Sys, s': Sys, t: nat)
    requires t in s.tasks && t in s'.tasks && s'.tasks[t] == s.tasks[t].(phase := InPlace)
    requires StillAllowed(s, s.tasks[t]) && !s.tasks[t].phase.Waiting? && SameForOthers(s, s', s.tasks[t].name)
    ensures StillAllowed(s', s'.tasks[t])
  {
    hide IsLive, Flagged;
    forall d | d in PLUGIN_DEPENDENCIES && d.1 == s.tasks[t].name
      ensures IsLive(s'.slots, d.0) == IsLive(s.slots, d.0)
    {
      assert d.0 != d.1 && SameFor(s, s', d.0);
    }
  }

  lemma StopShape(s: Sys, t: nat)
    requires At(s, t, Reverting) || At(s, t, Unflagged)
    ensures var s' := StopNext(s, t);
            && s'.slots == Stopped(s.slots, s.tasks[t].name) && s'.flags == s.flags
            && t in s'.tasks && (s'.tasks[t].phase.Unrouted? || s'.tasks[t].phase.Reverted?)
            && s'.tasks[t].name == s.tasks[t].name
  {
    hide Stopped, PoolOf;
  }

  lemma StopKeepsOrder(s: Sys, e: Step)
    requires Safe(s) && Unlinked(s) && InOrder(s) && e.Stop? && (At(s, e.t, Reverting) || At(s, e.t, Unflagged))
    ensures InOrder(Next(s, e))
  {
    var s', task := StopNext(s, e.t), s.tasks[e.t];
    assert StillAllowed(s, task) && Next(s, e) == s' && Consistent(s.slots) && TasksOk(s) && LiveClosed(s);
    assert !task.phase.Waiting?;
    hide Next, Safe, TasksOk, LiveClosed, FlagsClosed, StopNext;
    StopShape(s, e.t);
    StopMoves(s, e.t);
    assert !DependentLive(s, task.name);
    LiveBreaksIff(s, e);
    OthersStayAllowed(s, s', e.t);
    hide *;
    StoppedOwn(s, s', e.t);
    OrderOf(s, s', e.t);
  }

  lemma OrderOf(s: Sys, s': Sys, t: nat)
    requires InOrder(s) && LiveClosed(s') && s'.flags == s.flags && t in s'.tasks && StillAllowed(s', s'.tasks[t])
    requires forall u :: u in s'.tasks && u != t ==> StillAllowed(s', s'.tasks[u])
    ensures InOrder(s')
  {
    hide LiveClosed, StillAllowed, Flagged;
  }

  lemma StoppedOwn(s: Sys, s': Sys, t: nat)
    requires t in s.tasks && t in s'.tasks && s'.tasks[t].name == s.tasks[t].name
    requires s'.tasks[t].phase.Unrouted? || s'.tasks[t].phase.Reverted?
    requires StillAllowed(s, s.tasks[t]) && !s.tasks[t].phase.Waiting? && SameForOthers(s, s', s.tasks[t].name)
    ensures StillAllowed(s', s'.tasks[t])
  {
    hide IsLive, Flagged;
    forall d | d in PLUGIN_DEPENDENCIES && d.1 == s.tasks[t].name
      ensures IsLive(s'.slots, d.0) == IsLive(s.slots, d.0)
    {
      assert d.0 != d.1 && SameFor(s, s', d.0);
    }
  }

  /** What an enable needs is flagged by the time its own flag is written: it is live, settled, and
      no change of it is under way. */
  lemma NeedsAreFlagged(s: Sys, t: nat)
    requires Safe(s) && NeedsSettled(s) && NeedsKnown(s) && Unlinked(s) && LiveClosed(s)
    requires t in s.tasks && IsLive(s.slots, s.tasks[t].name)
    ensures !NeedUnflagged(s, s.tasks[t].name)
  {
    hide Safe, IsLive, Flagged;
    forall d | d in PLUGIN_DEPENDENCIES && d.0 == s.tasks[t].name
      ensures Flagged(s.flags, d.1)
    {
      assert d.0 != d.1 && IsLive(s.slots, d.1) && !Adrift(s, d.1);
      assert Contains(s.slots, d.1) by {
        LiveIsKnown(s.slots, d.1);
      }
      assert Linked(s.tasks[t].name, d.1);
      LinkedIsIdle(s, t, d.1);
    }
  }

  lemma LinkedIsIdle(s: Sys, t: nat, name: string)
    requires Unlinked(s) && t in s.tasks && s.tasks[t].name != name && Linked(s.tasks[t].name, name)
    ensures !InTransit(s, name)
  {
    hide Linked;
  }

  lemma LiveIsKnown(slots: seq<Slot>, id: string)
    ensures IsLive(slots, id) ==> Contains(slots, id)
  {
  }

  lemma FlagOnKeepsOrder(s: Sys, e: Step)
    requires Safe(s) && NeedsSettled(s) && NeedsKnown(s) && Unlinked(s) && InOrder(s)
    requires e.WriteFlag? && e.written && At(s, e.t, Bound)
    ensures InOrder(Next(s, e))
  {
    var s' := FlagNext(s, e.t, true);
    assert TaskOk(s, s.tasks[e.t]) && Next(s, e) == s' && s'.slots == s.slots && TaskMoves(s, s', e.t);
    NeedsAreFlagged(s, e.t);
    FlagsBreakIff(s, e);
    FlagOnMoves(s, e.t);
    OthersStayAllowed(s, s', e.t);
    assert e.t !in s'.tasks;
    hide Safe, Next, FlagsClosed, NeedUnflagged, IsLive, FlagNext, StillAllowed;
    assert LiveClosed(s');
  }

  lemma FlagOffKeepsOrder(s: Sys, e: Step)
    requires Safe(s) && Unlinked(s) && InOrder(s)
    requires e.WriteFlag? && e.written && At(s, e.t, Audited) && s.tasks[e.t].kind.Disable?
    ensures InOrder(Next(s, e))
  {
    var s', name := FlagNext(s, e.t, true), s.tasks[e.t].name;
    assert StillAllowed(s, s.tasks[e.t]) && Next(s, e) == s' && s'.slots == s.slots && TaskMoves(s, s', e.t);
    assert !DependentFlagged(s, name) by {
      hide IsLive;
    }
    FlagsBreakIff(s, e);
    FlagOffMoves(s, e.t);
    OthersStayAllowed(s, s', e.t);
    assert e.t in s'.tasks && s'.tasks[e.t].phase.Unflagged? && s'.tasks[e.t].name == name && NobodyNeeds(s', name);
    hide Safe, Next, FlagsClosed, DependentFlagged, IsLive, FlagNext;
    assert LiveClosed(s');
  }

  lemma CrashKeepsOrder(s: Sys, e: Step)
    requires InOrder(s) && e.Crash?
    ensures InOrder(Next(s, e))
  {
  }

  lemma StepKeepsOrder(s: Sys, e: Step)
    requires Safe(s) && NeedsSettled(s) && NeedsKnown(s) && Unlinked(s) && InOrder(s)
    ensures InOrder(Next(s, e))
  {
    if Next(s, e) != s {
      hide Safe, NeedsSettled, InOrder, NeedsKnown, Unlinked;
      if Plain(e) {
        PlainKeepsOrder(s, e);
      } else if e.Check? {
        CheckKeepsOrder(s, e);
      } else if e.Load? {
        LoadKeepsOrder(s, e);
      } else if e.Install? {
        InstallKeepsOrder(s, e);
      } else if e.Stop? {
        StopKeepsOrder(s, e);
      } else if e.Crash? {
        CrashKeepsOrder(s, e);
      } else if At(s, e.t, Bound) {
        FlagOnKeepsOrder(s, e);
      } else {
        FlagOffKeepsOrder(s, e);
      }
    }
  }

  /** No change of a plugin that another needs is dropped between its two writes. */
  ghost predicate NeedsNeverDropped(s: Sys, steps: seq<Step>) {
    forall i, d :: 0 <= i < |steps| && d in PLUGIN_DEPENDENCIES ==> !DropsHalfway(Run(s, steps[..i]), steps[i], d.1)
  }

  /** Changes of plugins that need each other do not overlap, a plugin another needs is provisioned,
      and no change of it is dropped between its two writes. Anything may happen to other plugins. */
  ghost predicate SerialRun(s: Sys, steps: seq<Step>) {
    && NeedsNeverDropped(s, steps)
    && forall i :: 0 <= i <= |steps| ==> Unlinked(Run(s, steps[..i])) && NeedsKnown(Run(s, steps[..i]))
  }

  lemma {:induction false} SerialPrefix(s: Sys, steps: seq<Step>, n: nat)
    requires SerialRun(s, steps) && n <= |steps|
    ensures SerialRun(s, steps[..n]) && Unlinked(Run(s, steps[..n])) && NeedsKnown(Run(s, steps[..n]))
  {
    hide Run, Unlinked, NeedsKnown, DropsHalfway;
    forall i | 0 <= i <= n
      ensures steps[..n][..i] == steps[..i]
    {
    }
    forall i, d | 0 <= i < n && d in PLUGIN_DEPENDENCIES
      ensures !DropsHalfway(Run(s, steps[..n][..i]), steps[..n][i], d.1)
    {
      assert steps[..n][..i] == steps[..i] && steps[..n][i] == steps[i];
      assert !DropsHalfway(Run(s, steps[..i]), steps[i], d.1);
    }
  }

  lemma {:induction false} NeedsStaySettled(s: Sys, steps: seq<Step>)
    requires Init(s) && NeedsNeverDropped(s, steps)
    ensures NeedsSettled(Run(s, steps))
  {
    hide Run, Adrift, DropsHalfway;
    forall d | d in PLUGIN_DEPENDENCIES
      ensures !Adrift(Run(s, steps), d.1)
    {
      if Adrift(Run(s, steps), d.1) {
        var i := DriftComesFromADrop(s, steps, d.1);
        assert false;
      }
    }
  }

  /** From a booted server whose flags are closed, while changes of plugins that need each other
      neither overlap nor are dropped halfway: at every step, also in the middle of a change and after
      a crash, what is loaded is closed under the dependencies, and so is what a restart would load. */
  lemma {:induction false} SerialRunsStayClosed(s: Sys, steps: seq<Step>)
    requires Init(s) && FlagsClosed(s) && SerialRun(s, steps)
    ensures InOrder(Run(s, steps))
  {
    if steps == [] {
      hide IsLive;
    } else {
      var n := |steps| - 1;
      SerialPrefix(s, steps, n);
      SerialRunsStayClosed(s, steps[..n]);
      RunsAreSafe(s, steps[..n]);
      assert NeedsNeverDropped(s, steps[..n]);
      NeedsStaySettled(s, steps[..n]);
      hide Next, Safe, NeedsSettled, InOrder, Unlinked, NeedsKnown, SerialRun, Init, FlagsClosed, NeedsNeverDropped;
      StepKeepsOrder(Run(s, steps[..n]), steps[n]);
    }
  }
}
