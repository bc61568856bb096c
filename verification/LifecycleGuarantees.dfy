/** What holds at every step of every interleaving of enable, disable, dispatch and crash. */
module LifecycleGuarantees {
  import opened Counting
  import opened Wrappers
  import opened Registry
  import opened IdentityHub
  import opened InFlight
  import opened Lifecycle

  /** Nothing a task relies on changed for this plugin. */
  ghost predicate SameFor(s: Sys, s': Sys, name: string) {
    && Flagged(s'.flags, name) == Flagged(s.flags, name)
    && IsLive(s'.slots, name) == IsLive(s.slots, name)
  }

  ghost predicate SameForOthers(s: Sys, s': Sys, name: string) {
    forall other :: other != name ==> SameFor(s, s', other)
  }

  /** What a task writes to the log, and that it does not go past its audit without the row. */
  predicate LogMoves(s: Sys, s': Sys, t: nat)
    requires t in s.tasks
  {
    var task := s.tasks[t];
    && (s'.log == s.log
        || (exists change :: s'.log == s.log + [Applied(t, task.kind, task.name, change)] && Started(task.phase))
        || (exists refused :: s'.log == s.log + [AuditRow(t, task.kind, task.name, refused)]))
    && (t in s'.tasks && Started(s'.tasks[t].phase) ==>
          Started(task.phase) || s'.log == s.log + [AuditRow(t, task.kind, task.name, false)])
  }

  predicate TaskMoves(s: Sys, s': Sys, t: nat)
    requires t in s.tasks
  {
    s'.tasks == s.tasks - {t} || (t in s'.tasks && s'.tasks == s.tasks[t := s.tasks[t].(phase := s'.tasks[t].phase)])
  }

  /** One step of task `t`: it settles its own plugin and leaves every other one alone. */
  ghost predicate Moves(s: Sys, s': Sys, t: nat) {
    && t in s.tasks
    && s'.nextTask == s.nextTask && s'.inside == s.inside && s'.counts == s.counts
    && TaskMoves(s, s', t) && LogMoves(s, s', t)
    && SameForOthers(s, s', s.tasks[t].name)
    && Consistent(s'.slots)
    && (Flagged(s'.flags, s.tasks[t].name) ==> IsLive(s'.slots, s.tasks[t].name))
    && (t in s'.tasks ==> TaskOk(s', s'.tasks[t]))
  }

  lemma AuditedLater(a: seq<Event>, b: seq<Event>, i: nat, j: nat, task: nat, kind: Kind, name: string)
    requires AuditedBefore(a, i, task, kind, name) && i <= |a| && a <= b && i <= j
    ensures AuditedBefore(b, j, task, kind, name)
  {
  }

  lemma MovesKeepTasks(s: Sys, s': Sys, t: nat)
    requires TasksOk(s) && Moves(s, s', t)
    ensures TasksOk(s')
  {
    forall u | u in s'.tasks
      ensures u < s'.nextTask && TaskOk(s', s'.tasks[u])
    {
      if u != t {
        assert s'.tasks[u] == s.tasks[u] && TaskOk(s, s.tasks[u]);
        assert SameFor(s, s', s.tasks[u].name);
      }
    }
  }

  lemma MovesKeepLog(s: Sys, s': Sys, t: nat)
    requires LogOk(s.log) && TasksAudited(s) && t in s.tasks && TaskMoves(s, s', t) && LogMoves(s, s', t)
    ensures LogOk(s'.log) && TasksAudited(s')
  {
    assert s.log <= s'.log;
    forall i | 0 <= i < |s'.log| && s'.log[i].Applied?
      ensures AuditedBefore(s'.log, i, s'.log[i].task, s'.log[i].kind, s'.log[i].name)
    {
      if i < |s.log| {
        AuditedLater(s.log, s'.log, i, i, s.log[i].task, s.log[i].kind, s.log[i].name);
      } else {
        AuditedLater(s.log, s'.log, |s.log|, i, t, s.tasks[t].kind, s.tasks[t].name);
      }
    }
    forall u | u in s'.tasks && Started(s'.tasks[u].phase)
      ensures AuditedBefore(s'.log, |s'.log|, u, s'.tasks[u].kind, s'.tasks[u].name)
    {
      if u in s.tasks && Started(s.tasks[u].phase) {
        AuditedLater(s.log, s'.log, |s.log|, |s'.log|, u, s.tasks[u].kind, s.tasks[u].name);
      } else {
        assert s'.log[|s.log|] == AuditRow(u, s'.tasks[u].kind, s'.tasks[u].name, false);
      }
    }
  }

  lemma MovesKeepSafe(s: Sys, s': Sys, t: nat)
    requires Safe(s) && Moves(s, s', t)
    ensures Safe(s')
  {
    MovesKeepTasks(s, s', t);
    MovesKeepLog(s, s', t);
    forall name | Flagged(s'.flags, name)
      ensures IsLive(s'.slots, name)
    {
      assert name != s.tasks[t].name ==> SameFor(s, s', name);
    }
  }

  // --- each task step moves ---

  /** The same flags and the same live plugins, over other records perhaps. */
  ghost predicate SameWorld(s: Sys, s': Sys) {
    && s'.nextTask == s.nextTask && s'.inside == s.inside && s'.counts == s.counts && s'.flags == s.flags
    && Consistent(s'.slots) && forall name :: IsLive(s'.slots, name) == IsLive(s.slots, name)
  }

  lemma PhaseMoves(s: Sys, s': Sys, t: nat, phase: Phase)
    requires Safe(s) && t in s.tasks && SameWorld(s, s') && s'.tasks == s.tasks[t := s.tasks[t].(phase := phase)]
    requires s'.log == s.log && (Started(phase) ==> Started(s.tasks[t].phase)) && TaskOk(s', s'.tasks[t])
    ensures Moves(s, s', t)
  {
  }

  lemma RefuseMoves(s: Sys, w: Sys, t: nat, audited: bool)
    requires Safe(s) && t in s.tasks && SameWorld(s, w) && w.tasks == s.tasks && w.log == s.log
    ensures Moves(s, Refuse(w, t, audited), t) && Moves(s, Ended(w, t), t)
  {
  }

  lemma SameWorldStays(s: Sys, w: Sys, s': Sys)
    requires SameWorld(s, w) && s'.slots == w.slots && s'.flags == w.flags
    requires s'.nextTask == w.nextTask && s'.inside == w.inside && s'.counts == w.counts
    ensures SameWorld(s, s')
  {
  }

  /** The guards: the task goes on, ends, or is refused; an enable goes on only when nothing is loaded. */
  lemma CheckShape(s: Sys, t: nat, there: bool, audited: bool)
    requires t in s.tasks
    ensures var s' := CheckNext(s, t, there, audited);
            || s' == Ended(s, t) || s' == Refuse(s, t, audited)
            || (s' == With(s, t, Checked) && (s.tasks[t].kind.Enable? ==> !IsLive(s.slots, s.tasks[t].name)))
  {
  }

  lemma CheckMoves(s: Sys, t: nat, there: bool, audited: bool)
    requires Safe(s) && At(s, t, Waiting)
    ensures Moves(s, CheckNext(s, t, there, audited), t)
  {
    assert Consistent(s.slots) && (Flagged(s.flags, s.tasks[t].name) ==> IsLive(s.slots, s.tasks[t].name));
    CheckShape(s, t, there, audited);
    hide Safe, Moves, Consistent, IsLive, CheckNext;
    RefuseMoves(s, s, t, audited);
    if CheckNext(s, t, there, audited) == With(s, t, Checked) {
      PhaseMoves(s, With(s, t, Checked), t, Checked);
    }
  }

  lemma AuditMoves(s: Sys, t: nat, written: bool)
    requires Safe(s) && At(s, t, Checked)
    ensures Moves(s, AuditNext(s, t, written), t)
  {
  }

  lemma LoadMoves(s: Sys, t: nat, outcome: Outcome, registers: Option<string>, audited: bool)
    requires Safe(s) && At(s, t, Audited) && s.tasks[t].kind.Enable?
    ensures Moves(s, LoadNext(s, t, outcome, registers, audited), t)
  {
    var name := s.tasks[t].name;
    var w := if registers.Some? then s.(hub := Registered(s.hub, registers.value, t)) else s;
    var failed := w.(slots := Errored(s.slots, name, STAYS_DISABLED));
    ErroredWorld(s, failed, name, STAYS_DISABLED);
    assert TaskOk(s, s.tasks[t]) && Consistent(s.slots);
    hide Safe, Moves, Consistent, IsLive, Errored, Agrees;
    SameWorldStays(s, s, w);
    RefuseMoves(s, failed, t, audited);
    hide SameWorld, Refuse;
    if outcome.Declares? && outcome.plugin.info.id == name {
      var p := outcome.plugin;
      if Agrees(Live(p)) {
        SameWorldStays(s, w, With(w, t, Prepared(p)));
        PhaseMoves(s, With(w, t, Prepared(p)), t, Prepared(p));
      } else {
        StillMoves(s, t);
      }
    }
  }

  lemma ErroredWorld(s: Sys, w: Sys, name: string, message: string)
    requires Safe(s) && w.slots == Errored(s.slots, name, message)
    requires w.nextTask == s.nextTask && w.inside == s.inside && w.counts == s.counts && w.flags == s.flags
    ensures SameWorld(s, w)
  {
    ErroredConsistent(s.slots, name, message);
    forall other
      ensures IsLive(w.slots, other) == IsLive(s.slots, other)
    {
      ErroredLookup(s.slots, name, message, other);
    }
    hide Consistent, IsLive, Errored;
  }

  lemma StillMoves(s: Sys, t: nat)
    requires Safe(s) && t in s.tasks
    ensures Moves(s, s, t)
  {
  }

  lemma InstallMoves(s: Sys, t: nat)
    requires Safe(s) && t in s.tasks && s.tasks[t].phase.Prepared?
    ensures Moves(s, InstallNext(s, t), t)
  {
    var p := s.tasks[t].phase.plugin;
    assert TaskOk(s, s.tasks[t]);
    InstalledConsistent(s.slots, p);
    forall other
      ensures IsLive(Installed(s.slots, p), other) == (other == p.info.id || IsLive(s.slots, other))
    {
      InstalledLookup(s.slots, p, other);
    }
    hide Consistent, LogOk, TasksAudited, Tallies, IsLive, Installed, Agrees;
  }

  lemma BindMoves(s: Sys, t: nat)
    requires Safe(s) && At(s, t, InPlace)
    ensures Moves(s, With(s.(hub := Switched(s.hub, s.tasks[t].name, true)), t, Bound), t)
  {
  }

  /** A step that applies a change, writes it to the log, and moves to `phase` or ends. */
  lemma AppliedMoves(s: Sys, s': Sys, t: nat, change: Change, phase: Option<Phase>)
    requires t in s.tasks && Started(s.tasks[t].phase)
    requires s'.nextTask == s.nextTask && s'.inside == s.inside && s'.counts == s.counts
    requires s'.tasks == if phase.Some? then s.tasks[t := s.tasks[t].(phase := phase.value)] else s.tasks - {t}
    requires s'.log == s.log + [Applied(t, s.tasks[t].kind, s.tasks[t].name, change)]
    requires SameForOthers(s, s', s.tasks[t].name) && Consistent(s'.slots)
    requires Flagged(s'.flags, s.tasks[t].name) ==> IsLive(s'.slots, s.tasks[t].name)
    requires phase.Some? ==> TaskOk(s', s'.tasks[t])
    ensures Moves(s, s', t)
  {
  }

  lemma FlagFails(s: Sys, t: nat)
    requires Safe(s) && (At(s, t, Bound) || (At(s, t, Audited) && s.tasks[t].kind.Disable?))
    ensures Moves(s, FlagNext(s, t, false), t)
  {
  }

  lemma FlagOnMoves(s: Sys, t: nat)
    requires Safe(s) && At(s, t, Bound)
    ensures Moves(s, FlagNext(s, t, true), t)
  {
  }

  lemma FlagOffMoves(s: Sys, t: nat)
    requires Safe(s) && At(s, t, Audited) && s.tasks[t].kind.Disable?
    ensures Moves(s, FlagNext(s, t, true), t)
  {
  }

  lemma FlagMoves(s: Sys, t: nat, written: bool)
    requires Safe(s) && (At(s, t, Bound) || (At(s, t, Audited) && s.tasks[t].kind.Disable?))
    ensures Moves(s, FlagNext(s, t, written), t)
  {
    hide Safe, FlagNext, Moves;
    if !written {
      FlagFails(s, t);
    } else if s.tasks[t].phase.Bound? {
      FlagOnMoves(s, t);
    } else {
      FlagOffMoves(s, t);
    }
  }

  lemma StoppedWorld(s: Sys, s': Sys, name: string)
    requires Consistent(s.slots) && s'.slots == Stopped(s.slots, name) && s'.flags == s.flags
    ensures Consistent(s'.slots) && !IsLive(s'.slots, name) && SameForOthers(s, s', name)
  {
    StoppedConsistent(s.slots, name);
    StoppedLookup(s.slots, name, name);
    forall other | other != name
      ensures SameFor(s, s', other)
    {
      StoppedLookup(s.slots, name, other);
    }
  }

  lemma StopMoves(s: Sys, t: nat)
    requires Safe(s) && (At(s, t, Reverting) || At(s, t, Unflagged))
    ensures Moves(s, StopNext(s, t), t)
  {
    var task, s' := s.tasks[t], StopNext(s, t);
    assert TaskOk(s, task) && Consistent(s.slots);
    StoppedWorld(s, s', task.name);
    hide Safe, Consistent, Stopped, IsLive, Moves, PoolOf, SameForOthers;
    AppliedMoves(s, s', t, SlotStopped, Some(s'.tasks[t].phase));
  }

  lemma UnbindMoves(s: Sys, t: nat)
    requires Safe(s) && t in s.tasks && (s.tasks[t].phase.Unrouted? || At(s, t, Reverted))
    ensures Moves(s, UnbindNext(s, t), t)
  {
    var w := s.(hub := Switched(s.hub, s.tasks[t].name, false));
    assert TaskOk(s, s.tasks[t]) && Consistent(s.slots);
    hide Safe, Consistent, IsLive, Moves, Switched;
    SameWorldStays(s, s, w);
    RefuseMoves(s, w, t, false);
    if s.tasks[t].phase.Unrouted? && s.tasks[t].phase.parts.Some? {
      var phase := Draining(s.tasks[t].phase.parts.value);
      SameWorldStays(s, w, With(w, t, phase));
      hide SameWorld;
      PhaseMoves(s, With(w, t, phase), t, phase);
    }
  }

  lemma WaitMoves(s: Sys, t: nat, expired: bool)
    requires Safe(s) && t in s.tasks && s.tasks[t].phase.Draining?
    ensures Moves(s, WaitNext(s, t, expired), t)
  {
    assert TaskOk(s, s.tasks[t]) && Consistent(s.slots);
    hide Safe, Consistent, IsLive;
  }

  lemma CloseMoves(s: Sys, t: nat)
    requires Safe(s) && t in s.tasks && (s.tasks[t].phase.Idle? || s.tasks[t].phase.TimedOut?)
    ensures Moves(s, CloseNext(s, t), t)
  {
  }

  lemma CancelMoves(s: Sys, t: nat)
    requires Safe(s) && t in s.tasks
    ensures Moves(s, Ended(s, t), t)
  {
  }

  lemma CheckKeepsWorld(s: Sys, t: nat, there: bool, audited: bool)
    requires t in s.tasks
    ensures var s' := CheckNext(s, t, there, audited); s'.slots == s.slots && s'.flags == s.flags
  {
    CheckShape(s, t, there, audited);
    hide CheckNext, IsLive;
  }

  lemma LoadKeepsWorld(s: Sys, t: nat, outcome: Outcome, registers: Option<string>, audited: bool)
    requires t in s.tasks
    ensures var s' := LoadNext(s, t, outcome, registers, audited);
            && s'.flags == s.flags
            && (s'.slots == s.slots || s'.slots == Errored(s.slots, s.tasks[t].name, STAYS_DISABLED))
  {
    hide Errored, Agrees, Registered;
  }

  // --- the steps that are not a task's ---

  lemma BeginKeepsSafe(s: Sys, e: Step)
    requires Safe(s) && e.Begin?
    ensures Safe(Next(s, e))
  {
    hide Consistent, LogOk, Tallies, IsLive, AuditedBefore;
  }

  lemma DispatchTallies(s: Sys, e: Step)
    requires Safe(s) && (e.Enter? || e.Leave?)
    ensures Tallies(Next(s, e).counts, Next(s, e).inside)
    ensures forall name :: !IsLive(s.slots, name) && Count(s.counts, name) == 0 ==> Count(Next(s, e).counts, name) == 0
  {
    if e.Enter? && e.request !in s.inside && IsLive(s.slots, e.plugin) {
      EnterTallies(s.counts, s.inside, e.request, e.plugin);
    } else if e.Leave? && e.request in s.inside {
      LeaveTallies(s.counts, s.inside, e.request);
    }
    hide Safe, Consistent, IsLive;
    assert Tallies(s.counts, s.inside);
    hide Tallies;
  }

  /** No request enters a plugin that a disable has stopped, and leaving only lowers a count. */
  lemma DispatchKeepsSafe(s: Sys, e: Step)
    requires Safe(s) && (e.Enter? || e.Leave?)
    ensures Safe(Next(s, e))
  {
    var s' := Next(s, e);
    DispatchTallies(s, e);
    assert s'.slots == s.slots && s'.flags == s.flags && s'.tasks == s.tasks && s'.nextTask == s.nextTask
           && s'.log == s.log;
    hide Next, Consistent, LogOk, AuditedBefore, Tallies, IsLive, TaskOk, Count, Flagged;
    forall t | t in s'.tasks
      ensures t < s'.nextTask && TaskOk(s', s'.tasks[t])
    {
      TaskOkAfterDispatch(s, s', s.tasks[t]);
    }
  }

  lemma TaskOkAfterDispatch(s: Sys, s': Sys, task: Task)
    requires TaskOk(s, task) && s'.slots == s.slots && s'.flags == s.flags
    requires !IsLive(s.slots, task.name) && Count(s.counts, task.name) == 0 ==> Count(s'.counts, task.name) == 0
    ensures TaskOk(s', task)
  {
    hide IsLive, Count, Flagged;
  }

  lemma CrashKeepsSafe(s: Sys, e: Step)
    requires Safe(s) && e.Crash?
    ensures Safe(Next(s, e))
  {
  }

  lemma TaskStepMoves(s: Sys, e: Step)
    requires Safe(s) && !(e.Begin? || e.Enter? || e.Leave? || e.Crash?) && Next(s, e) != s
    ensures Moves(s, Next(s, e), e.t)
  {
    hide Safe, Moves;
    match e {
      case Check(t, there, audited) => CheckMoves(s, t, there, audited);
      case Audit(t, written) => AuditMoves(s, t, written);
      case Load(t, outcome, registers, audited) => LoadMoves(s, t, outcome, registers, audited);
      case Install(t) => InstallMoves(s, t);
      case BindProvider(t) => BindMoves(s, t);
      case WriteFlag(t, written) => FlagMoves(s, t, written);
      case Stop(t) => StopMoves(s, t);
      case UnbindProvider(t) => UnbindMoves(s, t);
      case Wait(t, expired) => WaitMoves(s, t, expired);
      case Close(t) => CloseMoves(s, t);
      case Cancel(t) => CancelMoves(s, t);
    }
  }

  lemma StepKeepsSafe(s: Sys, e: Step)
    requires Safe(s)
    ensures Safe(Next(s, e))
  {
    hide Safe, Next, Moves;
    if e.Begin? {
      BeginKeepsSafe(s, e);
    } else if e.Enter? || e.Leave? {
      DispatchKeepsSafe(s, e);
    } else if e.Crash? {
      CrashKeepsSafe(s, e);
    } else if Next(s, e) != s {
      TaskStepMoves(s, e);
      MovesKeepSafe(s, Next(s, e), e.t);
    }
  }

  // --- whole runs ---

  lemma InitIsSafe(s: Sys)
    requires Init(s)
    ensures Safe(s)
  {
  }

  lemma {:induction false} RunsAreSafe(s: Sys, steps: seq<Step>)
    requires Init(s)
    ensures Safe(Run(s, steps))
  {
    hide Next, Safe;
    if steps == [] {
      InitIsSafe(s);
    } else {
      RunsAreSafe(s, steps[..|steps| - 1]);
      StepKeepsSafe(Run(s, steps[..|steps| - 1]), steps[|steps| - 1]);
    }
  }

  /** At every step of every interleaving of enables, disables, failing loads, failing writes,
      requests and crashes: a flag that is on means the plugin is live; ids are unique and every
      slot's variant agrees with its record; every applied change comes after its own audit row;
      and a plugin's in-flight count is the number of its requests. */
  lemma {:induction false} LifecycleGuarantee(s: Sys, steps: seq<Step>, name: string, i: nat)
    requires Init(s)
    ensures var t := Run(s, steps);
            && (Flagged(t.flags, name) ==> IsLive(t.slots, name))
            && Consistent(t.slots)
            && (i < |t.log| && t.log[i].Applied? ==>
                AuditedBefore(t.log, i, t.log[i].task, t.log[i].kind, t.log[i].name))
            && Count(t.counts, name) == |Of(t.inside, name)|
  {
    RunsAreSafe(s, steps);
    hide Run, Consistent;
  }

  // --- the audit row comes first ---

  /** What the log says of a change is what changed. */
  predicate Says(s': Sys, name: string, change: Change) {
    match change
    case FlagOn => Flagged(s'.flags, name)
    case FlagOff => !Flagged(s'.flags, name)
    case SlotLive => IsLive(s'.slots, name)
    case SlotStopped => !IsLive(s'.slots, name)
  }

  /** The step is one of a task of this plugin that wrote its audit row, and its change is logged. */
  predicate AuditedChange(s: Sys, e: Step, s': Sys, name: string) {
    && (e.WriteFlag? || e.Install? || e.Stop?)
    && e.t in s.tasks && s.tasks[e.t].name == name
    && AuditedBefore(s.log, |s.log|, e.t, s.tasks[e.t].kind, name)
    && |s'.log| == |s.log| + 1 && s'.log[..|s.log|] == s.log
    && var entry := s'.log[|s.log|];
       entry.Applied? && entry.task == e.t && entry.kind == s.tasks[e.t].kind && entry.name == name
       && Says(s', name, entry.change)
  }

  lemma AuditedSoFar(s: Sys, t: nat)
    requires TasksAudited(s) && t in s.tasks
    ensures Started(s.tasks[t].phase) ==> AuditedBefore(s.log, |s.log|, t, s.tasks[t].kind, s.tasks[t].name)
  {
  }

  lemma InstallIsLogged(s: Sys, e: Step)
    requires Safe(s) && e.Install? && Next(s, e) != s
    ensures AuditedChange(s, e, Next(s, e), s.tasks[e.t].name)
  {
    assert TaskOk(s, s.tasks[e.t]);
    InstalledLookup(s.slots, s.tasks[e.t].phase.plugin, s.tasks[e.t].name);
    hide Consistent, LogOk, Tallies, IsLive, Installed, Agrees, FlagsAreLive, AuditedBefore;
  }

  lemma StopLogs(s: Sys, t: nat)
    requires t in s.tasks
    ensures StopNext(s, t).slots == Stopped(s.slots, s.tasks[t].name)
    ensures StopNext(s, t).log == s.log + [Applied(t, s.tasks[t].kind, s.tasks[t].name, SlotStopped)]
  {
    hide Stopped, PoolOf;
  }

  lemma StopIsLogged(s: Sys, e: Step)
    requires Safe(s) && e.Stop? && Next(s, e) != s
    ensures AuditedChange(s, e, Next(s, e), s.tasks[e.t].name)
  {
    assert Consistent(s.slots) && TasksAudited(s);
    assert (At(s, e.t, Reverting) || At(s, e.t, Unflagged)) && Next(s, e) == StopNext(s, e.t);
    hide Safe, TasksAudited, Next;
    AuditedSoFar(s, e.t);
    StopLogs(s, e.t);
    StoppedLookup(s.slots, s.tasks[e.t].name, s.tasks[e.t].name);
    hide Consistent, IsLive, Stopped, StopNext, AuditedBefore;
  }

  lemma FlagIsLogged(s: Sys, e: Step)
    requires Safe(s) && e.WriteFlag? && Next(s, e) != s && Next(s, e).flags != s.flags
    ensures AuditedChange(s, e, Next(s, e), s.tasks[e.t].name)
  {
    assert TasksAudited(s) && e.t in s.tasks && Started(s.tasks[e.t].phase)
           && Next(s, e) == FlagNext(s, e.t, e.written);
    hide Safe, TasksAudited, IsLive, Next;
    AuditedSoFar(s, e.t);
    hide AuditedBefore;
  }

  lemma LoadKeepsTheWorld(s: Sys, e: Step, name: string)
    requires Consistent(s.slots) && e.Load?
    ensures SameFor(s, Next(s, e), name)
  {
    hide Consistent, IsLive, LoadNext, Errored;
    if e.t in s.tasks {
      LoadKeepsWorld(s, e.t, e.outcome, e.registers, e.refusalAudited);
      ErroredLookup(s.slots, s.tasks[e.t].name, STAYS_DISABLED, name);
    }
  }

  lemma QuietSteps(s: Sys, e: Step)
    requires !(e.WriteFlag? || e.Install? || e.Stop? || e.Crash? || e.Load?)
    ensures Next(s, e).slots == s.slots && Next(s, e).flags == s.flags
  {
    hide IsLive, CheckNext, Switched, Count, LoadNext, InstallNext, StopNext, FlagNext;
    if e.Check? && e.t in s.tasks {
      CheckKeepsWorld(s, e.t, e.libraryThere, e.refusalAudited);
    }
  }

  /** Only these three kinds of step touch a flag or a slot's liveness, crashes apart. */
  lemma OthersKeepTheWorld(s: Sys, e: Step, name: string)
    requires Consistent(s.slots) && !(e.WriteFlag? || e.Install? || e.Stop? || e.Crash?)
    ensures SameFor(s, Next(s, e), name)
  {
    hide *;
    if e.Load? {
      LoadKeepsTheWorld(s, e, name);
    } else {
      QuietSteps(s, e);
      SameStays(s, Next(s, e), name);
    }
  }

  /** Audit, then apply: whatever turns a flag or makes a plugin live or not, crashes apart, is a
      step of a task of that plugin whose audit row is already there, and is itself logged. */
  lemma ChangesAreAuditedFirst(s: Sys, e: Step, name: string)
    requires Safe(s) && !e.Crash? && !SameFor(s, Next(s, e), name)
    ensures AuditedChange(s, e, Next(s, e), name)
  {
    assert Consistent(s.slots);
    hide Safe, SameFor, AuditedChange, Consistent;
    if e.WriteFlag? || e.Install? || e.Stop? {
      SameIsSame(s, name);
      TaskStepMoves(s, e);
      SameStays(s, Next(s, e), name);
      hide Next;
      if e.Install? {
        InstallIsLogged(s, e);
      } else if e.Stop? {
        StopIsLogged(s, e);
      } else {
        FlagKeepsSlots(s, e);
        FlagIsLogged(s, e);
      }
    } else {
      OthersKeepTheWorld(s, e, name);
      hide Next;
    }
  }

  lemma SameIsSame(s: Sys, name: string)
    ensures SameFor(s, s, name)
  {
  }

  lemma SameStays(s: Sys, s': Sys, name: string)
    ensures s'.flags == s.flags && s'.slots == s.slots ==> SameFor(s, s', name)
  {
  }

  lemma FlagKeepsSlots(s: Sys, e: Step)
    requires e.WriteFlag?
    ensures Next(s, e).slots == s.slots
  {
  }

  /** The same at every step of every run. */
  lemma {:induction false} EveryChangeIsAudited(s: Sys, steps: seq<Step>, i: nat, name: string)
    requires Init(s) && i < |steps| && !steps[i].Crash?
    requires !SameFor(Run(s, steps[..i]), Run(s, steps[..i + 1]), name)
    ensures AuditedChange(Run(s, steps[..i]), steps[i], Run(s, steps[..i + 1]), name)
  {
    RunsAreSafe(s, steps[..i]);
    assert steps[..i + 1][..i] == steps[..i];
    assert Run(s, steps[..i + 1]) == Next(Run(s, steps[..i]), steps[i]);
    hide Run, SameFor, Next, AuditedChange, Safe;
    ChangesAreAuditedFirst(Run(s, steps[..i]), steps[i], name);
  }

  // --- when the flag and the slot agree ---

  /** The phases in which the slot is live and the flag is off. */
  predicate Transit(p: Phase) {
    p.InPlace? || p.Bound? || p.Reverting? || p.Unflagged?
  }

  predicate InTransit(s: Sys, name: string) {
    exists t :: t in s.tasks && s.tasks[t].name == name && Transit(s.tasks[t].phase)
  }

  /** Live with its flag off, and nobody is about to settle it. */
  predicate Adrift(s: Sys, name: string) {
    name in s.flags && IsLive(s.slots, name) && !Flagged(s.flags, name) && !InTransit(s, name)
  }

  /** A handler is dropped between its two writes. */
  predicate DropsHalfway(s: Sys, e: Step, name: string) {
    && e.Cancel? && e.t in s.tasks && s.tasks[e.t].name == name
    && (s.tasks[e.t].phase.Bound? || s.tasks[e.t].phase.Reverting? || s.tasks[e.t].phase.Unflagged?)
    && IsLive(s.slots, name) && name in s.flags
  }

  /** What a step of a task on its own plugin does to the agreement. */
  ghost predicate OwnStep(s: Sys, s': Sys, t: nat) {
    && t in s.tasks && s'.flags.Keys == s.flags.Keys
    && var name := s.tasks[t].name;
       || !IsLive(s'.slots, name) || Flagged(s'.flags, name) || name !in s'.flags
       || (t in s'.tasks && Transit(s'.tasks[t].phase))
       || (SameFor(s, s', name) && !Transit(s.tasks[t].phase))
  }

  lemma QuietOwnStep(s: Sys, e: Step)
    requires (e.Check? || e.Audit? || e.Wait? || e.Close? || e.UnbindProvider?) && Next(s, e) != s
    ensures OwnStep(s, Next(s, e), e.t)
  {
    hide CheckNext, IsLive, Switched, Flagged;
    if e.Check? {
      CheckKeepsWorld(s, e.t, e.libraryThere, e.refusalAudited);
    }
  }

  lemma LoadOwnStep(s: Sys, e: Step)
    requires Safe(s) && e.Load? && Next(s, e) != s
    ensures OwnStep(s, Next(s, e), e.t)
  {
    var name := s.tasks[e.t].name;
    ErroredLookup(s.slots, name, STAYS_DISABLED, name);
    LoadKeepsWorld(s, e.t, e.outcome, e.registers, e.refusalAudited);
    hide Safe, IsLive, Errored, LoadNext, Flagged;
  }

  lemma BindOwnStep(s: Sys, e: Step)
    requires (e.Install? || e.BindProvider?) && Next(s, e) != s
    ensures OwnStep(s, Next(s, e), e.t)
  {
  }

  lemma FlagOwnStep(s: Sys, e: Step)
    requires Safe(s) && e.WriteFlag? && Next(s, e) != s
    ensures OwnStep(s, Next(s, e), e.t)
  {
    assert TaskOk(s, s.tasks[e.t]) && Next(s, e) == FlagNext(s, e.t, e.written);
    hide Next, Safe, IsLive;
    if e.written {
      hide TaskOk;
    }
  }

  lemma StopOwnStep(s: Sys, e: Step)
    requires Safe(s) && e.Stop? && Next(s, e) != s
    ensures OwnStep(s, Next(s, e), e.t)
  {
    StoppedLookup(s.slots, s.tasks[e.t].name, s.tasks[e.t].name);
    hide Safe, IsLive, Stopped, PoolOf;
  }

  lemma CancelOwnStep(s: Sys, e: Step)
    requires e.Cancel? && e.t in s.tasks && !DropsHalfway(s, e, s.tasks[e.t].name)
    ensures OwnStep(s, Next(s, e), e.t)
  {
  }

  lemma OwnStepKeepsSettled(s: Sys, s': Sys, t: nat, name: string)
    requires Safe(s) && !Adrift(s, name) && Moves(s, s', t)
    requires name == s.tasks[t].name ==> OwnStep(s, s', t)
    ensures !Adrift(s', name) || name !in s.flags
  {
    hide Consistent, IsLive, LogOk, TasksAudited, Tallies, LogMoves, FlagsAreLive;
    if name == s.tasks[t].name {
      if t in s'.tasks && Transit(s'.tasks[t].phase) {
        assert InTransit(s', name);
      } else if SameFor(s, s', name) && InTransit(s, name) {
        var u :| u in s.tasks && s.tasks[u].name == name && Transit(s.tasks[u].phase);
        assert u == t;
      }
    } else {
      assert SameFor(s, s', name);
      if InTransit(s, name) {
        var u :| u in s.tasks && s.tasks[u].name == name && Transit(s.tasks[u].phase);
        assert u in s'.tasks && s'.tasks[u] == s.tasks[u];
      }
    }
  }

  lemma FlagRowsStay(s: Sys, e: Step)
    ensures Next(s, e).flags.Keys == s.flags.Keys
  {
    hide IsLive, Errored, Installed, Agrees, Switched, Registered, Boots, CheckNext, LoadNext;
    if e.Check? && e.t in s.tasks {
      CheckKeepsWorld(s, e.t, e.libraryThere, e.refusalAudited);
    } else if e.Load? && e.t in s.tasks {
      LoadKeepsWorld(s, e.t, e.outcome, e.registers, e.refusalAudited);
    }
  }

  lemma OutsideKeepsSettled(s: Sys, e: Step, name: string)
    requires Safe(s) && !Adrift(s, name) && (e.Begin? || e.Enter? || e.Leave? || e.Crash?)
    ensures !Adrift(Next(s, e), name)
  {
    var s' := Next(s, e);
    assert TasksOk(s) && s.nextTask !in s.tasks;
    hide Safe, Consistent, IsLive, TaskOk, TasksOk, Entered, Left, NameIsFree;
    if !e.Crash? && InTransit(s, name) {
      var u :| u in s.tasks && s.tasks[u].name == name && Transit(s.tasks[u].phase);
      assert s'.tasks[u].name == name;
    }
  }

  lemma StepKeepsSettled(s: Sys, e: Step, name: string)
    requires Safe(s) && !Adrift(s, name) && !DropsHalfway(s, e, name)
    ensures !Adrift(Next(s, e), name)
  {
    hide Safe, Adrift, Moves, OwnStep, DropsHalfway;
    if e.Begin? || e.Enter? || e.Leave? || e.Crash? {
      OutsideKeepsSettled(s, e, name);
    } else if Next(s, e) != s {
      TaskStepMoves(s, e);
      assert e.t in s.tasks;
      if e.Cancel? {
        if name == s.tasks[e.t].name {
          CancelOwnStep(s, e);
        }
      } else if e.Install? || e.BindProvider? {
        BindOwnStep(s, e);
      } else if e.WriteFlag? {
        FlagOwnStep(s, e);
      } else if e.Stop? {
        StopOwnStep(s, e);
      } else if e.Load? {
        LoadOwnStep(s, e);
      } else {
        QuietOwnStep(s, e);
      }
      FlagRowsStay(s, e);
      hide Next;
      OwnStepKeepsSettled(s, Next(s, e), e.t, name);
      NoRowNoDrift(Next(s, e), name);
    }
  }

  lemma NoRowNoDrift(s: Sys, name: string)
    ensures name !in s.flags ==> !Adrift(s, name)
  {
  }

  lemma DropLeavesItAdrift(s: Sys, e: Step, name: string)
    requires Safe(s) && DropsHalfway(s, e, name)
    ensures Adrift(Next(s, e), name)
  {
    assert TaskOk(s, s.tasks[e.t]);
    hide Consistent, IsLive, LogOk, TasksAudited, Tallies, FlagsAreLive;
  }

  /** A plugin is left live with its flag off, and nobody about to settle it, exactly by dropping
      the handler of its enable or disable between the two writes. */
  lemma DriftIff(s: Sys, e: Step, name: string)
    requires Safe(s) && !Adrift(s, name)
    ensures Adrift(Next(s, e), name) <==> DropsHalfway(s, e, name)
  {
    hide *;
    if DropsHalfway(s, e, name) {
      DropLeavesItAdrift(s, e, name);
    } else {
      StepKeepsSettled(s, e, name);
    }
  }

  /** A disable of the plugin writes its flag, or a boot follows the flags. */
  ghost predicate Settles(s: Sys, e: Step, name: string) {
    || (e.Crash? && Boots(e.generation, s.flags))
    || (e.WriteFlag? && e.written && At(s, e.t, Audited) && s.tasks[e.t].kind.Disable? && s.tasks[e.t].name == name)
  }

  /** A task that has changed nothing yet. */
  predicate Early(task: Task) {
    task.phase.Waiting? || (task.kind.Disable? && (task.phase.Checked? || task.phase.Audited?))
  }

  /** While a plugin is adrift, no task of it is past its guards but a disable's: an enable finds it live. */
  lemma AdriftTasks(s: Sys, t: nat)
    requires Safe(s) && t in s.tasks && Adrift(s, s.tasks[t].name)
    ensures Early(s.tasks[t])
  {
    assert TaskOk(s, s.tasks[t]);
    hide IsLive, Consistent, Flagged;
  }

  lemma SettlingSettles(s: Sys, e: Step, name: string)
    requires Safe(s) && Settles(s, e, name)
    ensures !Adrift(Next(s, e), name)
  {
    hide Safe, Consistent, IsLive;
    if e.WriteFlag? {
      assert Next(s, e).tasks[e.t].phase == Unflagged && Next(s, e).tasks[e.t].name == name;
      assert InTransit(Next(s, e), name);
    }
  }

  /** Nothing settled yet: what is loaded and flagged is as it was. */
  predicate Unsettled(s: Sys, s': Sys, t: nat) {
    s'.slots == s.slots && s'.flags == s.flags && (t in s'.tasks ==> !Transit(s'.tasks[t].phase))
  }

  lemma CheckUnsettled(s: Sys, e: Step)
    requires e.Check? && e.t in s.tasks && Early(s.tasks[e.t])
    ensures Unsettled(s, Next(s, e), e.t)
  {
    CheckKeepsWorld(s, e.t, e.libraryThere, e.refusalAudited);
    CheckShape(s, e.t, e.libraryThere, e.refusalAudited);
    hide CheckNext, IsLive;
  }

  lemma EarlyUnsettled(s: Sys, e: Step)
    requires e.Audit? || (e.WriteFlag? && !e.written) || e.Cancel?
    requires e.t in s.tasks && Early(s.tasks[e.t])
    ensures Unsettled(s, Next(s, e), e.t)
  {
  }

  /** No other step is one of an early task. */
  lemma LateDoesNothing(s: Sys, e: Step)
    requires !(e.Begin? || e.Enter? || e.Leave? || e.Crash? || e.Check? || e.Audit? || e.WriteFlag? || e.Cancel?)
    requires e.t in s.tasks && Early(s.tasks[e.t])
    ensures Next(s, e) == s
  {
  }

  lemma OwnStaysAdrift(s: Sys, e: Step, name: string)
    requires Safe(s) && Adrift(s, name) && !Settles(s, e, name)
    requires !(e.Begin? || e.Enter? || e.Leave? || e.Crash?) && Next(s, e) != s
    requires e.t in s.tasks && s.tasks[e.t].name == name
    ensures Unsettled(s, Next(s, e), e.t)
  {
    AdriftTasks(s, e.t);
    assert e.WriteFlag? && e.written ==> Next(s, e) == s by {
      hide Safe, Adrift, FlagNext;
    }
    hide Safe, Adrift, Next, Unsettled, Early;
    if e.Check? {
      CheckUnsettled(s, e);
    } else if e.Audit? || e.WriteFlag? || e.Cancel? {
      EarlyUnsettled(s, e);
    } else {
      LateDoesNothing(s, e);
    }
  }

  lemma OtherStaysAdrift(s: Sys, s': Sys, t: nat, name: string)
    requires Safe(s) && Adrift(s, name) && Moves(s, s', t) && s'.flags.Keys == s.flags.Keys
    requires s.tasks[t].name == name ==>
               SameFor(s, s', name) && (t in s'.tasks ==> !Transit(s'.tasks[t].phase))
    ensures Adrift(s', name)
  {
    hide Consistent, IsLive, Flagged, LogOk, TasksAudited, Tallies, LogMoves, FlagsAreLive, TaskOk;
    assert SameFor(s, s', name);
    forall u | u in s'.tasks && s'.tasks[u].name == name
      ensures !Transit(s'.tasks[u].phase)
    {
      if u != t {
        assert u in s.tasks && s'.tasks[u] == s.tasks[u];
      }
    }
  }

  lemma OutsideStaysAdrift(s: Sys, e: Step, name: string)
    requires Safe(s) && Adrift(s, name) && !Settles(s, e, name) && (e.Begin? || e.Enter? || e.Leave? || e.Crash?)
    ensures Adrift(Next(s, e), name)
  {
    hide Safe, Consistent, IsLive, Boots, Entered, Left, NameIsFree, Flagged;
    var s' := Next(s, e);
    forall u | u in s'.tasks && s'.tasks[u].name == name
      ensures !Transit(s'.tasks[u].phase)
    {
      assert (u in s.tasks && s.tasks[u] == s'.tasks[u]) || s'.tasks[u].phase.Waiting?;
    }
  }

  lemma UnsettledStaysAdrift(s: Sys, e: Step, name: string)
    requires Safe(s) && Adrift(s, name) && !Settles(s, e, name)
    ensures Adrift(Next(s, e), name)
  {
    hide Safe, Adrift, Moves, Settles, SameFor;
    if e.Begin? || e.Enter? || e.Leave? || e.Crash? {
      OutsideStaysAdrift(s, e, name);
    } else if Next(s, e) != s {
      TaskStepMoves(s, e);
      FlagRowsStay(s, e);
      assert e.t in s.tasks;
      if s.tasks[e.t].name == name {
        OwnStaysAdrift(s, e, name);
        SameStays(s, Next(s, e), name);
      }
      hide Next;
      OtherStaysAdrift(s, Next(s, e), e.t, name);
    }
  }

  /** And what ends it: exactly the flag write of its next disable, which goes on to stop it, or a
      restart. An enable does not; it answers that the plugin is loaded already. */
  lemma DriftEndsIff(s: Sys, e: Step, name: string)
    requires Safe(s) && Adrift(s, name)
    ensures !Adrift(Next(s, e), name) <==> Settles(s, e, name)
  {
    hide *;
    if Settles(s, e, name) {
      SettlingSettles(s, e, name);
    } else {
      UnsettledStaysAdrift(s, e, name);
    }
  }

  ghost predicate AdriftSince(s: Sys, steps: seq<Step>, i: nat, name: string) {
    forall j :: i <= j <= |steps| ==> Adrift(Run(s, steps[..j]), name)
  }

  lemma InitIsSettled(s: Sys, name: string)
    requires Init(s)
    ensures !Adrift(s, name)
  {
    hide Consistent, IsLive;
  }

  /** A plugin that is adrift was left so by one such drop, and has been since. */
  lemma {:induction false} DriftComesFromADrop(s: Sys, steps: seq<Step>, name: string) returns (i: nat)
    requires Init(s) && Adrift(Run(s, steps), name)
    ensures i < |steps| && DropsHalfway(Run(s, steps[..i]), steps[i], name) && AdriftSince(s, steps, i + 1, name)
  {
    hide Next, Adrift, DropsHalfway, Init, Safe;
    InitIsSettled(s, name);
    var n := |steps| - 1;
    assert steps != [];
    RunsAreSafe(s, steps[..n]);
    if Adrift(Run(s, steps[..n]), name) {
      i := DriftComesFromADrop(s, steps[..n], name);
      assert steps[..n][..i] == steps[..i] && steps[..n][i] == steps[i];
      forall j | i + 1 <= j <= |steps|
        ensures Adrift(Run(s, steps[..j]), name)
      {
        if j == |steps| {
          assert steps[..j] == steps;
        } else {
          assert steps[..n][..j] == steps[..j] && Adrift(Run(s, steps[..n][..j]), name);
        }
      }
    } else {
      i := n;
      DriftIff(Run(s, steps[..n]), steps[n], name);
      assert steps[..n + 1] == steps;
    }
  }

  /** Whenever no enable or disable of a plugin is under way, it is live exactly when its flag is on,
      unless the handler of one was dropped between its two writes and nothing has settled it since. */
  lemma {:induction false} QuietPluginsAreSynced(s: Sys, steps: seq<Step>, name: string)
    requires Init(s) && name in Run(s, steps).flags && NameIsFree(Run(s, steps), name)
    ensures (IsLive(Run(s, steps).slots, name) <==> Flagged(Run(s, steps).flags, name))
            || exists i: nat :: i < |steps| && DropsHalfway(Run(s, steps[..i]), steps[i], name)
                                && AdriftSince(s, steps, i + 1, name)
  {
    RunsAreSafe(s, steps);
    hide Run, IsLive, DropsHalfway, AdriftSince;
    if Adrift(Run(s, steps), name) {
      var i := DriftComesFromADrop(s, steps, name);
    }
  }

  // --- draining ---

  /** Routing has stopped, and the disable has not ended. */
  predicate PastStop(s: Sys, t: nat) {
    && t in s.tasks
    && (s.tasks[t].phase.Unrouted? || s.tasks[t].phase.Draining?
        || s.tasks[t].phase.Idle? || s.tasks[t].phase.TimedOut?)
  }

  /** From the moment a disable stops routing, no request enters: the requests inside only become fewer. */
  lemma StoppedPluginOnlyDrains(s: Sys, e: Step, t: nat)
    requires Safe(s) && PastStop(s, t)
    ensures Of(Next(s, e).inside, s.tasks[t].name) <= Of(s.inside, s.tasks[t].name)
  {
    assert TaskOk(s, s.tasks[t]);
    if e.Enter? || e.Leave? || e.Crash? || e.Begin? {
      hide Safe, IsLive;
    } else if Next(s, e) != s {
      TaskStepMoves(s, e);
      hide Next, Safe;
    }
  }

  predicate SameTask(s: Sys, s': Sys, t: nat) {
    t in s.tasks && t in s'.tasks && s'.tasks[t].name == s.tasks[t].name
  }

  lemma StoppedTaskKeepsItsName(s: Sys, e: Step, t: nat)
    requires Safe(s) && PastStop(s, t) && PastStop(Next(s, e), t)
    ensures SameTask(s, Next(s, e), t)
  {
    if e.Enter? || e.Leave? || e.Crash? || e.Begin? {
      hide IsLive, TaskOk;
    } else if Next(s, e) != s {
      TaskStepMoves(s, e);
      hide Next, Safe;
    }
  }

  /** Over any stretch of a run in which the disable is past its stop, the count never rises. */
  lemma {:induction false} CountOnlyFalls(s: Sys, steps: seq<Step>, i: nat, j: nat, t: nat)
    requires Init(s) && i <= j <= |steps| && forall k :: i <= k <= j ==> PastStop(Run(s, steps[..k]), t)
    ensures SameTask(Run(s, steps[..i]), Run(s, steps[..j]), t)
    ensures var name := Run(s, steps[..i]).tasks[t].name;
            && Of(Run(s, steps[..j]).inside, name) <= Of(Run(s, steps[..i]).inside, name)
            && Count(Run(s, steps[..j]).counts, name) <= Count(Run(s, steps[..i]).counts, name)
    decreases j
  {
    hide Next;
    RunsAreSafe(s, steps[..i]);
    RunsAreSafe(s, steps[..j]);
    assert PastStop(Run(s, steps[..i]), t);
    if i < j {
      CountOnlyFalls(s, steps, i, j - 1, t);
      RunsAreSafe(s, steps[..j - 1]);
      assert PastStop(Run(s, steps[..j - 1]), t) && PastStop(Run(s, steps[..j]), t);
      assert steps[..j][..j - 1] == steps[..j - 1];
      StoppedPluginOnlyDrains(Run(s, steps[..j - 1]), steps[j - 1], t);
      StoppedTaskKeepsItsName(Run(s, steps[..j - 1]), steps[j - 1], t);
      SubsetCount(Of(Run(s, steps[..j]).inside, Run(s, steps[..i]).tasks[t].name),
                  Of(Run(s, steps[..i]).inside, Run(s, steps[..i]).tasks[t].name));
    }
  }

  // --- closing the pool ---

  /** The step closes a pool of this plugin. */
  ghost predicate Closes(s: Sys, e: Step, name: string) {
    exists pool :: Next(s, e).closings == s.closings + [Closing(pool, name)]
  }

  /** A disable whose wait ran out, or an enable that takes its plugin back. */
  predicate ClosesEarly(s: Sys, e: Step, name: string) {
    || (e.Close? && e.t in s.tasks && s.tasks[e.t].name == name && s.tasks[e.t].phase.TimedOut?)
    || (e.Stop? && At(s, e.t, Reverting) && s.tasks[e.t].name == name)
  }

  predicate ClosesIdle(s: Sys, e: Step, name: string) {
    e.Close? && e.t in s.tasks && s.tasks[e.t].name == name && s.tasks[e.t].phase.Idle?
  }

  lemma OthersCloseNoPool(s: Sys, e: Step)
    requires !e.Close? && !e.Stop?
    ensures Next(s, e).closings == s.closings
  {
    hide IsLive, Errored, Installed, Agrees, Switched, Registered, Boots, CheckNext;
    if e.Check? {
      if e.t in s.tasks {
        CheckShape(s, e.t, e.libraryThere, e.refusalAudited);
      }
    } else if !e.Load? {
      hide LoadNext;
    }
  }

  /** A pool closes at the end of a disable, after its wait, or when an enable takes its plugin
      back: while requests drain it is open. */
  lemma PoolsCloseLast(s: Sys, e: Step)
    requires Safe(s)
    ensures Next(s, e).closings == s.closings
            || (e.Close? && e.t in s.tasks && (s.tasks[e.t].phase.Idle? || s.tasks[e.t].phase.TimedOut?)
                && Next(s, e).closings == s.closings + [Closing(s.tasks[e.t].phase.pool, s.tasks[e.t].name)])
            || (e.Stop? && At(s, e.t, Reverting) && PoolOf(s.slots, s.tasks[e.t].name).Some?
                && Next(s, e).closings
                   == s.closings + [Closing(PoolOf(s.slots, s.tasks[e.t].name).value, s.tasks[e.t].name)])
  {
    if e.Close? || e.Stop? {
      assert e.t in s.tasks ==> TaskOk(s, s.tasks[e.t]);
      hide Safe, IsLive, Stopped;
    } else {
      OthersCloseNoPool(s, e);
      hide Next, Safe;
    }
  }

  lemma StopCloses(s: Sys, e: Step, name: string)
    requires Safe(s) && e.Stop?
    ensures Closes(s, e, name) <==> ClosesEarly(s, e, name)
    ensures !ClosesIdle(s, e, name)
  {
    assert e.t in s.tasks ==> TaskOk(s, s.tasks[e.t]);
    hide Safe, IsLive, Stopped;
    if At(s, e.t, Reverting) {
      var own := s.tasks[e.t].name;
      var pool := PoolOf(s.slots, own);
      assert Next(s, e).closings[|s.closings|] == Closing(pool.value, own);
    }
  }

  lemma EndCloses(s: Sys, e: Step, name: string)
    requires e.Close?
    ensures Closes(s, e, name) <==> ClosesEarly(s, e, name) || ClosesIdle(s, e, name)
  {
    if e.t in s.tasks && (s.tasks[e.t].phase.Idle? || s.tasks[e.t].phase.TimedOut?) {
      assert Next(s, e).closings[|s.closings|] == Closing(s.tasks[e.t].phase.pool, s.tasks[e.t].name);
    }
  }

  /** The steps that close a pool: the last of a disable, after its wait, and the one in which an
      enable takes its plugin back. While requests drain the pool is open. */
  lemma ClosingSteps(s: Sys, e: Step, name: string)
    requires Safe(s)
    ensures Closes(s, e, name) <==> ClosesEarly(s, e, name) || ClosesIdle(s, e, name)
  {
    hide Safe, Next, Closes, ClosesEarly, ClosesIdle;
    if e.Stop? {
      StopCloses(s, e, name);
    } else if e.Close? {
      EndCloses(s, e, name);
    } else {
      NeitherCloses(s, e, name);
    }
  }

  lemma NeitherCloses(s: Sys, e: Step, name: string)
    requires !e.Close? && !e.Stop?
    ensures !Closes(s, e, name) && !ClosesEarly(s, e, name) && !ClosesIdle(s, e, name)
  {
    OthersCloseNoPool(s, e);
    hide Next;
  }

  lemma IdleIsEmpty(s: Sys, e: Step, name: string)
    requires Safe(s) && ClosesIdle(s, e, name)
    ensures Of(s.inside, name) == {}
  {
    assert TaskOk(s, s.tasks[e.t]);
    hide Consistent, IsLive, LogOk, TasksAudited;
  }

  /** When the wait saw nobody inside, nobody is inside when the pool closes. */
  lemma {:induction false} PoolClosesOnNobody(s: Sys, steps: seq<Step>, t: nat)
    requires Init(s) && t in Run(s, steps).tasks && Run(s, steps).tasks[t].phase.Idle?
    ensures var u := Run(s, steps); Of(u.inside, u.tasks[t].name) == {}
    ensures var u := Run(s, steps);
            Next(u, Close(t)).closings == u.closings + [Closing(u.tasks[t].phase.pool, u.tasks[t].name)]
  {
    RunsAreSafe(s, steps);
    assert TaskOk(Run(s, steps), Run(s, steps).tasks[t]);
    hide Run, IsLive, Consistent;
  }

  /** Exactly when a pool closes under a request: a disable whose wait ran out, or an enable that
      takes its plugin back, with a request inside. A disable whose wait succeeded never does. */
  lemma ClosesUnderARequestIff(s: Sys, e: Step, name: string)
    requires Safe(s)
    ensures Closes(s, e, name) && Of(s.inside, name) != {} <==> ClosesEarly(s, e, name) && Of(s.inside, name) != {}
  {
    hide *;
    ClosingSteps(s, e, name);
    if ClosesIdle(s, e, name) {
      IdleIsEmpty(s, e, name);
    }
  }

  /** The same over whole runs. */
  lemma {:induction false} PoolsCloseOnNobodyUnless(s: Sys, steps: seq<Step>, i: nat, name: string)
    requires Init(s) && i < |steps| && Closes(Run(s, steps[..i]), steps[i], name)
    ensures Of(Run(s, steps[..i]).inside, name) == {} || ClosesEarly(Run(s, steps[..i]), steps[i], name)
    ensures ClosesEarly(Run(s, steps[..i]), steps[i], name) || ClosesIdle(Run(s, steps[..i]), steps[i], name)
  {
    hide *;
    RunsAreSafe(s, steps[..i]);
    ClosesUnderARequestIff(Run(s, steps[..i]), steps[i], name);
    ClosingSteps(Run(s, steps[..i]), steps[i], name);
  }

  // --- the provider follows the plugin ---

  predicate ProviderOk(hub: Hub, task: Task) {
    && (task.phase.Bound? ==> task.name !in hub.disabled)
    && (task.phase.Draining? || task.phase.Idle? || task.phase.TimedOut? ==> task.name in hub.disabled)
  }

  predicate ProvidersOk(s: Sys) {
    forall t :: t in s.tasks ==> ProviderOk(s.hub, s.tasks[t])
  }

  /** What a step of a task does to the switch of its provider: nothing on the way, on before the
      flag is written, off once routing has stopped. No other switch is touched. */
  predicate SwitchMoves(s: Sys, s': Sys, t: nat) {
    && t in s.tasks
    && (t in s'.tasks ==> s'.tasks[t].name == s.tasks[t].name)
    && ((s'.hub.disabled == s.hub.disabled && (t in s'.tasks ==> OnTheWay(s.tasks[t].phase, s'.tasks[t].phase)))
        || (s'.hub.disabled == s.hub.disabled - {s.tasks[t].name} && t in s'.tasks && s'.tasks[t].phase.Bound?)
        || (s'.hub.disabled == s.hub.disabled + {s.tasks[t].name} && (t in s'.tasks ==> s'.tasks[t].phase.Draining?)))
  }

  predicate OnTheWay(p: Phase, p': Phase) {
    p' == p || (!p'.Bound? && (p'.Draining? || p'.Idle? || p'.TimedOut? ==> p.Draining?))
  }

  lemma LoadPhase(s: Sys, t: nat, outcome: Outcome, registers: Option<string>, audited: bool)
    requires t in s.tasks
    ensures var s' := LoadNext(s, t, outcome, registers, audited);
            && (t in s'.tasks ==>
                  || s'.tasks[t] == s.tasks[t]
                  || (s'.tasks[t].phase.Prepared? && s'.tasks[t].name == s.tasks[t].name
                      && s'.tasks[t].kind == s.tasks[t].kind))
            && (forall u :: u in s'.tasks && u != t ==> u in s.tasks && s'.tasks[u] == s.tasks[u])
  {
    hide Errored, Agrees, Registered;
  }

  lemma LoadLeavesSwitches(s: Sys, t: nat, outcome: Outcome, registers: Option<string>, audited: bool)
    requires t in s.tasks
    ensures LoadNext(s, t, outcome, registers, audited).hub.disabled == s.hub.disabled
  {
    hide Errored, Agrees;
  }

  lemma LoadMovesSwitches(s: Sys, e: Step)
    requires e.Load? && At(s, e.t, Audited)
    ensures SwitchMoves(s, LoadNext(s, e.t, e.outcome, e.registers, e.refusalAudited), e.t)
  {
    LoadLeavesSwitches(s, e.t, e.outcome, e.registers, e.refusalAudited);
    LoadPhase(s, e.t, e.outcome, e.registers, e.refusalAudited);
    hide LoadNext;
  }

  lemma CheckMovesSwitches(s: Sys, e: Step)
    requires e.Check? && At(s, e.t, Waiting)
    ensures SwitchMoves(s, CheckNext(s, e.t, e.libraryThere, e.refusalAudited), e.t)
  {
    CheckShape(s, e.t, e.libraryThere, e.refusalAudited);
    hide CheckNext, IsLive;
  }

  lemma SlotsMoveSwitches(s: Sys, e: Step)
    requires (e.Install? || e.Stop?) && Next(s, e) != s
    ensures SwitchMoves(s, Next(s, e), e.t)
  {
    hide IsLive, CheckNext, LoadNext, Installed, Stopped, PoolOf, UnbindNext, WaitNext, CloseNext, FlagNext, AuditNext;
  }

  lemma AuditMovesSwitches(s: Sys, t: nat, written: bool)
    requires At(s, t, Checked)
    ensures SwitchMoves(s, AuditNext(s, t, written), t)
  {
  }

  lemma FlagMovesSwitches(s: Sys, t: nat, written: bool)
    requires t in s.tasks
    ensures SwitchMoves(s, FlagNext(s, t, written), t)
  {
  }

  lemma WritesMoveSwitches(s: Sys, e: Step)
    requires (e.Audit? || e.WriteFlag?) && Next(s, e) != s
    ensures SwitchMoves(s, Next(s, e), e.t)
  {
    hide SwitchMoves, AuditNext, FlagNext;
    if e.Audit? {
      AuditMovesSwitches(s, e.t, e.written);
    } else {
      FlagMovesSwitches(s, e.t, e.written);
    }
  }

  lemma LateMovesSwitches(s: Sys, e: Step)
    requires (e.Wait? || e.Close? || e.Cancel?) && Next(s, e) != s
    ensures SwitchMoves(s, Next(s, e), e.t)
  {
    hide IsLive, CheckNext, LoadNext, InstallNext, StopNext, FlagNext, AuditNext, UnbindNext, Count;
  }

  lemma SwitchingMovesSwitches(s: Sys, e: Step)
    requires (e.BindProvider? || e.UnbindProvider?) && Next(s, e) != s
    ensures SwitchMoves(s, Next(s, e), e.t)
  {
    hide IsLive, CheckNext, LoadNext, InstallNext, StopNext, FlagNext, AuditNext, WaitNext, CloseNext;
  }

  lemma StepMovesSwitches(s: Sys, e: Step)
    requires !(e.Begin? || e.Enter? || e.Leave? || e.Crash?) && Next(s, e) != s
    ensures SwitchMoves(s, Next(s, e), e.t)
  {
    hide SwitchMoves, CheckNext, LoadNext, InstallNext, StopNext, FlagNext, AuditNext, UnbindNext, WaitNext, CloseNext;
    if e.Load? {
      LoadMovesSwitches(s, e);
    } else if e.Check? {
      CheckMovesSwitches(s, e);
    } else if e.Install? || e.Stop? {
      SlotsMoveSwitches(s, e);
    } else if e.Audit? || e.WriteFlag? {
      WritesMoveSwitches(s, e);
    } else if e.BindProvider? || e.UnbindProvider? {
      SwitchingMovesSwitches(s, e);
    } else {
      LateMovesSwitches(s, e);
    }
  }

  lemma SwitchesKeepProviders(s: Sys, s': Sys, t: nat)
    requires TasksOk(s) && ProvidersOk(s) && SwitchMoves(s, s', t) && TaskMoves(s, s', t)
    ensures ProvidersOk(s')
  {
    hide TaskOk;
    forall u | u in s'.tasks
      ensures ProviderOk(s'.hub, s'.tasks[u])
    {
      assert u in s.tasks && ProviderOk(s.hub, s.tasks[u]);
    }
  }

  lemma OutsideKeepsProviders(s: Sys, e: Step)
    requires ProvidersOk(s) && (e.Begin? || e.Enter? || e.Leave? || e.Crash?)
    ensures ProvidersOk(Next(s, e))
  {
    hide IsLive, Entered, Left, Consistent;
  }

  lemma StepKeepsProvidersOk(s: Sys, e: Step)
    requires Safe(s) && ProvidersOk(s)
    ensures ProvidersOk(Next(s, e))
  {
    assert TasksOk(s);
    hide Safe, TasksOk, ProvidersOk, SwitchMoves;
    if e.Begin? || e.Enter? || e.Leave? || e.Crash? {
      OutsideKeepsProviders(s, e);
    } else if Next(s, e) != s {
      TaskStepMoves(s, e);
      StepMovesSwitches(s, e);
      hide Next, LogMoves, SameForOthers, TaskOk, TaskMoves;
      SwitchesKeepProviders(s, Next(s, e), e.t);
    }
  }

  lemma {:induction false} RunsKeepProvidersOk(s: Sys, steps: seq<Step>)
    requires Init(s)
    ensures ProvidersOk(Run(s, steps))
  {
    hide Next, Safe, ProvidersOk;
    if steps == [] {
      NoTasksNoProviders(s);
    } else {
      RunsAreSafe(s, steps[..|steps| - 1]);
      RunsKeepProvidersOk(s, steps[..|steps| - 1]);
      StepKeepsProvidersOk(Run(s, steps[..|steps| - 1]), steps[|steps| - 1]);
    }
  }

  lemma NoTasksNoProviders(s: Sys)
    requires s.tasks == map[]
    ensures ProvidersOk(s)
  {
  }

  /** In every interleaving: while a stopped plugin drains its provider does not answer, and when
      the flag of an enabled one is written its provider is not switched off. */
  lemma {:induction false} ProvidersFollowPlugins(s: Sys, steps: seq<Step>, t: nat)
    requires Init(s) && t in Run(s, steps).tasks
    ensures var u := Run(s, steps); var task := u.tasks[t];
            && (task.phase.Draining? || task.phase.Idle? || task.phase.TimedOut? ==> task.name !in Enabled(u.hub))
            && (task.phase.Bound? && task.name in u.hub.providers ==> task.name in Enabled(u.hub))
  {
    RunsKeepProvidersOk(s, steps);
    hide Run;
    assert ProviderOk(Run(s, steps).hub, Run(s, steps).tasks[t]);
  }
}
