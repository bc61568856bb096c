/** What one step of an enable or disable does, with nothing taken for granted about what is loaded
    or flagged: another door may have changed it in between. */
module LifecycleShape {
  import opened Wrappers
  import opened Registry
  import opened IdentityHub
  import opened InFlight
  import opened Lifecycle
  import opened LifecycleGuarantees

  /** The kind of change a phase belongs to, and what an enable holds while it is loaded. */
  predicate TaskSound(task: Task) {
    match task.phase
    case Waiting => true
    case Checked => true
    case Audited => true
    case Prepared(p) => task.kind.Enable? && p.info.id == task.name && Agrees(Live(p))
    case InPlace => task.kind.Enable?
    case Bound => task.kind.Enable?
    case Reverting => task.kind.Enable?
    case Reverted => task.kind.Enable?
    case _ => task.kind.Disable?
  }

  predicate TasksSound(s: Sys) {
    && (forall t :: t in s.tasks ==> t < s.nextTask && TaskSound(s.tasks[t]))
    && (forall t, u :: t in s.tasks && u in s.tasks && s.tasks[t].name == s.tasks[u].name ==> t == u)
  }

  lemma OkIsSound(s: Sys)
    requires TasksOk(s)
    ensures TasksSound(s)
  {
    forall t | t in s.tasks
      ensures TaskSound(s.tasks[t])
    {
      assert TaskOk(s, s.tasks[t]);
      hide IsLive, Flagged, Agrees;
    }
    hide TaskOk, TaskSound;
  }

  /** The pool a stopped plugin's disable still holds. */
  function Held(p: Phase): Option<nat> {
    match p
    case Unrouted(parts) => parts
    case Draining(pool) => Some(pool)
    case Idle(pool) => Some(pool)
    case TimedOut(pool) => Some(pool)
    case _ => None
  }

  /** A pool comes to a task by its stop, and stays with it; a task is idle once its plugin's count was zero. */
  predicate HeldShift(s: Sys, e: Step, task: Task, task': Task) {
    && (Held(task'.phase).Some? ==>
          || Held(task'.phase) == Held(task.phase)
          || (e.Stop? && task.kind.Disable? && Held(task'.phase) == PoolOf(s.slots, task.name)))
    && (task'.phase.Idle? ==> task'.phase == task.phase || (task.phase.Draining? && Count(s.counts, task.name) == 0))
  }

  predicate SlotShift(s: Sys, e: Step, s': Sys) {
    || s'.slots == s.slots
    || (e.Load? && e.t in s.tasks && s'.slots == Errored(s.slots, s.tasks[e.t].name, STAYS_DISABLED))
    || (e.Install? && e.t in s.tasks && s.tasks[e.t].phase.Prepared?
        && s'.slots == Installed(s.slots, s.tasks[e.t].phase.plugin))
    || (e.Stop? && e.t in s.tasks && (At(s, e.t, Reverting) || At(s, e.t, Unflagged))
        && s'.slots == Stopped(s.slots, s.tasks[e.t].name))
  }

  /** One step of a task. */
  predicate Shifts(s: Sys, e: Step, s': Sys, t: nat) {
    && t in s.tasks
    && s'.nextTask == s.nextTask && s'.inside == s.inside && s'.counts == s.counts && s'.devHeaders == s.devHeaders
    && TaskMoves(s, s', t) && LogMoves(s, s', t) && SlotShift(s, e, s')
    && (t in s'.tasks ==> TaskSound(s'.tasks[t]) && HeldShift(s, e, s.tasks[t], s'.tasks[t]))
  }

  lemma RefuseShifts(s: Sys, e: Step, w: Sys, t: nat, audited: bool)
    requires t in s.tasks && SlotShift(s, e, w) && w.tasks == s.tasks && w.log == s.log
    requires w.nextTask == s.nextTask && w.inside == s.inside && w.counts == s.counts && w.devHeaders == s.devHeaders
    ensures Shifts(s, e, Refuse(w, t, audited), t) && Shifts(s, e, Ended(w, t), t)
  {
    hide Errored, Installed, Stopped;
  }

  lemma PhaseShifts(s: Sys, e: Step, s': Sys, t: nat, phase: Phase)
    requires t in s.tasks && s'.tasks == s.tasks[t := s.tasks[t].(phase := phase)]
    requires s'.nextTask == s.nextTask && s'.inside == s.inside && s'.counts == s.counts
             && s'.devHeaders == s.devHeaders
    requires LogMoves(s, s', t) && SlotShift(s, e, s')
    requires TaskSound(s.tasks[t].(phase := phase)) && HeldShift(s, e, s.tasks[t], s.tasks[t].(phase := phase))
    ensures Shifts(s, e, s', t)
  {
    hide LogMoves, SlotShift;
  }

  lemma CheckShifts(s: Sys, e: Step, t: nat, there: bool, audited: bool)
    requires At(s, t, Waiting)
    ensures Shifts(s, e, CheckNext(s, t, there, audited), t)
  {
    hide CheckNext, IsLive, Shifts, SlotShift, Refuse;
    CheckShape(s, t, there, audited);
    SameSlotShift(s, e, s);
    RefuseShifts(s, e, s, t, audited);
    SameSlotShift(s, e, With(s, t, Checked));
    PhaseShifts(s, e, With(s, t, Checked), t, Checked);
  }

  lemma AuditShifts(s: Sys, e: Step, t: nat, written: bool)
    requires At(s, t, Checked)
    ensures Shifts(s, e, AuditNext(s, t, written), t)
  {
  }

  lemma LoadShifts(s: Sys, e: Step)
    requires e.Load? && At(s, e.t, Audited) && s.tasks[e.t].kind.Enable?
    ensures Shifts(s, e, LoadNext(s, e.t, e.outcome, e.registers, e.refusalAudited), e.t)
  {
    var t, name := e.t, s.tasks[e.t].name;
    var w := if e.registers.Some? then s.(hub := Registered(s.hub, e.registers.value, t)) else s;
    var failed := w.(slots := Errored(s.slots, name, STAYS_DISABLED));
    hide Errored, Agrees, Registered, Shifts;
    RefuseShifts(s, e, failed, t, e.refusalAudited);
    if e.outcome.Declares? && e.outcome.plugin.info.id == name {
      var p := e.outcome.plugin;
      if Agrees(Live(p)) {
        PhaseShifts(s, e, With(w, t, Prepared(p)), t, Prepared(p));
      } else {
        StillShifts(s, e, t);
      }
    }
  }

  lemma StillShifts(s: Sys, e: Step, t: nat)
    requires t in s.tasks && TaskSound(s.tasks[t])
    ensures Shifts(s, e, s, t)
  {
  }

  lemma InstallShifts(s: Sys, e: Step)
    requires e.Install? && e.t in s.tasks && s.tasks[e.t].phase.Prepared? && TaskSound(s.tasks[e.t])
    ensures Shifts(s, e, InstallNext(s, e.t), e.t)
  {
    hide Installed, Agrees;
  }

  lemma BindShifts(s: Sys, e: Step, t: nat)
    requires At(s, t, InPlace) && TaskSound(s.tasks[t])
    ensures Shifts(s, e, With(s.(hub := Switched(s.hub, s.tasks[t].name, true)), t, Bound), t)
  {
  }

  lemma FlagShifts(s: Sys, e: Step, t: nat, written: bool)
    requires At(s, t, Bound) || (At(s, t, Audited) && s.tasks[t].kind.Disable?)
    requires TaskSound(s.tasks[t])
    ensures Shifts(s, e, FlagNext(s, t, written), t)
  {
    hide SlotShift;
    assert SlotShift(s, e, FlagNext(s, t, written)) by {
      SameSlotShift(s, e, FlagNext(s, t, written));
    }
  }

  lemma SameSlotShift(s: Sys, e: Step, s': Sys)
    ensures s'.slots == s.slots ==> SlotShift(s, e, s')
  {
  }

  lemma StopShifts(s: Sys, e: Step)
    requires e.Stop? && (At(s, e.t, Reverting) || At(s, e.t, Unflagged)) && TaskSound(s.tasks[e.t])
    ensures Shifts(s, e, StopNext(s, e.t), e.t)
  {
    hide Stopped, PoolOf;
  }

  lemma UnbindShifts(s: Sys, e: Step, t: nat)
    requires t in s.tasks && (s.tasks[t].phase.Unrouted? || s.tasks[t].phase.Reverted?) && TaskSound(s.tasks[t])
    ensures Shifts(s, e, UnbindNext(s, t), t)
  {
    hide Switched, SlotShift;
    SameSlotShift(s, e, UnbindNext(s, t));
  }

  lemma WaitShifts(s: Sys, e: Step, t: nat, expired: bool)
    requires t in s.tasks && s.tasks[t].phase.Draining? && TaskSound(s.tasks[t])
    ensures Shifts(s, e, WaitNext(s, t, expired), t)
  {
    hide Shifts, SlotShift, Count;
    var pool := s.tasks[t].phase.pool;
    if Count(s.counts, s.tasks[t].name) == 0 {
      SameSlotShift(s, e, With(s, t, Idle(pool)));
      PhaseShifts(s, e, With(s, t, Idle(pool)), t, Idle(pool));
    } else if expired {
      SameSlotShift(s, e, With(s, t, TimedOut(pool)));
      PhaseShifts(s, e, With(s, t, TimedOut(pool)), t, TimedOut(pool));
    } else {
      StillShifts(s, e, t);
    }
  }

  lemma CloseShifts(s: Sys, e: Step, t: nat)
    requires t in s.tasks && (s.tasks[t].phase.Idle? || s.tasks[t].phase.TimedOut?)
    ensures Shifts(s, e, CloseNext(s, t), t)
  {
    hide SlotShift;
    SameSlotShift(s, e, CloseNext(s, t));
  }

  lemma CancelShifts(s: Sys, e: Step, t: nat)
    requires t in s.tasks
    ensures Shifts(s, e, Ended(s, t), t)
  {
    hide SlotShift;
    SameSlotShift(s, e, Ended(s, t));
  }

  /** Every step of a task shifts. */
  lemma TaskStepShifts(s: Sys, e: Step)
    requires TasksSound(s) && !(e.Begin? || e.Enter? || e.Leave? || e.Crash?) && Next(s, e) != s
    ensures Shifts(s, e, Next(s, e), e.t)
  {
    assert e.t in s.tasks && TaskSound(s.tasks[e.t]);
    hide TasksSound, Shifts, TaskSound, CheckNext, LoadNext, InstallNext, StopNext, FlagNext, AuditNext, UnbindNext,
         WaitNext, CloseNext;
    match e {
      case Check(t, there, audited) => CheckShifts(s, e, t, there, audited);
      case Audit(t, written) => AuditShifts(s, e, t, written);
      case Load(t, outcome, registers, audited) => LoadShifts(s, e);
      case Install(t) => InstallShifts(s, e);
      case BindProvider(t) => BindShifts(s, e, t);
      case WriteFlag(t, written) => FlagShifts(s, e, t, written);
      case Stop(t) => StopShifts(s, e);
      case UnbindProvider(t) => UnbindShifts(s, e, t);
      case Wait(t, expired) => WaitShifts(s, e, t, expired);
      case Close(t) => CloseShifts(s, e, t);
      case Cancel(t) => CancelShifts(s, e, t);
    }
  }

  // --- what every such step keeps ---

  lemma ShiftsKeepSlots(s: Sys, e: Step, s': Sys, t: nat)
    requires Consistent(s.slots) && TasksSound(s) && Shifts(s, e, s', t)
             && (e.Load? || e.Install? || e.Stop? ==> e.t == t)
    ensures Consistent(s'.slots)
  {
    assert TaskSound(s.tasks[t]);
    hide Consistent, Errored, Installed, Stopped, TasksSound, TaskMoves, LogMoves, HeldShift, Agrees;
    if s'.slots != s.slots {
      ErroredConsistent(s.slots, s.tasks[t].name, STAYS_DISABLED);
      StoppedConsistent(s.slots, s.tasks[t].name);
      if s.tasks[t].phase.Prepared? {
        InstalledConsistent(s.slots, s.tasks[t].phase.plugin);
      }
    }
  }

  lemma ShiftsKeepTasks(s: Sys, e: Step, s': Sys, t: nat)
    requires TasksSound(s) && Shifts(s, e, s', t)
    ensures TasksSound(s')
  {
    hide SlotShift, LogMoves, TaskSound, HeldShift;
  }

  lemma ShiftsKeepLog(s: Sys, e: Step, s': Sys, t: nat)
    requires LogOk(s.log) && TasksAudited(s) && Shifts(s, e, s', t)
    ensures LogOk(s'.log) && TasksAudited(s')
  {
    MovesKeepLog(s, s', t);
  }

  lemma OutsideKeepsTasks(s: Sys, e: Step)
    requires TasksSound(s) && (e.Begin? || e.Enter? || e.Leave?)
    ensures TasksSound(Next(s, e))
  {
    hide IsLive, Entered, Left;
  }

  lemma OutsideKeepsLog(s: Sys, e: Step)
    requires TasksAudited(s) && (e.Begin? || e.Enter? || e.Leave?)
    ensures Next(s, e).log == s.log && TasksAudited(Next(s, e))
  {
    hide IsLive, Entered, Left, AuditedBefore;
  }

  lemma TalliesKept(s: Sys, e: Step)
    requires Tallies(s.counts, s.inside) && (e.Enter? || e.Leave?)
    ensures Tallies(Next(s, e).counts, Next(s, e).inside)
  {
    hide Tallies, IsLive, Entered, Left;
    if e.Enter? && e.request !in s.inside && IsLive(s.slots, e.plugin) {
      EnterTallies(s.counts, s.inside, e.request, e.plugin);
    } else if e.Leave? && e.request in s.inside {
      LeaveTallies(s.counts, s.inside, e.request);
    }
  }
}
