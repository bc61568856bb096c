/** Runs in which enables and disables do not overlap, built step by step. */
module LifecycleAlone {
  import opened Registry
  import opened LifecycleRules
  import opened IdentityHub
  import opened Lifecycle
  import opened LifecycleGuarantees
  import opened LifecycleRaces

  /** At most one enable or disable is under way. */
  predicate Alone(s: Sys) {
    forall t, u :: t in s.tasks && u in s.tasks ==> t == u
  }

  /** With one task, the state after a step of that task has no other task to answer for. */
  lemma OnlyThisTask(s: Sys, s': Sys, t: nat)
    requires Alone(s) && t in s.tasks && TaskMoves(s, s', t)
    ensures forall u :: u in s'.tasks ==> u == t
  {
  }

  /** Enables and disables do not overlap. */
  ghost predicate OneAtATime(s: Sys, steps: seq<Step>) {
    forall i :: 0 <= i <= |steps| ==> Alone(Run(s, steps[..i]))
  }

  lemma {:induction false} OneAtATimePrefix(s: Sys, steps: seq<Step>, n: nat)
    requires OneAtATime(s, steps) && n <= |steps|
    ensures OneAtATime(s, steps[..n]) && Alone(Run(s, steps[..n]))
  {
    hide Run, Alone;
    forall i | 0 <= i <= n
      ensures steps[..n][..i] == steps[..i]
    {
    }
  }

  /** Reached with one change at a time. */
  ghost predicate ReachesAlone(s: Sys, t: Sys) {
    exists steps :: OneAtATime(s, steps) && Run(s, steps) == t
  }

  lemma {:induction false} AloneItself(s: Sys)
    requires Alone(s)
    ensures ReachesAlone(s, s)
  {
    hide Alone;
    assert OneAtATime(s, []) && Run(s, []) == s;
  }

  lemma {:induction false} AloneNext(s: Sys, t: Sys, e: Step)
    requires ReachesAlone(s, t) && Alone(Next(t, e))
    ensures ReachesAlone(s, Next(t, e))
  {
    hide Alone, Next;
    var steps :| OneAtATime(s, steps) && Run(s, steps) == t;
    RunExtends(s, steps, e);
    var longer := steps + [e];
    forall i | 0 <= i <= |longer|
      ensures Alone(Run(s, longer[..i]))
    {
      if i <= |steps| {
        assert longer[..i] == steps[..i];
      } else {
        assert longer[..i] == longer;
      }
    }
  }

  /** What the requests of this run share: the plugin of the request is the only one in change. */
  predicate Only(s: Sys, t: nat, task: Task) {
    s.tasks == map[t := task]
  }

  lemma OnlyIsAlone(s: Sys, t: nat, task: Task)
    requires Only(s, t, task)
    ensures Alone(s) && t in s.tasks && s.tasks[t] == task
  {
  }

  lemma NoneIsAlone(s: Sys)
    requires s.tasks == map[]
    ensures Alone(s)
  {
  }

  /** A request that begins alone and passes its guards and its audit. */
  lemma {:induction false} AuditedAlone(s: Sys, u: Sys, kind: Kind, name: string) returns (t: Sys)
    requires ReachesAlone(s, u) && u.tasks == map[] && Contains(u.slots, name)
    requires kind.Enable? ==> !IsLive(u.slots, name) && !EnableRefused(name, LoadedIds(u.slots))
    requires kind.Disable? ==> !DisableRefused(name, LoadedIds(u.slots)) && (u.devHeaders || Enabled(u.hub) != {name})
    ensures ReachesAlone(s, t) && Only(t, u.nextTask, Task(kind, name, Audited))
    ensures t == u.(tasks := t.tasks, nextTask := t.nextTask, log := t.log)
  {
    var a := u.nextTask;
    hide ReachesAlone, EnableRefused, DisableRefused, LoadedIds, IsLive, Contains, Enabled, CheckNext, Alone;
    t := Next(u, Begin(kind, name));
    OnlyIsAlone(t, a, Task(kind, name, Waiting));
    AloneNext(s, u, Begin(kind, name));
    CheckPasses(t, a);
    OnlyIsAlone(With(t, a, Checked), a, Task(kind, name, Checked));
    AloneNext(s, t, Check(a, true, true));
    t := With(t, a, Checked);
    AuditPasses(t, a);
    OnlyIsAlone(Next(t, Audit(a, true)), a, Task(kind, name, Audited));
    AloneNext(s, t, Audit(a, true));
    t := Next(t, Audit(a, true));
  }
}
