/** With every door open: exactly which steps close a pool under a request. */
module DoorClosings {
  import opened Registry
  import opened Lifecycle
  import opened LifecycleGuarantees
  import opened LifecycleShape
  import opened LifecycleDoors
  import opened DoorGuarantees

  /** What a step of a task closes. */
  function InnerClosings(s: Sys, e: Step): seq<Closing> {
    if e.Close? && e.t in s.tasks && (s.tasks[e.t].phase.Idle? || s.tasks[e.t].phase.TimedOut?)
    then [Closing(s.tasks[e.t].phase.pool, s.tasks[e.t].name)]
    else if e.Stop? && (At(s, e.t, Reverting) || At(s, e.t, Unflagged)) && s.tasks[e.t].kind.Enable?
    then ClosingOf(s.slots, s.tasks[e.t].name)
    else []
  }

  lemma InnerCloses(s: Sys, e: Step)
    ensures Next(s, e).closings == s.closings + InnerClosings(s, e)
  {
    if e.Close? || e.Stop? {
      hide IsLive, Stopped;
    } else {
      OthersCloseNoPool(s, e);
      hide Next;
    }
  }

  function WorldClosings(w: World, e: WorldStep): seq<Closing> {
    match e
    case Inner(s) => if Possible(w, s) then InnerClosings(w.sys, s) else []
    case Remove(u) => if u in w.doors && w.doors[u].Logged? then ClosingOf(w.sys.slots, w.doors[u].name) else []
    case Swap(_, _) => if Swaps(w, e) then LiveClosings(w.sys.slots) else []
    case _ => []
  }

  lemma WorldCloses(w: World, e: WorldStep)
    ensures WorldNext(w, e).sys.closings == w.sys.closings + WorldClosings(w, e)
  {
    if e.Inner? {
      InnerCloses(w.sys, e.e);
      hide Next, InnerClosings, UsesNext, OwnerNext;
    } else if e.Restart? {
      hide Boots, FreshPools, Owned;
    } else if Paper(e) {
      PaperMoves(w, e);
      hide WorldNext;
    } else {
      hide Registry.Removed, Consistent, FreshPools, Owned, LiveClosings, IsLive;
    }
  }

  /** Some request inside works on the pool. */
  predicate InUse(w: World, pool: nat) {
    exists r :: r in w.uses && w.uses[r] == pool
  }

  /** The step closes a pool that a request inside works on. */
  ghost predicate ClosesUnder(w: World, e: WorldStep) {
    exists k :: |w.sys.closings| <= k < |WorldNext(w, e).sys.closings| && InUse(w, WorldNext(w, e).sys.closings[k].pool)
  }

  predicate LiveInUse(w: World, name: string) {
    IsLive(w.sys.slots, name) && InUse(w, w.sys.slots[Position(w.sys.slots, name)].plugin.pool)
  }

  /** The end of a disable whose wait ran out, an enable that takes its plugin back, an uninstall, or
      a swap of generations, with a request on the pool. */
  predicate ClosesEarly(w: World, e: WorldStep) {
    match e
    case Inner(Close(t)) => t in w.sys.tasks && w.sys.tasks[t].phase.TimedOut? && InUse(w, w.sys.tasks[t].phase.pool)
    case Inner(Stop(t)) => At(w.sys, t, Reverting) && LiveInUse(w, w.sys.tasks[t].name)
    case Remove(u) => u in w.doors && w.doors[u].Logged? && LiveInUse(w, w.doors[u].name)
    case Swap(_, _) => Swaps(w, e) && exists x :: x in Routed(w.sys.slots) && InUse(w, x.0)
    case _ => false
  }

  lemma {:induction false} LiveClosingsAreRouted(slots: seq<Slot>, c: Closing)
    ensures c in LiveClosings(slots) <==> (c.pool, c.name) in Routed(slots)
  {
    if slots != [] {
      LiveClosingsAreRouted(slots[1..], c);
      RoutedRest(slots);
      if (c.pool, c.name) in Routed(slots) {
        var k :| 0 <= k < |slots| && slots[k].Live?
          && (c.pool, c.name) == (slots[k].plugin.pool, slots[k].plugin.info.id);
        assert k > 0 ==> slots[1..][k - 1] == slots[k];
      }
    }
  }

  /** Some pool the step closes is in use. */
  predicate SomeInUse(w: World, closed: seq<Closing>) {
    exists k :: 0 <= k < |closed| && InUse(w, closed[k].pool)
  }

  lemma ClosesUnderIsSome(w: World, e: WorldStep)
    ensures ClosesUnder(w, e) <==> SomeInUse(w, WorldClosings(w, e))
  {
    WorldCloses(w, e);
    var before, closed, after := w.sys.closings, WorldClosings(w, e), WorldNext(w, e).sys.closings;
    hide WorldNext, WorldClosings, InUse;
    if ClosesUnder(w, e) {
      var k :| |before| <= k < |after| && InUse(w, after[k].pool);
      assert after[k] == closed[k - |before|];
    }
    if SomeInUse(w, closed) {
      var k :| 0 <= k < |closed| && InUse(w, closed[k].pool);
      assert after[|before| + k] == closed[k];
    }
  }

  lemma SwapClosesUnderIff(w: World)
    ensures SomeInUse(w, LiveClosings(w.sys.slots)) <==> exists x :: x in Routed(w.sys.slots) && InUse(w, x.0)
  {
    hide InUse, Routed, LiveClosings;
    var closed := LiveClosings(w.sys.slots);
    if SomeInUse(w, closed) {
      var k :| 0 <= k < |closed| && InUse(w, closed[k].pool);
      LiveClosingsAreRouted(w.sys.slots, closed[k]);
    }
    if x :| x in Routed(w.sys.slots) && InUse(w, x.0) {
      LiveClosingsAreRouted(w.sys.slots, Closing(x.0, x.1));
      assert Closing(x.0, x.1) in closed;
    }
  }

  lemma OneClosesUnderIff(w: World, name: string)
    ensures SomeInUse(w, ClosingOf(w.sys.slots, name)) <==> LiveInUse(w, name)
  {
    hide InUse;
    if IsLive(w.sys.slots, name) {
      assert ClosingOf(w.sys.slots, name)[0].pool == w.sys.slots[Position(w.sys.slots, name)].plugin.pool;
    }
  }

  lemma InnerClosesUnderIff(w: World, e: Step)
    requires TasksSound(w.sys) && AllHeldOk(w) && Possible(w, e)
    ensures SomeInUse(w, InnerClosings(w.sys, e)) <==> ClosesEarly(w, Inner(e))
  {
    hide IsLive, LiveInUse, ClosingOf;
    if e.Stop? && e.t in w.sys.tasks {
      assert TaskSound(w.sys.tasks[e.t]);
      OneClosesUnderIff(w, w.sys.tasks[e.t].name);
      hide SomeInUse;
      assert !SomeInUse(w, []) by {
        NothingInUse(w);
      }
    } else if e.Close? && e.t in w.sys.tasks {
      assert HeldOk(w, w.sys.tasks[e.t]);
      if w.sys.tasks[e.t].phase.Idle? || w.sys.tasks[e.t].phase.TimedOut? {
        assert InnerClosings(w.sys, e)[0].pool == w.sys.tasks[e.t].phase.pool;
      }
    }
  }

  lemma NothingInUse(w: World)
    ensures !SomeInUse(w, [])
  {
  }

  /** Exactly when a pool closes under a request, with every door open. A disable whose wait succeeded
      never does it. */
  lemma ClosesUnderARequestIff(w: World, e: WorldStep)
    requires Sound(w)
    ensures ClosesUnder(w, e) <==> ClosesEarly(w, e)
  {
    SoundParts(w);
    ClosesUnderIsSome(w, e);
    NothingInUse(w);
    hide Sound, ClosesUnder, SomeInUse, LiveInUse, InnerClosings, ClosingOf, LiveClosings, InUse, TasksSound, AllHeldOk;
    if e.Inner? {
      if Possible(w, e.e) {
        InnerClosesUnderIff(w, e.e);
      } else {
        ImpossibleClosesNothing(w, e.e);
      }
    } else if e.Remove? && e.u in w.doors && w.doors[e.u].Logged? {
      OneClosesUnderIff(w, w.doors[e.u].name);
    } else if e.Swap? {
      SwapClosesUnderIff(w);
    }
  }

  lemma ImpossibleClosesNothing(w: World, e: Step)
    requires !Possible(w, e)
    ensures !ClosesEarly(w, Inner(e))
  {
  }

  /** The same over every run of everybody. */
  lemma {:induction false} PoolsCloseOnNobodyUnless(w: World, steps: seq<WorldStep>, i: nat)
    requires WorldInit(w) && i < |steps|
    ensures ClosesUnder(WorldRun(w, steps[..i]), steps[i]) <==> ClosesEarly(WorldRun(w, steps[..i]), steps[i])
  {
    hide *;
    WorldRunsAreSound(w, steps[..i]);
    ClosesUnderARequestIff(WorldRun(w, steps[..i]), steps[i]);
  }
}
