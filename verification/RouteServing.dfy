/** Which route of which plugin answers, read off the slots themselves. */
module RouteServing {
  import opened Wrappers
  import opened RouteTemplates
  import opened Registry
  import opened RouteResolution

  /** The route at slot `i`, place `k` is live, of the verb, and takes the path. */
  predicate Takes(slots: seq<Slot>, i: int, k: int, verb: string, path: string) {
    && 0 <= i < |slots| && slots[i].Live? && 0 <= k < |slots[i].plugin.routes|
    && slots[i].plugin.routes[k].verb == verb && Match(slots[i].plugin.routes[k].path, path).Some?
  }

  /** It has no capture and is the path itself. */
  predicate IsThePath(slots: seq<Slot>, i: int, k: int, verb: string, path: string) {
    && 0 <= i < |slots| && slots[i].Live? && 0 <= k < |slots[i].plugin.routes|
    && slots[i].plugin.routes[k].verb == verb && slots[i].plugin.routes[k].path == path && '{' !in path
  }

  predicate Earlier(i: int, k: int, j: int, m: int) {
    i < j || (i == j && k < m)
  }

  ghost predicate FirstTaking(slots: seq<Slot>, i: int, k: int, verb: string, path: string) {
    Takes(slots, i, k, verb, path) && forall j, m :: Takes(slots, j, m, verb, path) ==> !Earlier(j, m, i, k)
  }

  ghost predicate FirstThePath(slots: seq<Slot>, i: int, k: int, verb: string, path: string) {
    IsThePath(slots, i, k, verb, path) && forall j, m :: IsThePath(slots, j, m, verb, path) ==> !Earlier(j, m, i, k)
  }

  ghost predicate SomeThePath(slots: seq<Slot>, verb: string, path: string) {
    exists i, k :: IsThePath(slots, i, k, verb, path)
  }

  /** The answer is the route at slot `i`, place `k`, with what its captures took. */
  predicate AnswersAt(slots: seq<Slot>, r: RouteLookup, i: int, k: int, verb: string, path: string) {
    && Takes(slots, i, k, verb, path)
    && r == Found(slots[i].plugin.info.id, slots[i].plugin.routes[k],
                  Match(slots[i].plugin.routes[k].path, path).value)
  }

  /** The first live route that is the path itself, or else the first that takes it, or else none. */
  ghost predicate Resolves(slots: seq<Slot>, r: RouteLookup, verb: string, path: string) {
    && (r.NotFound? <==> forall i, k :: !Takes(slots, i, k, verb, path))
    && (r.Found? ==> exists i, k ::
          && AnswersAt(slots, r, i, k, verb, path)
          && if SomeThePath(slots, verb, path) then FirstThePath(slots, i, k, verb, path)
             else FirstTaking(slots, i, k, verb, path))
  }

  // --- one plugin's routes ---

  lemma {:induction false} FirstHitTagged(owner: string, routes: seq<Route>, verb: string, path: string)
      returns (k: nat)
    requires FirstHit(Tagged(owner, routes), verb, path).Some?
    ensures k < |routes| && Hit(routes[k], verb, path)
    ensures FirstHit(Tagged(owner, routes), verb, path) == Some(Entry(owner, routes[k]))
    ensures forall m :: 0 <= m < k ==> !Hit(routes[m], verb, path)
  {
    hide Hit;
    if Hit(routes[0], verb, path) {
      k := 0;
    } else {
      assert Tagged(owner, routes)[1..] == Tagged(owner, routes[1..]);
      var j := FirstHitTagged(owner, routes[1..], verb, path);
      k := j + 1;
      assert forall m :: 1 <= m < k ==> routes[m] == routes[1..][m - 1];
    }
  }

  lemma {:induction false} FirstLiteralTagged(owner: string, routes: seq<Route>, verb: string, path: string)
    returns (k: nat)
    requires FirstLiteral(Tagged(owner, routes), verb, path).Some?
    ensures k < |routes| && Literal(routes[k], verb, path)
    ensures FirstLiteral(Tagged(owner, routes), verb, path) == Some(Entry(owner, routes[k]))
    ensures forall m :: 0 <= m < k ==> !Literal(routes[m], verb, path)
  {
    hide Literal;
    if Literal(routes[0], verb, path) {
      k := 0;
    } else {
      assert Tagged(owner, routes)[1..] == Tagged(owner, routes[1..]);
      var j := FirstLiteralTagged(owner, routes[1..], verb, path);
      k := j + 1;
      assert forall m :: 1 <= m < k ==> routes[m] == routes[1..][m - 1];
    }
  }

  // --- all of them ---

  lemma TakesIsHit(slots: seq<Slot>, i: int, k: int, verb: string, path: string)
    ensures Takes(slots, i, k, verb, path) <==>
            0 <= i < |slots| && slots[i].Live? && 0 <= k < |slots[i].plugin.routes|
            && Hit(slots[i].plugin.routes[k], verb, path)
    ensures IsThePath(slots, i, k, verb, path) <==>
            0 <= i < |slots| && slots[i].Live? && 0 <= k < |slots[i].plugin.routes|
            && Literal(slots[i].plugin.routes[k], verb, path)
  {
    hide Accepts;
  }

  lemma TakesInRest(slots: seq<Slot>, i: int, k: int, verb: string, path: string)
    requires slots != [] && i > 0
    ensures Takes(slots, i, k, verb, path) <==> Takes(slots[1..], i - 1, k, verb, path)
    ensures IsThePath(slots, i, k, verb, path) <==> IsThePath(slots[1..], i - 1, k, verb, path)
  {
    hide Match;
  }

  lemma {:induction false} FirstHitIsFirst(slots: seq<Slot>, verb: string, path: string) returns (i: nat, k: nat)
    requires FirstHit(LiveEntries(slots), verb, path).Some?
    ensures FirstTaking(slots, i, k, verb, path)
    ensures FirstHit(LiveEntries(slots), verb, path) ==
              Some(Entry(slots[i].plugin.info.id, slots[i].plugin.routes[k]))
  {
    var own := if slots[0].Live? then Tagged(slots[0].plugin.info.id, slots[0].plugin.routes) else [];
    FirstInConcat(own, LiveEntries(slots[1..]), verb, path);
    forall j, m
      ensures j > 0 ==> (Takes(slots, j, m, verb, path) <==> Takes(slots[1..], j - 1, m, verb, path))
      ensures j == 0 && Takes(slots, j, m, verb, path) ==>
                slots[0].Live? && 0 <= m < |slots[0].plugin.routes| && Hit(slots[0].plugin.routes[m], verb, path)
    {
      if j > 0 {
        TakesInRest(slots, j, m, verb, path);
      }
      TakesIsHit(slots, j, m, verb, path);
    }
    hide Takes, Hit;
    if FirstHit(own, verb, path).Some? {
      i := 0;
      k := FirstHitTagged(slots[0].plugin.info.id, slots[0].plugin.routes, verb, path);
      TakesIsHit(slots, 0, k, verb, path);
    } else {
      var j;
      j, k := FirstHitIsFirst(slots[1..], verb, path);
      i := j + 1;
      TakesInRest(slots, i, k, verb, path);
      assert slots[i] == slots[1..][j];
      forall m | Takes(slots, 0, m, verb, path)
        ensures false
      {
        NoFirstNoHit(slots[0].plugin.info.id, slots[0].plugin.routes, verb, path, m);
      }
    }
  }

  lemma {:induction false} NoFirstNoHit(owner: string, routes: seq<Route>, verb: string, path: string, m: nat)
    requires m < |routes|
    ensures Hit(routes[m], verb, path) ==> FirstHit(Tagged(owner, routes), verb, path).Some?
    ensures Literal(routes[m], verb, path) ==> FirstLiteral(Tagged(owner, routes), verb, path).Some?
  {
    FirstIsThere(Tagged(owner, routes), verb, path);
    assert Tagged(owner, routes)[m].route == routes[m] && Tagged(owner, routes)[m] in Tagged(owner, routes);
    hide Hit, Literal;
  }

  lemma {:induction false} FirstLiteralIsFirst(slots: seq<Slot>, verb: string, path: string) returns (i: nat, k: nat)
    requires FirstLiteral(LiveEntries(slots), verb, path).Some?
    ensures FirstThePath(slots, i, k, verb, path)
    ensures FirstLiteral(LiveEntries(slots), verb, path) ==
              Some(Entry(slots[i].plugin.info.id, slots[i].plugin.routes[k]))
  {
    var own := if slots[0].Live? then Tagged(slots[0].plugin.info.id, slots[0].plugin.routes) else [];
    FirstInConcat(own, LiveEntries(slots[1..]), verb, path);
    forall j, m
      ensures j > 0 ==> (IsThePath(slots, j, m, verb, path) <==> IsThePath(slots[1..], j - 1, m, verb, path))
      ensures j == 0 && IsThePath(slots, j, m, verb, path) ==>
                slots[0].Live? && 0 <= m < |slots[0].plugin.routes| && Literal(slots[0].plugin.routes[m], verb, path)
    {
      if j > 0 {
        TakesInRest(slots, j, m, verb, path);
      }
      TakesIsHit(slots, j, m, verb, path);
    }
    hide IsThePath, Literal;
    if FirstLiteral(own, verb, path).Some? {
      i := 0;
      k := FirstLiteralTagged(slots[0].plugin.info.id, slots[0].plugin.routes, verb, path);
      TakesIsHit(slots, 0, k, verb, path);
    } else {
      var j;
      j, k := FirstLiteralIsFirst(slots[1..], verb, path);
      i := j + 1;
      TakesInRest(slots, i, k, verb, path);
      assert slots[i] == slots[1..][j];
      forall m | IsThePath(slots, 0, m, verb, path)
        ensures false
      {
        NoFirstNoHit(slots[0].plugin.info.id, slots[0].plugin.routes, verb, path, m);
      }
    }
  }

  lemma {:induction false} TakingIsFound(slots: seq<Slot>, i: int, k: int, verb: string, path: string)
    ensures Takes(slots, i, k, verb, path) ==> FirstHit(LiveEntries(slots), verb, path).Some?
    ensures IsThePath(slots, i, k, verb, path) ==> FirstLiteral(LiveEntries(slots), verb, path).Some?
  {
    TakesIsHit(slots, i, k, verb, path);
    FirstIsThere(LiveEntries(slots), verb, path);
    if 0 <= i < |slots| && slots[i].Live? && 0 <= k < |slots[i].plugin.routes| {
      LiveEntriesOfLive(slots, Entry(slots[i].plugin.info.id, slots[i].plugin.routes[k]));
    }
    hide Hit, Literal, Takes, IsThePath, LiveEntries;
  }

  lemma PathTakesItself(slots: seq<Slot>, i: int, k: int, verb: string, path: string)
    requires IsThePath(slots, i, k, verb, path)
    ensures Takes(slots, i, k, verb, path) && Match(slots[i].plugin.routes[k].path, path) == Some(map[])
  {
    LiteralAccepts(path, path);
  }

  /** Resolution over the registry's slots. */
  lemma {:induction false} LookupResolves(slots: seq<Slot>, verb: string, path: string)
    ensures Resolves(slots, Lookup(LiveEntries(slots), verb, path), verb, path)
  {
    var r := Lookup(LiveEntries(slots), verb, path);
    forall i, k
      ensures Takes(slots, i, k, verb, path) ==> FirstHit(LiveEntries(slots), verb, path).Some?
      ensures IsThePath(slots, i, k, verb, path) ==> FirstLiteral(LiveEntries(slots), verb, path).Some?
    {
      TakingIsFound(slots, i, k, verb, path);
    }
    hide LiveEntries, Takes, IsThePath, Match;
    if FirstLiteral(LiveEntries(slots), verb, path).Some? {
      var i, k := FirstLiteralIsFirst(slots, verb, path);
      PathTakesItself(slots, i, k, verb, path);
      assert AnswersAt(slots, r, i, k, verb, path);
    } else if FirstHit(LiveEntries(slots), verb, path).Some? {
      var i, k := FirstHitIsFirst(slots, verb, path);
      CapturesAreTheMatch(slots[i].plugin.routes[k].path, path);
      assert Match(slots[i].plugin.routes[k].path, path).Some? by {
        assert Takes(slots, i, k, verb, path);
        TakesMatches(slots, i, k, verb, path);
      }
      assert AnswersAt(slots, r, i, k, verb, path);
    }
  }

  lemma TakesMatches(slots: seq<Slot>, i: int, k: int, verb: string, path: string)
    requires Takes(slots, i, k, verb, path)
    ensures 0 <= i < |slots| && slots[i].Live? && 0 <= k < |slots[i].plugin.routes|
    ensures Match(slots[i].plugin.routes[k].path, path).Some?
  {
  }

  lemma CapturesAreTheMatch(template: string, path: string)
    ensures Match(template, path).Some? ==> CapturesOf(template, path) == Match(template, path).value
  {
  }

  // --- what installing and stopping does to the answers ---

  /** Every route of a plugin that is in a live slot is answered, by that plugin or another. */
  lemma {:induction false} LiveRoutesAnswer(slots: seq<Slot>, p: Loaded, r: Route, path: string)
    requires Live(p) in slots && r in p.routes && Match(r.path, path).Some?
    ensures Entry(p.info.id, r) in LiveEntries(slots)
    ensures Lookup(LiveEntries(slots), r.verb, path).Found?
  {
    LiveEntriesOfLive(slots, Entry(p.info.id, r));
    LookupIsMatch(LiveEntries(slots), r.verb, path);
    hide LiveEntries, Lookup, Match;
  }

  /** A plugin without a live slot answers nothing. */
  lemma {:induction false} SilentUnlessLive(slots: seq<Slot>, id: string, verb: string, path: string)
    requires forall i :: 0 <= i < |slots| && slots[i].Live? ==> slots[i].plugin.info.id != id
    ensures forall r :: Entry(id, r) !in LiveEntries(slots)
    ensures Lookup(LiveEntries(slots), verb, path).Found? ==> Lookup(LiveEntries(slots), verb, path).owner != id
  {
    forall r
      ensures Entry(id, r) !in LiveEntries(slots)
    {
      LiveEntriesOfLive(slots, Entry(id, r));
    }
    LookupIsMatch(LiveEntries(slots), verb, path);
    hide LiveEntries, Lookup, Match;
  }
}
