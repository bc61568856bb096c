/** The registry object: slots that are replaced in place, and the retired generations
    whose code stays mapped. */
module PluginRegistry {
  import opened Wrappers
  import opened RouteTemplates
  import opened Registry
  import opened RouteResolution
  import opened RouteServing

  class PluginRegistry {
    var plugins: seq<Slot>
    var retired: seq<Loaded>
    var closed: seq<Closing>   // the pools told to close, in order

    constructor (slots: seq<Slot>)
      ensures plugins == slots && retired == [] && closed == []
    {
      plugins, retired, closed := slots, [], [];
    }

    ghost predicate Valid()
      reads this
    {
      Consistent(plugins)
    }

    /** Resolve a request against the live routes: a capture-free route at once, otherwise
        the first templated route that matched. */
    method Find(verb: string, path: string) returns (r: RouteLookup)
      ensures r == Lookup(LiveEntries(plugins), verb, path)
      ensures Resolves(plugins, r, verb, path)
    {
      LookupResolves(plugins, verb, path);
      hide Resolves;
      var templated: Option<(Entry, Params)> := None;
      var i := 0;
      assert plugins[0..] == plugins;
      while i < |plugins|
        invariant 0 <= i <= |plugins|
        invariant Resolving(LiveEntries(plugins), LiveEntries(plugins[i..]), templated, verb, path)
      {
        LiveEntriesFrom(plugins, i);
        if plugins[i].Live? {
          var literal: Option<Route>;
          var p := plugins[i].plugin;
          literal, templated :=
            ScanRoutes(p, verb, path, templated, LiveEntries(plugins), LiveEntries(plugins[i + 1..]));
          if literal.Some? {
            return Found(p.info.id, literal.value, map[]);
          }
        }
        i := i + 1;
      }
      if templated.Some? {
        return Found(templated.value.0.owner, templated.value.0.route, templated.value.1);
      }
      return NotFound;
    }

    /** Install a freshly loaded plugin in place of its record; false when it was unknown. */
    method Install(p: Loaded) returns (known: bool)
      requires Valid() && Agrees(Live(p))
      modifies this`plugins
      ensures Valid() && plugins == Installed(old(plugins), p) && IsLive(plugins, p.info.id)
      ensures known == Contains(old(plugins), p.info.id)
      ensures known <==> exists k :: 0 <= k < |old(plugins)| && old(plugins)[k].Info().id == p.info.id
      ensures forall k :: 0 <= k < |old(plugins)| && old(plugins)[k].Info().id == p.info.id ==>
                plugins == old(plugins)[k := Live(p)]
      ensures !known ==> plugins == old(plugins) + [Live(p)]
      ensures Live(p) in plugins
      ensures forall r :: r in p.routes ==> Entry(p.info.id, r) in LiveEntries(plugins)
      ensures forall r, path :: r in p.routes && Match(r.path, path).Some? ==>
                Lookup(LiveEntries(plugins), r.verb, path).Found?
    {
      AtMostOne(plugins, p.info.id);
      InstalledConsistent(plugins, p);
      InstalledLookup(plugins, p, p.info.id);
      var k := Position(plugins, p.info.id);
      known := k < |plugins|;
      if known {
        plugins := plugins[k := Live(p)];
        assert plugins[k] == Live(p);
      } else {
        plugins := plugins + [Live(p)];
        assert plugins[|plugins| - 1] == Live(p);
      }
      InstalledAnswers(plugins, p);
      hide LiveEntries, Lookup, Match;
    }

    /** Stop routing for `id` and hand back its executable half. */
    method StopLive(id: string) returns (parts: Option<Loaded>)
      requires Valid()
      modifies this`plugins
      ensures Valid() && plugins == Stopped(old(plugins), id) && !IsLive(plugins, id)
      ensures Contains(plugins, id) == Contains(old(plugins), id)
      ensures parts.Some? == IsLive(old(plugins), id)
      ensures parts.Some? ==> Live(parts.value) in old(plugins) && parts.value.info.id == id
      ensures forall k :: 0 <= k < |old(plugins)| && old(plugins)[k].Info().id == id && old(plugins)[k].Live? ==>
                var p := old(plugins)[k].plugin;
                plugins == old(plugins)[k := Known(PluginInfo(id, p.info.version, false, false, 0, p.info.lastError),
                                                   p.library)]
      ensures parts.None? ==> plugins == old(plugins)
      ensures forall r :: Entry(id, r) !in LiveEntries(plugins)
    {
      AtMostOne(plugins, id);
      StoppedIsSilent(plugins, id);
      hide LiveEntries;
      StoppedConsistent(plugins, id);
      StoppedLookup(plugins, id, id);
      var k := Position(plugins, id);
      if k == |plugins| || plugins[k].Known? {
        return None;
      }
      var p := plugins[k].plugin;
      plugins := plugins[k := RecordOf(p)];
      return Some(p);
    }

    /** Record why a load attempt failed; never creates a slot and never changes what is live. */
    method RecordError(id: string, message: string)
      requires Valid()
      modifies this`plugins
      ensures Valid() && plugins == Errored(old(plugins), id, message)
      ensures forall other :: IsLive(plugins, other) == IsLive(old(plugins), other)
      ensures |plugins| == |old(plugins)|
      ensures forall k :: 0 <= k < |plugins| ==>
                var was, slot := old(plugins)[k], plugins[k];
                if was.Info().id != id then slot == was
                else if was.Live? then
                  slot == Live(was.plugin.(info := was.plugin.info.(lastError := Some(message))))
                else slot == Known(was.record.(lastError := Some(message), loaded := false), was.library)
    {
      AtMostOne(plugins, id);
      ErroredConsistent(plugins, id, message);
      forall other
        ensures IsLive(Errored(plugins, id, message), other) == IsLive(plugins, other)
      {
        ErroredLookup(plugins, id, message, other);
      }
      var k := Position(plugins, id);
      if k < |plugins| {
        plugins := plugins[k := WithError(plugins[k], message)];
      }
    }

    /** Remove a plugin; a loaded one is retired and its pool closed, a record is dropped. */
    method Uninstall(id: string) returns (known: bool)
      requires Valid()
      modifies this
      ensures Valid() && plugins == Removed(old(plugins), id) && known == Contains(old(plugins), id)
      ensures !Contains(plugins, id)
      ensures known <==> exists k :: 0 <= k < |old(plugins)| && old(plugins)[k].Info().id == id
      ensures !known ==> plugins == old(plugins) && retired == old(retired) && closed == old(closed)
      ensures forall k :: 0 <= k < |old(plugins)| && old(plugins)[k].Info().id == id ==>
                && plugins == old(plugins)[..k] + old(plugins)[k + 1..]
                && match old(plugins)[k]
                   case Live(p) => retired == old(retired) + [p] && closed == old(closed) + [Closing(p.pool, id)]
                   case Known(_, _) => retired == old(retired) && closed == old(closed)
      ensures forall r :: Entry(id, r) !in LiveEntries(plugins)
      ensures retired == old(retired) +
                         if IsLive(old(plugins), id) then [old(plugins)[Position(old(plugins), id)].plugin] else []
      ensures closed == old(closed) + ClosingOf(old(plugins), id)
    {
      RemovedConsistent(plugins, id);
      RemovedLookup(plugins, id, id);
      AtMostOne(plugins, id);
      RemovedIsSilent(plugins, id);
      hide LiveEntries;
      var k := Position(plugins, id);
      if k == |plugins| {
        return false;
      }
      var slot := plugins[k];
      plugins := plugins[..k] + plugins[k + 1..];
      match slot {
        case Live(p) =>
          closed := closed + [Closing(p.pool, p.info.id)];
          retired := retired + [p];
        case Known(_, _) =>
      }
      return true;
    }

    /** Swap in a fresh generation; the pool of every loaded plugin of the old one is closed and the
        plugin retired, in order. */
    method ReplaceAll(slots: seq<Slot>)
      requires Consistent(slots)
      modifies this
      ensures Valid() && plugins == slots && retired == old(retired) + LivePlugins(old(plugins))
      ensures closed == old(closed) + LiveClosings(old(plugins))
    {
      var taken := plugins;
      for i := 0 to |taken|
        invariant closed + LiveClosings(taken[i..]) == old(closed) + LiveClosings(old(plugins))
        invariant taken == old(plugins) && retired == old(retired)
      {
        assert taken[i..][1..] == taken[i + 1..];
        match taken[i] {
          case Live(p) => closed := closed + [Closing(p.pool, p.info.id)];
          case Known(_, _) =>
        }
      }
      assert taken[0..] == taken;
      for i := 0 to |taken|
        invariant closed == old(closed) + LiveClosings(old(plugins))
        invariant retired + LivePlugins(taken[i..]) == old(retired) + LivePlugins(old(plugins))
        invariant taken == old(plugins)
      {
        assert taken[i..][1..] == taken[i + 1..];
        match taken[i] {
          case Live(p) => retired := retired + [p];
          case Known(_, _) =>
        }
      }
      plugins := slots;
    }
  }

  /** With unique ids an id has one place at most. */
  lemma {:induction false} AtMostOne(slots: seq<Slot>, id: string)
    requires Consistent(slots)
    ensures forall k :: 0 <= k < |slots| && slots[k].Info().id == id ==> Position(slots, id) == k
    ensures Contains(slots, id) <==> exists k :: 0 <= k < |slots| && slots[k].Info().id == id
  {
    forall k | 0 <= k < |slots| && slots[k].Info().id == id
      ensures Position(slots, id) == k
    {
      PositionIs(slots, id, k);
    }
  }

  lemma {:induction false} InstalledAnswers(slots: seq<Slot>, p: Loaded)
    requires Live(p) in slots
    ensures forall r :: r in p.routes ==> Entry(p.info.id, r) in LiveEntries(slots)
    ensures forall r, path :: r in p.routes && Match(r.path, path).Some? ==>
              Lookup(LiveEntries(slots), r.verb, path).Found?
  {
    forall r | r in p.routes
      ensures Entry(p.info.id, r) in LiveEntries(slots)
    {
      LiveEntriesOfLive(slots, Entry(p.info.id, r));
    }
    forall r, path | r in p.routes && Match(r.path, path).Some?
      ensures Lookup(LiveEntries(slots), r.verb, path).Found?
    {
      LiveRoutesAnswer(slots, p, r, path);
    }
  }

  lemma StoppedIsSilent(slots: seq<Slot>, id: string)
    requires Consistent(slots)
    ensures forall r :: Entry(id, r) !in LiveEntries(Stopped(slots, id))
  {
    AtMostOne(slots, id);
    SilentUnlessLive(Stopped(slots, id), id, "", "");
  }

  lemma RemovedIsSilent(slots: seq<Slot>, id: string)
    requires Consistent(slots)
    ensures forall r :: Entry(id, r) !in LiveEntries(Removed(slots, id))
  {
    AtMostOne(slots, id);
    SilentUnlessLive(Removed(slots, id), id, "", "");
  }

  /** The lists read off the slots are read slot by slot, in order. */
  lemma {:induction false} ReadSlotBySlot(a: seq<Slot>, b: seq<Slot>)
    ensures LivePlugins(a + b) == LivePlugins(a) + LivePlugins(b)
    ensures LiveClosings(a + b) == LiveClosings(a) + LiveClosings(b)
    ensures LiveEntries(a + b) == LiveEntries(a) + LiveEntries(b)
  {
    hide *;
    LivePluginsSplit(a, b);
    LiveClosingsSplit(a, b);
    LiveEntriesSplit(a, b);
  }

  lemma {:induction false} LivePluginsSplit(a: seq<Slot>, b: seq<Slot>)
    ensures LivePlugins(a + b) == LivePlugins(a) + LivePlugins(b)
  {
    if a == [] {
      assert a + b == b;
    } else {
      LivePluginsSplit(a[1..], b);
      assert (a + b)[1..] == a[1..] + b;
    }
  }

  lemma {:induction false} LiveClosingsSplit(a: seq<Slot>, b: seq<Slot>)
    ensures LiveClosings(a + b) == LiveClosings(a) + LiveClosings(b)
  {
    if a == [] {
      assert a + b == b;
    } else {
      LiveClosingsSplit(a[1..], b);
      assert (a + b)[1..] == a[1..] + b;
    }
  }

  lemma {:induction false} LiveEntriesSplit(a: seq<Slot>, b: seq<Slot>)
    ensures LiveEntries(a + b) == LiveEntries(a) + LiveEntries(b)
  {
    hide Tagged;
    if a == [] {
      assert a + b == b;
    } else {
      LiveEntriesSplit(a[1..], b);
      assert (a + b)[1..] == a[1..] + b;
    }
  }

  /** And this is what one slot gives. */
  lemma {:induction false} OneSlotGives(slot: Slot)
    ensures LivePlugins([slot]) == match slot case Live(p) => [p] case Known(_, _) => []
    ensures LiveClosings([slot]) == match slot case Live(p) => [Closing(p.pool, p.info.id)] case Known(_, _) => []
    ensures LiveEntries([slot]) ==
              match slot
              case Live(p) => seq(|p.routes|, i requires 0 <= i < |p.routes| => Entry(p.info.id, p.routes[i]))
              case Known(_, _) => []
  {
    assert [slot][1..] == [];
    assert LivePlugins([]) == [] && LiveClosings([]) == [] && LiveEntries([]) == [];
  }

  lemma LiveEntriesFrom(slots: seq<Slot>, i: nat)
    requires i < |slots|
    ensures LiveEntries(slots[i..]) ==
            (if slots[i].Live? then Tagged(slots[i].plugin.info.id, slots[i].plugin.routes)
             + LiveEntries(slots[i + 1..])
             else LiveEntries(slots[i + 1..]))
  {
  }

  /** What the scan knows before the entries `rest`: no literal so far, and the first hit so far. */
  ghost predicate Resolving(all: seq<Entry>, rest: seq<Entry>, templated: Option<(Entry, Params)>,
                            verb: string, path: string)
  {
    && FirstLiteral(all, verb, path) == FirstLiteral(rest, verb, path)
    && FirstHit(all, verb, path) == (if templated.Some? then Some(templated.value.0) else FirstHit(rest, verb, path))
    && (templated.Some? ==> Match(templated.value.0.route.path, path) == Some(templated.value.1))
  }

  /** Scan one plugin's routes: return its first capture-free route that names the request,
      and remember the first templated match. */
  method ScanRoutes(p: Loaded, verb: string, path: string, templated0: Option<(Entry, Params)>, ghost all: seq<Entry>,
                    ghost tail: seq<Entry>)
    returns (literal: Option<Route>, templated: Option<(Entry, Params)>)
    requires Resolving(all, Tagged(p.info.id, p.routes) + tail, templated0, verb, path)
    ensures literal.Some? ==> FirstLiteral(all, verb, path) == Some(Entry(p.info.id, literal.value))
    ensures literal.None? ==> Resolving(all, tail, templated, verb, path)
  {
    templated := templated0;
    for k := 0 to |p.routes|
      invariant Resolving(all, Tagged(p.info.id, p.routes[k..]) + tail, templated, verb, path)
    {
      var r := p.routes[k];
      ghost var rest := Tagged(p.info.id, p.routes[k..]) + tail;
      assert rest[0] == Entry(p.info.id, r);
      assert rest[1..] == Tagged(p.info.id, p.routes[k + 1..]) + tail;
      if r.verb != verb {
        continue;
      }
      if '{' !in r.path && r.path == path {
        return Some(r), templated;
      }
      if templated.None? {
        var params := MatchPath(r.path, path);
        if params.Some? {
          templated := Some((Entry(p.info.id, r), params.value));
        }
      }
    }
    assert Tagged(p.info.id, p.routes[|p.routes|..]) + tail == tail;
    return None, templated;
  }
}
