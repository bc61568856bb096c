/** The operator's changes, one at a time: enable, disable, uninstall, the choice of a set, and
    reload. Each is the whole request, with the points at which it may fail as parameters. */
module Governance {
  import opened Wrappers
  import opened LifecycleRules
  import opened IdentityHub

  datatype Server = Server(
    flags: map<string, bool>,  // the provisioned plugins and their flag
    disk: set<string>,         // the plugins whose library is there
    live: set<string>,         // the loaded plugins
    known: set<string>,        // the ids with a slot
    providers: set<string>,    // the plugins that register a provider when they start
    hub: Hub, devHeaders: bool)

  predicate Flagged(s: Server, id: string) {
    id in s.flags && s.flags[id]
  }

  /** What a fresh generation loads. */
  function Fresh(s: Server): set<string> {
    set id | id in s.disk && Flagged(s, id)
  }

  // --- the choice of a set ---

  datatype ChoiceError = NothingProvisioned | UnknownPlugin | RequiredOff | DependencyOff

  function ApplyChoice(flags: map<string, bool>, chosen: seq<string>): Result<map<string, bool>, ChoiceError> {
    if flags == map[] then Err(NothingProvisioned)
    else if exists c :: c in chosen && c !in flags then Err(UnknownPlugin)
    else if exists r :: r in REQUIRED_PLUGINS && r in flags && r !in chosen then Err(RequiredOff)
    else if exists d :: d in PLUGIN_DEPENDENCIES && d.0 in chosen && d.1 !in chosen then Err(DependencyOff)
    else Ok(map id | id in flags :: id in chosen)
  }

  function ChosenSet(flags: map<string, bool>): set<string> {
    set id | id in flags && flags[id]
  }

  /** A choice is written exactly when it is a closed set of provisioned plugins that holds every
      required one; then the flags say exactly the chosen set. */
  lemma ChoiceIsExact(flags: map<string, bool>, chosen: seq<string>)
    ensures ApplyChoice(flags, chosen).Ok? <==>
            && flags != map[]
            && (forall c :: c in chosen ==> c in flags)
            && (forall r :: r in REQUIRED_PLUGINS && r in flags ==> r in chosen)
            && Closed(set c | c in chosen)
    ensures ApplyChoice(flags, chosen).Ok? ==>
              var after := ApplyChoice(flags, chosen).value;
              after.Keys == flags.Keys && ChosenSet(after) == set c | c in chosen
  {
  }

  /** A refusal says what is wrong, the first of these that is. */
  lemma ChoiceRefusalsAre(flags: map<string, bool>, chosen: seq<string>)
    ensures var r := ApplyChoice(flags, chosen);
            var unknown, required := exists c :: c in chosen && c !in flags,
                                     exists name :: name in ["auth", "membership"] && name in flags && name !in chosen;
            && (r == Err(NothingProvisioned) <==> flags.Keys == {})
            && (r == Err(UnknownPlugin) <==> flags.Keys != {} && unknown)
            && (r == Err(RequiredOff) <==> flags.Keys != {} && !unknown && required)
            && (r == Err(DependencyOff) <==>
                  flags.Keys != {} && !unknown && !required && "store" in chosen && "stripe" !in chosen)
  {
    assert flags.Keys == {} <==> flags == map[];
    assert REQUIRED_PLUGINS == ["auth", "membership"];
    assert ("store", "stripe") in PLUGIN_DEPENDENCIES;
  }

  // --- the requests ---

  datatype Op =
    | Enable(name: string, libraryThere: bool, audited: bool, loads: bool, registers: bool, flagWritten: bool)
    | Disable(name: string, audited: bool, flagWritten: bool)
    | Choose(chosen: seq<string>, audited: bool, committed: bool, built: bool, started: set<string>)
    | Reload(built: bool, started: set<string>, audited: bool)

  function EnableOp(s: Server, e: Op): Server
    requires e.Enable?
  {
    if e.name !in s.known || e.name in s.live || EnableRefused(e.name, s.live) || !e.libraryThere || !e.audited then s
    else
      var s' := if e.registers && e.name in s.providers then s.(hub := Registered(s.hub, e.name, 0)) else s;
      if !e.loads then s'
      else if e.flagWritten then
        s'.(live := s.live + {e.name}, hub := Switched(s'.hub, e.name, true),
            flags := if e.name in s.flags then s.flags[e.name := true] else s.flags)
      else s'.(hub := Switched(s'.hub, e.name, false))
  }

  predicate DisableAllowed(s: Server, name: string) {
    name in s.known && !DisableRefused(name, s.live) && (s.devHeaders || Enabled(s.hub) != {name})
  }

  function DisableOp(s: Server, e: Op): Server
    requires e.Disable?
  {
    if !DisableAllowed(s, e.name) || !e.audited || !e.flagWritten then s
    else s.(live := s.live - {e.name}, hub := Switched(s.hub, e.name, false),
            flags := if e.name in s.flags then s.flags[e.name := false] else s.flags)
  }

  /** Starting plugins registers their providers, whether or not the generation is adopted. */
  function Starting(s: Server, started: set<string>): Server {
    s.(hub := s.hub.(providers := s.hub.providers + map id | id in started :: 0))
  }

  function Adopted(s: Server): Server {
    var started := Starting(s, Fresh(s) * s.providers);
    started.(live := Fresh(s), known := s.disk, hub := Retained(started.hub, s.disk))
  }

  function ChooseOp(s: Server, e: Op): Server
    requires e.Choose?
  {
    var choice := ApplyChoice(s.flags, e.chosen);
    if !e.audited || choice.Err? || !e.committed then s
    else
      var s' := s.(flags := choice.value);
      if e.built then Adopted(s') else Starting(s', e.started)
  }

  function ReloadOp(s: Server, e: Op): Server
    requires e.Reload?
  {
    if e.built && e.audited then Adopted(s) else Starting(s, e.started)
  }

  function Do(s: Server, e: Op): Server {
    match e
    case Enable(_, _, _, _, _, _) => EnableOp(s, e)
    case Disable(_, _, _) => DisableOp(s, e)
    case Choose(_, _, _, _, _) => ChooseOp(s, e)
    case Reload(_, _, _) => ReloadOp(s, e)
  }

  function DoAll(s: Server, ops: seq<Op>): Server {
    if ops == [] then s else Do(DoAll(s, ops[..|ops| - 1]), ops[|ops| - 1])
  }

  // --- what serial requests keep ---

  /** Every provisioned plugin is on disk, the flags say what is loaded, and the rules hold. */
  predicate Governed(s: Server) {
    && s.disk == s.flags.Keys && s.known == s.disk
    && s.live == Fresh(s) && Closed(s.live)
    && forall r :: r in REQUIRED_PLUGINS && r in s.disk ==> r in s.live
  }

  /** A written choice whose generation could not be built leaves the flags ahead of what is loaded. */
  predicate Adopts(e: Op) {
    e.Choose? && e.committed ==> e.built
  }

  lemma EnableKeepsGoverned(s: Server, e: Op)
    requires Governed(s) && e.Enable?
    ensures Governed(EnableOp(s, e))
  {
  }

  lemma DisableKeepsGoverned(s: Server, e: Op)
    requires Governed(s) && e.Disable?
    ensures Governed(DisableOp(s, e))
  {
  }

  lemma ChooseKeepsGoverned(s: Server, e: Op)
    requires Governed(s) && e.Choose? && Adopts(e)
    ensures Governed(ChooseOp(s, e))
  {
  }

  lemma ReloadKeepsGoverned(s: Server, e: Op)
    requires Governed(s) && e.Reload?
    ensures Governed(ReloadOp(s, e))
  {
  }

  /** Over every serial run of enables, disables, choices and reloads, with failures anywhere but
      between a written choice and its adoption: the loaded set is closed under the dependencies,
      it is what the flags say, and every required plugin stays loaded. */
  lemma {:induction false} SerialRunsStayGoverned(s: Server, ops: seq<Op>)
    requires Governed(s) && forall e :: e in ops ==> Adopts(e)
    ensures Governed(DoAll(s, ops))
  {
    if ops != [] {
      var n := |ops| - 1;
      SerialRunsStayGoverned(s, ops[..n]);
      var t := DoAll(s, ops[..n]);
      hide Governed, DoAll, EnableOp, DisableOp, ChooseOp, ReloadOp;
      match ops[n] {
        case Enable(_, _, _, _, _, _) => EnableKeepsGoverned(t, ops[n]);
        case Disable(_, _, _) => DisableKeepsGoverned(t, ops[n]);
        case Choose(_, _, _, _, _) => ChooseKeepsGoverned(t, ops[n]);
        case Reload(_, _, _) => ReloadKeepsGoverned(t, ops[n]);
      }
      assert DoAll(s, ops) == Do(t, ops[n]) by {
        DoAllStep(s, ops);
      }
    }
  }

  lemma {:induction false} DoAllStep(s: Server, ops: seq<Op>)
    requires ops != []
    ensures DoAll(s, ops) == Do(DoAll(s, ops[..|ops| - 1]), ops[|ops| - 1])
  {
  }

  // --- a written choice that was not adopted ---

  /** An allowed disable leaves the flags closed exactly when no flagged plugin needs this one.
      The guard asks about loaded plugins, which is the same question only while the flags say
      what is loaded. */
  lemma DisableKeepsFlagsClosed(s: Server, e: Op)
    requires e.Disable? && DisableAllowed(s, e.name) && e.audited && e.flagWritten
    requires s.disk == s.flags.Keys && Closed(Fresh(s)) && e.name in Fresh(s)
    ensures Closed(Fresh(DisableOp(s, e))) <==>
              !exists d :: d in PLUGIN_DEPENDENCIES && d.1 == e.name && d.0 in Fresh(s)
  {
  }

  /** From every governed server with stripe loaded and store off: a choice that adds store is
      written but not adopted; disabling stripe is then allowed; and the next reload loads store
      without the plugin it needs. */
  lemma {:induction false} UnadoptedChoiceBreaksClosure(s: Server, chosen: seq<string>)
    requires Governed(s) && "stripe" in s.live && "store" in s.disk && "store" !in s.live
    requires (set c | c in chosen) == s.live + {"store"}
    requires s.devHeaders || Enabled(s.hub) != {"stripe"}
    ensures var t := Do(Do(Do(s, Choose(chosen, true, true, false, {})), Disable("stripe", true, true)),
                        Reload(true, {}, true));
            "store" in t.live && "stripe" !in t.live && !Closed(t.live)
  {
    ChoiceIsExact(s.flags, chosen);
    assert forall c :: c in chosen <==> c in (set c | c in chosen);
    assert "store" in chosen && "stripe" in chosen;
    assert ("store", "stripe") in PLUGIN_DEPENDENCIES;
    assert forall c :: c in chosen ==> c in s.live + {"store"};
    assert forall r :: r in REQUIRED_PLUGINS && r in s.flags ==> r in chosen;
    assert ApplyChoice(s.flags, chosen).Ok?;
    var s1 := Do(s, Choose(chosen, true, true, false, {}));
    assert s1.live == s.live && s1.known == s.known && Enabled(s1.hub) == Enabled(s.hub);
    assert DisableAllowed(s1, "stripe");
    var s2 := Do(s1, Disable("stripe", true, true));
    assert "store" in Fresh(s2) && "stripe" !in Fresh(s2);
  }

  // --- the last way to authenticate ---

  /** An enable whose library loads and whose flag write fails: the load is taken back. */
  predicate Reverts(s: Server, e: Op) {
    && e.Enable? && e.name in s.known && e.name !in s.live && !EnableRefused(e.name, s.live)
    && e.libraryThere && e.audited && e.loads && !e.flagWritten
  }

  /** A disable that gets past its guards and its writes. */
  predicate Disables(s: Server, e: Op) {
    e.Disable? && DisableAllowed(s, e.name) && e.audited && e.flagWritten
  }

  lemma EnableToProviders(s: Server, e: Op)
    requires e.Enable? && Enabled(s.hub) != {}
    ensures Enabled(EnableOp(s, e).hub) == {} <==> Reverts(s, e) && Enabled(s.hub) == {e.name}
  {
    var registered := if e.registers && e.name in s.providers then Registered(s.hub, e.name, 0) else s.hub;
    assert Enabled(registered) == Enabled(s.hub) || Enabled(registered) == Enabled(s.hub) + {e.name};
    ChangesToEnabled(registered, e.name, 0, {});
    hide Enabled, EnableRefused, Registered, Switched;
  }

  /** A generation that has no provider: none of those that answer has its library on disk any more,
      and every plugin that starts one was switched off. */
  predicate Providerless(s: Server) {
    Enabled(s.hub) !! s.disk && Fresh(s) * s.providers <= s.hub.disabled
  }

  lemma AdoptedProviders(s: Server)
    ensures Enabled(Adopted(s).hub) == {} <==> Providerless(s)
  {
    var start := Fresh(s) * s.providers;
    var hub := Starting(s, start).hub;
    assert Enabled(hub) == Enabled(s.hub) + (start - s.hub.disabled);
    ChangesToEnabled(hub, "", 0, s.disk);
    var kept, begun := Enabled(s.hub) * s.disk, start - s.hub.disabled;
    assert Enabled(Adopted(s).hub) == kept + begun;
    assert kept <= kept + begun && begun <= kept + begun;
    if begun == {} {
      forall id | id in start
        ensures id in s.hub.disabled
      {
        assert id !in begun;
      }
    }
  }

  lemma StartingProviders(s: Server, started: set<string>)
    ensures Enabled(s.hub) <= Enabled(Starting(s, started).hub)
  {
  }

  /** The request swaps in a generation without a provider. */
  predicate AdoptsProviderless(s: Server, e: Op) {
    || (e.Reload? && e.built && e.audited && Providerless(s))
    || (e.Choose? && e.audited && e.committed && e.built && ApplyChoice(s.flags, e.chosen).Ok?
        && Providerless(s.(flags := ApplyChoice(s.flags, e.chosen).value)))
  }

  /** Over every enable, disable, choice and reload, with failures anywhere: the last provider goes
      exactly when an enable of its plugin is taken back, when with dev headers on its plugin is
      disabled, or when a generation without one is swapped in. */
  lemma LastProviderGoesIff(s: Server, e: Op)
    requires Enabled(s.hub) != {}
    ensures Enabled(Do(s, e).hub) == {} <==>
            ((Reverts(s, e) || Disables(s, e)) && Enabled(s.hub) == {e.name}) || AdoptsProviderless(s, e)
    ensures Disables(s, e) && Enabled(s.hub) == {e.name} ==> s.devHeaders
  {
    match e {
      case Enable(_, _, _, _, _, _) =>
        EnableToProviders(s, e);
      case Disable(_, _, _) =>
        ChangesToEnabled(s.hub, e.name, 0, {});
        hide Enabled;
      case Choose(_, _, _, _, _) =>
        ChooseToProviders(s, e);
      case Reload(_, _, _) =>
        AdoptedProviders(s);
        StartingProviders(s, e.started);
        hide Enabled, Providerless;
    }
  }

  lemma ChooseToProviders(s: Server, e: Op)
    requires e.Choose? && Enabled(s.hub) != {}
    ensures Enabled(ChooseOp(s, e).hub) == {} <==> AdoptsProviderless(s, e)
  {
    var choice := ApplyChoice(s.flags, e.chosen);
    if choice.Ok? {
      AdoptedProviders(s.(flags := choice.value));
      StartingProviders(s.(flags := choice.value), e.started);
    }
    hide Enabled, Adopted, Starting, ApplyChoice, Providerless;
  }

  function UninstallOp(s: Server, name: string, audited: bool): Server {
    if (!s.devHeaders && Enabled(s.hub) == {name}) || name !in s.known || !audited then s
    else s.(live := s.live - {name}, known := s.known - {name}, hub := Removed(s.hub, name))
  }

  /** An uninstall takes the last provider exactly when it is the plugin's own and dev headers are on. */
  lemma UninstallKeepsAProvider(s: Server, name: string, audited: bool)
    requires Enabled(s.hub) != {}
    ensures Enabled(UninstallOp(s, name, audited).hub) == {} <==>
            s.devHeaders && Enabled(s.hub) == {name} && name in s.known && audited
  {
    ChangesToEnabled(s.hub, name, 0, {});
    hide Enabled, Removed;
  }

  /** The guard counts every registered provider; the ones that can answer for a loaded plugin are
      gone after an allowed disable exactly when there was no other of those. */
  lemma DisableKeepsALiveProvider(s: Server, e: Op)
    requires e.Disable? && DisableAllowed(s, e.name) && e.audited && e.flagWritten
    ensures var s' := DisableOp(s, e); Enabled(s'.hub) * s'.live == {} <==> Enabled(s.hub) * s.live <= {e.name}
  {
  }

  /** A choice that drops a plugin does not silence its provider: the plugin is unloaded, yet its
      provider still counts as enabled, so the guard lets the last loaded one be disabled. */
  lemma {:induction false} ChoiceLeavesAProvider(s: Server, chosen: seq<string>, dropped: string, last: string)
    requires Governed(s) && !s.devHeaders && Enabled(s.hub) == {dropped, last} && dropped != last
    requires {dropped, last} <= s.live && last in chosen && dropped !in chosen && ApplyChoice(s.flags, chosen).Ok?
    requires !DisableRefused(last, set c | c in chosen)
    requires s.providers * (set c | c in chosen) <= {last}
    ensures var t := Do(s, Choose(chosen, true, true, true, {}));
            && dropped !in t.live && dropped in Enabled(t.hub)
            && var u := Do(t, Disable(last, true, true)); Enabled(u.hub) == {dropped} && Enabled(u.hub) * u.live == {}
  {
    ChoiceIsExact(s.flags, chosen);
    var t := Do(s, Choose(chosen, true, true, true, {}));
    var s' := s.(flags := ApplyChoice(s.flags, chosen).value);
    assert t.live == Fresh(s') == set c | c in chosen;
    assert Fresh(s') * s.providers <= {last};
    assert Enabled(t.hub) == {dropped, last};
    assert dropped in Enabled(t.hub) && DisableAllowed(t, last);
    ChangesToEnabled(t.hub, last, 0, {});
    assert {dropped, last} - {last} == {dropped};
  }

  /** After that, one enable of the dropped plugin whose flag write fails leaves no provider at all. */
  lemma {:induction false} ChoiceThenRevertLeavesNone(s: Server, chosen: seq<string>, dropped: string, last: string,
                                                      registers: bool)
    requires Governed(s) && !s.devHeaders && Enabled(s.hub) == {dropped, last} && dropped != last
    requires {dropped, last} <= s.live && last in chosen && dropped !in chosen && ApplyChoice(s.flags, chosen).Ok?
    requires !DisableRefused(last, set c | c in chosen) && s.providers * (set c | c in chosen) <= {last}
    requires !EnableRefused(dropped, (set c | c in chosen) - {last})
    ensures var t := Do(Do(s, Choose(chosen, true, true, true, {})), Disable(last, true, true));
            Enabled(Do(t, Enable(dropped, true, true, true, registers, false)).hub) == {}
  {
    ChoiceLeavesAProvider(s, chosen, dropped, last);
    ChoiceIsExact(s.flags, chosen);
    var u := Do(s, Choose(chosen, true, true, true, {}));
    var t := Do(u, Disable(last, true, true));
    assert u.live == (set c | c in chosen) && t.live == u.live - {last};
    assert dropped in t.known && dropped !in t.live;
    hide ApplyChoice, Governed, DisableRefused, DisableOp, ChooseOp, EnableOp, Enabled;
    EnableToProviders(t, Enable(dropped, true, true, true, registers, false));
  }

  /** A provider that a disable switched off stays off when a choice brings its plugin back. */
  lemma {:induction false} ChoiceDoesNotSwitchOn(s: Server, chosen: seq<string>, name: string)
    requires Governed(s) && name in s.disk && name in s.hub.disabled && name in chosen
             && ApplyChoice(s.flags, chosen).Ok?
    ensures var t := Do(s, Choose(chosen, true, true, true, {})); name in t.live && name !in Enabled(t.hub)
    ensures var t := Do(s, Choose(chosen, true, true, true, {}));
            forall there, audited, loads, registers, written ::
              Do(t, Enable(name, there, audited, loads, registers, written)) == t
  {
  }
}
