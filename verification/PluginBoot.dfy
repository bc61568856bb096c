/** Building the registry at start: one pass over the staged libraries, in the order of their files. */
module PluginBoot {
  import opened Wrappers
  import opened Registry
  import opened RouteTemplates
  import opened RouteResolution
  import opened Lifecycle

  datatype PluginRow = PluginRow(enabled: bool, uninstalled: bool, version: string)

  /** A staged library: the id its file name gives, what opening it shows, and whether its pool, its
      start and its migrations succeed. */
  datatype Library = Library(
    fileId: Option<string>, file: string, opens: bool, untrusted: bool,
    plugin: Loaded, granted: seq<string>, starts: bool)

  datatype BootError = NotOpened | InvalidPluginId | ReservedId | DuplicateId | NotStarted | BadDeclaration

  const RESERVED_IDS: seq<string> := ["plugins", "events", "audit", "core", "sdk", "auth", "membership"]

  type Rows = map<string, PluginRow>

  predicate Off(rows: Rows, id: string) {
    id in rows && !rows[id].enabled && !rows[id].uninstalled
  }

  predicate Wanted(rows: Rows, id: string) {
    id in rows ==> rows[id].enabled && !rows[id].uninstalled
  }

  /** The file name alone says that the plugin is disabled: the library is not even opened. */
  predicate Skipped(x: Library, rows: Rows) {
    x.fileId.Some? && Off(rows, x.fileId.value)
  }

  function Record(rows: Rows, id: string, file: string): Slot
    requires id in rows
  {
    Known(PluginInfo(id, rows[id].version, false, false, 0, None), file)
  }

  function Serving(p: Loaded): Loaded {
    p.(info := p.info.(enabled := true, loaded := true, routes := |p.routes|, lastError := None))
  }

  // --- one library ---

  datatype Booted = Booted(slots: seq<Slot>, ids: set<string>, keys: set<RouteKey>)

  function LoadOne(b: Booted, x: Library, rows: Rows): Result<Booted, BootError> {
    var id := x.plugin.info.id;
    if Skipped(x, rows) then
      Ok(b.(slots := b.slots + [Record(rows, x.fileId.value, x.file)], ids := b.ids + {x.fileId.value}))
    else if !x.opens then Err(NotOpened)
    else if !ValidId(id) then Err(InvalidPluginId)
    else if x.untrusted && id in RESERVED_IDS then Err(ReservedId)
    else if id in b.ids then Err(DuplicateId)
    else
      var b' := b.(ids := b.ids + {id});
      if id in rows && rows[id].uninstalled then Ok(b')
      else if Off(rows, id) then Ok(b'.(slots := b.slots + [Record(rows, id, x.file)]))
      else if !x.starts then Err(NotStarted)
      else if !Acceptable(id, x.granted, x.plugin.routes, b.keys) then Err(BadDeclaration)
      else Ok(b'.(slots := b.slots + [Live(Serving(x.plugin))], keys := b.keys + KeysOf(x.plugin.routes)))
  }

  /** The first library that fails fails the boot. */
  function LoadAll(libraries: seq<Library>, rows: Rows): Result<Booted, BootError> {
    if libraries == [] then Ok(Booted([], {}, {}))
    else
      var before := LoadAll(libraries[..|libraries| - 1], rows);
      if before.Err? then before else LoadOne(before.value, libraries[|libraries| - 1], rows)
  }

  lemma {:induction false} FailureStays(libraries: seq<Library>, rows: Rows, i: nat)
    requires i <= |libraries| && LoadAll(libraries[..i], rows).Err?
    ensures LoadAll(libraries, rows) == LoadAll(libraries[..i], rows)
  {
    if i == |libraries| {
      assert libraries[..i] == libraries;
    } else {
      var n := |libraries| - 1;
      assert libraries[..n][..i] == libraries[..i];
      FailureStays(libraries[..n], rows, i);
    }
  }

  /** The pass over the libraries, with the keys seen so far carried from one to the next. */
  method BuildRegistry(libraries: seq<Library>, rows: Rows) returns (r: Result<seq<Slot>, BootError>)
    ensures match LoadAll(libraries, rows)
            case Ok(b) => r == Ok(b.slots)
            case Err(error) => r == Err(error)
  {
    var b := Booted([], {}, {});
    hide LoadOne;
    for i := 0 to |libraries|
      invariant LoadAll(libraries[..i], rows) == Ok(b)
    {
      var next := OpenOne(b, libraries[i], rows);
      assert libraries[..i + 1][..i] == libraries[..i];
      if next.Err? {
        FailureStays(libraries, rows, i + 1);
        return Err(next.error);
      }
      b := next.value;
    }
    assert libraries[..|libraries|] == libraries;
    return Ok(b.slots);
  }

  method OpenOne(b: Booted, x: Library, rows: Rows) returns (r: Result<Booted, BootError>)
    ensures r == LoadOne(b, x, rows)
  {
    if Skipped(x, rows) {
      return Ok(Booted(b.slots + [Record(rows, x.fileId.value, x.file)], b.ids + {x.fileId.value}, b.keys));
    }
    if !x.opens {
      return Err(NotOpened);
    }
    var id := x.plugin.info.id;
    if !ValidId(id) {
      return Err(InvalidPluginId);
    }
    if x.untrusted && id in RESERVED_IDS {
      return Err(ReservedId);
    }
    if id in b.ids {
      return Err(DuplicateId);
    }
    var ids := b.ids + {id};
    if id in rows && rows[id].uninstalled {
      return Ok(Booted(b.slots, ids, b.keys));
    }
    if Off(rows, id) {
      return Ok(Booted(b.slots + [Record(rows, id, x.file)], ids, b.keys));
    }
    if !x.starts {
      return Err(NotStarted);
    }
    var valid, seen := ValidateDeclaration(id, x.granted, x.plugin.routes, b.keys);
    hide Acceptable, KeysOf;
    if valid.Err? {
      return Err(BadDeclaration);
    }
    return Ok(Booted(b.slots + [Live(Serving(x.plugin))], ids, seen));
  }

  // --- what a boot that succeeds has built ---

  /** The plugin a library leaves in the registry, live or as a record. */
  function SlotId(x: Library, rows: Rows): string {
    if Skipped(x, rows) then x.fileId.value else x.plugin.info.id
  }

  predicate LeavesRecord(x: Library, rows: Rows) {
    Skipped(x, rows) || Off(rows, x.plugin.info.id)
  }

  predicate LeavesLive(x: Library, rows: Rows, id: string) {
    !Skipped(x, rows) && x.plugin.info.id == id && Wanted(rows, id)
  }

  predicate Loads(libraries: seq<Library>, rows: Rows, id: string) {
    exists i :: 0 <= i < |libraries| && LeavesLive(libraries[i], rows, id)
  }

  /** A disabled plugin is recorded twice: for a library that declares it or is named for it, and
      again for a later one that is named for it. */
  predicate RecordedTwice(libraries: seq<Library>, rows: Rows) {
    exists i, j :: 0 <= i < j < |libraries| && RepeatsRecord(libraries[i], libraries[j], rows)
  }

  predicate RepeatsRecord(x: Library, y: Library, rows: Rows) {
    LeavesRecord(x, rows) && Skipped(y, rows) && SlotId(x, rows) == SlotId(y, rows)
  }

  predicate HasLive(slots: seq<Slot>, id: string) {
    exists k :: 0 <= k < |slots| && slots[k].Live? && slots[k].Info().id == id
  }

  predicate HasRecord(slots: seq<Slot>, id: string) {
    exists k :: 0 <= k < |slots| && slots[k].Known? && slots[k].Info().id == id
  }

  /** Each slot is well formed, and two slots of one id are both records of a disabled plugin. */
  predicate SlotsOk(b: Booted, rows: Rows) {
    && (forall k :: 0 <= k < |b.slots| ==> Agrees(b.slots[k]) && b.slots[k].Info().id in b.ids)
    && (forall k :: 0 <= k < |b.slots| && b.slots[k].Live? ==>
        ValidPlugin(b.slots[k].plugin) && Wanted(rows, b.slots[k].Info().id))
    && (forall k :: 0 <= k < |b.slots| && b.slots[k].Known? ==> Off(rows, b.slots[k].Info().id))
    && (forall k, m :: 0 <= k < m < |b.slots| && b.slots[k].Info().id == b.slots[m].Info().id ==>
          b.slots[k].Known? && b.slots[m].Known?)
  }

  lemma LoadOneKeeps(b: Booted, x: Library, rows: Rows)
    requires SlotsOk(b, rows) && LoadOne(b, x, rows).Ok?
    ensures SlotsOk(LoadOne(b, x, rows).value, rows)
  {
    hide KeysOf, ValidId, DeclaredRoutes, Permitted;
  }

  lemma LoadOneAdds(b: Booted, x: Library, rows: Rows, id: string)
    requires SlotsOk(b, rows) && LoadOne(b, x, rows).Ok?
    ensures var after := LoadOne(b, x, rows).value;
            && (HasLive(after.slots, id) <==> HasLive(b.slots, id) || LeavesLive(x, rows, id))
            && (HasRecord(after.slots, id) <==>
                HasRecord(b.slots, id) || (LeavesRecord(x, rows) && SlotId(x, rows) == id))
            && (UniqueIds(after.slots) <==>
                  UniqueIds(b.slots) && !(Skipped(x, rows) && HasRecord(b.slots, SlotId(x, rows))))
  {
    var after := LoadOne(b, x, rows).value.slots;
    hide Acceptable, KeysOf, ValidId;
    assert |after| <= |b.slots| + 1 && after[..|b.slots|] == b.slots;
    assert forall k :: 0 <= k < |b.slots| ==> after[k] == b.slots[k];
    hide LoadOne;
    if |after| > |b.slots| {
      assert after == b.slots + [after[|b.slots|]];
    }
  }

  /** A boot that succeeds: every slot agrees with its record, every live plugin is valid, and what is
      live is exactly what was staged, not skipped by its file name, and not switched off. */
  lemma {:induction false} BootLoads(libraries: seq<Library>, rows: Rows, id: string)
    requires LoadAll(libraries, rows).Ok?
    ensures var b := LoadAll(libraries, rows).value;
            && SlotsOk(b, rows)
            && (HasLive(b.slots, id) <==> Loads(libraries, rows, id))
            && (HasRecord(b.slots, id) <==>
                  exists i :: 0 <= i < |libraries| && LeavesRecord(libraries[i], rows)
                              && SlotId(libraries[i], rows) == id)
  {
    hide SlotsOk, HasLive, HasRecord, LoadOne, LeavesLive, LeavesRecord, SlotId;
    if libraries == [] {
      NothingBooted(rows, id);
    } else {
      var n := |libraries| - 1;
      var rest := libraries[..n];
      assert forall i :: 0 <= i < n ==> rest[i] == libraries[i];
      BootLoads(rest, rows, id);
      LoadOneKeeps(LoadAll(rest, rows).value, libraries[n], rows);
      LoadOneAdds(LoadAll(rest, rows).value, libraries[n], rows, id);
    }
  }

  lemma NothingBooted(rows: Rows, id: string)
    ensures SlotsOk(Booted([], {}, {}), rows) && !HasLive([], id) && !HasRecord([], id) && UniqueIds([])
  {
  }

  lemma {:induction false} UniqueIff(libraries: seq<Library>, rows: Rows)
    requires LoadAll(libraries, rows).Ok?
    ensures UniqueIds(LoadAll(libraries, rows).value.slots) <==> !RecordedTwice(libraries, rows)
  {
    hide SlotsOk, HasLive, HasRecord, LoadOne, LeavesLive, LeavesRecord, SlotId, UniqueIds, RepeatsRecord, Skipped;
    if libraries == [] {
      NothingBooted(rows, "");
    } else {
      var n := |libraries| - 1;
      var rest, last := libraries[..n], libraries[n];
      var id := SlotId(last, rows);
      assert forall i :: 0 <= i < n ==> rest[i] == libraries[i];
      UniqueIff(rest, rows);
      BootLoads(rest, rows, id);
      LoadOneAdds(LoadAll(rest, rows).value, last, rows, id);
      RepeatsLast(libraries, rows);
    }
  }

  lemma RepeatsLast(libraries: seq<Library>, rows: Rows)
    requires libraries != []
    ensures var n := |libraries| - 1; var last := libraries[n];
            RecordedTwice(libraries, rows) <==>
            || RecordedTwice(libraries[..n], rows)
            || (Skipped(last, rows) && exists i :: 0 <= i < n && LeavesRecord(libraries[..n][i], rows)
                                                 && SlotId(libraries[..n][i], rows) == SlotId(last, rows))
  {
    var n := |libraries| - 1;
    var rest, last := libraries[..n], libraries[n];
    hide LeavesRecord, SlotId, Skipped;
    if RecordedTwice(rest, rows) {
      var i, j :| 0 <= i < j < |rest| && RepeatsRecord(rest[i], rest[j], rows);
      assert RepeatsRecord(libraries[i], libraries[j], rows);
    }
    if RecordedTwice(libraries, rows) {
      var i, j :| 0 <= i < j < |libraries| && RepeatsRecord(libraries[i], libraries[j], rows);
      assert rest[i] == libraries[i];
      if j < n {
        assert RepeatsRecord(rest[i], rest[j], rows);
      }
    }
    if Skipped(last, rows) {
      if i :| 0 <= i < n && LeavesRecord(rest[i], rows) && SlotId(rest[i], rows) == SlotId(last, rows) {
        assert RepeatsRecord(libraries[i], libraries[n], rows);
      }
    }
  }

  /** A boot that succeeds yields a collision-free registry exactly when no disabled plugin was
      recorded twice: of live plugins there is never a second slot, and never a collision. */
  lemma {:induction false} BootIsServedIff(libraries: seq<Library>, rows: Rows)
    requires LoadAll(libraries, rows).Ok?
    ensures Served(LoadAll(libraries, rows).value.slots) <==> !RecordedTwice(libraries, rows)
  {
    hide LoadAll, RecordedTwice;
    UniqueIff(libraries, rows);
    BootLoads(libraries, rows, "");
    var b := LoadAll(libraries, rows).value;
    hide HasLive, HasRecord, LeavesLive, LeavesRecord, SlotId;
    forall k, m | 0 <= k < m < |b.slots| && b.slots[k].Info().id != b.slots[m].Info().id
      ensures Disjoint(b.slots[k], b.slots[m])
    {
      if b.slots[k].Live? && b.slots[m].Live? {
        OtherIdsOtherKeys(b.slots[k].plugin, b.slots[m].plugin);
      }
    }
    hide KeysOf, ValidPlugin, Agrees, Off, Wanted;
  }

  // --- the same in so many words ---

  predicate SwitchedOff(rows: Rows, id: string) {
    id in rows && rows[id].enabled == false && rows[id].uninstalled == false
  }

  /** The file name names a plugin that is switched off. */
  predicate NamedOff(x: Library, rows: Rows) {
    x.fileId.Some? && SwitchedOff(rows, x.fileId.value)
  }

  predicate MayServe(x: Library, rows: Rows) {
    !NamedOff(x, rows) && (x.plugin.info.id in rows ==>
      rows[x.plugin.info.id].enabled && !rows[x.plugin.info.id].uninstalled)
  }

  /** The slot serves just what the library holds, and every route of it is in its place and names no
      permission the library does not grant. */
  ghost predicate ServesLibrary(slot: Slot, x: Library) {
    && slot.Live? && slot.plugin.info.id == x.plugin.info.id && slot.plugin.info.version == x.plugin.info.version
    && slot.plugin.routes == x.plugin.routes && slot.plugin.pool == x.plugin.pool
    && slot.plugin.library == x.plugin.library && slot.plugin.info.enabled && slot.plugin.info.loaded
    && slot.plugin.info.routes == |x.plugin.routes| && slot.plugin.info.lastError == None
    && PlainId(x.plugin.info.id)
    && forall r :: r in x.plugin.routes ==>
         OwnPlace(x.plugin.info.id, r) && WellBraced(r.path) && !NamesUngranted(r, x.granted)
  }

  predicate RecordsLibrary(slot: Slot, x: Library, rows: Rows) {
    var id := if NamedOff(x, rows) then x.fileId.value else x.plugin.info.id;
    SwitchedOff(rows, id) && slot == Known(PluginInfo(id, rows[id].version, false, false, 0, None), x.file)
  }

  lemma LoadOneWrites(b: Booted, x: Library, rows: Rows)
    requires LoadOne(b, x, rows).Ok?
    ensures var after := LoadOne(b, x, rows).value;
            if MayServe(x, rows) then exists slot :: after.slots == b.slots + [slot] && ServesLibrary(slot, x)
            else if NamedOff(x, rows) || SwitchedOff(rows, x.plugin.info.id) then
              exists slot :: after.slots == b.slots + [slot] && RecordsLibrary(slot, x, rows)
            else after.slots == b.slots
  {
    ValidIdIsPlain(x.plugin.info.id);
    AcceptableMeans(x.plugin.info.id, x.granted, x.plugin.routes, b.keys);
    hide ValidId, PlainId, Acceptable, KeysOf, OwnPlace, WellBraced, NamesUngranted, FreshRoute;
    var after := LoadOne(b, x, rows).value;
    if MayServe(x, rows) {
      assert after.slots == b.slots + [Live(Serving(x.plugin))];
      assert ServesLibrary(Live(Serving(x.plugin)), x);
    } else if NamedOff(x, rows) {
      assert after.slots == b.slots + [Record(rows, x.fileId.value, x.file)];
    } else if SwitchedOff(rows, x.plugin.info.id) {
      assert after.slots == b.slots + [Record(rows, x.plugin.info.id, x.file)];
    }
  }

  /** When one library fails the boot. */
  lemma LoadOneFailsIff(b: Booted, x: Library, rows: Rows)
    ensures var id := x.plugin.info.id;
            LoadOne(b, x, rows).Err? <==>
            && !NamedOff(x, rows)
            && (|| !x.opens || !PlainId(id) || id in b.ids
                || (x.untrusted && id in {"plugins", "events", "audit", "core", "sdk", "auth", "membership"})
                || (MayServe(x, rows) && (!x.starts || !InOrder(x.granted, id, x.plugin.routes, b.keys))))
  {
    ValidIdIsPlain(x.plugin.info.id);
    AcceptableMeans(x.plugin.info.id, x.granted, x.plugin.routes, b.keys);
    hide ValidId, PlainId, Acceptable, KeysOf, InOrder;
  }

  ghost predicate FromSome(libraries: seq<Library>, rows: Rows, slot: Slot) {
    exists i :: 0 <= i < |libraries|
                && ((MayServe(libraries[i], rows) && ServesLibrary(slot, libraries[i]))
                    || RecordsLibrary(slot, libraries[i], rows))
  }

  ghost predicate SlotFor(slots: seq<Slot>, x: Library, rows: Rows) {
    if MayServe(x, rows) then exists k :: 0 <= k < |slots| && ServesLibrary(slots[k], x)
    else NamedOff(x, rows) || SwitchedOff(rows, x.plugin.info.id) ==>
           exists k :: 0 <= k < |slots| && RecordsLibrary(slots[k], x, rows)
  }

  /** A boot that succeeds serves just what the libraries hold: each slot is one of a library, and each
      library that may serve, or is switched off, has its slot. */
  lemma {:induction false} BootServesTheLibraries(libraries: seq<Library>, rows: Rows)
    requires LoadAll(libraries, rows).Ok?
    ensures var slots := LoadAll(libraries, rows).value.slots;
            && (forall k :: 0 <= k < |slots| ==> FromSome(libraries, rows, slots[k]))
            && (forall i :: 0 <= i < |libraries| ==> SlotFor(slots, libraries[i], rows))
  {
    hide LoadOne, ServesLibrary, RecordsLibrary, MayServe, NamedOff, SwitchedOff;
    if libraries != [] {
      var n := |libraries| - 1;
      var rest := LoadAll(libraries[..n], rows).value;
      BootServesTheLibraries(libraries[..n], rows);
      LoadOneWrites(rest, libraries[n], rows);
      BootOneMore(libraries, rows, rest.slots, LoadAll(libraries, rows).value.slots);
    }
  }

  lemma BootOneMore(libraries: seq<Library>, rows: Rows, before: seq<Slot>, after: seq<Slot>)
    requires libraries != []
    requires var x := libraries[|libraries| - 1];
             if MayServe(x, rows) then exists slot :: after == before + [slot] && ServesLibrary(slot, x)
             else if NamedOff(x, rows) || SwitchedOff(rows, x.plugin.info.id) then
               exists slot :: after == before + [slot] && RecordsLibrary(slot, x, rows)
             else after == before
    requires forall k :: 0 <= k < |before| ==> FromSome(libraries[..|libraries| - 1], rows, before[k])
    requires forall i :: 0 <= i < |libraries| - 1 ==> SlotFor(before, libraries[i], rows)
    ensures forall k :: 0 <= k < |after| ==> FromSome(libraries, rows, after[k])
    ensures forall i :: 0 <= i < |libraries| ==> SlotFor(after, libraries[i], rows)
  {
    var n := |libraries| - 1;
    hide ServesLibrary, RecordsLibrary, MayServe, NamedOff, SwitchedOff;
    assert before <= after && |after| <= |before| + 1;
    assert forall k :: 0 <= k < |before| ==> after[k] == before[k];
    assert forall i :: 0 <= i < n ==> libraries[..n][i] == libraries[i];
    forall k | 0 <= k < |after|
      ensures FromSome(libraries, rows, after[k])
    {
      if k < |before| {
        var i :| 0 <= i < n && ((MayServe(libraries[..n][i], rows) && ServesLibrary(before[k], libraries[..n][i]))
                                || RecordsLibrary(before[k], libraries[..n][i], rows));
        assert libraries[i] == libraries[..n][i];
      }
    }
    forall i | 0 <= i < n
      ensures SlotFor(after, libraries[i], rows)
    {
      SlotForMore(before, after, libraries[i], rows);
    }
    assert SlotFor(after, libraries[n], rows) by {
      if |after| > |before| {
        assert after[|before|] == after[|after| - 1];
      }
    }
  }

  lemma SlotForMore(before: seq<Slot>, after: seq<Slot>, x: Library, rows: Rows)
    requires before <= after && SlotFor(before, x, rows)
    ensures SlotFor(after, x, rows)
  {
    hide ServesLibrary, RecordsLibrary, MayServe, NamedOff, SwitchedOff;
    assert forall k :: 0 <= k < |before| ==> after[k] == before[k];
  }

  // --- when the file name decides differently ---

  /** What a library leaves when only the id it declares decides. */
  function LoadDeclared(b: Booted, x: Library, rows: Rows): Result<Booted, BootError> {
    LoadOne(b, x.(fileId := None), rows)
  }

  /** The library opens and its id is accepted. */
  predicate Admitted(b: Booted, x: Library) {
    && x.opens && ValidId(x.plugin.info.id) && !(x.untrusted && x.plugin.info.id in RESERVED_IDS)
    && x.plugin.info.id !in b.ids
  }

  /** Per library: deciding by the file name comes to the same as opening it exactly when the name does
      not decide, or the library opens, is accepted, and declares the very plugin it is named for. */
  lemma HintIsRightIff(b: Booted, x: Library, rows: Rows)
    ensures LoadOne(b, x, rows) == LoadDeclared(b, x, rows) <==>
            (Skipped(x, rows) ==> Admitted(b, x) && x.plugin.info.id == x.fileId.value)
  {
    var id := x.plugin.info.id;
    hide ValidId, Acceptable, KeysOf;
    if Skipped(x, rows) && Admitted(b, x) && Off(rows, id) {
      assert (b.slots + [Record(rows, x.fileId.value, x.file)])[|b.slots|].record.id == x.fileId.value;
      assert (b.slots + [Record(rows, id, x.file)])[|b.slots|].record.id == id;
    } else if Skipped(x, rows) && Admitted(b, x) && LoadDeclared(b, x, rows).Ok? {
      var declared := LoadDeclared(b, x, rows).value.slots;
      assert LoadOne(b, x, rows).value.slots[|b.slots|].Known?;
      assert |declared| > |b.slots| ==> declared[|b.slots|].Live?;
    }
  }

  /** Over a whole boot: a plugin that its row wants, and that some library declares, is missing exactly
      when every library that declares it is named for a plugin that is switched off. */
  lemma {:induction false} WantedIsMissingIff(libraries: seq<Library>, rows: Rows, id: string)
    requires LoadAll(libraries, rows).Ok? && Wanted(rows, id)
    ensures !HasLive(LoadAll(libraries, rows).value.slots, id) <==>
            forall i :: 0 <= i < |libraries| && libraries[i].plugin.info.id == id ==> Skipped(libraries[i], rows)
  {
    BootLoads(libraries, rows, id);
    hide HasLive, LoadAll, SlotsOk, Skipped, Wanted;
    if !Loads(libraries, rows, id) {
      forall i | 0 <= i < |libraries| && libraries[i].plugin.info.id == id
        ensures Skipped(libraries[i], rows)
      {
        assert !LeavesLive(libraries[i], rows, id);
      }
    }
  }

  /** One library named for a disabled plugin that declares an enabled one: the server starts without it. */
  lemma {:induction false} NamedForAnother(x: Library, named: string, version: string)
    requires x.fileId == Some(named) && x.opens && named != x.plugin.info.id
    ensures var id := x.plugin.info.id;
            var rows := map[named := PluginRow(false, false, version), id := PluginRow(true, false, version)];
            && LoadAll([x], rows).Ok? && LoadAll([x], rows).value.slots == [Record(rows, named, x.file)]
            && Wanted(rows, id) && !HasLive(LoadAll([x], rows).value.slots, id)
  {
    assert [x][..0] == [];
    hide ValidId, Acceptable, KeysOf;
  }

  /** When it is the boot the lifecycle starts from: no disabled plugin is recorded twice, and the
      flags that are on are exactly those of the libraries that load. */
  lemma {:induction false} BootsIff(libraries: seq<Library>, rows: Rows, flags: map<string, bool>)
    requires LoadAll(libraries, rows).Ok?
    ensures Boots(LoadAll(libraries, rows).value.slots, flags) <==>
            && !RecordedTwice(libraries, rows)
            && forall id :: Flagged(flags, id) <==> Loads(libraries, rows, id)
  {
    var slots := LoadAll(libraries, rows).value.slots;
    UniqueIff(libraries, rows);
    forall id
      ensures HasLive(slots, id) <==> Loads(libraries, rows, id)
    {
      BootLoads(libraries, rows, id);
    }
    BootLoads(libraries, rows, "");
    assert forall k :: 0 <= k < |slots| ==> Agrees(slots[k]);
    hide SlotsOk, LoadAll, RecordedTwice, Loads, Agrees, HasLive, IsLive, UniqueIds, Flagged;
    if UniqueIds(slots) {
      forall id
        ensures IsLive(slots, id) <==> Loads(libraries, rows, id)
      {
        LiveIsHasLive(slots, id);
        assert HasLive(slots, id) <==> Loads(libraries, rows, id);
      }
    }
  }

  lemma {:induction false} LiveIsHasLive(slots: seq<Slot>, id: string)
    requires UniqueIds(slots)
    ensures HasLive(slots, id) == IsLive(slots, id)
  {
    if HasLive(slots, id) {
      var k :| 0 <= k < |slots| && slots[k].Live? && slots[k].Info().id == id;
      PositionIs(slots, id, k);
    }
    if IsLive(slots, id) {
      assert slots[Position(slots, id)].Live?;
    }
  }

  /** A disabled plugin staged twice, under a name that does not give its id and under one that does:
      the server starts with two records of it, and does not start again once it is enabled. In the
      other order it does not start at all. */
  lemma {:induction false} StagedTwice(x: Library, y: Library, version: string)
    requires x.fileId.None? && x.opens && y.fileId == Some(y.plugin.info.id) && y.opens
    requires x.plugin.info.id == y.plugin.info.id && ValidId(x.plugin.info.id) && !x.untrusted && !y.untrusted
    ensures var id := x.plugin.info.id; var off := map[id := PluginRow(false, false, version)];
            && LoadAll([x, y], off).Ok?
            && LoadAll([x, y], off).value.slots == [Record(off, id, x.file), Record(off, id, y.file)]
            && LoadAll([y, x], off) == Err(DuplicateId)
            && LoadAll([x, y], off[id := PluginRow(true, false, version)]).Err?
  {
    var id := x.plugin.info.id;
    var off := map[id := PluginRow(false, false, version)];
    assert ([] + [Record(off, id, x.file)]) + [Record(off, id, y.file)] ==
             [Record(off, id, x.file), Record(off, id, y.file)];
    LoadTwo(x, y, off);
    LoadTwo(y, x, off);
    LoadTwo(x, y, off[id := PluginRow(true, false, version)]);
    hide LoadAll, Acceptable, ValidId, KeysOf;
  }

  lemma {:induction false} LoadTwo(x: Library, y: Library, rows: Rows)
    ensures LoadAll([x, y], rows) ==
            var first := LoadOne(Booted([], {}, {}), x, rows);
            if first.Err? then first else LoadOne(first.value, y, rows)
  {
    assert [x, y][..1] == [x] && [x][..0] == [];
    assert LoadAll([x], rows) == LoadOne(Booted([], {}, {}), x, rows);
  }
}
