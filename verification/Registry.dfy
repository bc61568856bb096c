/** The plugin registry: the Live/Known slot machine and route resolution. */
module Registry {
  import opened Wrappers

  datatype Route = Route(verb: string, path: string, permission: Option<string>, handler: nat)

  datatype PluginInfo = PluginInfo(id: string, version: string, enabled: bool, loaded: bool, routes: nat,
                                   lastError: Option<string>)

  /** A loaded plugin's executable half; `pool` names its database pool. */
  datatype Loaded = Loaded(info: PluginInfo, routes: seq<Route>, library: string, pool: nat)

  /** Loaded and serving, or merely known. */
  datatype Slot = Live(plugin: Loaded) | Known(record: PluginInfo, library: string) {
    function Info(): PluginInfo {
      if Live? then plugin.info else record
    }
  }

  // --- the slot machine, on the list of slots ---

  /** The first slot with the id, or the length of the list. */
  function Position(slots: seq<Slot>, id: string): (k: nat)
    ensures k <= |slots|
    ensures k < |slots| ==> slots[k].Info().id == id
    ensures forall i :: 0 <= i < k ==> slots[i].Info().id != id
  {
    if slots == [] || slots[0].Info().id == id then 0 else 1 + Position(slots[1..], id)
  }

  predicate Contains(slots: seq<Slot>, id: string) {
    Position(slots, id) < |slots|
  }

  predicate IsLive(slots: seq<Slot>, id: string) {
    Contains(slots, id) && slots[Position(slots, id)].Live?
  }

  function RecordOf(p: Loaded): Slot {
    Known(p.info.(enabled := false, loaded := false, routes := 0), p.library)
  }

  function Installed(slots: seq<Slot>, p: Loaded): seq<Slot> {
    var k := Position(slots, p.info.id);
    if k < |slots| then slots[k := Live(p)] else slots + [Live(p)]
  }

  function Stopped(slots: seq<Slot>, id: string): seq<Slot> {
    if IsLive(slots, id) then slots[Position(slots, id) := RecordOf(slots[Position(slots, id)].plugin)] else slots
  }

  function WithError(slot: Slot, message: string): Slot {
    match slot
    case Live(p) => Live(p.(info := p.info.(lastError := Some(message))))
    case Known(r, library) => Known(r.(lastError := Some(message), loaded := false), library)
  }

  function Errored(slots: seq<Slot>, id: string, message: string): seq<Slot> {
    var k := Position(slots, id);
    if k < |slots| then slots[k := WithError(slots[k], message)] else slots
  }

  function Removed(slots: seq<Slot>, id: string): seq<Slot> {
    var k := Position(slots, id);
    if k < |slots| then slots[..k] + slots[k + 1..] else slots
  }

  function LivePlugins(slots: seq<Slot>): seq<Loaded> {
    if slots == [] then []
    else (if slots[0].Live? then [slots[0].plugin] else []) + LivePlugins(slots[1..])
  }

  // --- the pools that close with their plugin, whoever is inside ---

  /** A pool that was told to close, and whose it was. */
  datatype Closing = Closing(pool: nat, name: string)

  /** Removing a plugin closes its pool when it is live. */
  function ClosingOf(slots: seq<Slot>, id: string): seq<Closing> {
    if IsLive(slots, id) then [Closing(slots[Position(slots, id)].plugin.pool, id)] else []
  }

  /** Swapping in a generation closes every live pool of the old one. */
  function LiveClosings(slots: seq<Slot>): seq<Closing> {
    if slots == [] then []
    else
      var own := if slots[0].Live? then [Closing(slots[0].plugin.pool, slots[0].plugin.info.id)] else [];
      own + LiveClosings(slots[1..])
  }

  // --- what every registry keeps ---

  predicate UniqueIds(slots: seq<Slot>) {
    forall i, j :: 0 <= i < j < |slots| ==> slots[i].Info().id != slots[j].Info().id
  }

  /** The variant and the snapshot tell the same story. */
  predicate Agrees(slot: Slot) {
    match slot
    case Live(p) => p.info.loaded && p.info.enabled && p.info.routes == |p.routes|
    case Known(r, _) => !r.loaded && !r.enabled && r.routes == 0
  }

  predicate Consistent(slots: seq<Slot>) {
    UniqueIds(slots) && forall i :: 0 <= i < |slots| ==> Agrees(slots[i])
  }

  lemma InstalledConsistent(slots: seq<Slot>, p: Loaded)
    requires Consistent(slots) && Agrees(Live(p))
    ensures Consistent(Installed(slots, p))
  {
  }

  lemma StoppedConsistent(slots: seq<Slot>, id: string)
    requires Consistent(slots)
    ensures Consistent(Stopped(slots, id))
  {
  }

  lemma ErroredConsistent(slots: seq<Slot>, id: string, message: string)
    requires Consistent(slots)
    ensures Consistent(Errored(slots, id, message))
  {
  }

  lemma RemovedConsistent(slots: seq<Slot>, id: string)
    requires Consistent(slots)
    ensures Consistent(Removed(slots, id))
  {
  }

  /** Each transition settles its own id and leaves the liveness of every other id alone. */
  lemma TransitionsAreLocal(slots: seq<Slot>, p: Loaded, id: string, message: string, other: string)
    requires Consistent(slots)
    ensures IsLive(Installed(slots, p), p.info.id) && !IsLive(Stopped(slots, id), id)
            && !Contains(Removed(slots, id), id)
    ensures IsLive(Errored(slots, id, message), other) == IsLive(slots, other)
    ensures other != p.info.id ==> IsLive(Installed(slots, p), other) == IsLive(slots, other)
    ensures other != id ==> IsLive(Stopped(slots, id), other) == IsLive(slots, other)
    ensures other != id ==> IsLive(Removed(slots, id), other) == IsLive(slots, other)
  {
    InstalledLookup(slots, p, other);
    InstalledLookup(slots, p, p.info.id);
    StoppedLookup(slots, id, other);
    StoppedLookup(slots, id, id);
    ErroredLookup(slots, id, message, other);
    RemovedLookup(slots, id, other);
    RemovedLookup(slots, id, id);
  }

  /** With unique ids, any index holding the id is its position. */
  lemma {:induction false} PositionIs(slots: seq<Slot>, id: string, k: nat)
    requires UniqueIds(slots) && k < |slots| && slots[k].Info().id == id
    ensures Position(slots, id) == k
  {
  }

  lemma {:induction false} PositionSameIds(a: seq<Slot>, b: seq<Slot>, id: string)
    requires |a| == |b| && forall i :: 0 <= i < |a| ==> a[i].Info().id == b[i].Info().id
    ensures Position(a, id) == Position(b, id)
  {
  }

  lemma InstalledLookup(slots: seq<Slot>, p: Loaded, id: string)
    requires Consistent(slots)
    ensures IsLive(Installed(slots, p), id) == (id == p.info.id || IsLive(slots, id))
    ensures Contains(Installed(slots, p), id) == (id == p.info.id || Contains(slots, id))
  {
    var k := Position(slots, p.info.id);
    var after := Installed(slots, p);
    assert after[k] == Live(p);
    var i := Position(slots, id);
    if id == p.info.id {
      assert Position(after, id) == k;
    } else if i < |slots| {
      assert after[i] == slots[i];
      assert Position(after, id) == i;
    }
  }

  lemma StoppedLookup(slots: seq<Slot>, id: string, other: string)
    requires Consistent(slots)
    ensures IsLive(Stopped(slots, id), other) == (other != id && IsLive(slots, other))
    ensures Contains(Stopped(slots, id), other) == Contains(slots, other)
  {
    PositionSameIds(Stopped(slots, id), slots, other);
  }

  lemma ErroredLookup(slots: seq<Slot>, id: string, message: string, other: string)
    requires Consistent(slots)
    ensures IsLive(Errored(slots, id, message), other) == IsLive(slots, other)
    ensures Contains(Errored(slots, id, message), other) == Contains(slots, other)
  {
    PositionSameIds(Errored(slots, id, message), slots, other);
  }

  lemma RemovedLookup(slots: seq<Slot>, id: string, other: string)
    requires Consistent(slots)
    ensures IsLive(Removed(slots, id), other) == (other != id && IsLive(slots, other))
    ensures Contains(Removed(slots, id), other) == (other != id && Contains(slots, other))
  {
    var k, i, after := Position(slots, id), Position(slots, other), Removed(slots, id);
    if k < |slots| && i < |slots| && other != id {
      var j := if i < k then i else i - 1;
      assert after[j] == slots[i];
      assert Position(after, other) == j;
    }
  }
}
