/** Declaring routes and resolving a request against the live ones. */
module RouteResolution {
  import opened Wrappers
  import opened Text
  import opened RouteTemplates
  import opened Registry

  // --- declarations ---

  type RouteKey = (string, string)

  function KeyOf(r: Route): RouteKey {
    (r.verb, NormalizedRoutePath(r.path))
  }

  function KeysOf(routes: seq<Route>): set<RouteKey> {
    set i | 0 <= i < |routes| :: KeyOf(routes[i])
  }

  predicate ValidId(id: string) {
    && 0 < |id| <= 31
    && 'a' <= id[0] <= 'z'
    && forall i :: 0 <= i < |id| ==> NameChar(id[i])
  }

  predicate StartsWith(s: string, prefix: string) {
    prefix <= s
  }

  /** The path is `/api/<id>` or lies below it. */
  predicate InNamespace(id: string, path: string) {
    path == "/api/" + id || StartsWith(path, "/api/" + id + "/")
  }

  predicate Permitted(r: Route, granted: seq<string>) {
    r.permission.Some? ==> r.permission.value in granted
  }

  predicate DistinctKeys(routes: seq<Route>) {
    forall i, j :: 0 <= i < j < |routes| ==> KeyOf(routes[i]) != KeyOf(routes[j])
  }

  predicate WellPlaced(id: string, r: Route) {
    InNamespace(id, r.path) && ValidTemplate(r.path)
  }

  predicate DeclaredRoutes(id: string, routes: seq<Route>) {
    (forall i :: 0 <= i < |routes| ==> WellPlaced(id, routes[i])) && DistinctKeys(routes)
  }

  datatype DeclarationError =
    | InvalidId | EscapesNamespace | InvalidCaptures(cause: RouteError) | UngrantedPermission | DuplicateRoute

  /** The declaration a plugin may load with, given the keys that are already taken. */
  predicate Acceptable(id: string, granted: seq<string>, routes: seq<Route>, taken: set<RouteKey>) {
    && DeclaredRoutes(id, routes)
    && KeysOf(routes) !! taken
    && forall i :: 0 <= i < |routes| ==> Permitted(routes[i], granted)
  }

  lemma KeysOfAppend(routes: seq<Route>, r: Route)
    ensures KeysOf(routes + [r]) == KeysOf(routes) + {KeyOf(r)}
  {
    forall key | key in KeysOf(routes) + {KeyOf(r)}
      ensures key in KeysOf(routes + [r])
    {
      if key == KeyOf(r) {
        assert (routes + [r])[|routes|] == r;
      } else {
        var k :| 0 <= k < |routes| && KeyOf(routes[k]) == key;
        assert (routes + [r])[k] == routes[k];
      }
    }
  }

  lemma DistinctAppend(routes: seq<Route>, r: Route)
    ensures DistinctKeys(routes + [r]) <==> DistinctKeys(routes) && KeyOf(r) !in KeysOf(routes)
  {
    hide KeyOf;
    var after := routes + [r];
    assert forall i :: 0 <= i < |routes| ==> after[i] == routes[i];
    if KeyOf(r) in KeysOf(routes) {
      var k :| 0 <= k < |routes| && KeyOf(routes[k]) == KeyOf(r);
      assert KeyOf(after[k]) == KeyOf(after[|routes|]);
    }
  }

  lemma AcceptableAppend(id: string, granted: seq<string>, before: seq<Route>, taken: set<RouteKey>, r: Route)
    requires Acceptable(id, granted, before, taken)
    ensures Acceptable(id, granted, before + [r], taken) <==>
            WellPlaced(id, r) && Permitted(r, granted) && KeyOf(r) !in taken + KeysOf(before)
  {
    var after := before + [r];
    KeysOfAppend(before, r);
    DistinctAppend(before, r);
    assert after[|before|] == r && forall k :: 0 <= k < |before| ==> after[k] == before[k];
    hide KeyOf, KeysOf, WellPlaced, Permitted, DistinctKeys;
    assert (KeysOf(before) + {KeyOf(r)}) !! taken <==> KeyOf(r) !in taken;
  }

  /** A prefix is acceptable up to and including route `i` exactly when route `i` passes its own checks. */
  lemma AcceptableOneMore(id: string, granted: seq<string>, routes: seq<Route>, taken: set<RouteKey>, i: nat)
    requires i < |routes| && Acceptable(id, granted, routes[..i], taken)
    ensures Acceptable(id, granted, routes[..i + 1], taken) <==>
            WellPlaced(id, routes[i]) && Permitted(routes[i], granted)
            && KeyOf(routes[i]) !in taken + KeysOf(routes[..i])
    ensures KeysOf(routes[..i + 1]) == KeysOf(routes[..i]) + {KeyOf(routes[i])}
  {
    hide *;
    assert routes[..i + 1] == routes[..i] + [routes[i]];
    KeysOfAppend(routes[..i], routes[i]);
    AcceptableAppend(id, granted, routes[..i], taken, routes[i]);
  }

  lemma AcceptablePrefix(id: string, granted: seq<string>, routes: seq<Route>, taken: set<RouteKey>, i: nat)
    requires i <= |routes| && Acceptable(id, granted, routes, taken)
    ensures Acceptable(id, granted, routes[..i], taken)
  {
  }

  // --- the same in so many words ---

  /** One to 31 lower-case letters, digits and underscores, a letter first. */
  predicate PlainId(id: string) {
    && 1 <= |id| <= 31 && 'a' <= id[0] <= 'z'
    && forall i :: 0 <= i < |id| ==> 'a' <= id[i] <= 'z' || '0' <= id[i] <= '9' || id[i] == '_'
  }

  /** At `/api/<id>` or below it. */
  predicate OwnPlace(id: string, r: Route) {
    r.path == "/api/" + id || "/api/" + id + "/" <= r.path
  }

  ghost predicate NamesUngranted(r: Route, granted: seq<string>) {
    exists x :: r.permission == Some(x) && x !in granted
  }

  /** The same verb, and templates that accept the same paths. */
  ghost predicate Collides(r: Route, verb: string, template: string) {
    r.verb == verb && forall path :: Accepts(r.path, path) <==> Accepts(template, path)
  }

  ghost predicate FreshRoute(routes: seq<Route>, taken: set<RouteKey>, k: nat)
    requires k < |routes|
  {
    && (routes[k].verb, NormalizedRoutePath(routes[k].path)) !in taken
    && forall j :: 0 <= j < k ==> !Collides(routes[j], routes[k].verb, routes[k].path)
  }

  /** What a declaration must be, route by route. */
  ghost predicate InOrder(granted: seq<string>, id: string, routes: seq<Route>, taken: set<RouteKey>) {
    forall k :: 0 <= k < |routes| ==>
      && OwnPlace(id, routes[k]) && WellBraced(routes[k].path) && !NamesUngranted(routes[k], granted)
      && FreshRoute(routes, taken, k)
  }

  lemma ValidIdIsPlain(id: string)
    ensures ValidId(id) <==> PlainId(id)
  {
  }

  lemma PermittedMeans(r: Route, granted: seq<string>)
    ensures Permitted(r, granted) <==> !NamesUngranted(r, granted)
  {
  }

  lemma WellPlacedMeans(id: string, r: Route)
    ensures WellPlaced(id, r) <==> OwnPlace(id, r) && WellBraced(r.path)
  {
    ValidTemplateMeans(r.path);
    hide WellBraced, ValidTemplate;
  }

  lemma SameKeyCollides(r: Route, verb: string, template: string)
    ensures KeyOf(r) == (verb, NormalizedRoutePath(template)) <==> Collides(r, verb, template)
  {
    ShapeIsAcceptance(r.path, template);
    hide NormalizedRoutePath, Accepts;
  }

  lemma AcceptableMeans(id: string, granted: seq<string>, routes: seq<Route>, taken: set<RouteKey>)
    ensures Acceptable(id, granted, routes, taken) <==> InOrder(granted, id, routes, taken)
  {
    forall k | 0 <= k < |routes|
      ensures WellPlaced(id, routes[k]) <==> OwnPlace(id, routes[k]) && WellBraced(routes[k].path)
      ensures Permitted(routes[k], granted) <==> !NamesUngranted(routes[k], granted)
      ensures KeyOf(routes[k]) == (routes[k].verb, NormalizedRoutePath(routes[k].path))
    {
      WellPlacedMeans(id, routes[k]);
      PermittedMeans(routes[k], granted);
    }
    forall j, k | 0 <= j < k < |routes|
      ensures KeyOf(routes[j]) != KeyOf(routes[k]) <==> !Collides(routes[j], routes[k].verb, routes[k].path)
    {
      SameKeyCollides(routes[j], routes[k].verb, routes[k].path);
    }
    assert KeysOf(routes) !! taken <==> forall k :: 0 <= k < |routes| ==> KeyOf(routes[k]) !in taken;
    hide KeysOf, KeyOf, WellPlaced, Permitted, NamesUngranted, OwnPlace, WellBraced, Collides, NormalizedRoutePath;
  }

  /** What is wrong with a route that is refused. */
  ghost predicate FaultIs(error: DeclarationError, id: string, granted: seq<string>, r: Route, taken: set<RouteKey>) {
    match error
    case InvalidId => false
    case EscapesNamespace => !OwnPlace(id, r)
    case InvalidCaptures(_) => !WellBraced(r.path)
    case UngrantedPermission => NamesUngranted(r, granted)
    case DuplicateRoute => (r.verb, NormalizedRoutePath(r.path)) in taken
  }

  /** The first route that does not pass is the one the refusal is about. */
  ghost predicate RefusedAt(error: DeclarationError, id: string, granted: seq<string>, routes: seq<Route>, k: nat,
                      taken: set<RouteKey>) {
    k < |routes| && FaultIs(error, id, granted, routes[k], taken + KeysOf(routes[..k]))
    && Acceptable(id, granted, routes[..k], taken)
  }

  lemma RefusalIs(error: DeclarationError, id: string, granted: seq<string>, routes: seq<Route>, k: nat,
                  taken: set<RouteKey>, seen: set<RouteKey>)
    requires k < |routes| && Acceptable(id, granted, routes[..k], taken) && seen == taken + KeysOf(routes[..k])
    requires match error
             case InvalidId => false
             case EscapesNamespace => !InNamespace(id, routes[k].path)
             case InvalidCaptures(_) => !WellBraced(routes[k].path)
             case UngrantedPermission => !Permitted(routes[k], granted)
             case DuplicateRoute => KeyOf(routes[k]) in seen
    ensures RefusedAt(error, id, granted, routes, k, taken)
  {
    hide Acceptable, KeysOf, WellBraced;
  }

  /** Validate one plugin's declaration; `seen` accumulates the keys accepted so far. */
  method ValidateDeclaration(id: string, granted: seq<string>, routes: seq<Route>, seen0: set<RouteKey>)
    returns (r: Result<(), DeclarationError>, seen: set<RouteKey>)
    ensures r.Ok? <==> ValidId(id) && Acceptable(id, granted, routes, seen0)
    ensures r.Ok? ==> seen == seen0 + KeysOf(routes)
    ensures r.Ok? <==> PlainId(id) && InOrder(granted, id, routes, seen0)
    ensures r == Err(InvalidId) <==> !PlainId(id)
    ensures r.Err? && PlainId(id) ==> exists k :: RefusedAt(r.error, id, granted, routes, k, seen0)
  {
    ValidIdIsPlain(id);
    AcceptableMeans(id, granted, routes, seen0);
    hide PlainId, InOrder, RefusedAt, ValidId, WellBraced;
    seen := seen0;
    if !ValidId(id) {
      return Err(InvalidId), seen;
    }
    assert Acceptable(id, granted, routes[..0], seen0) && KeysOf(routes[..0]) == {};
    hide Acceptable, KeysOf, KeyOf, Permitted;
    for i := 0 to |routes|
      invariant Acceptable(id, granted, routes[..i], seen0)
      invariant seen == seen0 + KeysOf(routes[..i])
    {
      var route := routes[i];
      AcceptableOneMore(id, granted, routes, seen0, i);
      if Acceptable(id, granted, routes, seen0) {
        AcceptablePrefix(id, granted, routes, seen0, i + 1);
      }
      if !InNamespace(id, route.path) {
        RefusalIs(EscapesNamespace, id, granted, routes, i, seen0, seen);
        return Err(EscapesNamespace), seen;
      }
      var captures := ValidateRoutePath(route.path);
      if captures.Err? {
        RefusalIs(InvalidCaptures(captures.error), id, granted, routes, i, seen0, seen);
        return Err(InvalidCaptures(captures.error)), seen;
      }
      if !Permitted(route, granted) {
        RefusalIs(UngrantedPermission, id, granted, routes, i, seen0, seen);
        return Err(UngrantedPermission), seen;
      }
      if KeyOf(route) in seen {
        RefusalIs(DuplicateRoute, id, granted, routes, i, seen0, seen);
        return Err(DuplicateRoute), seen;
      }
      seen := seen + {KeyOf(route)};
    }
    assert routes[..|routes|] == routes;
    return Ok(()), seen;
  }

  // --- registries whose every live plugin passed validation ---

  predicate ValidPlugin(p: Loaded) {
    ValidId(p.info.id) && DeclaredRoutes(p.info.id, p.routes)
  }

  predicate Disjoint(a: Slot, b: Slot) {
    a.Live? && b.Live? ==> KeysOf(a.plugin.routes) !! KeysOf(b.plugin.routes)
  }

  predicate Served(slots: seq<Slot>) {
    && Consistent(slots)
    && (forall i :: 0 <= i < |slots| && slots[i].Live? ==> ValidPlugin(slots[i].plugin))
    && (forall i, j :: 0 <= i < j < |slots| ==> Disjoint(slots[i], slots[j]))
  }

  /** The keys a runtime enable seeds its collision check with. */
  function LiveRouteKeys(slots: seq<Slot>): set<RouteKey> {
    set i, k | 0 <= i < |slots| && slots[i].Live? && 0 <= k < |slots[i].plugin.routes| ::
      KeyOf(slots[i].plugin.routes[k])
  }

  // --- a route's key names its plugin ---

  lemma NamespaceSegments(id: string, path: string)
    requires ValidId(id) && InNamespace(id, path)
    ensures |Segments(path)| >= 3 && Segments(path)[..3] == ["", "api", id]
  {
    var base := "/api/" + id;
    assert '/' !in id && '/' !in "api";
    assert Plain(["", "api", id], '/');
    assert ["", "api", id][1..] == ["api", id] && ["api", id][1..] == [id];
    assert Join(["api", id], '/') == "api" + ['/'] + id;
    assert Join(["", "api", id], '/') == "" + ['/'] + Join(["api", id], '/');
    assert "" + ['/'] + ("api" + ['/'] + id) == base;
    SplitJoin(["", "api", id], '/');
    if path != base {
      var tail := path[|base| + 1..];
      assert path == base + ['/'] + tail;
      SplitConcat(base, tail, '/');
    }
  }

  lemma LiteralSegment(seg: string)
    requires '{' !in seg
    ensures !IsCapture(seg)
  {
  }

  lemma KeyNamesItsOwner(id: string, r: Route)
    requires ValidId(id) && WellPlaced(id, r)
    ensures |Segments(KeyOf(r).1)| >= 3 && Segments(KeyOf(r).1)[2] == id
  {
    NamespaceSegments(id, r.path);
    NormalizedSegments(r.path);
    assert Segments(r.path)[2] == id && '{' !in id;
    LiteralSegment(id);
  }

  /** Plugins of different ids cannot collide, whatever they declare within their places. */
  lemma OtherIdsOtherKeys(p: Loaded, q: Loaded)
    requires ValidPlugin(p) && ValidPlugin(q) && p.info.id != q.info.id
    ensures KeysOf(p.routes) !! KeysOf(q.routes)
  {
    forall i, j | 0 <= i < |p.routes| && 0 <= j < |q.routes|
      ensures KeyOf(p.routes[i]) != KeyOf(q.routes[j])
    {
      KeyNamesItsOwner(p.info.id, p.routes[i]);
      KeyNamesItsOwner(q.info.id, q.routes[j]);
    }
    hide KeyOf;
  }

  /** Installing a valid plugin keeps the whole registry valid, whatever keys it was checked against. */
  lemma InstallKeepsServed(slots: seq<Slot>, p: Loaded)
    requires Served(slots) && ValidPlugin(p) && Agrees(Live(p))
    ensures Served(Installed(slots, p))
  {
    InstalledConsistent(slots, p);
    forall i | 0 <= i < |slots| && slots[i].Info().id != p.info.id
      ensures Disjoint(slots[i], Live(p)) && Disjoint(Live(p), slots[i])
    {
      if slots[i].Live? {
        OtherIdsOtherKeys(slots[i].plugin, p);
      }
    }
    hide ValidPlugin, KeysOf;
  }

  /** So seeding the check with the live keys refuses nothing: of a plugin that is not live, the
      check against them passes exactly when the check of the plugin alone does. */
  lemma LiveKeysRefuseNothing(slots: seq<Slot>, id: string, granted: seq<string>, routes: seq<Route>)
    requires Served(slots) && ValidId(id) && !IsLive(slots, id)
    ensures Acceptable(id, granted, routes, LiveRouteKeys(slots)) <==> Acceptable(id, granted, routes, {})
  {
    if DeclaredRoutes(id, routes) {
      forall i, j, k | 0 <= i < |slots| && slots[i].Live? && 0 <= j < |routes| && 0 <= k < |slots[i].plugin.routes|
        ensures KeyOf(routes[j]) != KeyOf(slots[i].plugin.routes[k])
      {
        if slots[i].plugin.info.id == id {
          PositionIs(slots, id, i);
        }
        KeyNamesItsOwner(id, routes[j]);
        KeyNamesItsOwner(slots[i].plugin.info.id, slots[i].plugin.routes[k]);
      }
      hide KeyOf, WellPlaced, DistinctKeys;
      assert KeysOf(routes) !! LiveRouteKeys(slots);
    }
  }

  lemma StopKeepsServed(slots: seq<Slot>, id: string)
    requires Served(slots)
    ensures Served(Stopped(slots, id))
  {
  }

  // --- resolution ---

  datatype Entry = Entry(owner: string, route: Route)

  datatype RouteLookup = Found(owner: string, route: Route, params: Params) | NotFound

  function Tagged(owner: string, routes: seq<Route>): (r: seq<Entry>)
    ensures |r| == |routes| && forall i :: 0 <= i < |routes| ==> r[i] == Entry(owner, routes[i])
  {
    seq(|routes|, i requires 0 <= i < |routes| => Entry(owner, routes[i]))
  }

  /** Every route that answers, in registry order. A disabled plugin has none. */
  function LiveEntries(slots: seq<Slot>): seq<Entry> {
    if slots == [] then []
    else
      var own := if slots[0].Live? then Tagged(slots[0].plugin.info.id, slots[0].plugin.routes) else [];
      own + LiveEntries(slots[1..])
  }

  /** A capture-free route named exactly by the request. */
  predicate Literal(r: Route, verb: string, path: string) {
    r.verb == verb && '{' !in r.path && r.path == path
  }

  predicate Hit(r: Route, verb: string, path: string) {
    r.verb == verb && Accepts(r.path, path)
  }

  function FirstLiteral(list: seq<Entry>, verb: string, path: string): Option<Entry> {
    if list == [] then None
    else if Literal(list[0].route, verb, path) then Some(list[0])
    else FirstLiteral(list[1..], verb, path)
  }

  function FirstHit(list: seq<Entry>, verb: string, path: string): Option<Entry> {
    if list == [] then None
    else if Hit(list[0].route, verb, path) then Some(list[0])
    else FirstHit(list[1..], verb, path)
  }

  function Lookup(list: seq<Entry>, verb: string, path: string): RouteLookup {
    var literal := FirstLiteral(list, verb, path);
    if literal.Some? then Found(literal.value.owner, literal.value.route, map[])
    else
      var hit := FirstHit(list, verb, path);
      if hit.Some? then Found(hit.value.owner, hit.value.route, CapturesOf(hit.value.route.path, path)) else NotFound
  }

  function CapturesOf(template: string, path: string): Params {
    var m := Match(template, path);
    if m.Some? then m.value else map[]
  }

  lemma {:induction false} FirstInConcat(x: seq<Entry>, y: seq<Entry>, verb: string, path: string)
    ensures FirstLiteral(x + y, verb, path) ==
            if FirstLiteral(x, verb, path).Some? then FirstLiteral(x, verb, path) else FirstLiteral(y, verb, path)
    ensures FirstHit(x + y, verb, path) ==
            if FirstHit(x, verb, path).Some? then FirstHit(x, verb, path) else FirstHit(y, verb, path)
  {
    if x == [] {
      assert x + y == y;
    } else {
      assert (x + y)[1..] == x[1..] + y;
      FirstInConcat(x[1..], y, verb, path);
    }
  }

  lemma {:induction false} FirstIsThere(list: seq<Entry>, verb: string, path: string)
    ensures match FirstHit(list, verb, path)
            case Some(e) => e in list && Hit(e.route, verb, path)
            case None => forall e :: e in list ==> !Hit(e.route, verb, path)
    ensures match FirstLiteral(list, verb, path)
            case Some(e) => e in list && Literal(e.route, verb, path)
            case None => forall e :: e in list ==> !Literal(e.route, verb, path)
  {
    if list != [] {
      FirstIsThere(list[1..], verb, path);
      assert list == [list[0]] + list[1..];
    }
  }

  /** Resolution succeeds exactly when some live route matches, and what it returns matches
      and carries exactly the captures of that match. */
  lemma LookupIsMatch(list: seq<Entry>, verb: string, path: string)
    ensures Lookup(list, verb, path).Found? <==>
            exists e :: e in list && e.route.verb == verb && Match(e.route.path, path).Some?
    ensures match Lookup(list, verb, path)
            case NotFound => true
            case Found(owner, route, params) =>
              Entry(owner, route) in list && route.verb == verb && Match(route.path, path) == Some(params)
  {
    FirstIsThere(list, verb, path);
    var literal := FirstLiteral(list, verb, path);
    if literal.Some? {
      LiteralAccepts(literal.value.route.path, path);
    }
  }

  /** A capture-free route that names the request always wins over a templated one. */
  lemma LiteralWins(list: seq<Entry>, verb: string, path: string, e: Entry)
    requires e in list && Literal(e.route, verb, path)
    ensures Lookup(list, verb, path).Found?
    ensures Lookup(list, verb, path).route.path == path && '{' !in Lookup(list, verb, path).route.path
    ensures Lookup(list, verb, path).params == map[]
  {
    FirstIsThere(list, verb, path);
  }

  /** A request made from a live template is answered, and when that template's route answers it gets
      exactly the parameters. */
  lemma FilledIsFound(list: seq<Entry>, e: Entry, params: Params)
    requires e in list && ValidTemplate(e.route.path) && FitsTemplate(e.route.path, params)
    ensures var found := Lookup(list, e.route.verb, Fill(e.route.path, params));
            found.Found? && (found.route == e.route ==> found.params == params)
  {
    MatchUndoesFill(e.route.path, params);
    LookupIsMatch(list, e.route.verb, Fill(e.route.path, params));
    hide Match, Fill, Lookup, FitsTemplate, ValidTemplate;
  }

  // --- the owner is read off the path ---

  /** A route of plugin `id` only matches paths whose second non-empty segment is `id`. */
  lemma HitNamesItsOwner(id: string, r: Route, verb: string, path: string)
    requires ValidId(id) && WellPlaced(id, r) && Hit(r, verb, path)
    ensures |Segments(path)| >= 3 && Segments(path)[..3] == ["", "api", id]
  {
    NamespaceSegments(id, r.path);
    var ts, ps := Segments(r.path), Segments(path);
    assert '{' !in id;
    LiteralSegment("");
    LiteralSegment("api");
    LiteralSegment(id);
    assert ts[0] == "" && ts[1] == "api" && ts[2] == id;
    assert SegmentAccepts(ts[0], ps[0]) && SegmentAccepts(ts[1], ps[1]) && SegmentAccepts(ts[2], ps[2]);
  }

  lemma {:induction false} LiveEntriesOfLive(slots: seq<Slot>, e: Entry)
    ensures e in LiveEntries(slots) <==>
            exists i :: 0 <= i < |slots| && slots[i].Live? && slots[i].plugin.info.id == e.owner
                        && e.route in slots[i].plugin.routes
  {
    if slots != [] {
      LiveEntriesOfLive(slots[1..], e);
      if slots[0].Live? {
        var p := slots[0].plugin;
        assert e in Tagged(p.info.id, p.routes) <==> p.info.id == e.owner && e.route in p.routes by {
          if p.info.id == e.owner && e.route in p.routes {
            var k :| 0 <= k < |p.routes| && p.routes[k] == e.route;
            assert Tagged(p.info.id, p.routes)[k] == e;
          }
        }
      }
      forall i | 1 <= i < |slots|
        ensures slots[i] == slots[1..][i - 1]
      {
      }
      if i :| 0 <= i < |slots| && slots[i].Live? && slots[i].plugin.info.id == e.owner
              && e.route in slots[i].plugin.routes
      {
        assert i > 0 ==> slots[1..][i - 1] == slots[i];
      }
    }
  }

  /** Whoever answers, its id is the path's second non-empty segment. */
  lemma {:induction false} WinnerIsNamedByThePath(slots: seq<Slot>, verb: string, path: string)
    requires Served(slots) && Lookup(LiveEntries(slots), verb, path).Found?
    ensures |Segments(path)| >= 3
    ensures Segments(path)[..3] == ["", "api", Lookup(LiveEntries(slots), verb, path).owner]
    ensures IsLive(slots, Lookup(LiveEntries(slots), verb, path).owner)
  {
    var found := Lookup(LiveEntries(slots), verb, path);
    LookupIsMatch(LiveEntries(slots), verb, path);
    LiveEntriesOfLive(slots, Entry(found.owner, found.route));
    var i :| 0 <= i < |slots| && slots[i].Live? && slots[i].plugin.info.id == found.owner
             && found.route in slots[i].plugin.routes;
    PositionIs(slots, found.owner, i);
    HitNamesItsOwner(found.owner, found.route, verb, path);
  }

  /** The entries of one plugin, when it is live. */
  function OwnEntries(slots: seq<Slot>, id: string): seq<Entry> {
    if IsLive(slots, id) then Tagged(id, slots[Position(slots, id)].plugin.routes) else []
  }

  lemma {:induction false} NoHitsNoFirst(list: seq<Entry>, verb: string, path: string)
    requires forall e :: e in list ==> !Hit(e.route, verb, path)
    ensures FirstHit(list, verb, path).None? && FirstLiteral(list, verb, path).None?
  {
    FirstIsThere(list, verb, path);
    if FirstLiteral(list, verb, path).Some? {
      LiteralAccepts(FirstLiteral(list, verb, path).value.route.path, path);
    }
  }

  predicate Placed(slots: seq<Slot>) {
    && UniqueIds(slots)
    && forall i :: 0 <= i < |slots| && slots[i].Live? ==> ValidPlugin(slots[i].plugin)
  }

  lemma PluginsElsewhereAreSilent(p: Loaded, verb: string, path: string)
    requires ValidPlugin(p) && (|Segments(path)| < 3 || Segments(path)[2] != p.info.id)
    ensures forall e :: e in Tagged(p.info.id, p.routes) ==> !Hit(e.route, verb, path)
  {
    forall k | 0 <= k < |p.routes|
      ensures !Hit(p.routes[k], verb, path)
    {
      if Hit(p.routes[k], verb, path) {
        HitNamesItsOwner(p.info.id, p.routes[k], verb, path);
      }
    }
  }

  /** Resolving over the whole registry is resolving over the one plugin the path names. */
  lemma {:induction false} OnlyTheNamedPluginMatters(slots: seq<Slot>, verb: string, path: string, id: string)
    requires Placed(slots)
    requires |Segments(path)| >= 3 ==> id == Segments(path)[2]
    ensures FirstLiteral(LiveEntries(slots), verb, path) ==
            if |Segments(path)| < 3 then None else FirstLiteral(OwnEntries(slots, id), verb, path)
    ensures FirstHit(LiveEntries(slots), verb, path) ==
            if |Segments(path)| < 3 then None else FirstHit(OwnEntries(slots, id), verb, path)
  {
    if slots != [] {
      var rest := slots[1..];
      OnlyTheNamedPluginMatters(rest, verb, path, id);
      var mine := if slots[0].Live? then Tagged(slots[0].plugin.info.id, slots[0].plugin.routes) else [];
      FirstInConcat(mine, LiveEntries(rest), verb, path);
      if |Segments(path)| < 3 || slots[0].Info().id != id {
        if slots[0].Live? {
          PluginsElsewhereAreSilent(slots[0].plugin, verb, path);
        }
        NoHitsNoFirst(mine, verb, path);
        if slots[0].Info().id != id {
          OwnEntriesOfRest(slots, id);
        }
      } else {
        assert forall k :: 0 <= k < |rest| ==> rest[k] == slots[k + 1] && rest[k].Info().id != id;
      }
    }
  }

  lemma OwnEntriesOfRest(slots: seq<Slot>, id: string)
    requires slots != [] && slots[0].Info().id != id
    ensures OwnEntries(slots, id) == OwnEntries(slots[1..], id)
  {
  }

  predicate SameLiveSlots(a: seq<Slot>, b: seq<Slot>) {
    && (forall i :: 0 <= i < |a| && a[i].Live? ==> a[i] in b)
    && (forall i :: 0 <= i < |b| && b[i].Live? ==> b[i] in a)
  }

  lemma SameOwnEntries(a: seq<Slot>, b: seq<Slot>, id: string)
    requires UniqueIds(a) && UniqueIds(b) && SameLiveSlots(a, b)
    ensures OwnEntries(a, id) == OwnEntries(b, id)
  {
  }

  /** Registries with the same live plugins answer alike, whatever their order and whatever
      disabled records they also hold. */
  lemma {:induction false} OrderAndRecordsDoNotMatter(a: seq<Slot>, b: seq<Slot>, verb: string, path: string)
    requires Served(a) && Served(b) && SameLiveSlots(a, b)
    ensures Lookup(LiveEntries(a), verb, path) == Lookup(LiveEntries(b), verb, path)
  {
    var id := if |Segments(path)| >= 3 then Segments(path)[2] else "";
    OnlyTheNamedPluginMatters(a, verb, path, id);
    OnlyTheNamedPluginMatters(b, verb, path, id);
    SameOwnEntries(a, b, id);
  }

  /** No live route shadows another: two of one verb never accept the same set of paths. */
  lemma NoRouteShadowsAnother(slots: seq<Slot>, i: nat, j: nat, k: nat, m: nat)
    requires Served(slots) && i <= j < |slots| && slots[i].Live? && slots[j].Live?
    requires k < |slots[i].plugin.routes| && m < |slots[j].plugin.routes| && (i < j || k < m)
    requires slots[i].plugin.routes[k].verb == slots[j].plugin.routes[m].verb
    ensures exists path ::
              Accepts(slots[i].plugin.routes[k].path, path) != Accepts(slots[j].plugin.routes[m].path, path)
  {
    var r, s := slots[i].plugin.routes[k], slots[j].plugin.routes[m];
    assert KeyOf(r) in KeysOf(slots[i].plugin.routes) && KeyOf(s) in KeysOf(slots[j].plugin.routes);
    assert i < j ==> Disjoint(slots[i], slots[j]);
    assert KeyOf(r) != KeyOf(s);
    ShapeIsAcceptance(r.path, s.path);
  }
}
