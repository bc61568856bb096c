/** Widening a caller's grants with the scopes declared below them. */
module GrantExpansion {
  import opened Wrappers
  import opened ScopeGraph
  import opened ScopeHierarchy

  /** What FromEdges guarantees of every hierarchy: only lodges and patrols are linked. */
  ghost predicate Valid(c: Children) {
    forall u, v :: Edge(c, u, v) ==> Representable(u) && Representable(v)
  }

  lemma {:induction false} BuildIsValid(rows: seq<EdgeRow>)
    ensures Valid(Build(rows))
  {
    forall u, v | Edge(Build(rows), u, v)
      ensures Representable(u) && Representable(v)
    {
      BuildIsRepresentable(rows, u, v);
    }
  }

  function NodeOf(s: Scope): Node
    requires s.id.Some?
  {
    Node(TypeName(s.kind), s.id.value)
  }

  /** `t` is a different lodge or patrol at most MAX_DEPTH declared edges below `s`. */
  ghost predicate Below(c: Children, s: Scope, t: Scope) {
    && s.id.Some? && t.id.Some? && !t.kind.Troop? && t != s
    && PathWithin(c, NodeOf(s), NodeOf(t), MAX_DEPTH)
  }

  /** At most three declared edges lead from the lodge or patrol to the node, itself included. */
  ghost predicate LeadsTo(c: Children, s: Scope, n: Node) {
    && s.id.Some?
    && ((s.kind == Lodge && PathWithin(c, Node("lodge", s.id.value), n, 3))
        || (s.kind == Patrol && PathWithin(c, Node("patrol", s.id.value), n, 3)))
  }

  /** In the words of the rows: lodges are "lodge" nodes and patrols "patrol" nodes. */
  lemma BelowIsLedTo(c: Children, s: Scope, id: string)
    requires Valid(c)
    ensures var t := Scope(Lodge, Some(id)); Below(c, s, t) <==> s != t && LeadsTo(c, s, Node("lodge", id))
    ensures var t := Scope(Patrol, Some(id)); Below(c, s, t) <==> s != t && LeadsTo(c, s, Node("patrol", id))
  {
    if s.id.Some? && s.kind.Troop? {
      TroopLeadsNowhere(c, s.id.value, Node("lodge", id));
      TroopLeadsNowhere(c, s.id.value, Node("patrol", id));
    }
    hide PathWithin, Valid;
  }

  lemma TroopLeadsNowhere(c: Children, id: string, n: Node)
    requires Valid(c) && Representable(n)
    ensures !PathWithin(c, Node("troop", id), n, MAX_DEPTH)
  {
    assert "troop"[0] != "lodge"[0] && "troop"[0] != "patrol"[0];
    FirstIsRepresentable(c, Node("troop", id), n, MAX_DEPTH);
  }

  lemma FirstIsRepresentable(c: Children, a: Node, b: Node, k: nat)
    requires Valid(c)
    ensures PathWithin(c, a, b, k) && a != b ==> Representable(a)
  {
    if PathWithin(c, a, b, k) && a != b {
      var p :| WalkFromTo(c, p, a, b) && |p| <= k + 1;
      assert Edge(c, p[0], p[1]);
    }
  }

  // --- the search that marks nodes when they are queued ---

  ghost predicate Reached(trail: Queue, v: Node, d: nat) {
    exists i :: 0 <= i < |trail| && trail[i].0 == v && trail[i].1 <= d
  }

  /** `trail` lists every node ever queued with its depth; the first `h` were popped. */
  ghost predicate Descending(c: Children, start: Node, trail: Queue, h: nat) {
    && trail != [] && h <= |trail| && trail[0] == (start, 0)
    && (forall i, j :: 0 <= i < j < |trail| ==> trail[i].0 != trail[j].0 && trail[i].1 <= trail[j].1)
    && (forall i :: 0 <= i < |trail| ==>
          trail[i].0 in Universe(c, start) && trail[i].1 <= MAX_DEPTH && PathWithin(c, start, trail[i].0, trail[i].1))
    && (h < |trail| ==> forall i :: 0 <= i < |trail| ==> trail[i].1 <= trail[h].1 + 1)
  }

  ghost predicate Expanded(c: Children, trail: Queue, h: nat)
    requires h <= |trail|
  {
    forall i, v :: 0 <= i < h && trail[i].1 < MAX_DEPTH && Edge(c, trail[i].0, v) ==>
      Reached(trail, v, trail[i].1 + 1)
  }

  /** The children that were not yet marked, once each. */
  ghost predicate FreshKids(kids: seq<Node>, trail: Queue, news: seq<Node>) {
    && (forall i, j :: 0 <= i < j < |news| ==> news[i] != news[j])
    && (forall v :: v in news ==> v in kids && forall i :: 0 <= i < |trail| ==> trail[i].0 != v)
  }

  lemma DescendStep(c: Children, start: Node, trail: Queue, h: nat, news: seq<Node>)
    requires Descending(c, start, trail, h) && h < |trail|
    requires FreshKids(KidsOf(c, trail[h].0), trail, news)
    requires news != [] ==> trail[h].1 < MAX_DEPTH
    ensures Descending(c, start, trail + AtDepth(news, trail[h].1 + 1), h + 1)
  {
    var d := trail[h].1;
    forall i | 0 <= i < |news|
      ensures news[i] in Universe(c, start) && PathWithin(c, start, news[i], d + 1)
      ensures forall j :: 0 <= j < |trail| ==> trail[j].0 != news[i]
    {
      assert news[i] in news;
      PathExtend(c, start, trail[h].0, news[i], d);
    }
  }

  lemma ReachedLater(trail: Queue, more: Queue, v: Node, d: nat)
    requires Reached(trail, v, d)
    ensures Reached(trail + more, v, d)
  {
    var i :| 0 <= i < |trail| && trail[i].0 == v && trail[i].1 <= d;
    assert (trail + more)[i] == trail[i];
  }

  lemma ExpandStep(c: Children, start: Node, trail: Queue, h: nat, news: seq<Node>)
    requires Descending(c, start, trail, h) && h < |trail| && Expanded(c, trail, h)
    requires trail[h].1 < MAX_DEPTH ==>
               forall v :: v in KidsOf(c, trail[h].0) ==> v in news || Reached(trail, v, trail[h].1 + 1)
    ensures Expanded(c, trail + AtDepth(news, trail[h].1 + 1), h + 1)
  {
    var more := AtDepth(news, trail[h].1 + 1);
    var trail' := trail + more;
    forall i, v | 0 <= i < h + 1 && trail'[i].1 < MAX_DEPTH && Edge(c, trail'[i].0, v)
      ensures Reached(trail', v, trail'[i].1 + 1)
    {
      assert trail'[i] == trail[i];
      if v in news && i == h {
        var k :| 0 <= k < |news| && news[k] == v;
        assert trail'[|trail| + k] == more[k];
      } else {
        ReachedLater(trail, more, v, trail[i].1 + 1);
      }
    }
  }

  /** Once every queued node was popped, the trail holds exactly the nodes within the
      bound, each at its distance. */
  lemma {:induction false} TrailIsComplete(c: Children, start: Node, trail: Queue, v: Node, k: nat)
    requires Descending(c, start, trail, |trail|) && Expanded(c, trail, |trail|)
    requires k <= MAX_DEPTH && PathWithin(c, start, v, k)
    ensures Reached(trail, v, k)
    decreases k
  {
    if v == start {
      assert trail[0] == (start, 0);
    } else {
      var u := PathLastEdge(c, start, v, k);
      TrailIsComplete(c, start, trail, u, k - 1);
      var i :| 0 <= i < |trail| && trail[i].0 == u && trail[i].1 <= k - 1;
      assert Reached(trail, v, trail[i].1 + 1);
    }
  }

  /** Earlier in the trail means at least as near. */
  lemma TrailIsNearestFirst(c: Children, start: Node, trail: Queue, i: nat, j: nat, k: nat)
    requires Descending(c, start, trail, |trail|) && Expanded(c, trail, |trail|)
    requires i < j < |trail| && PathWithin(c, start, trail[j].0, k)
    ensures PathWithin(c, start, trail[i].0, k)
  {
    if k <= MAX_DEPTH {
      TrailIsComplete(c, start, trail, trail[j].0, k);
    }
    PathLonger(c, start, trail[i].0, trail[i].1, k);
  }

  function ScopesOf(nodes: seq<Node>): (out: seq<Scope>)
    ensures |out| == |nodes| && forall i :: 0 <= i < |nodes| ==> out[i] == ScopeOfNode(nodes[i])
  {
    seq(|nodes|, i requires 0 <= i < |nodes| => ScopeOfNode(nodes[i]))
  }

  function NodesOf(trail: Queue): (out: seq<Node>)
    ensures |out| == |trail| && forall i :: 0 <= i < |trail| ==> out[i] == trail[i].0
  {
    seq(|trail|, i requires 0 <= i < |trail| => trail[i].0)
  }

  /** Mark, report and queue the children of one popped node that were not yet marked. */
  method VisitKids(kids: seq<Node>, depth: nat, seen0: set<Node>, out0: seq<Scope>, queue0: Queue)
    returns (seen: set<Node>, out: seq<Scope>, queue: Queue, ghost news: seq<Node>)
    ensures forall v :: v in seen <==> v in seen0 || v in news
    ensures forall v :: v in kids ==> v in seen
    ensures forall v :: v in news ==> v in kids && v !in seen0
    ensures forall i, j :: 0 <= i < j < |news| ==> news[i] != news[j]
    ensures out == out0 + ScopesOf(news) && queue == queue0 + AtDepth(news, depth)
  {
    seen, out, queue, news := seen0, out0, queue0, [];
    for i := 0 to |kids|
      invariant forall v :: v in seen <==> v in seen0 || v in news
      invariant forall v :: v in kids[..i] ==> v in seen
      invariant forall v :: v in news ==> v in kids && v !in seen0
      invariant forall i, j :: 0 <= i < j < |news| ==> news[i] != news[j]
      invariant out == out0 + ScopesOf(news) && queue == queue0 + AtDepth(news, depth)
    {
      var kid := kids[i];
      if kid !in seen {
        seen := seen + {kid};
        news := news + [kid];
        out := out + [ScopeOfNode(kid)];
        queue := queue + [(kid, depth)];
      }
    }
  }

  ghost predicate Marked(trail: Queue, seen: set<Node>) {
    forall v :: v in seen <==> exists i :: 0 <= i < |trail| && trail[i].0 == v
  }

  lemma MarkedIsReached(c: Children, start: Node, trail: Queue, h: nat, seen: set<Node>, v: Node)
    requires Descending(c, start, trail, h) && h < |trail| && Marked(trail, seen) && v in seen
    ensures Reached(trail, v, trail[h].1 + 1)
  {
  }

  lemma MarkMore(trail: Queue, seen: set<Node>, news: seq<Node>, seen': set<Node>, d: nat)
    requires Marked(trail, seen)
    requires forall v :: v in seen' <==> v in seen || v in news
    ensures Marked(trail + AtDepth(news, d), seen')
  {
    var more := AtDepth(news, d);
    forall v | v in seen'
      ensures exists i :: 0 <= i < |trail + more| && (trail + more)[i].0 == v
    {
      if v in news {
        var k :| 0 <= k < |news| && news[k] == v;
        assert (trail + more)[|trail| + k] == more[k];
      } else {
        var i :| 0 <= i < |trail| && trail[i].0 == v;
        assert (trail + more)[i] == trail[i];
      }
    }
  }

  /** What holds between two pops of the search. */
  ghost predicate Descent(c: Children, start: Node, trail: Queue, h: nat, seen: set<Node>) {
    Descending(c, start, trail, h) && Expanded(c, trail, h) && Marked(trail, seen)
  }

  /** A node too deep to expand. */
  lemma DescentSkip(c: Children, start: Node, trail: Queue, h: nat, seen: set<Node>)
    requires Descent(c, start, trail, h, seen) && h < |trail| && trail[h].1 >= MAX_DEPTH
    ensures Descent(c, start, trail, h + 1, seen)
  {
  }

  /** A node whose unmarked children `news` were just marked and queued. */
  lemma DescentVisit(c: Children, start: Node, trail: Queue, h: nat, seen: set<Node>, news: seq<Node>, seen': set<Node>)
    requires Descent(c, start, trail, h, seen) && h < |trail| && trail[h].1 < MAX_DEPTH
    requires forall v :: v in seen' <==> v in seen || v in news
    requires forall v :: v in KidsOf(c, trail[h].0) ==> v in seen'
    requires forall v :: v in news ==> v in KidsOf(c, trail[h].0) && v !in seen
    requires forall i, j :: 0 <= i < j < |news| ==> news[i] != news[j]
    ensures Descent(c, start, trail + AtDepth(news, trail[h].1 + 1), h + 1, seen')
    ensures news == [] ==> seen' == seen
    ensures news != [] ==> Universe(c, start) - seen' < Universe(c, start) - seen
  {
    assert FreshKids(KidsOf(c, trail[h].0), trail, news);
    forall v | v in KidsOf(c, trail[h].0) && v !in news
      ensures Reached(trail, v, trail[h].1 + 1)
    {
      MarkedIsReached(c, start, trail, h, seen, v);
    }
    DescendStep(c, start, trail, h, news);
    ExpandStep(c, start, trail, h, news);
    MarkMore(trail, seen, news, seen', trail[h].1 + 1);
    if news != [] {
      assert news[0] in news;
      assert news[0] in Universe(c, start) - seen && news[0] !in Universe(c, start) - seen';
    }
  }

  /** The search's variables against its trail. */
  ghost predicate Tracks(trail: Queue, h: nat, queue: Queue, out: seq<Scope>) {
    0 < |trail| && h <= |trail| && queue == trail[h..] && out == ScopesOf(NodesOf(trail[1..]))
  }

  lemma TracksVisit(trail: Queue, h: nat, queue: Queue, out: seq<Scope>, news: seq<Node>, d: nat)
    requires Tracks(trail, h, queue, out) && h < |trail|
    ensures Tracks(trail + AtDepth(news, d), h + 1, queue[1..] + AtDepth(news, d), out + ScopesOf(news))
  {
  }

  /** Nodes at distance 1..MAX_DEPTH from `start`, nearest first. Nodes are marked seen when queued. */
  method DescendantsOf(c: Children, start: Node) returns (out: seq<Scope>, ghost trail: Queue)
    ensures Descending(c, start, trail, |trail|) && Expanded(c, trail, |trail|)
    ensures out == ScopesOf(NodesOf(trail[1..]))
  {
    var seen := {start};
    var queue: Queue := [(start, 0)];
    out := [];
    trail := [(start, 0)];
    ghost var h := 0;
    PathHere(c, start);
    assert Marked(trail, seen) by { assert trail[0].0 == start; }
    while queue != []
      invariant Tracks(trail, h, queue, out)
      invariant Descent(c, start, trail, h, seen)
      decreases Universe(c, start) - seen, |queue|
    {
      var (node, depth) := queue[0];
      assert queue[0] == trail[h];
      if depth >= MAX_DEPTH {
        DescentSkip(c, start, trail, h, seen);
        queue := queue[1..];
      } else {
        queue, out, seen, trail := Visit(c, start, trail, h, seen, queue, out);
      }
      h := h + 1;
    }
  }

  /** One round of the search: pop the front, then mark, report and queue its unmarked children. */
  method Visit(c: Children, start: Node, ghost trail0: Queue, ghost h: nat, seen0: set<Node>, queue0: Queue,
               out0: seq<Scope>)
    returns (queue: Queue, out: seq<Scope>, seen: set<Node>, ghost trail: Queue)
    requires Tracks(trail0, h, queue0, out0) && Descent(c, start, trail0, h, seen0)
    requires queue0 != [] && queue0[0].1 < MAX_DEPTH
    ensures Tracks(trail, h + 1, queue, out) && Descent(c, start, trail, h + 1, seen)
    ensures seen == seen0 ==> |queue| < |queue0|
    ensures seen != seen0 ==> Universe(c, start) - seen < Universe(c, start) - seen0
  {
    hide Descending, Expanded, Marked;
    var (node, depth) := queue0[0];
    assert queue0[0] == trail0[h];
    var kids := if node in c then c[node] else [];
    ghost var news: seq<Node>;
    seen, out, queue, news := VisitKids(kids, depth + 1, seen0, out0, queue0[1..]);
    DescentVisit(c, start, trail0, h, seen0, news, seen);
    TracksVisit(trail0, h, queue0, out0, news, depth + 1);
    trail := trail0 + AtDepth(news, depth + 1);
  }

  // --- descendants of a scope, and the expansion of a caller's grants ---

  /** `t` is within every bound that `u` is within, seen from `s`. */
  ghost predicate NoFarther(c: Children, s: Scope, t: Scope, u: Scope) {
    && s.id.Some? && t.id.Some? && u.id.Some?
    && forall k :: PathWithin(c, NodeOf(s), NodeOf(u), k) ==> PathWithin(c, NodeOf(s), NodeOf(t), k)
  }

  /** Descendants of `s`: exactly the scopes below it, each once, nearest first. */
  method Descendants(c: Children, s: Scope) returns (out: seq<Scope>)
    requires Valid(c)
    ensures forall t :: t in out <==> Below(c, s, t)
    ensures forall id :: var t := Scope(Lodge, Some(id)); t in out <==> t != s && LeadsTo(c, s, Node("lodge", id))
    ensures forall id :: var t := Scope(Patrol, Some(id)); t in out <==> t != s && LeadsTo(c, s, Node("patrol", id))
    ensures forall t :: t in out ==> t.id.Some? && t.kind != Troop
    ensures forall i, j :: 0 <= i < j < |out| ==> out[i] != out[j]
    ensures forall i, j :: 0 <= i < j < |out| ==> NoFarther(c, s, out[i], out[j])
  {
    forall id
      ensures Below(c, s, Scope(Lodge, Some(id))) <==>
              s != Scope(Lodge, Some(id)) && LeadsTo(c, s, Node("lodge", id))
      ensures Below(c, s, Scope(Patrol, Some(id))) <==>
              s != Scope(Patrol, Some(id)) && LeadsTo(c, s, Node("patrol", id))
    {
      BelowIsLedTo(c, s, id);
    }
    hide LeadsTo;
    if s.id.None? {
      return [];
    }
    ghost var trail: Queue;
    out, trail := DescendantsOf(c, NodeOf(s));
    TrailScopes(c, s, trail, out);
  }

  lemma ReachedNodeIsRepresentable(c: Children, a: Node, b: Node, k: nat)
    requires Valid(c) && PathWithin(c, a, b, k) && a != b
    ensures Representable(b)
  {
    var u := PathLastEdge(c, a, b, k);
  }

  lemma ScopeNodeRoundTrip(s: Scope, n: Node)
    ensures Representable(n) ==> NodeOf(ScopeOfNode(n)) == n && !ScopeOfNode(n).kind.Troop?
    ensures s.id.Some? && !s.kind.Troop? ==> ScopeOfNode(NodeOf(s)) == s && Representable(NodeOf(s))
    ensures s.id.Some? && s.kind.Troop? ==> !Representable(NodeOf(s))
  {
  }

  lemma TrailNoFarther(c: Children, s: Scope, trail: Queue, i: nat, j: nat)
    requires s.id.Some? && Descending(c, NodeOf(s), trail, |trail|) && Expanded(c, trail, |trail|)
    requires 0 < i < j < |trail|
    requires NodeOf(ScopeOfNode(trail[i].0)) == trail[i].0 && NodeOf(ScopeOfNode(trail[j].0)) == trail[j].0
    requires ScopeOfNode(trail[i].0).id.Some? && ScopeOfNode(trail[j].0).id.Some?
    ensures NoFarther(c, s, ScopeOfNode(trail[i].0), ScopeOfNode(trail[j].0))
  {
    hide PathWithin, Descending, Expanded, NodeOf, ScopeOfNode;
    forall k | PathWithin(c, NodeOf(s), trail[j].0, k)
      ensures PathWithin(c, NodeOf(s), trail[i].0, k)
    {
      TrailIsNearestFirst(c, NodeOf(s), trail, i, j, k);
    }
  }

  lemma TrailScopeAt(c: Children, s: Scope, trail: Queue, out: seq<Scope>, i: nat)
    requires Valid(c) && s.id.Some? && Descending(c, NodeOf(s), trail, |trail|)
    requires out == ScopesOf(NodesOf(trail[1..])) && i < |out|
    ensures i + 1 < |trail| && out[i] == ScopeOfNode(trail[i + 1].0) && out[i].id.Some?
    ensures NodeOf(out[i]) == trail[i + 1].0 && Below(c, s, out[i])
  {
    TrailEntry(c, s, trail, i + 1);
  }

  lemma TrailDistinct(c: Children, start: Node, trail: Queue, i: nat, j: nat)
    requires Descending(c, start, trail, |trail|) && i < j < |trail|
    ensures trail[i].0 != trail[j].0
  {
  }

  /** A trail's scopes are the scopes below its start, each once, nearest first. */
  lemma TrailScopes(c: Children, s: Scope, trail: Queue, out: seq<Scope>)
    requires Valid(c) && s.id.Some?
    requires Descending(c, NodeOf(s), trail, |trail|) && Expanded(c, trail, |trail|)
    requires out == ScopesOf(NodesOf(trail[1..]))
    ensures forall t :: t in out <==> Below(c, s, t)
    ensures forall i, j :: 0 <= i < j < |out| ==> out[i] != out[j] && NoFarther(c, s, out[i], out[j])
  {
    hide *;
    forall i | 0 <= i < |out|
      ensures Below(c, s, out[i])
    {
      TrailScopeAt(c, s, trail, out, i);
    }
    forall t | Below(c, s, t)
      ensures t in out
    {
      BelowIsInTrail(c, s, trail, out, t);
    }
    forall i, j | 0 <= i < j < |out|
      ensures out[i] != out[j] && NoFarther(c, s, out[i], out[j])
    {
      TrailScopeAt(c, s, trail, out, i);
      TrailScopeAt(c, s, trail, out, j);
      TrailDistinct(c, NodeOf(s), trail, i + 1, j + 1);
      TrailNoFarther(c, s, trail, i + 1, j + 1);
    }
  }

  lemma BelowIsInTrail(c: Children, s: Scope, trail: Queue, out: seq<Scope>, t: Scope)
    requires s.id.Some? && Descending(c, NodeOf(s), trail, |trail|) && Expanded(c, trail, |trail|)
    requires out == ScopesOf(NodesOf(trail[1..])) && Below(c, s, t)
    ensures t in out
  {
    TrailIsComplete(c, NodeOf(s), trail, NodeOf(t), MAX_DEPTH);
    var i :| 0 <= i < |trail| && trail[i].0 == NodeOf(t) && trail[i].1 <= MAX_DEPTH;
    ScopeNodeRoundTrip(t, NodeOf(t));
    ScopeNodeRoundTrip(s, NodeOf(s));
    assert out[i - 1] == t;
  }

  lemma TrailEntry(c: Children, s: Scope, trail: Queue, i: nat)
    requires Valid(c) && s.id.Some? && Descending(c, NodeOf(s), trail, |trail|) && 0 < i < |trail|
    ensures NodeOf(ScopeOfNode(trail[i].0)) == trail[i].0 && Below(c, s, ScopeOfNode(trail[i].0))
  {
    var n := trail[i].0;
    assert n != trail[0].0;
    ReachedNodeIsRepresentable(c, NodeOf(s), n, trail[i].1);
    ScopeNodeRoundTrip(s, n);
    PathLonger(c, NodeOf(s), n, trail[i].1, MAX_DEPTH);
  }

  // --- expand ---

  function IdOrEmpty(id: Option<string>): string {
    if id.Some? then id.value else ""
  }

  /** The key a grant is recorded under while expanding; a missing id reads as the empty text. */
  function Key(g: Grant): (string, string, string) {
    (g.role, TypeName(g.scope.kind), IdOrEmpty(g.scope.id))
  }

  ghost predicate WellFormedGrants(grants: seq<Grant>) {
    forall g :: g in grants ==> g.scope.WellFormed()
  }

  ghost predicate KeysOf(grants: seq<Grant>, seen: set<(string, string, string)>) {
    && (forall g :: g in grants ==> Key(g) in seen)
    && (forall k :: k in seen ==> exists g :: g in grants && Key(g) == k)
  }

  /** Some original grant of the role is, or lies above, the scope. */
  ghost predicate DeclaredBelow(c: Children, originals: seq<Grant>, g: Grant) {
    exists o :: o in originals && o.role == g.role && Below(c, o.scope, g.scope)
  }

  /** `grants` starts with the originals; whatever follows is new and declared below one of them. */
  ghost predicate Widened(c: Children, originals: seq<Grant>, grants: seq<Grant>) {
    && originals <= grants
    && (forall i :: |originals| <= i < |grants| ==>
          grants[i] !in grants[..i] && grants[i].scope.id.Some? && DeclaredBelow(c, originals, grants[i]))
  }

  /** A lodge or patrol grant's key is taken exactly when the grant is there. */
  lemma KeyTaken(c: Children, originals: seq<Grant>, grants: seq<Grant>, seen: set<(string, string, string)>, d: Grant)
    requires Widened(c, originals, grants) && KeysOf(grants, seen)
    requires !d.scope.kind.Troop? && d.scope.id.Some?
    ensures d in grants ==> Key(d) in seen
    ensures WellFormedGrants(originals) && Key(d) in seen ==> d in grants
  {
  }

  lemma KeysOfOneMore(grants: seq<Grant>, seen: set<(string, string, string)>, d: Grant)
    requires KeysOf(grants, seen)
    ensures KeysOf(grants + [d], seen + {Key(d)})
  {
  }

  lemma BelowDeclares(c: Children, originals: seq<Grant>, g: Grant, t: Scope)
    requires g in originals && Below(c, g.scope, t)
    ensures t.id.Some? && !t.kind.Troop? && DeclaredBelow(c, originals, Grant(g.role, t))
  {
  }

  lemma WidenByOne(c: Children, originals: seq<Grant>, grants: seq<Grant>, d: Grant)
    requires Widened(c, originals, grants)
    requires d !in grants && d.scope.id.Some? && DeclaredBelow(c, originals, d)
    ensures Widened(c, originals, grants + [d])
  {
  }

  /** Add the descendants of one original grant under its role, skipping the keys already there. */
  method AddDescendants(c: Children, ghost originals: seq<Grant>, g: Grant, below: seq<Scope>,
                        grants0: seq<Grant>, seen0: set<(string, string, string)>)
    returns (grants: seq<Grant>, seen: set<(string, string, string)>)
    requires g in originals && forall t :: t in below <==> Below(c, g.scope, t)
    requires Widened(c, originals, grants0) && KeysOf(grants0, seen0)
    ensures Widened(c, originals, grants) && KeysOf(grants, seen) && grants0 <= grants
    ensures WellFormedGrants(originals) ==> forall t :: t in below ==> Grant(g.role, t) in grants
  {
    hide Below, DeclaredBelow, Widened, KeysOf, WellFormedGrants, Key;
    grants, seen := grants0, seen0;
    for i := 0 to |below|
      invariant Widened(c, originals, grants) && KeysOf(grants, seen) && grants0 <= grants
      invariant WellFormedGrants(originals) ==> forall t :: t in below[..i] ==> Grant(g.role, t) in grants
    {
      var d := Grant(g.role, below[i]);
      assert below[i] in below;
      BelowDeclares(c, originals, g, below[i]);
      KeyTaken(c, originals, grants, seen, d);
      if Key(d) !in seen {
        WidenByOne(c, originals, grants, d);
        KeysOfOneMore(grants, seen, d);
        seen := seen + {Key(d)};
        grants := grants + [d];
      }
    }
  }

  ghost function RolesOf(grants: seq<Grant>): set<string> {
    set g | g in grants :: g.role
  }

  /** A grant list that covers the scope for the role. */
  ghost predicate RoleCovers(grants: seq<Grant>, role: string, t: Scope) {
    exists g :: g in grants && g.role == role && g.scope.Covers(t)
  }

  /** What an original grant list is meant to reach: flat coverage, or downward through the edges. */
  ghost predicate RoleReaches(c: Children, grants: seq<Grant>, role: string, t: Scope) {
    exists g :: g in grants && g.role == role && (g.scope.Covers(t) || Below(c, g.scope, t))
  }

  /** Some grant of the role leads down to the node. */
  ghost predicate RoleLeadsTo(c: Children, grants: seq<Grant>, role: string, n: Node) {
    exists g :: g in grants && g.role == role && LeadsTo(c, g.scope, n)
  }

  /** Which lodge and patrol grants an expansion holds, by their rows. */
  lemma ExpandedInRows(c: Children, originals: seq<Grant>, grants: seq<Grant>, role: string, id: string)
    requires Valid(c) && forall g :: g in grants <==> g in originals || DeclaredBelow(c, originals, g)
    ensures var d := Grant(role, Scope(Lodge, Some(id)));
            d in grants <==> d in originals || RoleLeadsTo(c, originals, role, Node("lodge", id))
    ensures var d := Grant(role, Scope(Patrol, Some(id)));
            d in grants <==> d in originals || RoleLeadsTo(c, originals, role, Node("patrol", id))
  {
    forall g | g in originals
      ensures Below(c, g.scope, Scope(Lodge, Some(id))) <==>
              g.scope != Scope(Lodge, Some(id)) && LeadsTo(c, g.scope, Node("lodge", id))
      ensures Below(c, g.scope, Scope(Patrol, Some(id))) <==>
              g.scope != Scope(Patrol, Some(id)) && LeadsTo(c, g.scope, Node("patrol", id))
    {
      BelowIsLedTo(c, g.scope, id);
    }
    hide Below, LeadsTo, Valid;
  }

  /** The caller's grants, each widened with its declared descendants. */
  method Expand(c: Children, identity: Identity) returns (r: Identity)
    requires Valid(c)
    ensures r.user == identity.user && Widened(c, identity.grants, r.grants)
    ensures RolesOf(r.grants) == RolesOf(identity.grants)
    ensures WellFormedGrants(identity.grants) ==>
              forall g :: g in r.grants <==> g in identity.grants || DeclaredBelow(c, identity.grants, g)
    ensures WellFormedGrants(identity.grants) ==>
              forall role, t :: RoleCovers(r.grants, role, t) <==> RoleReaches(c, identity.grants, role, t)
    ensures WellFormedGrants(identity.grants) ==>
              forall role, id ::
                var d := Grant(role, Scope(Lodge, Some(id)));
                d in r.grants <==> d in identity.grants || RoleLeadsTo(c, identity.grants, role, Node("lodge", id))
    ensures WellFormedGrants(identity.grants) ==>
              forall role, id ::
                var d := Grant(role, Scope(Patrol, Some(id)));
                d in r.grants <==> d in identity.grants || RoleLeadsTo(c, identity.grants, role, Node("patrol", id))
  {
    hide RoleLeadsTo, RoleCovers, RoleReaches;
    hide Below, DeclaredBelow, Widened, KeysOf, WellFormedGrants, Valid, AllBelowAdded, RolesOf;
    var originals := identity.grants;
    var grants := originals;
    var seen := set g | g in originals :: Key(g);
    NothingAddedYet(c, originals, seen);
    for i := 0 to |originals|
      invariant Widened(c, originals, grants) && KeysOf(grants, seen)
      invariant WellFormedGrants(originals) ==> AllBelowAdded(c, originals[..i], grants)
    {
      var below := Descendants(c, originals[i].scope);
      ghost var before := grants;
      grants, seen := AddDescendants(c, originals, originals[i], below, grants, seen);
      if WellFormedGrants(originals) {
        OneMoreAdded(c, originals, i, below, before, grants);
      }
    }
    assert originals[..|originals|] == originals;
    r := Identity(identity.user, grants);
    WidenedRoles(c, originals, grants);
    if WellFormedGrants(originals) {
      WidenedExactly(c, originals, grants);
      forall role, t
        ensures RoleCovers(grants, role, t) <==> RoleReaches(c, originals, role, t)
      {
        CoverageIsReach(c, originals, grants, role, t);
      }
      forall role, id
        ensures Grant(role, Scope(Lodge, Some(id))) in grants <==>
                Grant(role, Scope(Lodge, Some(id))) in originals || RoleLeadsTo(c, originals, role, Node("lodge", id))
        ensures Grant(role, Scope(Patrol, Some(id))) in grants <==>
                Grant(role, Scope(Patrol, Some(id))) in originals || RoleLeadsTo(c, originals, role, Node("patrol", id))
      {
        ExpandedInRows(c, originals, grants, role, id);
      }
    }
  }

  lemma NothingAddedYet(c: Children, originals: seq<Grant>, seen: set<(string, string, string)>)
    requires seen == set g | g in originals :: Key(g)
    ensures Widened(c, originals, originals) && KeysOf(originals, seen) && AllBelowAdded(c, originals[..0], originals)
  {
  }

  lemma OneMoreAdded(c: Children, originals: seq<Grant>, i: nat, below: seq<Scope>, before: seq<Grant>,
                     grants: seq<Grant>)
    requires i < |originals| && AllBelowAdded(c, originals[..i], before) && before <= grants
    requires forall t :: t in below <==> Below(c, originals[i].scope, t)
    requires forall t :: t in below ==> Grant(originals[i].role, t) in grants
    ensures AllBelowAdded(c, originals[..i + 1], grants)
  {
  }

  ghost predicate AllBelowAdded(c: Children, originals: seq<Grant>, grants: seq<Grant>) {
    forall o, t :: o in originals && Below(c, o.scope, t) ==> Grant(o.role, t) in grants
  }

  lemma WidenedRoles(c: Children, originals: seq<Grant>, grants: seq<Grant>)
    requires Widened(c, originals, grants)
    ensures RolesOf(grants) == RolesOf(originals)
  {
  }

  lemma WidenedExactly(c: Children, originals: seq<Grant>, grants: seq<Grant>)
    requires Widened(c, originals, grants) && AllBelowAdded(c, originals, grants)
    ensures forall g :: g in grants <==> g in originals || DeclaredBelow(c, originals, g)
  {
  }

  lemma CoverageIsReach(c: Children, originals: seq<Grant>, grants: seq<Grant>, role: string, t: Scope)
    requires forall g :: g in grants <==> g in originals || DeclaredBelow(c, originals, g)
    ensures RoleCovers(grants, role, t) <==> RoleReaches(c, originals, role, t)
  {
    if RoleReaches(c, originals, role, t) {
      var o :| o in originals && o.role == role && (o.scope.Covers(t) || Below(c, o.scope, t));
      if o.scope.Covers(t) {
        assert o in grants;
      } else {
        assert DeclaredBelow(c, originals, Grant(role, t));
        assert Grant(role, t) in grants;
      }
    }
  }

  // --- more declared edges never take coverage away ---

  /** Appending a declared row keeps every coverage the earlier rows gave. */
  lemma {:induction false} AppendingKeepsCoverage(rows: seq<EdgeRow>, e: EdgeRow, grants: seq<Grant>, role: string,
                                                  t: Scope)
    requires RoleReaches(Build(rows), grants, role, t)
    ensures RoleReaches(Build(rows + [e]), grants, role, t)
  {
  }

  // --- coverage is what was declared ---

  /** Nodes joined by rows that were declared and accepted, each from parent to child. */
  ghost predicate DeclaredPath(rows: seq<EdgeRow>, p: seq<Node>) {
    |p| > 0 && forall i, j :: 0 <= i && j == i + 1 && j < |p| ==> Declared(rows, p[i], p[j])
  }

  ghost predicate Declared(rows: seq<EdgeRow>, u: Node, v: Node) {
    exists k :: AcceptedAt(rows, k, u, v)
  }

  ghost predicate DeclaredPathTo(rows: seq<EdgeRow>, p: seq<Node>, a: Node, b: Node) {
    DeclaredPath(rows, p) && p[0] == a && p[|p| - 1] == b && 1 < |p| <= MAX_DEPTH + 1
  }

  /** Between one and MAX_DEPTH accepted rows lead down from the one scope to the other. */
  ghost predicate DeclaredDown(rows: seq<EdgeRow>, s: Scope, t: Scope) {
    s.id.Some? && t.id.Some? && exists p :: DeclaredPathTo(rows, p, NodeOf(s), NodeOf(t))
  }

  lemma {:induction false} DeclaredIsWalk(rows: seq<EdgeRow>, p: seq<Node>)
    ensures DeclaredPath(rows, p) <==> Walk(Build(rows), p)
  {
    forall i, j | 0 <= i && j == i + 1 && j < |p|
      ensures Declared(rows, p[i], p[j]) <==> Edge(Build(rows), p[i], p[j])
    {
      EdgesAreAcceptedRows(rows, p[i], p[j]);
    }
    hide Build, Edge, Declared;
  }

  lemma TypeNamesDiffer(a: Scope, b: Scope)
    requires a.id.Some? && b.id.Some?
    ensures NodeOf(a) == NodeOf(b) <==> a == b
    ensures Representable(NodeOf(a)) <==> !a.kind.Troop?
  {
    assert "lodge"[0] != "patrol"[0] && "lodge"[0] != "troop"[0] && "patrol"[0] != "troop"[0];
  }

  lemma {:induction false} BelowIsDeclaredDown(rows: seq<EdgeRow>, s: Scope, t: Scope)
    ensures Below(Build(rows), s, t) <==> t != s && DeclaredDown(rows, s, t)
  {
    hide Build, TypeName;
    if s.id.Some? && t.id.Some? {
      TypeNamesDiffer(s, t);
      TypeNamesDiffer(t, s);
      forall p
        ensures DeclaredPath(rows, p) <==> Walk(Build(rows), p)
      {
        DeclaredIsWalk(rows, p);
      }
      hide DeclaredPath, Walk;
      if Below(Build(rows), s, t) {
        var p :| WalkFromTo(Build(rows), p, NodeOf(s), NodeOf(t)) && |p| <= MAX_DEPTH + 1;
        assert DeclaredPathTo(rows, p, NodeOf(s), NodeOf(t));
      }
      if t != s && DeclaredDown(rows, s, t) {
        var p :| DeclaredPathTo(rows, p, NodeOf(s), NodeOf(t));
        assert WalkFromTo(Build(rows), p, NodeOf(s), NodeOf(t));
        LastIsRepresentable(rows, p);
      }
    }
  }

  lemma {:induction false} LastIsRepresentable(rows: seq<EdgeRow>, p: seq<Node>)
    requires Walk(Build(rows), p) && |p| > 1
    ensures Representable(p[|p| - 1])
  {
    BuildIsRepresentable(rows, p[|p| - 2], p[|p| - 1]);
  }

  ghost predicate RoleDeclaredDown(rows: seq<EdgeRow>, grants: seq<Grant>, role: string, t: Scope) {
    exists g :: g in grants && g.role == role && DeclaredDown(rows, g.scope, t)
  }

  /** Coverage beyond the caller's own grants is exactly what was declared, downward only: a role
      reaches a scope exactly when one of its grants covers it, or when one to MAX_DEPTH accepted
      rows lead down to it from one of its grants. */
  lemma {:induction false} CoverageIsDeclared(rows: seq<EdgeRow>, grants: seq<Grant>, role: string, t: Scope)
    ensures RoleReaches(Build(rows), grants, role, t) <==>
            RoleCovers(grants, role, t) || RoleDeclaredDown(rows, grants, role, t)
  {
    hide Build, Below, DeclaredDown;
    forall g | g in grants
      ensures Below(Build(rows), g.scope, t) <==> t != g.scope && DeclaredDown(rows, g.scope, t)
      ensures t == g.scope ==> g.scope.Covers(t)
    {
      BelowIsDeclaredDown(rows, g.scope, t);
    }
  }

  /** Between one and three accepted rows lead from the grant's lodge or patrol to the node. */
  ghost predicate RowsLead(rows: seq<EdgeRow>, g: Grant, n: Node) {
    && g.scope.id.Some?
    && ((g.scope.kind == Lodge && RowsLeadFrom(rows, Node("lodge", g.scope.id.value), n))
        || (g.scope.kind == Patrol && RowsLeadFrom(rows, Node("patrol", g.scope.id.value), n)))
  }

  ghost predicate RowsLeadFrom(rows: seq<EdgeRow>, a: Node, b: Node) {
    exists p :: DeclaredPath(rows, p) && p[0] == a && p[|p| - 1] == b && 1 < |p| <= 4
  }

  ghost predicate RoleHasRows(rows: seq<EdgeRow>, grants: seq<Grant>, role: string, n: Node) {
    exists g :: g in grants && g.role == role && RowsLead(rows, g, n)
  }

  lemma {:induction false} DownIsRowsLead(rows: seq<EdgeRow>, g: Grant, id: string)
    ensures DeclaredDown(rows, g.scope, Scope(Lodge, Some(id))) <==> RowsLead(rows, g, Node("lodge", id))
    ensures DeclaredDown(rows, g.scope, Scope(Patrol, Some(id))) <==> RowsLead(rows, g, Node("patrol", id))
  {
    assert "troop"[0] != "lodge"[0] && "troop"[0] != "patrol"[0];
    if g.scope.id.Some? {
      var a := NodeOf(g.scope);
      PathsAreRows(rows, a, Node("lodge", id));
      PathsAreRows(rows, a, Node("patrol", id));
      RowsLeaveLodgesAndPatrols(rows, a, Node("lodge", id));
      RowsLeaveLodgesAndPatrols(rows, a, Node("patrol", id));
      hide DeclaredPathTo, RowsLeadFrom, Build;
      assert DeclaredDown(rows, g.scope, Scope(Lodge, Some(id))) <==> RowsLeadFrom(rows, a, Node("lodge", id)) by {
        assert NodeOf(Scope(Lodge, Some(id))) == Node("lodge", id);
      }
      assert DeclaredDown(rows, g.scope, Scope(Patrol, Some(id))) <==> RowsLeadFrom(rows, a, Node("patrol", id)) by {
        assert NodeOf(Scope(Patrol, Some(id))) == Node("patrol", id);
      }
      hide DeclaredDown;
      match g.scope.kind
      case Troop => assert a.kind == "troop";
      case Lodge => assert a == Node("lodge", g.scope.id.value);
      case Patrol => assert a == Node("patrol", g.scope.id.value);
    }
  }

  lemma {:induction false} RowsLeaveLodgesAndPatrols(rows: seq<EdgeRow>, a: Node, b: Node)
    ensures RowsLeadFrom(rows, a, b) ==> a.kind == "lodge" || a.kind == "patrol"
  {
    if RowsLeadFrom(rows, a, b) {
      var p :| DeclaredPath(rows, p) && p[0] == a && p[|p| - 1] == b && 1 < |p| <= 4;
      DeclaredIsWalk(rows, p);
      assert Edge(Build(rows), p[0], p[1]);
      BuildIsRepresentable(rows, p[0], p[1]);
    }
  }

  lemma {:induction false} PathsAreRows(rows: seq<EdgeRow>, a: Node, b: Node)
    ensures RowsLeadFrom(rows, a, b) <==> exists p :: DeclaredPathTo(rows, p, a, b)
  {
    if p :| DeclaredPath(rows, p) && p[0] == a && p[|p| - 1] == b && 1 < |p| <= 4 {
      assert DeclaredPathTo(rows, p, a, b);
    }
  }

  /** In the words of the rows: a role reaches a lodge, or a patrol, exactly when it holds a grant there or
      at the troop, or one to three accepted rows lead to it from one of its lodges or patrols. */
  lemma {:induction false} CoverageInRows(rows: seq<EdgeRow>, grants: seq<Grant>, role: string, id: string)
    ensures RoleReaches(Build(rows), grants, role, Scope(Lodge, Some(id))) <==>
            || (exists g :: g in grants && g.role == role && g.scope.kind == Troop)
            || Grant(role, Scope(Lodge, Some(id))) in grants
            || RoleHasRows(rows, grants, role, Node("lodge", id))
    ensures RoleReaches(Build(rows), grants, role, Scope(Patrol, Some(id))) <==>
            || (exists g :: g in grants && g.role == role && g.scope.kind == Troop)
            || Grant(role, Scope(Patrol, Some(id))) in grants
            || RoleHasRows(rows, grants, role, Node("patrol", id))
  {
    CoverageIsDeclared(rows, grants, role, Scope(Lodge, Some(id)));
    CoverageIsDeclared(rows, grants, role, Scope(Patrol, Some(id)));
    forall g | g in grants
      ensures DeclaredDown(rows, g.scope, Scope(Lodge, Some(id))) <==> RowsLead(rows, g, Node("lodge", id))
      ensures DeclaredDown(rows, g.scope, Scope(Patrol, Some(id))) <==> RowsLead(rows, g, Node("patrol", id))
    {
      DownIsRowsLead(rows, g, id);
    }
    hide RoleReaches, Build, DeclaredDown, RowsLead;
    forall kind: ScopeType
      ensures RoleCovers(grants, role, Scope(kind, Some(id))) <==>
              || (exists g :: g in grants && g.role == role && g.scope.kind == Troop)
              || Grant(role, Scope(kind, Some(id))) in grants
    {
      if Grant(role, Scope(kind, Some(id))) in grants {
        assert Grant(role, Scope(kind, Some(id))).scope.Covers(Scope(kind, Some(id)));
      }
    }
    hide RoleCovers;
  }
}
