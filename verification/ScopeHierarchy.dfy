/** Scope hierarchy: which declared edges are accepted, and how a caller's grants
    are widened with the scopes declared below them. */
module ScopeHierarchy {
  import opened Wrappers
  import opened ScopeGraph

  datatype ScopeType = Troop | Lodge | Patrol

  datatype Scope = Scope(kind: ScopeType, id: Option<string>) {
    /** Flat coverage: troop covers everything, otherwise type and id must agree. */
    predicate Covers(other: Scope) {
      kind.Troop? || (kind == other.kind && id == other.id)
    }

    /** Only the troop scope carries no id. */
    predicate WellFormed() {
      id.None? ==> kind.Troop?
    }
  }

  datatype Grant = Grant(role: string, scope: Scope)

  datatype Identity = Identity(user: string, grants: seq<Grant>)

  /** One row of core.scope_hierarchy. */
  datatype EdgeRow = EdgeRow(parent: Node, child: Node)

  function TypeName(t: ScopeType): string {
    match t
    case Troop => "troop"
    case Lodge => "lodge"
    case Patrol => "patrol"
  }

  function ScopeOfNode(n: Node): Scope {
    Scope(if n.kind == "lodge" then Lodge else Patrol, Some(n.id))
  }

  predicate Representable(n: Node) {
    n.kind == "lodge" || n.kind == "patrol"
  }

  // --- accepting edges ---

  function AddChild(c: Children, parent: Node, child: Node): Children {
    c[parent := KidsOf(c, parent) + [child]]
  }

  /** An edge is kept when its ends are representable, differ, and the parent is not
      already within MAX_DEPTH edges below the child. */
  ghost predicate Accepts(c: Children, e: EdgeRow) {
    && Representable(e.parent)
    && Representable(e.child)
    && e.parent != e.child
    && !PathWithin(c, e.child, e.parent, MAX_DEPTH)
  }

  ghost function Build(rows: seq<EdgeRow>): Children {
    if rows == [] then map[]
    else
      var c := Build(rows[..|rows| - 1]);
      var e := rows[|rows| - 1];
      if Accepts(c, e) then AddChild(c, e.parent, e.child) else c
  }

  /** Build the child map from the declared rows, dropping the rows that are refused. */
  method FromEdges(rows: seq<EdgeRow>) returns (c: Children)
    ensures c == Build(rows)
  {
    c := map[];
    for i := 0 to |rows|
      invariant c == Build(rows[..i])
    {
      assert rows[..i + 1][..i] == rows[..i];
      var e := rows[i];
      if !Representable(e.parent) || !Representable(e.child) {
        continue;
      }
      if e.parent == e.child {
        continue;
      }
      var closes := Reachable(c, e.child, e.parent);
      if closes {
        continue;
      }
      c := AddChild(c, e.parent, e.child);
    }
    assert rows[..|rows|] == rows;
  }

  /** A closed walk of `m` edges. */
  ghost predicate Cycle(c: Children, p: seq<Node>) {
    Walk(c, p) && |p| > 1 && p[0] == p[|p| - 1]
  }

  ghost predicate NoShortCycle(c: Children) {
    forall p :: Cycle(c, p) ==> |p| - 1 > MAX_DEPTH + 1
  }

  lemma AddedEdges(c: Children, parent: Node, child: Node)
    ensures forall u, v :: Edge(AddChild(c, parent, child), u, v) <==> Edge(c, u, v) || (u == parent && v == child)
  {
  }

  /** The new edge leaves `parent`, so a walk up to its first visit of `parent` is an old walk. */
  lemma WalkBeforeTheNewEdge(c: Children, parent: Node, child: Node, q: seq<Node>, j: nat)
    requires WalkFromTo(AddChild(c, parent, child), q, child, parent)
    requires j < |q| && q[j] == parent && forall i :: 0 <= i < j ==> q[i] != parent
    ensures PathWithin(c, child, parent, |q| - 1)
  {
    AddedEdges(c, parent, child);
    assert WalkFromTo(c, q[..j + 1], child, parent);
  }

  lemma WalkToParentIsOld(c: Children, parent: Node, child: Node, q: seq<Node>)
    requires WalkFromTo(AddChild(c, parent, child), q, child, parent)
    ensures PathWithin(c, child, parent, |q| - 1)
  {
    var j := 0;
    while q[j] != parent
      invariant j < |q| && forall i :: 0 <= i < j ==> q[i] != parent
      decreases |q| - j
    {
      j := j + 1;
    }
    WalkBeforeTheNewEdge(c, parent, child, q, j);
  }

  /** Turn a closed walk so that it starts just after position `i`. */
  lemma Rotated(c: Children, p: seq<Node>, i: nat)
    requires Cycle(c, p) && i + 1 < |p|
    ensures WalkFromTo(c, p[i + 1..] + p[1..i + 1], p[i + 1], p[i])
    ensures |p[i + 1..] + p[1..i + 1]| == |p| - 1
  {
  }

  lemma OutOfReach(c: Children, a: Node, b: Node, k: nat, m: nat)
    ensures PathWithin(c, a, b, k) && !PathWithin(c, a, b, m) ==> k > m
  {
  }

  /** For a representable edge between different nodes, refusing it is exactly what
      keeps the graph free of closed walks of at most MAX_DEPTH + 1 edges. */
  lemma RefusalIsExact(c: Children, e: EdgeRow)
    requires NoShortCycle(c) && Representable(e.parent) && Representable(e.child)
    ensures Accepts(c, e) <==> NoShortCycle(AddChild(c, e.parent, e.child))
  {
    var c' := AddChild(c, e.parent, e.child);
    AddedEdges(c, e.parent, e.child);
    if Accepts(c, e) {
      forall p | Cycle(c', p)
        ensures |p| - 1 > MAX_DEPTH + 1
      {
        if i :| 0 <= i < |p| - 1 && p[i] == e.parent && p[i + 1] == e.child {
          Rotated(c', p, i);
          WalkToParentIsOld(c, e.parent, e.child, p[i + 1..] + p[1..i + 1]);
          OutOfReach(c, e.child, e.parent, |p| - 2, MAX_DEPTH);
        } else {
          assert Cycle(c, p);
        }
      }
    } else if e.parent == e.child {
      assert Cycle(c', [e.parent, e.child]);
    } else {
      var p :| WalkFromTo(c, p, e.child, e.parent) && |p| <= MAX_DEPTH + 1;
      assert Cycle(c', [e.parent] + p);
    }
  }

  lemma NoEdgesNoCycle(p: seq<Node>)
    ensures !Cycle(map[], p)
  {
    assert |p| > 1 ==> !Edge(map[], p[0], p[1]);
  }

  /** Over every list of declared rows, in every order: no self-edge and no directed
      cycle of MAX_DEPTH + 1 edges or fewer survives. */
  lemma {:induction false} BuildHasNoShortCycle(rows: seq<EdgeRow>)
    ensures NoShortCycle(Build(rows))
  {
    if rows == [] {
      forall p ensures !Cycle(map[], p) { NoEdgesNoCycle(p); }
    } else {
      BuildHasNoShortCycle(rows[..|rows| - 1]);
      if Accepts(Build(rows[..|rows| - 1]), rows[|rows| - 1]) {
        RefusalIsExact(Build(rows[..|rows| - 1]), rows[|rows| - 1]);
      }
    }
  }

  ghost predicate AcceptedAt(rows: seq<EdgeRow>, i: int, u: Node, v: Node) {
    0 <= i < |rows| && rows[i] == EdgeRow(u, v) && Accepts(Build(rows[..i]), rows[i])
  }

  lemma AcceptedAtPrefix(rows: seq<EdgeRow>, n: nat, i: int, u: Node, v: Node)
    requires n <= |rows| && i < n
    ensures AcceptedAt(rows[..n], i, u, v) <==> AcceptedAt(rows, i, u, v)
  {
    if 0 <= i {
      assert rows[..n][..i] == rows[..i];
    }
  }

  /** An edge is in the hierarchy iff some row declared it and that row was accepted by
      the rows before it. */
  lemma {:induction false} EdgesAreAcceptedRows(rows: seq<EdgeRow>, u: Node, v: Node)
    ensures Edge(Build(rows), u, v) <==> exists i :: AcceptedAt(rows, i, u, v)
  {
    if rows != [] {
      var n := |rows| - 1;
      EdgesAreAcceptedRows(rows[..n], u, v);
      forall i | i < n
        ensures AcceptedAt(rows[..n], i, u, v) <==> AcceptedAt(rows, i, u, v)
      {
        AcceptedAtPrefix(rows, n, i, u, v);
      }
      AddedEdges(Build(rows[..n]), rows[n].parent, rows[n].child);
      assert AcceptedAt(rows, n, u, v) <==> rows[n] == EdgeRow(u, v) && Accepts(Build(rows[..n]), rows[n]);
    }
  }

  lemma {:induction false} BuildIsRepresentable(rows: seq<EdgeRow>, u: Node, v: Node)
    requires Edge(Build(rows), u, v)
    ensures Representable(u) && Representable(v)
  {
    EdgesAreAcceptedRows(rows, u, v);
  }

  /** The children a node is given by the rows that are accepted, in the order of the rows. */
  ghost function ChildrenInRows(rows: seq<EdgeRow>, u: Node): seq<Node> {
    if rows == [] then []
    else
      var n := |rows| - 1;
      ChildrenInRows(rows[..n], u)
      + if rows[n].parent == u && Accepts(Build(rows[..n]), rows[n]) then [rows[n].child] else []
  }

  lemma {:induction false} ChildrenInOrder(rows: seq<EdgeRow>, u: Node)
    ensures KidsOf(Build(rows), u) == ChildrenInRows(rows, u)
  {
    hide Accepts;
    if rows != [] {
      ChildrenInOrder(rows[..|rows| - 1], u);
    }
  }

  predicate LodgeToPatrol(rows: seq<EdgeRow>) {
    forall i :: 0 <= i < |rows| ==> rows[i].parent.kind == "lodge" && rows[i].child.kind == "patrol"
  }

  lemma {:induction false} LodgeToPatrolEdges(rows: seq<EdgeRow>, u: Node, v: Node)
    requires LodgeToPatrol(rows)
    ensures Edge(Build(rows), u, v) ==> u.kind == "lodge" && v.kind == "patrol"
  {
    EdgesAreAcceptedRows(rows, u, v);
  }

  /** When every declared edge goes from a lodge to a patrol there is no cycle of any length. */
  lemma {:induction false} LodgeToPatrolIsAcyclic(rows: seq<EdgeRow>, p: seq<Node>)
    requires LodgeToPatrol(rows)
    ensures !Cycle(Build(rows), p)
  {
    if |p| > 1 {
      LodgeToPatrolEdges(rows, p[0], p[1]);
      LodgeToPatrolEdges(rows, p[|p| - 2], p[|p| - 1]);
      assert "lodge"[0] != "patrol"[0];
    }
  }

  // --- when the documented promise, no cycle at all, is kept ---

  ghost predicate Acyclic(c: Children) {
    forall p :: !Cycle(c, p)
  }

  ghost predicate Reaches(c: Children, a: Node, b: Node) {
    exists k: nat :: PathWithin(c, a, b, k)
  }

  /** An added edge closes a cycle exactly when its parent can already be reached from its child. */
  lemma AddingKeepsAcyclic(c: Children, parent: Node, child: Node)
    requires Acyclic(c)
    ensures Acyclic(AddChild(c, parent, child)) <==> !Reaches(c, child, parent)
  {
    var c' := AddChild(c, parent, child);
    AddedEdges(c, parent, child);
    if Reaches(c, child, parent) {
      var k: nat :| PathWithin(c, child, parent, k);
      var p :| WalkFromTo(c, p, child, parent) && |p| <= k + 1;
      assert Cycle(c', [parent] + p);
    } else {
      forall p
        ensures !Cycle(c', p)
      {
        NewCycleReaches(c, parent, child, p);
      }
    }
  }

  lemma NewCycleReaches(c: Children, parent: Node, child: Node, p: seq<Node>)
    requires Acyclic(c)
    ensures Cycle(AddChild(c, parent, child), p) ==> Reaches(c, child, parent)
  {
    var c' := AddChild(c, parent, child);
    AddedEdges(c, parent, child);
    if Cycle(c', p) {
      if i :| 0 <= i < |p| - 1 && p[i] == parent && p[i + 1] == child {
        Rotated(c', p, i);
        WalkToParentIsOld(c, parent, child, p[i + 1..] + p[1..i + 1]);
      } else {
        OldCycle(c, parent, child, p);
      }
    }
  }

  lemma OldCycle(c: Children, parent: Node, child: Node, p: seq<Node>)
    requires Cycle(AddChild(c, parent, child), p)
    requires forall i :: 0 <= i < |p| - 1 ==> !(p[i] == parent && p[i + 1] == child)
    ensures Cycle(c, p)
  {
  }

  lemma {:induction false} MoreEdgesMoreCycles(c: Children, parent: Node, child: Node)
    ensures Acyclic(AddChild(c, parent, child)) ==> Acyclic(c)
  {
    AddedEdges(c, parent, child);
    if Acyclic(AddChild(c, parent, child)) {
      forall p
        ensures !Cycle(c, p)
      {
        assert Cycle(c, p) ==> Cycle(AddChild(c, parent, child), p);
      }
    }
  }

  /** Row `i` is accepted although its parent can be reached from its child, too far down to be seen. */
  ghost predicate MissedAt(rows: seq<EdgeRow>, i: nat) {
    i < |rows| && Accepts(Build(rows[..i]), rows[i]) && Reaches(Build(rows[..i]), rows[i].child, rows[i].parent)
  }

  /** The hierarchy is free of cycles exactly when no accepted row had its parent more than
      MAX_DEPTH edges below its child. */
  lemma {:induction false} AcyclicIffNothingMissed(rows: seq<EdgeRow>)
    ensures Acyclic(Build(rows)) <==> forall i: nat :: !MissedAt(rows, i)
  {
    if rows == [] {
      forall p
        ensures !Cycle(map[], p)
      {
        NoEdgesNoCycle(p);
      }
    } else {
      var n := |rows| - 1;
      var c, e := Build(rows[..n]), rows[n];
      AcyclicIffNothingMissed(rows[..n]);
      forall i: nat | i < n
        ensures MissedAt(rows[..n], i) <==> MissedAt(rows, i)
      {
        assert rows[..n][..i] == rows[..i];
      }
      hide Acyclic, Accepts, Reaches;
      if Accepts(c, e) {
        MoreEdgesMoreCycles(c, e.parent, e.child);
        if Acyclic(c) {
          AddingKeepsAcyclic(c, e.parent, e.child);
        }
      }
      assert MissedAt(rows, n) <==> Accepts(c, e) && Reaches(c, e.child, e.parent);
    }
  }

  // --- the bound is tight: a ring of MAX_DEPTH + 2 edges is accepted whole ---

  function Rung(i: nat): Node {
    Node("lodge", seq(i, _ => '1'))
  }

  function Climb(n: nat): (rows: seq<EdgeRow>)
    ensures |rows| == n && forall i :: 0 <= i < n ==> rows[i] == EdgeRow(Rung(i), Rung(i + 1))
  {
    seq(n, i requires 0 <= i < n => EdgeRow(Rung(i), Rung(i + 1)))
  }

  /** The graph whose edges are exactly those from each of `n` rungs to the next. */
  ghost predicate IsLadder(c: Children, n: nat) {
    && (forall i :: 0 <= i < n ==> Edge(c, Rung(i), Rung(i + 1)))
    && (forall u, v :: Edge(c, u, v) ==> |v.id| == |u.id| + 1 && |v.id| <= n)
  }

  /** Along a ladder, a walk climbs exactly one rung per edge. */
  lemma {:induction false} LadderWalk(c: Children, n: nat, p: seq<Node>)
    requires IsLadder(c, n) && Walk(c, p)
    ensures |p[|p| - 1].id| == |p[0].id| + |p| - 1
  {
    if |p| > 1 {
      assert Edge(c, p[0], p[1]);
      LadderWalk(c, n, p[1..]);
    }
  }

  lemma LadderReach(c: Children, n: nat, a: Node, b: Node, k: nat)
    requires IsLadder(c, n) && PathWithin(c, a, b, k)
    ensures |a.id| <= |b.id| <= |a.id| + k
  {
    var p :| WalkFromTo(c, p, a, b) && |p| <= k + 1;
    LadderWalk(c, n, p);
  }

  /** The next rung up is out of reach from above, so its edge is accepted. */
  lemma LadderAcceptsTheNextRung(c: Children, n: nat)
    requires IsLadder(c, n)
    ensures Accepts(c, EdgeRow(Rung(n), Rung(n + 1)))
  {
    assert |Rung(n).id| == n && |Rung(n + 1).id| == n + 1;
    NoWayDown(c, n, Rung(n + 1), Rung(n), MAX_DEPTH);
    hide IsLadder, PathWithin, Rung;
  }

  lemma NoWayDown(c: Children, n: nat, a: Node, b: Node, k: nat)
    requires IsLadder(c, n) && |a.id| > |b.id|
    ensures !PathWithin(c, a, b, k)
  {
    var way := PathWithin(c, a, b, k);
    assert !way by {
      if way { LadderReach(c, n, a, b, k); }
    }
  }

  lemma LadderGrows(c: Children, n: nat)
    requires IsLadder(c, n)
    ensures IsLadder(AddChild(c, Rung(n), Rung(n + 1)), n + 1)
  {
  }

  lemma {:induction false} BuildOneMore(rows: seq<EdgeRow>, e: EdgeRow)
    ensures Build(rows + [e]) ==
            if Accepts(Build(rows), e) then AddChild(Build(rows), e.parent, e.child) else Build(rows)
  {
  }

  lemma {:induction false} ClimbIsAccepted(n: nat)
    ensures IsLadder(Build(Climb(n)), n)
  {
    hide *;
    if n == 0 {
      NoRungs();
    } else {
      ClimbIsAccepted(n - 1);
      ClimbOneMore(n);
      BuildOneMore(Climb(n - 1), EdgeRow(Rung(n - 1), Rung(n)));
      LadderAcceptsTheNextRung(Build(Climb(n - 1)), n - 1);
      LadderGrows(Build(Climb(n - 1)), n - 1);
    }
  }

  lemma {:induction false} ClimbOneMore(n: nat)
    requires n > 0
    ensures Climb(n) == Climb(n - 1) + [EdgeRow(Rung(n - 1), Rung(n))]
  {
  }

  lemma {:induction false} NoRungs()
    ensures IsLadder(Build(Climb(0)), 0)
  {
  }

  ghost function RingRows(): seq<EdgeRow> {
    Climb(MAX_DEPTH + 1) + [EdgeRow(Rung(MAX_DEPTH + 1), Rung(0))]
  }

  /** The documentation says cycles are removed; a ring one edge longer than the bound is kept. */
  lemma FiveEdgeRingIsAccepted()
    ensures Cycle(Build(RingRows()), [Rung(0), Rung(1), Rung(2), Rung(3), Rung(4), Rung(0)])
  {
    ClimbIsAccepted(4);
    BuildOneMore(Climb(4), EdgeRow(Rung(4), Rung(0)));
    hide Build;
    RingCloses(Build(Climb(4)));
    hide *;
  }

  lemma RingCloses(c: Children)
    requires IsLadder(c, 4)
    ensures Accepts(c, EdgeRow(Rung(4), Rung(0)))
    ensures Cycle(AddChild(c, Rung(4), Rung(0)), [Rung(0), Rung(1), Rung(2), Rung(3), Rung(4), Rung(0)])
  {
    assert |Rung(4).id| == 4 && |Rung(0).id| == 0;
    FourRungsAreTooFar(c);
    AddedEdges(c, Rung(4), Rung(0));
    hide PathWithin, Rung, AddChild, Edge;
  }

  lemma FourRungsAreTooFar(c: Children)
    requires IsLadder(c, 4)
    ensures !PathWithin(c, Rung(0), Rung(4), MAX_DEPTH)
  {
    var near := PathWithin(c, Rung(0), Rung(4), MAX_DEPTH);
    assert !near by {
      if near { LadderReach(c, 4, Rung(0), Rung(4), MAX_DEPTH); }
    }
  }
}
