/** The declared scope edges as a graph, and the bounded walks over it.
    A path is a sequence of nodes joined by declared edges; everything the scope
    hierarchy promises is stated with paths, never with the search that finds them. */
module ScopeGraph {
  datatype Node = Node(kind: string, id: string)

  type Children = map<Node, seq<Node>>

  /** Edges followed from a grant scope to a target. */
  const MAX_DEPTH: nat := 3

  predicate Edge(c: Children, u: Node, v: Node) {
    u in c && v in c[u]
  }

  ghost predicate Walk(c: Children, p: seq<Node>) {
    |p| > 0 && forall i, j :: 0 <= i && j == i + 1 && j < |p| ==> Edge(c, p[i], p[j])
  }

  ghost predicate WalkFromTo(c: Children, p: seq<Node>, a: Node, b: Node) {
    Walk(c, p) && p[0] == a && p[|p| - 1] == b
  }

  /** Some path from a to b follows at most k edges. */
  ghost predicate PathWithin(c: Children, a: Node, b: Node, k: nat) {
    exists p :: WalkFromTo(c, p, a, b) && |p| <= k + 1
  }

  lemma PathHere(c: Children, a: Node)
    ensures PathWithin(c, a, a, 0)
  {
    assert WalkFromTo(c, [a], a, a);
  }

  lemma PathExtend(c: Children, a: Node, u: Node, v: Node, k: nat)
    requires PathWithin(c, a, u, k) && Edge(c, u, v)
    ensures PathWithin(c, a, v, k + 1)
  {
    var p :| WalkFromTo(c, p, a, u) && |p| <= k + 1;
    assert WalkFromTo(c, p + [v], a, v);
  }

  /** The last edge of a path: either the path is empty or it comes through a predecessor. */
  lemma PathLastEdge(c: Children, a: Node, v: Node, k: nat) returns (u: Node)
    requires PathWithin(c, a, v, k) && a != v
    ensures k > 0 && PathWithin(c, a, u, k - 1) && Edge(c, u, v)
  {
    var p :| WalkFromTo(c, p, a, v) && |p| <= k + 1;
    u := p[|p| - 2];
    assert WalkFromTo(c, p[..|p| - 1], a, u);
  }

  lemma PathLonger(c: Children, a: Node, b: Node, k: nat, m: nat)
    requires PathWithin(c, a, b, k) && k <= m
    ensures PathWithin(c, a, b, m)
  {
  }

  /** Every node a walk from `start` can meet. */
  ghost function Universe(c: Children, start: Node): set<Node> {
    {start} + set u, v | u in c && v in c[u] :: v
  }

  // --- the queue of a bounded breadth-first search ---

  type Queue = seq<(Node, nat)>

  ghost predicate Sound(c: Children, start: Node, queue: Queue) {
    forall i :: 0 <= i < |queue| ==>
      queue[i].0 in Universe(c, start) && PathWithin(c, start, queue[i].0, queue[i].1)
  }

  /** First in, first out keeps depths in order: nothing popped is deeper than what
      waits, and what waits spans at most two neighbouring depths. */
  ghost predicate Fifo(popped: map<Node, nat>, queue: Queue) {
    && (forall i, j :: 0 <= i <= j < |queue| ==> queue[i].1 <= queue[j].1 <= queue[0].1 + 1)
    && (forall n, i :: n in popped && 0 <= i < |queue| ==> popped[n] <= queue[i].1)
  }

  ghost predicate Waiting(queue: Queue, v: Node, d: nat) {
    exists i :: 0 <= i < |queue| && queue[i].0 == v && queue[i].1 <= d
  }

  ghost predicate Covered(popped: map<Node, nat>, queue: Queue, v: Node, d: nat) {
    (v in popped && popped[v] <= d) || Waiting(queue, v, d)
  }

  ghost predicate Closed(c: Children, start: Node, popped: map<Node, nat>, queue: Queue) {
    && Covered(popped, queue, start, 0)
    && forall n, v :: n in popped && popped[n] < MAX_DEPTH && Edge(c, n, v) ==>
         Covered(popped, queue, v, popped[n] + 1)
  }

  ghost function Pop(popped: map<Node, nat>, n: Node, d: nat): map<Node, nat> {
    if n in popped then popped else popped[n := d]
  }

  lemma CoveredAfterPop(popped: map<Node, nat>, queue: Queue, v: Node, d: nat)
    requires queue != [] && Fifo(popped, queue) && Covered(popped, queue, v, d)
    ensures Covered(Pop(popped, queue[0].0, queue[0].1), queue[1..], v, d)
  {
  }

  function AtDepth(kids: seq<Node>, d: nat): (q: Queue)
    ensures |q| == |kids| && forall i :: 0 <= i < |kids| ==> q[i] == (kids[i], d)
  {
    seq(|kids|, i requires 0 <= i < |kids| => (kids[i], d))
  }

  function KidsOf(c: Children, n: Node): seq<Node> {
    if n in c then c[n] else []
  }

  /** What holds between two pops of the search. */
  ghost predicate Searching(c: Children, start: Node, popped: map<Node, nat>, queue: Queue) {
    && Sound(c, start, queue)
    && Fifo(popped, queue)
    && Closed(c, start, popped, queue)
    && (forall i :: 0 <= i < |queue| ==> queue[i].1 <= MAX_DEPTH)
  }

  /** Popping a node that is already expanded, or one too deep to expand, loses nothing. */
  lemma SkipPopped(c: Children, start: Node, popped: map<Node, nat>, queue: Queue)
    requires queue != [] && Searching(c, start, popped, queue)
    requires queue[0].0 in popped || queue[0].1 >= MAX_DEPTH
    ensures Searching(c, start, Pop(popped, queue[0].0, queue[0].1), queue[1..])
  {
    var popped' := Pop(popped, queue[0].0, queue[0].1);
    CoveredAfterPop(popped, queue, start, 0);
    forall n, v | n in popped' && popped'[n] < MAX_DEPTH && Edge(c, n, v)
      ensures Covered(popped', queue[1..], v, popped'[n] + 1)
    {
      CoveredAfterPop(popped, queue, v, popped[n] + 1);
    }
  }

  lemma CoveredAfterPush(popped: map<Node, nat>, queue: Queue, more: Queue, v: Node, d: nat)
    requires Covered(popped, queue, v, d)
    ensures Covered(popped, queue + more, v, d)
  {
    if Waiting(queue, v, d) {
      var i :| 0 <= i < |queue| && queue[i].0 == v && queue[i].1 <= d;
      assert (queue + more)[i] == queue[i];
    }
  }

  lemma FifoAfterExpand(c: Children, popped: map<Node, nat>, queue: Queue)
    requires queue != [] && Fifo(popped, queue) && queue[0].0 !in popped
    ensures Fifo(popped[queue[0].0 := queue[0].1], queue[1..] + AtDepth(KidsOf(c, queue[0].0), queue[0].1 + 1))
  {
  }

  /** Popping a fresh node and queueing its children one level deeper keeps the search closed. */
  lemma ClosedAfterExpand(c: Children, start: Node, popped: map<Node, nat>, queue: Queue)
    requires queue != [] && Fifo(popped, queue) && Closed(c, start, popped, queue)
    requires queue[0].0 !in popped
    ensures Closed(c, start, popped[queue[0].0 := queue[0].1],
                   queue[1..] + AtDepth(KidsOf(c, queue[0].0), queue[0].1 + 1))
  {
    var (n, d) := queue[0];
    var popped' := popped[n := d];
    var pushed := AtDepth(KidsOf(c, n), d + 1);
    CoveredAfterPop(popped, queue, start, 0);
    CoveredAfterPush(popped', queue[1..], pushed, start, 0);
    forall m, v | m in popped' && popped'[m] < MAX_DEPTH && Edge(c, m, v)
      ensures Covered(popped', queue[1..] + pushed, v, popped'[m] + 1)
    {
      if m == n {
        var i :| 0 <= i < |c[n]| && c[n][i] == v;
        assert (queue[1..] + pushed)[|queue| - 1 + i] == pushed[i];
      } else {
        CoveredAfterPop(popped, queue, v, popped[m] + 1);
        CoveredAfterPush(popped', queue[1..], pushed, v, popped[m] + 1);
      }
    }
  }

  lemma ExpandPopped(c: Children, start: Node, popped: map<Node, nat>, queue: Queue)
    requires queue != [] && Searching(c, start, popped, queue)
    requires queue[0].0 !in popped && queue[0].1 < MAX_DEPTH
    ensures Searching(c, start, popped[queue[0].0 := queue[0].1],
                      queue[1..] + AtDepth(KidsOf(c, queue[0].0), queue[0].1 + 1))
  {
    var (n, d) := queue[0];
    FifoAfterExpand(c, popped, queue);
    ClosedAfterExpand(c, start, popped, queue);
    forall v | v in KidsOf(c, n)
      ensures v in Universe(c, start) && PathWithin(c, start, v, d + 1)
    {
      PathExtend(c, start, n, v, d);
    }
  }

  /** Once the queue is empty, every node within the bound was popped no deeper than its distance. */
  lemma {:induction false} DrainedIsComplete(c: Children, start: Node, popped: map<Node, nat>, v: Node, k: nat)
    requires Closed(c, start, popped, []) && k <= MAX_DEPTH && PathWithin(c, start, v, k)
    ensures v in popped && popped[v] <= k
    decreases k
  {
    if v == start {
      assert Covered(popped, [], start, 0);
    } else {
      var u := PathLastEdge(c, start, v, k);
      DrainedIsComplete(c, start, popped, u, k - 1);
      assert Covered(popped, [], v, popped[u] + 1);
    }
  }

  /** Push a popped node's children on the back of the queue. */
  method PushKids(queue: Queue, kids: seq<Node>, depth: nat) returns (longer: Queue)
    ensures longer == queue + AtDepth(kids, depth)
  {
    longer := queue;
    for i := 0 to |kids|
      invariant longer == queue + AtDepth(kids[..i], depth)
    {
      longer := longer + [(kids[i], depth)];
    }
  }

  /** Is `target` at most MAX_DEPTH edges from `start`? Nodes are marked seen when popped. */
  method Reachable(c: Children, start: Node, target: Node) returns (found: bool)
    ensures found <==> PathWithin(c, start, target, MAX_DEPTH)
  {
    var seen: set<Node> := {};
    var queue: Queue := [(start, 0)];
    ghost var popped: map<Node, nat> := map[];
    PathHere(c, start);
    assert Waiting(queue, start, 0) by { assert queue[0] == (start, 0); }
    while queue != []
      invariant Searching(c, start, popped, queue)
      invariant forall n :: n in seen <==> n in popped && popped[n] < MAX_DEPTH
      invariant target !in popped
      decreases Universe(c, start) - seen, |queue|
    {
      var (node, depth) := queue[0];
      if node == target {
        PathLonger(c, start, target, depth, MAX_DEPTH);
        return true;
      }
      if depth >= MAX_DEPTH || node in seen {
        SkipPopped(c, start, popped, queue);
        popped := Pop(popped, node, depth);
        queue := queue[1..];
      } else {
        ExpandPopped(c, start, popped, queue);
        seen := seen + {node};
        popped := popped[node := depth];
        queue := PushKids(queue[1..], if node in c then c[node] else [], depth + 1);
      }
    }
    if PathWithin(c, start, target, MAX_DEPTH) {
      DrainedIsComplete(c, start, popped, target, MAX_DEPTH);
    }
    return false;
  }
}
