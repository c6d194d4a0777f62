/** The prerequisite graph of a course: the depth-first cycle check and the rows it guards. */
module Prerequisites {
  import opened Wrappers

  type Node = string

  datatype Edge = Edge(src: Node, dst: Node)

  // ---- graph vocabulary: the reference the search is proved against ----

  ghost predicate IsWalk(edges: set<Edge>, p: seq<Node>) {
    forall i :: 0 <= i < |p| - 1 ==> Edge(p[i], p[i + 1]) in edges
  }

  ghost predicate WalkFromTo(edges: set<Edge>, p: seq<Node>, a: Node, b: Node) {
    p != [] && p[0] == a && p[|p| - 1] == b && IsWalk(edges, p)
  }

  /** `b` can be reached from `a`, in zero or more steps. */
  ghost predicate Reaches(edges: set<Edge>, a: Node, b: Node) {
    exists p :: WalkFromTo(edges, p, a, b)
  }

  ghost predicate IsCycle(edges: set<Edge>, p: seq<Node>) {
    |p| >= 2 && p[0] == p[|p| - 1] && IsWalk(edges, p)
  }

  ghost predicate Acyclic(edges: set<Edge>) {
    forall p :: !IsCycle(edges, p)
  }

  /** A walk from `a` that comes back, at its last node, to a node it has visited before. */
  ghost predicate IsLasso(edges: set<Edge>, p: seq<Node>, a: Node) {
    p != [] && p[0] == a && IsWalk(edges, p) && p[|p| - 1] in p[..|p| - 1]
  }

  ghost predicate CycleReachable(edges: set<Edge>, a: Node) {
    exists p :: IsLasso(edges, p, a)
  }

  ghost function EdgeSet(edges: seq<Edge>): set<Edge> {
    set e | e in edges
  }

  // ---- the search ----

  type Adjacency = map<Node, set<Node>>

  function Next(graph: Adjacency, n: Node): set<Node> {
    if n in graph then graph[n] else {}
  }

  function AddEdge(graph: Adjacency, e: Edge): Adjacency {
    graph[e.src := Next(graph, e.src) + {e.dst}]
  }

  /** The adjacency map holds exactly these edges. */
  ghost predicate Represents(graph: Adjacency, edges: set<Edge>) {
    forall a, b :: Edge(a, b) in edges <==> b in Next(graph, a)
  }

  ghost predicate ClosedUnder(graph: Adjacency, universe: set<Node>) {
    forall n :: n in universe ==> Next(graph, n) <= universe
  }

  /**
   * The two sets the nested `dfs` shares. `path` lists the nodes on the stack in the order they
   * were entered and `finished` the nodes left behind in the order they were left: every successor
   * of a finished node was finished before it, which is why no cycle can pass through one.
   */
  class CycleSearch {
    const graph: Adjacency
    var visited: set<Node>
    var stack: set<Node>
    ghost var path: seq<Node>
    ghost var finished: seq<Node>

    constructor (graph: Adjacency)
      ensures this.graph == graph
      ensures visited == {} && stack == {} && path == [] && finished == []
    {
      this.graph := graph;
      visited, stack, path, finished := {}, {}, [], [];
    }

    ghost predicate Valid(edges: set<Edge>, root: Node)
      reads this
    {
      && Represents(graph, edges)
      && stack == Elements(path) && Distinct(path)
      && visited == stack + Elements(finished) && stack !! Elements(finished)
      && IsTrail(edges, path, root)
      && FinishedInOrder(graph, finished)
    }

    method Dfs(node: Node, ghost edges: set<Edge>, ghost root: Node, ghost universe: set<Node>)
      returns (cyclic: bool)
      requires Valid(edges, root)
      requires node in universe && ClosedUnder(graph, universe)
      requires if path == [] then node == root else node in Next(graph, path[|path| - 1])
      modifies this
      ensures old(visited) <= visited
      ensures cyclic ==> CycleReachable(edges, root)
      ensures !cyclic ==> Valid(edges, root) && path == old(path) && stack == old(stack)
      ensures !cyclic ==> Elements(old(finished)) + {node} <= Elements(finished)
      decreases universe - visited
    {
      hide IsTrail;
      hide FinishedInOrder;
      hide ClosedUnder;
      hide CycleReachable;
      hide Elements;
      hide Distinct;
      if node in stack {
        InElements(path, node);
        BackEdge(edges, path, node, root);
        return true;
      }
      if node in visited {
        return false;
      }
      visited := visited + {node};
      stack := stack + {node};
      Enter(edges, path, root, node);
      path := path + [node];
      var todo := Next(graph, node);
      StaysInside(graph, universe, node);
      while todo != {}
        invariant todo <= Next(graph, node)
        invariant Valid(edges, root)
        invariant path == old(path) + [node] && stack == old(stack) + {node}
        invariant old(visited) + {node} <= visited
        invariant Elements(old(finished)) + (Next(graph, node) - todo) <= Elements(finished)
        decreases todo
      {
        var nxt :| nxt in todo;
        todo := todo - {nxt};
        var found := Dfs(nxt, edges, root, universe);
        if found {
          return true;
        }
      }
      stack := stack - {node};
      path := old(path);
      Finish(graph, finished, node);
      finished := finished + [node];
      return false;
    }
  }

  ghost function Elements(s: seq<Node>): set<Node> {
    set n | n in s
  }

  ghost predicate Distinct(s: seq<Node>) {
    forall i, j :: 0 <= i < j < |s| ==> s[i] != s[j]
  }

  lemma InElements(s: seq<Node>, n: Node)
    ensures n in Elements(s) <==> n in s
  {
  }

  /** Entering a node that is not on the stack extends the trail. */
  lemma Enter(edges: set<Edge>, path: seq<Node>, root: Node, node: Node)
    requires IsTrail(edges, path, root) && Distinct(path) && node !in Elements(path)
    requires if path == [] then node == root else Edge(path[|path| - 1], node) in edges
    ensures IsTrail(edges, path + [node], root) && Distinct(path + [node])
    ensures Elements(path + [node]) == Elements(path) + {node}
  {
    TrailExtends(edges, path, root, node);
  }

  /** Leaving a node whose successors are all finished finishes it. */
  lemma Finish(graph: Adjacency, finished: seq<Node>, node: Node)
    requires FinishedInOrder(graph, finished) && node !in Elements(finished) && Next(graph, node) <= Elements(finished)
    ensures FinishedInOrder(graph, finished + [node])
    ensures Elements(finished + [node]) == Elements(finished) + {node}
  {
    assert forall m :: m in Next(graph, node) ==> m in Elements(finished);
    FinishNext(graph, finished, node);
  }

  ghost predicate IsTrail(edges: set<Edge>, path: seq<Node>, root: Node) {
    (path != [] ==> path[0] == root) && IsWalk(edges, path)
  }

  lemma TrailExtends(edges: set<Edge>, path: seq<Node>, root: Node, node: Node)
    requires IsTrail(edges, path, root)
    requires if path == [] then node == root else Edge(path[|path| - 1], node) in edges
    ensures IsTrail(edges, path + [node], root)
  {
  }

  ghost predicate FinishedInOrder(graph: Adjacency, finished: seq<Node>) {
    && (forall i, j :: 0 <= i < j < |finished| ==> finished[i] != finished[j])
    && forall i, m :: 0 <= i < |finished| && m in Next(graph, finished[i]) ==> m in finished[..i]
  }

  /** An edge back to a node still on the stack closes a lasso. */
  lemma BackEdge(edges: set<Edge>, path: seq<Node>, node: Node, root: Node)
    requires path != [] && IsTrail(edges, path, root)
    requires node in path && Edge(path[|path| - 1], node) in edges
    ensures CycleReachable(edges, root)
  {
    assert (path + [node])[..|path|] == path;
    assert IsLasso(edges, path + [node], root);
  }

  lemma StaysInside(graph: Adjacency, universe: set<Node>, node: Node)
    requires ClosedUnder(graph, universe) && node in universe
    ensures Next(graph, node) <= universe
  {
  }

  lemma FinishNext(graph: Adjacency, finished: seq<Node>, node: Node)
    requires FinishedInOrder(graph, finished) && node !in finished
    requires forall m :: m in Next(graph, node) ==> m in finished
    ensures FinishedInOrder(graph, finished + [node])
  {
    var f := finished + [node];
    forall i, m | 0 <= i < |f| && m in Next(graph, f[i]) ensures m in f[..i] {
      assert f[..i] == finished[..i];
    }
  }

  /** A walk that starts at a finished node keeps descending in finishing order. */
  lemma {:induction false} WalkDescends(graph: Adjacency, edges: set<Edge>, finished: seq<Node>, p: seq<Node>, i: nat)
    requires Represents(graph, edges) && FinishedInOrder(graph, finished)
    requires IsWalk(edges, p) && p != [] && i < |finished| && p[0] == finished[i]
    ensures forall k :: 0 < k < |p| ==> p[k] in finished[..i]
    decreases |p|
  {
    if |p| >= 2 {
      assert Edge(p[0], p[1]) in edges;
      var j :| 0 <= j < i && finished[j] == p[1];
      assert IsWalk(edges, p[1..]) by {
        forall k | 0 <= k < |p[1..]| - 1 ensures Edge(p[1..][k], p[1..][k + 1]) in edges {
          assert Edge(p[k + 1], p[k + 2]) in edges;
        }
      }
      WalkDescends(graph, edges, finished, p[1..], j);
      forall k | 0 < k < |p| ensures p[k] in finished[..i] {
        if k > 1 {
          assert p[k] == p[1..][k - 1];
          assert p[k] in finished[..j];
        }
      }
    }
  }

  lemma FinishedHasNoLasso(graph: Adjacency, edges: set<Edge>, finished: seq<Node>, root: Node)
    requires Represents(graph, edges) && FinishedInOrder(graph, finished) && root in finished
    ensures !CycleReachable(edges, root)
  {
    forall p | p != [] && p[0] == root && IsWalk(edges, p)
      ensures !IsLasso(edges, p, root)
    {
      forall k | 0 <= k < |p| - 1 ensures p[k] != p[|p| - 1] {
        var q := p[k..];
        assert IsWalk(edges, q) by {
          forall j | 0 <= j < |q| - 1 ensures Edge(q[j], q[j + 1]) in edges {
            assert Edge(p[k + j], p[k + j + 1]) in edges;
          }
        }
        var i :| 0 <= i < |finished| && finished[i] == root;
        WalkDescends(graph, edges, finished, p, i);
        assert p[k] in finished;
        var j :| 0 <= j < |finished| && finished[j] == p[k];
        WalkDescends(graph, edges, finished, q, j);
        assert q[|q| - 1] in finished[..j];
      }
    }
  }

  /**
   * `would_create_cycle`: for any edge list, true exactly when the graph with the new edge has a
   * cycle that can be reached from the edge's source.
   */
  method WouldCreateCycle(edges: seq<Edge>, newFrom: Node, newTo: Node) returns (cyclic: bool)
    ensures cyclic <==> CycleReachable(EdgeSet(edges) + {Edge(newFrom, newTo)}, newFrom)
  {
    hide Represents;
    hide ClosedUnder;
    hide CycleReachable;
    hide FinishedInOrder;
    hide EdgeSet;
    ghost var all := EdgeSet(edges) + {Edge(newFrom, newTo)};
    var graph := BuildGraph(edges);
    EdgeAdded(graph, EdgeSet(edges), Edge(newFrom, newTo));
    graph := AddEdge(graph, Edge(newFrom, newTo));
    ghost var universe := NodesFrom(all, newFrom);
    NodesAreClosed(graph, all, newFrom);
    var search := new CycleSearch(graph);
    NothingVisited(graph, all, newFrom);
    cyclic := search.Dfs(newFrom, all, newFrom, universe);
    if !cyclic {
      InElements(search.finished, newFrom);
      FinishedHasNoLasso(graph, all, search.finished, newFrom);
    }
  }

  /** The dictionary of successor sets. */
  method BuildGraph(edges: seq<Edge>) returns (graph: Adjacency)
    ensures Represents(graph, EdgeSet(edges))
  {
    graph := map[];
    for i := 0 to |edges|
      invariant Represents(graph, EdgeSet(edges[..i]))
    {
      EdgeAdded(graph, EdgeSet(edges[..i]), edges[i]);
      assert EdgeSet(edges[..i + 1]) == EdgeSet(edges[..i]) + {edges[i]};
      graph := AddEdge(graph, edges[i]);
    }
    assert edges[..|edges|] == edges;
  }

  lemma EdgeAdded(graph: Adjacency, edges: set<Edge>, e: Edge)
    requires Represents(graph, edges)
    ensures Represents(AddEdge(graph, e), edges + {e})
  {
  }

  ghost function NodesFrom(edges: set<Edge>, root: Node): set<Node> {
    {root} + (set e | e in edges :: e.dst)
  }

  lemma NodesAreClosed(graph: Adjacency, edges: set<Edge>, root: Node)
    requires Represents(graph, edges)
    ensures ClosedUnder(graph, NodesFrom(edges, root))
  {
    forall n, m | n in NodesFrom(edges, root) && m in Next(graph, n) ensures m in NodesFrom(edges, root) {
      assert Edge(n, m) in edges;
    }
  }

  lemma NothingVisited(graph: Adjacency, edges: set<Edge>, root: Node)
    ensures Elements([]) == {} && Distinct([]) && IsTrail(edges, [], root) && FinishedInOrder(graph, [])
  {
  }

  // ---- what the answer means on an acyclic graph ----

  lemma WalkJoins(edges: set<Edge>, p: seq<Node>, q: seq<Node>, a: Node, b: Node, c: Node)
    requires WalkFromTo(edges, p, a, b) && WalkFromTo(edges, q, b, c)
    ensures WalkFromTo(edges, p + q[1..], a, c)
  {
    var r := p + q[1..];
    forall i | 0 <= i < |r| - 1 ensures Edge(r[i], r[i + 1]) in edges {
      if i < |p| - 1 {
        assert Edge(p[i], p[i + 1]) in edges;
      } else {
        assert Edge(q[i - |p| + 1], q[i - |p| + 2]) in edges;
      }
    }
  }

  /** Either a walk avoids the new edge or it contains a stretch of old edges from each end to it. */
  lemma {:induction false} LastUse(edges: set<Edge>, e: Edge, p: seq<Node>)
    requires p != [] && IsWalk(edges + {e}, p)
    ensures IsWalk(edges, p) || Reaches(edges, e.dst, p[|p| - 1])
    decreases |p|
  {
    if |p| >= 2 {
      var t := p[1..];
      forall i | 0 <= i < |t| - 1 ensures Edge(t[i], t[i + 1]) in edges + {e} {
        assert Edge(p[i + 1], p[i + 2]) in edges + {e};
      }
      LastUse(edges, e, t);
      if IsWalk(edges, t) {
        assert Edge(p[0], p[1]) in edges + {e};
        if Edge(p[0], p[1]) == e {
          assert WalkFromTo(edges, t, e.dst, p[|p| - 1]);
        } else {
          forall i | 0 <= i < |p| - 1 ensures Edge(p[i], p[i + 1]) in edges {
            if i > 0 { assert Edge(t[i - 1], t[i]) in edges; }
          }
        }
      }
    }
  }

  lemma {:induction false} FirstUse(edges: set<Edge>, e: Edge, p: seq<Node>)
    requires p != [] && IsWalk(edges + {e}, p)
    ensures IsWalk(edges, p) || Reaches(edges, p[0], e.src)
    decreases |p|
  {
    if |p| >= 2 {
      var n := |p| - 1;
      var h := p[..n];
      forall i | 0 <= i < |h| - 1 ensures Edge(h[i], h[i + 1]) in edges + {e} {
        assert Edge(p[i], p[i + 1]) in edges + {e};
      }
      FirstUse(edges, e, h);
      if IsWalk(edges, h) {
        assert Edge(p[n - 1], p[n]) in edges + {e};
        if Edge(p[n - 1], p[n]) == e {
          assert WalkFromTo(edges, h, p[0], e.src);
        } else {
          forall i | 0 <= i < |p| - 1 ensures Edge(p[i], p[i + 1]) in edges {
            if i < n - 1 { assert Edge(h[i], h[i + 1]) in edges; }
          }
        }
      }
    }
  }

  lemma CycleUsesNewEdge(edges: set<Edge>, e: Edge, p: seq<Node>)
    requires Acyclic(edges) && IsCycle(edges + {e}, p)
    ensures Reaches(edges, e.dst, e.src)
  {
    LastUse(edges, e, p);
    FirstUse(edges, e, p);
    assert !IsCycle(edges, p);
    var q :| WalkFromTo(edges, q, e.dst, p[0]);
    var r :| WalkFromTo(edges, r, p[0], e.src);
    WalkJoins(edges, q, r, e.dst, p[0], e.src);
  }

  lemma ReturnPathClosesCycle(edges: set<Edge>, e: Edge)
    requires Reaches(edges, e.dst, e.src)
    ensures exists p :: IsCycle(edges + {e}, p) && IsLasso(edges + {e}, p, e.src)
  {
    var q :| WalkFromTo(edges, q, e.dst, e.src);
    var p := [e.src] + q;
    forall i | 0 <= i < |p| - 1 ensures Edge(p[i], p[i + 1]) in edges + {e} {
      if i > 0 { assert Edge(q[i - 1], q[i]) in edges; }
    }
    assert p[0] in p[..|p| - 1];
    assert IsCycle(edges + {e}, p) && IsLasso(edges + {e}, p, e.src);
  }

  lemma LassoHoldsCycle(edges: set<Edge>, p: seq<Node>, a: Node)
    requires IsLasso(edges, p, a)
    ensures exists q :: IsCycle(edges, q)
  {
    var k :| 0 <= k < |p| - 1 && p[k] == p[|p| - 1];
    var q := p[k..];
    forall j | 0 <= j < |q| - 1 ensures Edge(q[j], q[j + 1]) in edges {
      assert Edge(p[k + j], p[k + j + 1]) in edges;
    }
    assert IsCycle(edges, q);
  }

  /**
   * On an acyclic graph the check is exact: it answers true iff the edge's target already reaches
   * its source, iff the graph with the edge is no longer acyclic.
   */
  lemma CheckIsExact(edges: set<Edge>, e: Edge)
    requires Acyclic(edges)
    ensures CycleReachable(edges + {e}, e.src) <==> Reaches(edges, e.dst, e.src)
    ensures Acyclic(edges + {e}) <==> !Reaches(edges, e.dst, e.src)
  {
    if Reaches(edges, e.dst, e.src) {
      ReturnPathClosesCycle(edges, e);
    }
    if CycleReachable(edges + {e}, e.src) {
      var p :| IsLasso(edges + {e}, p, e.src);
      LassoHoldsCycle(edges + {e}, p, e.src);
      var q :| IsCycle(edges + {e}, q);
      CycleUsesNewEdge(edges, e, q);
    }
    if !Acyclic(edges + {e}) {
      var q :| IsCycle(edges + {e}, q);
      CycleUsesNewEdge(edges, e, q);
    }
  }

  /** On a graph that already has a cycle elsewhere the check misses it: it only looks ahead of `e`. */
  lemma CheckIgnoresUnreachableCycle()
    ensures var edges := {Edge("x", "y"), Edge("y", "x")};
            !Acyclic(edges + {Edge("a", "b")}) && !CycleReachable(edges + {Edge("a", "b")}, "a")
  {
    var all := {Edge("x", "y"), Edge("y", "x")} + {Edge("a", "b")};
    assert IsCycle(all, ["x", "y", "x"]);
    var graph: Adjacency := map["a" := {"b"}, "x" := {"y"}, "y" := {"x"}];
    assert Represents(graph, all);
    assert ["b", "a"][..1] == ["b"];
    FinishedHasNoLasso(graph, all, ["b", "a"], "a");
  }

  // ---- the rows: every course's confirmed edges stay acyclic ----

  datatype EdgeRow = EdgeRow(course: nat, edge: Edge, confirmation: string)

  const CONFIRMED := "confirmed"
  const SUGGESTED := "suggested"

  datatype EdgeError = CourseNotFound | ConfirmedPrerequisiteCycle | UnknownConfirmation | ConstraintViolation

  datatype EdgeRequest = EdgeRequest(edgeId: nat, course: nat, edge: Edge, confirmation: string)

  type EdgeTable = map<nat, EdgeRow>

  /** The account's courses, and the curriculum nodes that the foreign keys of an edge must name. */
  datatype Catalog = Catalog(courses: set<nat>, nodes: set<Node>)

  ghost function ConfirmedEdges(rows: EdgeTable, course: nat): set<Edge> {
    set id | id in rows && rows[id].course == course && rows[id].confirmation == CONFIRMED :: rows[id].edge
  }

  ghost predicate CoursesAcyclic(rows: EdgeTable) {
    forall course :: Acyclic(ConfirmedEdges(rows, course))
  }

  predicate HasPair(rows: EdgeTable, course: nat, edge: Edge) {
    exists id :: id in rows && rows[id].course == course && rows[id].edge == edge
  }

  /** The table's keys and checks: a free id, two different known nodes, one row per course and pair. */
  predicate Insertable(rows: EdgeTable, cat: Catalog, r: EdgeRequest) {
    && r.edgeId !in rows
    && r.edge.src != r.edge.dst && r.edge.src in cat.nodes && r.edge.dst in cat.nodes
    && !HasPair(rows, r.course, r.edge)
  }

  /** What one call answers: reachability first, then the row's own validity. */
  ghost function EdgeOutcome(rows: EdgeTable, cat: Catalog, r: EdgeRequest): Result<nat, EdgeError> {
    if r.course !in cat.courses then Failure(CourseNotFound)
    else if r.confirmation == CONFIRMED && Reaches(ConfirmedEdges(rows, r.course), r.edge.dst, r.edge.src) then
      Failure(ConfirmedPrerequisiteCycle)
    else if r.confirmation != CONFIRMED && r.confirmation != SUGGESTED then Failure(UnknownConfirmation)
    else if !Insertable(rows, cat, r) then Failure(ConstraintViolation)
    else Success(r.edgeId)
  }

  ghost function AfterRequest(rows: EdgeTable, cat: Catalog, r: EdgeRequest): EdgeTable {
    if EdgeOutcome(rows, cat, r).Success?
    then rows[r.edgeId := EdgeRow(r.course, r.edge, r.confirmation)]
    else rows
  }

  ghost function AfterRequests(rows: EdgeTable, cat: Catalog, rs: seq<EdgeRequest>): EdgeTable {
    if rs == [] then rows
    else AfterRequest(AfterRequests(rows, cat, rs[..|rs| - 1]), cat, rs[|rs| - 1])
  }

  lemma RequestKeepsAcyclic(rows: EdgeTable, cat: Catalog, r: EdgeRequest)
    requires CoursesAcyclic(rows)
    ensures CoursesAcyclic(AfterRequest(rows, cat, r))
  {
    var rows' := AfterRequest(rows, cat, r);
    forall course ensures Acyclic(ConfirmedEdges(rows', course)) {
      var before, after := ConfirmedEdges(rows, course), ConfirmedEdges(rows', course);
      if rows' != rows && course == r.course && r.confirmation == CONFIRMED {
        assert after == before + {r.edge} by {
          assert r.edgeId in rows';
          forall id | id in rows ensures id in rows' && rows'[id] == rows[id] {}
        }
        CheckIsExact(before, r.edge);
      } else {
        assert after == before by {
          forall id | id in rows ensures id in rows' && rows'[id] == rows[id] {}
        }
      }
    }
  }

  /** One call: an accepted one adds exactly the row it asked for, a refused one adds nothing. */
  lemma RequestRecords(rows: EdgeTable, cat: Catalog, r: EdgeRequest, course: nat)
    ensures var rows' := AfterRequest(rows, cat, r);
            if EdgeOutcome(rows, cat, r).Success? then
              && rows'.Keys == rows.Keys + {r.edgeId} && r.edgeId !in rows
              && (forall id :: id in rows ==> rows'[id] == rows[id])
              && rows'[r.edgeId].course == r.course && rows'[r.edgeId].edge == r.edge
              && rows'[r.edgeId].confirmation == r.confirmation
              && ConfirmedEdges(rows', course)
                   == ConfirmedEdges(rows, course)
                      + (if course == r.course && r.confirmation == CONFIRMED then {r.edge} else {})
            else rows' == rows
  {
    hide Reaches;
    var rows' := AfterRequest(rows, cat, r);
    if EdgeOutcome(rows, cat, r).Success? {
      assert r.edgeId in rows' && forall id :: id in rows ==> id in rows' && rows'[id] == rows[id];
    }
  }

  // ---- a run's rows are its accepted requests ----

  /** Was request `i` of the run accepted? */
  ghost predicate Accepted(cat: Catalog, rs: seq<EdgeRequest>, i: nat)
    requires i < |rs|
  {
    EdgeOutcome(AfterRequests(map[], cat, rs[..i]), cat, rs[i]).Success?
  }

  /** The edges of a course that accepted confirmed requests asked for. */
  ghost function AcceptedConfirmed(cat: Catalog, rs: seq<EdgeRequest>, course: nat): set<Edge> {
    set i: nat | i < |rs| && rs[i].course == course && rs[i].confirmation == CONFIRMED && Accepted(cat, rs, i)
        :: rs[i].edge
  }

  lemma EarlierAccepted(cat: Catalog, rs: seq<EdgeRequest>, n: nat, i: nat)
    requires i < n <= |rs|
    ensures Accepted(cat, rs[..n], i) <==> Accepted(cat, rs, i)
  {
    hide EdgeOutcome;
    hide AfterRequests;
    assert rs[..n][..i] == rs[..i];
  }

  /** Some accepted request of the run drew this id. */
  ghost predicate IdTaken(cat: Catalog, rs: seq<EdgeRequest>, id: nat) {
    exists i: nat :: i < |rs| && Accepted(cat, rs, i) && rs[i].edgeId == id
  }

  lemma IdTakenSnoc(cat: Catalog, rs: seq<EdgeRequest>, id: nat)
    requires rs != []
    ensures var n := |rs| - 1;
            IdTaken(cat, rs, id) <==> IdTaken(cat, rs[..n], id) || (Accepted(cat, rs, n) && rs[n].edgeId == id)
  {
    hide Accepted;
    var n := |rs| - 1;
    if IdTaken(cat, rs, id) {
      var i: nat :| i < |rs| && Accepted(cat, rs, i) && rs[i].edgeId == id;
      if i < n { EarlierAccepted(cat, rs, n, i); }
    }
    if IdTaken(cat, rs[..n], id) {
      var i: nat :| i < n && Accepted(cat, rs[..n], i) && rs[..n][i].edgeId == id;
      EarlierAccepted(cat, rs, n, i);
    }
  }

  /** The row this request asked for. */
  ghost predicate Holds(rows: EdgeTable, r: EdgeRequest) {
    r.edgeId in rows && rows[r.edgeId] == EdgeRow(r.course, r.edge, r.confirmation)
  }

  /** The rows of a run are those of its accepted requests, each as it was asked for. */
  lemma {:induction false} RowsAreAccepted(cat: Catalog, rs: seq<EdgeRequest>)
    ensures var rows := AfterRequests(map[], cat, rs);
      && (forall i: nat :: i < |rs| && Accepted(cat, rs, i) ==> Holds(rows, rs[i]))
      && (forall id :: id in rows <==> IdTaken(cat, rs, id))
  {
    if rs != [] {
      var n := |rs| - 1;
      var before, rows := AfterRequests(map[], cat, rs[..n]), AfterRequests(map[], cat, rs);
      RowsAreAccepted(cat, rs[..n]);
      RequestRecords(before, cat, rs[n], rs[n].course);
      forall id { IdTakenSnoc(cat, rs, id); }
      hide EdgeOutcome;
      hide IdTaken;
      hide ConfirmedEdges;
      forall i: nat | i < n && Accepted(cat, rs, i) ensures Holds(rows, rs[i]) {
        EarlierAccepted(cat, rs, n, i);
        assert Holds(before, rs[..n][i]);
      }
    }
  }

  /** Over every run the confirmed edges of a course are exactly those of its accepted confirmed requests. */
  lemma ConfirmedAreAccepted(cat: Catalog, rs: seq<EdgeRequest>, course: nat)
    ensures ConfirmedEdges(AfterRequests(map[], cat, rs), course) == AcceptedConfirmed(cat, rs, course)
  {
    var rows := AfterRequests(map[], cat, rs);
    RowsAreAccepted(cat, rs);
    hide AfterRequests;
    hide Accepted;
    forall e ensures e in ConfirmedEdges(rows, course) <==> e in AcceptedConfirmed(cat, rs, course) {
      if e in ConfirmedEdges(rows, course) {
        var id :| id in rows && rows[id].course == course && rows[id].confirmation == CONFIRMED && rows[id].edge == e;
        assert IdTaken(cat, rs, id);
        var i: nat :| i < |rs| && Accepted(cat, rs, i) && rs[i].edgeId == id;
        assert Holds(rows, rs[i]);
      }
      if e in AcceptedConfirmed(cat, rs, course) {
        var i: nat :| i < |rs| && rs[i].course == course && rs[i].confirmation == CONFIRMED && Accepted(cat, rs, i)
                      && rs[i].edge == e;
        assert Holds(rows, rs[i]);
      }
    }
  }

  /** Some accepted request of this course asked for this pair. */
  ghost predicate PairTaken(cat: Catalog, rs: seq<EdgeRequest>, course: nat, edge: Edge) {
    exists i: nat :: i < |rs| && Accepted(cat, rs, i) && rs[i].course == course && rs[i].edge == edge
  }

  lemma RowsAreTaken(cat: Catalog, rs: seq<EdgeRequest>, r: EdgeRequest)
    ensures var rows := AfterRequests(map[], cat, rs);
      && (HasPair(rows, r.course, r.edge) <==> PairTaken(cat, rs, r.course, r.edge))
      && (r.edgeId in rows <==> IdTaken(cat, rs, r.edgeId))
  {
    var rows := AfterRequests(map[], cat, rs);
    RowsAreAccepted(cat, rs);
    hide AfterRequests;
    hide Accepted;
    if HasPair(rows, r.course, r.edge) {
      var id :| id in rows && rows[id].course == r.course && rows[id].edge == r.edge;
      assert IdTaken(cat, rs, id);
      var i: nat :| i < |rs| && Accepted(cat, rs, i) && rs[i].edgeId == id;
    }
  }

  /**
   * After any run, a call is answered by the requests accepted before it: a confirmed one is refused as a
   * cycle exactly when accepted confirmed edges of its course lead from its target back to its source, and
   * a call is accepted exactly when that is not so and its course, nodes, pair and id are in order.
   */
  lemma HistoryDecides(cat: Catalog, rs: seq<EdgeRequest>, r: EdgeRequest)
    ensures var outcome := EdgeOutcome(AfterRequests(map[], cat, rs), cat, r);
            var closing := Reaches(AcceptedConfirmed(cat, rs, r.course), r.edge.dst, r.edge.src);
      && (outcome == Failure(CourseNotFound) <==> r.course !in cat.courses)
      && (outcome == Failure(ConfirmedPrerequisiteCycle) <==>
            r.course in cat.courses && r.confirmation == "confirmed" && closing)
      && (outcome == Failure(UnknownConfirmation) <==>
            r.course in cat.courses && r.confirmation !in {"confirmed", "suggested"})
      && (outcome.Success? <==>
            && r.course in cat.courses && r.confirmation in {"confirmed", "suggested"}
            && !(r.confirmation == "confirmed" && closing)
            && r.edge.src != r.edge.dst && {r.edge.src, r.edge.dst} <= cat.nodes
            && !PairTaken(cat, rs, r.course, r.edge) && !IdTaken(cat, rs, r.edgeId))
      && (outcome.Success? ==> outcome.value == r.edgeId)
  {
    ConfirmedAreAccepted(cat, rs, r.course);
    RowsAreTaken(cat, rs, r);
    hide AfterRequests;
    hide AcceptedConfirmed;
    hide ConfirmedEdges;
    hide Reaches;
    hide PairTaken;
    hide IdTaken;
    hide HasPair;
  }

  /** Once an edge was confirmed its reverse is refused as a cycle, however many calls lie between. */
  lemma ReverseIsRefused(cat: Catalog, rs: seq<EdgeRequest>, i: nat, r: EdgeRequest)
    requires i < |rs| && Accepted(cat, rs, i) && rs[i].confirmation == CONFIRMED
    requires r.course == rs[i].course && r.confirmation == CONFIRMED
    requires r.edge == Edge(rs[i].edge.dst, rs[i].edge.src)
    ensures EdgeOutcome(AfterRequests(map[], cat, rs), cat, r) == Failure(ConfirmedPrerequisiteCycle)
  {
    HistoryDecides(cat, rs, r);
    var edges := AcceptedConfirmed(cat, rs, r.course);
    assert rs[i].edge in edges;
    assert WalkFromTo(edges, [r.edge.dst, r.edge.src], r.edge.dst, r.edge.src);
  }

  ghost predicate PairsAreUnique(rows: EdgeTable) {
    forall a, b :: a in rows && b in rows && rows[a].course == rows[b].course && rows[a].edge == rows[b].edge ==> a == b
  }

  ghost predicate NoSelfEdges(rows: EdgeTable) {
    forall a :: a in rows ==> rows[a].edge.src != rows[a].edge.dst
  }

  /** Over every run of calls each course holds a pair of nodes at most once, and no node paired with itself. */
  lemma {:induction false} RunsKeepPairsUnique(cat: Catalog, rs: seq<EdgeRequest>)
    ensures PairsAreUnique(AfterRequests(map[], cat, rs)) && NoSelfEdges(AfterRequests(map[], cat, rs))
  {
    if rs != [] {
      hide Reaches;
      hide ConfirmedEdges;
      RunsKeepPairsUnique(cat, rs[..|rs| - 1]);
    }
  }

  /** Over every run of calls, starting from no rows, each course's confirmed edges are acyclic. */
  lemma {:induction false} RunsKeepAcyclic(cat: Catalog, rs: seq<EdgeRequest>)
    ensures CoursesAcyclic(AfterRequests(map[], cat, rs))
  {
    if rs == [] {
      forall course, p ensures !IsCycle(ConfirmedEdges(map[], course), p) {
        if |p| >= 2 {
          assert Edge(p[0], p[0 + 1]) !in ConfirmedEdges(map[], course);
        }
      }
    } else {
      RunsKeepAcyclic(cat, rs[..|rs| - 1]);
      RequestKeepsAcyclic(AfterRequests(map[], cat, rs[..|rs| - 1]), cat, rs[|rs| - 1]);
    }
  }

  /** The curriculum-edge rows of one account. */
  class Curriculum {
    var rows: EdgeTable

    constructor ()
      ensures rows == map[] && CoursesAcyclic(rows)
    {
      rows := map[];
      new;
      RunsKeepAcyclic(Catalog({}, {}), []);
    }

    method AddPrerequisiteEdge(cat: Catalog, r: EdgeRequest) returns (outcome: Result<nat, EdgeError>)
      requires CoursesAcyclic(rows)
      modifies this
      ensures outcome == EdgeOutcome(old(rows), cat, r)
      ensures rows == AfterRequest(old(rows), cat, r)
      ensures CoursesAcyclic(rows)
    {
      RequestKeepsAcyclic(rows, cat, r);
      if r.course !in cat.courses {
        return Failure(CourseNotFound);
      }
      var existing := ConfirmedPairs(rows, r.course);
      if r.confirmation == CONFIRMED {
        var cyclic := WouldCreateCycle(existing, r.edge.src, r.edge.dst);
        assert Edge(r.edge.src, r.edge.dst) == r.edge;
        CheckIsExact(ConfirmedEdges(rows, r.course), r.edge);
        if cyclic {
          return Failure(ConfirmedPrerequisiteCycle);
        }
      }
      if r.confirmation != CONFIRMED && r.confirmation != SUGGESTED {
        return Failure(UnknownConfirmation);
      }
      if !Insertable(rows, cat, r) {
        return Failure(ConstraintViolation);
      }
      rows := rows[r.edgeId := EdgeRow(r.course, r.edge, r.confirmation)];
      return Success(r.edgeId);
    }
  }

  /** The `select ... where confirmation == confirmed` query, in any row order. */
  method ConfirmedPairs(rows: EdgeTable, course: nat) returns (pairs: seq<Edge>)
    ensures EdgeSet(pairs) == ConfirmedEdges(rows, course)
  {
    pairs := [];
    var todo := rows.Keys;
    while todo != {}
      invariant todo <= rows.Keys
      invariant EdgeSet(pairs) ==
                set id | id in rows && id !in todo && rows[id].course == course
                    && rows[id].confirmation == CONFIRMED :: rows[id].edge
      decreases todo
    {
      var id :| id in todo;
      ghost var before := EdgeSet(pairs);
      todo := todo - {id};
      assert EdgeSet(pairs + [rows[id].edge]) == before + {rows[id].edge};
      if rows[id].course == course && rows[id].confirmation == CONFIRMED {
        pairs := pairs + [rows[id].edge];
      }
    }
  }
}
