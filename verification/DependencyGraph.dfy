/** Dependency graphs and the cycle check. */
module DependencyGraph {

  /** A work item as the check sees it: its id and the ids it depends on. */
  datatype Node = Node(id: string, deps: seq<string>)

  type Graph = map<string, seq<string>>

  function Ids(nodes: seq<Node>): set<string> {
    set i | 0 <= i < |nodes| :: nodes[i].id
  }

  function IdList(nodes: seq<Node>): (ids: seq<string>)
    ensures |ids| == |nodes|
    ensures forall i :: 0 <= i < |nodes| ==> ids[i] == nodes[i].id
  {
    seq(|nodes|, i requires 0 <= i < |nodes| => nodes[i].id)
  }

  /** The members of `deps` that name an item of the same plan, in order. */
  function Within(deps: seq<string>, ids: set<string>): (r: seq<string>)
    ensures forall d :: d in r <==> d in deps && d in ids
  {
    if deps == [] then []
    else if deps[0] in ids then [deps[0]] + Within(deps[1..], ids)
    else Within(deps[1..], ids)
  }

  /** Entries are inserted in plan order, so a repeated id keeps its last entry. */
  function Edges(nodes: seq<Node>, ids: set<string>): (g: Graph)
    ensures g.Keys == Ids(nodes)
  {
    if nodes == [] then map[]
    else
      var last := nodes[|nodes| - 1];
      assert Ids(nodes) == Ids(nodes[..|nodes| - 1]) + {last.id} by {
        assert nodes == nodes[..|nodes| - 1] + [last];
      }
      Edges(nodes[..|nodes| - 1], ids)[last.id := Within(last.deps, ids)]
  }

  function GraphOf(nodes: seq<Node>): (g: Graph)
    ensures g.Keys == Ids(nodes)
  {
    Edges(nodes, Ids(nodes))
  }

  ghost predicate DistinctIds(nodes: seq<Node>) {
    forall i, j :: 0 <= i < j < |nodes| ==> nodes[i].id != nodes[j].id
  }

  lemma {:induction false} EdgesAt(nodes: seq<Node>, ids: set<string>, i: nat)
    requires DistinctIds(nodes) && i < |nodes|
    ensures Edges(nodes, ids)[nodes[i].id] == Within(nodes[i].deps, ids)
  {
    if i < |nodes| - 1 {
      EdgesAt(nodes[..|nodes| - 1], ids, i);
    }
  }

  // ----- cycles and topological orders -------------------------------------

  ghost predicate Walk(g: Graph, p: seq<string>) {
    forall i :: 0 <= i < |p| - 1 ==> p[i] in g && p[i + 1] in g[p[i]]
  }

  ghost predicate ClosedWalk(g: Graph, p: seq<string>) {
    |p| >= 2 && p[0] == p[|p| - 1] && Walk(g, p)
  }

  ghost predicate HasCycle(g: Graph) {
    exists p :: ClosedWalk(g, p)
  }

  /** Every entry is preceded by all of its dependencies. */
  ghost predicate Ordered(g: Graph, order: seq<string>) {
    forall p :: 0 <= p < |order| && order[p] in g ==>
      forall d :: d in g[order[p]] ==> d in order[..p]
  }

  ghost predicate Topological(g: Graph, order: seq<string>) {
    Ordered(g, order) && forall id :: id in g ==> id in order
  }

  /** Following a walk from position `pos` of an ordered list moves to earlier positions. */
  lemma {:induction false} WalkDescends(g: Graph, order: seq<string>, p: seq<string>, pos: nat) returns (end: nat)
    requires Ordered(g, order) && |p| >= 1 && Walk(g, p)
    requires pos < |order| && order[pos] == p[0]
    ensures end <= pos && order[end] == p[|p| - 1] && (|p| >= 2 ==> end < pos)
    decreases |p|
  {
    if |p| == 1 {
      end := pos;
    } else {
      assert p[1] in order[..pos];
      var q :| 0 <= q < pos && order[..pos][q] == p[1];
      end := WalkDescends(g, order, p[1..], q);
    }
  }

  lemma {:induction false} OrderedHasNoClosedWalk(g: Graph, order: seq<string>, p: seq<string>, pos: nat)
    requires Ordered(g, order) && ClosedWalk(g, p)
    requires pos < |order| && order[pos] == p[0]
    ensures false
    decreases pos
  {
    var end := WalkDescends(g, order, p, pos);
    OrderedHasNoClosedWalk(g, order, p, end);
  }

  lemma TopologicalIsAcyclic(g: Graph, order: seq<string>)
    requires Topological(g, order)
    ensures !HasCycle(g)
  {
    if p :| ClosedWalk(g, p) {
      assert p[0] in g && p[0] in order;
      var pos :| 0 <= pos < |order| && order[pos] == p[0];
      OrderedHasNoClosedWalk(g, order, p, pos);
    }
  }

  // ----- the search ---------------------------------------------------------

  function Unvisited(g: Graph, visiting: seq<string>): set<string> {
    set id | id in g.Keys && id !in visiting
  }

  lemma PushShrinks(g: Graph, visiting: seq<string>, id: string)
    requires id in g && id !in visiting
    ensures |Unvisited(g, visiting + [id])| < |Unvisited(g, visiting)|
  {
    assert Unvisited(g, visiting + [id]) == Unvisited(g, visiting) - {id};
  }

  /** Outcome of a visit: whether a cycle was met, and the finished ids in finishing order. */
  datatype Found = Found(cycle: bool, done: seq<string>)

  function Visit(g: Graph, id: string, done: seq<string>, visiting: seq<string>): Found
    decreases |Unvisited(g, visiting)|, 0
  {
    if id in done then Found(false, done)
    else if id in visiting then Found(true, done)
    else if id !in g then Found(false, done + [id])
    else
      PushShrinks(g, visiting, id);
      var r := VisitAll(g, g[id], done, visiting + [id]);
      if r.cycle then r else Found(false, r.done + [id])
  }

  function VisitAll(g: Graph, ids: seq<string>, done: seq<string>, visiting: seq<string>): Found
    decreases |Unvisited(g, visiting)|, 1 + |ids|
  {
    if ids == [] then Found(false, done)
    else
      var r := Visit(g, ids[0], done, visiting);
      if r.cycle then r else VisitAll(g, ids[1..], r.done, visiting)
  }

  /** `visiting` is the path of open calls, and `id` is the next step along it. */
  ghost predicate OnPath(g: Graph, visiting: seq<string>, id: string) {
    Walk(g, visiting + [id])
  }

  ghost predicate GoodResult(g: Graph, done: seq<string>, r: Found) {
    if r.cycle then HasCycle(g) else done <= r.done && Ordered(g, r.done)
  }

  lemma {:induction false} VisitExact(g: Graph, id: string, done: seq<string>, visiting: seq<string>)
    requires Ordered(g, done) && OnPath(g, visiting, id)
    ensures GoodResult(g, done, Visit(g, id, done, visiting))
    ensures var r := Visit(g, id, done, visiting); !r.cycle ==> id in r.done
    decreases |Unvisited(g, visiting)|, 0
  {
    if id in done {
    } else if id in visiting {
      var t :| 0 <= t < |visiting| && visiting[t] == id;
      var p := (visiting + [id])[t..];
      assert Walk(g, p) by {
        forall i | 0 <= i < |p| - 1 ensures p[i] in g && p[i + 1] in g[p[i]] {
          assert p[i] == (visiting + [id])[t + i] && p[i + 1] == (visiting + [id])[t + i + 1];
        }
      }
      assert ClosedWalk(g, p);
    } else if id in g {
      PushShrinks(g, visiting, id);
      assert Walk(g, visiting + [id]);
      forall d | d in g[id] ensures OnPath(g, visiting + [id], d) {
        var v := visiting + [id];
        forall i | 0 <= i < |v| ensures (v + [d])[i] in g && (v + [d])[i + 1] in g[(v + [d])[i]] {
          if i < |v| - 1 { assert v[i] in g && v[i + 1] in g[v[i]]; }
        }
      }
      VisitAllExact(g, g[id], done, visiting + [id]);
      var r := VisitAll(g, g[id], done, visiting + [id]);
      if !r.cycle { AppendOrdered(g, r.done, id); }
    } else {
      AppendOrdered(g, done, id);
    }
  }

  lemma AppendOrdered(g: Graph, order: seq<string>, id: string)
    requires Ordered(g, order)
    requires id in g ==> forall d :: d in g[id] ==> d in order
    ensures Ordered(g, order + [id])
  {
    var o := order + [id];
    forall p, d | 0 <= p < |o| && o[p] in g && d in g[o[p]] ensures d in o[..p] {
      if p < |order| {
        assert order[p] in g && d in order[..p];
        assert o[..p] == order[..p];
      } else {
        assert o[..p] == order;
      }
    }
  }

  lemma {:induction false} VisitAllExact(g: Graph, ids: seq<string>, done: seq<string>, visiting: seq<string>)
    requires Ordered(g, done)
    requires forall id :: id in ids ==> OnPath(g, visiting, id)
    ensures GoodResult(g, done, VisitAll(g, ids, done, visiting))
    ensures var r := VisitAll(g, ids, done, visiting); !r.cycle ==> forall id :: id in ids ==> id in r.done
    decreases |Unvisited(g, visiting)|, 1 + |ids|
  {
    if ids != [] {
      VisitExact(g, ids[0], done, visiting);
      var r := Visit(g, ids[0], done, visiting);
      if !r.cycle {
        VisitAllExact(g, ids[1..], r.done, visiting);
      }
    }
  }

  /** What the check computes for a plan. */
  function Search(nodes: seq<Node>): Found {
    VisitAll(GraphOf(nodes), IdList(nodes), [], [])
  }

  /** The check reports a cycle exactly when the plan has one; otherwise the order in
      which ids are finished lists every item after its dependencies. */
  lemma SearchIsExact(nodes: seq<Node>)
    ensures Search(nodes).cycle <==> HasCycle(GraphOf(nodes))
    ensures !Search(nodes).cycle ==> Topological(GraphOf(nodes), Search(nodes).done)
  {
    var g := GraphOf(nodes);
    VisitAllExact(g, IdList(nodes), [], []);
    if !Search(nodes).cycle {
      forall id | id in g ensures id in Search(nodes).done {
        var i :| 0 <= i < |nodes| && nodes[i].id == id;
        assert IdList(nodes)[i] == id;
      }
      TopologicalIsAcyclic(g, Search(nodes).done);
    }
  }

  /** The mutable search: `done` and `visiting` are the two sets the recursive closure
      updates, kept in insertion order. */
  class CycleFinder {
    const graph: Graph
    var done: seq<string>
    var visiting: seq<string>

    constructor (graph: Graph)
      ensures this.graph == graph && done == [] && visiting == []
    {
      this.graph := graph;
      done, visiting := [], [];
    }

    method Explore(id: string) returns (cycle: bool)
      modifies this
      ensures Found(cycle, done) == Visit(graph, id, old(done), old(visiting))
      ensures !cycle ==> visiting == old(visiting)
      decreases |Unvisited(graph, visiting)|, 0
    {
      if id in done { return false; }
      if id in visiting { return true; }
      ghost var path := visiting;
      visiting := visiting + [id];
      if id in graph {
        PushShrinks(graph, path, id);
        var deps := graph[id];
        for i := 0 to |deps|
          invariant visiting == path + [id]
          invariant VisitAll(graph, deps, old(done), visiting) == VisitAll(graph, deps[i..], done, visiting)
        {
          assert deps[i..][1..] == deps[i + 1..];
          var found := Explore(deps[i]);
          if found { return true; }
        }
      }
      visiting := visiting[..|visiting| - 1];
      done := done + [id];
      return false;
    }
  }

  /** `true` exactly when the plan's own dependencies form a cycle. */
  method CurrentGraphCycle(nodes: seq<Node>) returns (cycle: bool)
    ensures cycle <==> HasCycle(GraphOf(nodes))
  {
    var finder := new CycleFinder(GraphOf(nodes));
    var ids := IdList(nodes);
    SearchIsExact(nodes);
    for i := 0 to |ids|
      invariant finder.visiting == []
      invariant finder.graph == GraphOf(nodes)
      invariant Search(nodes) == VisitAll(finder.graph, ids[i..], finder.done, [])
    {
      assert ids[i..][1..] == ids[i + 1..];
      var found := finder.Explore(ids[i]);
      if found { return true; }
    }
    return false;
  }
}
