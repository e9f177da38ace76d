/** Dependency graph of a template and its depth-first topological sort (server/runtime.py). */
module Topology {
  import opened Models
  import opened Wrappers

  /** Each node with the nodes it reads from. */
  type Graph = map<string, set<string>>

  function Elements<T>(s: seq<T>): set<T> {
    set x | x in s
  }

  predicate NoDuplicates<T(==)>(s: seq<T>) {
    forall i, j :: 0 <= i < j < |s| ==> s[i] != s[j]
  }

  lemma InitOf<T>(s: seq<T>, n: nat)
    requires |s| == n + 1
    ensures forall x :: x in s <==> x in s[..n] || x == s[n]
  {
    assert s == s[..n] + [s[n]];
  }

  lemma TakeNext<T>(s: seq<T>, n: nat)
    requires n < |s|
    ensures s[..n + 1] == s[..n] + [s[n]] && s[..n + 1][..n] == s[..n]
  {
  }

  function Ids(nodes: seq<NodeSpec>): set<string> {
    set n | n in nodes :: n.id
  }

  /** The in-template nodes that the edges of the nodes named `id` read from. */
  function DepsOf(nodes: seq<NodeSpec>, ids: set<string>, id: string): set<string> {
    set n, port | n in nodes && n.id == id && port in n.edges && NodeOf(n.edges[port]) in ids
      :: NodeOf(n.edges[port])
  }

  function Deps(nodes: seq<NodeSpec>): Graph {
    map id | id in Ids(nodes) :: DepsOf(nodes, Ids(nodes), id)
  }

  /** Every dependency is itself a node. */
  predicate Closed(g: Graph) {
    forall n :: n in g ==> g[n] <= g.Keys
  }

  /** Each element of the path reads from the next one. */
  predicate IsPath(g: Graph, p: seq<string>) {
    && (forall i :: 0 <= i < |p| ==> p[i] in g)
    && (forall i :: 0 <= i < |p| - 1 ==> p[i + 1] in g[p[i]])
  }

  predicate IsCycle(g: Graph, p: seq<string>) {
    IsPath(g, p) && |p| >= 2 && p[0] == p[|p| - 1]
  }

  ghost predicate Cyclic(g: Graph) {
    exists p :: IsCycle(g, p)
  }

  ghost predicate OnCycle(g: Graph, nid: string) {
    exists p :: IsCycle(g, p) && p[0] == nid
  }

  /** Producers stand before their consumers. */
  predicate Ordered(g: Graph, order: seq<string>) {
    forall i :: 0 <= i < |order| ==> order[i] in g && g[order[i]] <= Elements(order[..i])
  }

  /** Each node exactly once, every producer before its consumers. */
  predicate IsTopoOrder(g: Graph, order: seq<string>) {
    NoDuplicates(order) && Elements(order) == g.Keys && Ordered(g, order)
  }

  /** A path strictly descends a topological order. */
  lemma {:induction false} PathDescends(g: Graph, order: seq<string>, p: seq<string>, i: nat, j: nat)
    requires IsTopoOrder(g, order) && IsPath(g, p) && |p| > 0
    requires i < |order| && j < |order| && order[i] == p[0] && order[j] == p[|p| - 1]
    ensures j + |p| - 1 <= i
  {
    if |p| == 1 {
      assert i == j;
    } else {
      assert p[1] in g[p[0]];
      assert p[1] in Elements(order[..i]);
      var k :| 0 <= k < i && order[..i][k] == p[1];
      PathDescends(g, order, p[1..], k, j);
    }
  }

  /** A graph with a topological order has no cycle. */
  lemma OrderedMeansAcyclic(g: Graph, order: seq<string>)
    requires IsTopoOrder(g, order)
    ensures !Cyclic(g)
  {
    forall p | IsCycle(g, p) ensures false {
      assert p[0] in Elements(order);
      var i :| 0 <= i < |order| && order[i] == p[0];
      PathDescends(g, order, p, i, i);
    }
  }

  /** A path that can be continued by one of its own nodes closes a cycle. */
  lemma ClosesCycle(g: Graph, stack: seq<string>, nid: string)
    requires IsPath(g, stack) && nid in Elements(stack) && nid in g[stack[|stack| - 1]]
    ensures OnCycle(g, nid)
  {
    var i :| 0 <= i < |stack| && stack[i] == nid;
    var p := stack[i..] + [nid];
    assert forall j :: 0 <= j < |p| - 1 ==> p[j] == stack[i + j];
    assert IsCycle(g, p);
  }

  lemma PathGrows(g: Graph, stack: seq<string>, nid: string)
    requires IsPath(g, stack) && nid in g && (stack != [] ==> nid in g[stack[|stack| - 1]])
    ensures IsPath(g, stack + [nid])
    ensures Elements(stack + [nid]) == Elements(stack) + {nid}
  {
  }

  lemma OrderGrows(g: Graph, order: seq<string>, nid: string)
    requires Ordered(g, order) && NoDuplicates(order)
    requires nid in g && nid !in Elements(order) && g[nid] <= Elements(order)
    ensures Ordered(g, order + [nid]) && NoDuplicates(order + [nid])
    ensures Elements(order + [nid]) == Elements(order) + {nid}
  {
    var next := order + [nid];
    assert forall i :: 0 <= i <= |order| ==> next[..i] == order[..i];
    assert order[..|order|] == order;
    assert forall i :: 0 <= i < |order| ==> order[i] in Elements(order);
  }

  /** The search state: finished nodes in order, and the nodes on the current path. */
  class Sorter {
    const deps: Graph
    var order: seq<string>
    var visited: set<string>
    var visiting: set<string>

    constructor (deps: Graph)
      ensures this.deps == deps && order == [] && visited == {} && visiting == {}
    {
      this.deps := deps;
      order, visited, visiting := [], {}, {};
    }

    /** `stack` is the chain of calls that are still open. */
    ghost predicate Valid(stack: seq<string>)
      reads this
    {
      && Closed(deps)
      && Elements(order) == visited <= deps.Keys
      && NoDuplicates(order)
      && Ordered(deps, order)
      && IsPath(deps, stack)
      && Elements(stack) == visiting
      && visited !! visiting
    }

    /** Visits `nid` and everything it depends on; a node that closes a cycle is returned. */
    method Visit(nid: string, ghost stack: seq<string>) returns (bad: Option<string>)
      requires Valid(stack) && nid in deps
      requires stack != [] ==> nid in deps[stack[|stack| - 1]]
      modifies this
      ensures bad.Some? ==> OnCycle(deps, bad.value)
      ensures bad.None? ==> Valid(stack) && nid in visited && old(visited) <= visited
      decreases deps.Keys - visiting
    {
      if nid in visited {
        return None;
      }
      if nid in visiting {
        ClosesCycle(deps, stack, nid);
        return Some(nid);
      }
      visiting := visiting + {nid};
      ghost var path := stack + [nid];
      PathGrows(deps, stack, nid);
      var remaining := deps[nid];
      while remaining != {}
        invariant Valid(path) && remaining <= deps[nid]
        invariant deps[nid] - remaining <= visited && old(visited) <= visited
        decreases remaining
      {
        var d :| d in remaining;
        bad := Visit(d, path);
        if bad.Some? {
          return;
        }
        remaining := remaining - {d};
      }
      visiting := visiting - {nid};
      PathGrows(deps, stack, nid);
      OrderGrows(deps, order, nid);
      visited := visited + {nid};
      order := order + [nid];
      return None;
    }
  }

  /** The nodes in `ids` that the edges at `ports` of `node` read from. */
  function SourcesOf(node: NodeSpec, ports: set<string>, ids: set<string>): set<string> {
    set port | port in ports && port in node.edges && NodeOf(node.edges[port]) in ids :: NodeOf(node.edges[port])
  }

  /** Enters the edges of `node`, in any order. */
  method AddDeps(deps: Graph, node: NodeSpec) returns (deps': Graph)
    requires node.id in deps
    ensures deps' == deps[node.id := deps[node.id] + SourcesOf(node, node.edges.Keys, deps.Keys)]
  {
    var ports := node.edges.Keys;
    var sources := deps[node.id];
    while ports != {}
      invariant ports <= node.edges.Keys
      invariant sources == deps[node.id] + SourcesOf(node, node.edges.Keys - ports, deps.Keys)
      decreases ports
    {
      var port :| port in ports;
      var src := NodeOf(node.edges[port]);
      if src in deps {
        sources := sources + {src};
      }
      ports := ports - {port};
    }
    assert node.edges.Keys - {} == node.edges.Keys;
    return deps[node.id := sources];
  }

  /** Builds the dependency map node by node. */
  method BuildDeps(nodes: seq<NodeSpec>) returns (deps: Graph)
    ensures deps == Deps(nodes) && Closed(deps)
  {
    var ids := Ids(nodes);
    deps := map id | id in ids :: {};
    for i := 0 to |nodes|
      invariant deps.Keys == ids
      invariant forall id :: id in ids ==> deps[id] == DepsOf(nodes[..i], ids, id)
    {
      ghost var before := deps;
      deps := AddDeps(deps, nodes[i]);
      forall id | id in ids
        ensures deps[id] == DepsOf(nodes[..i + 1], ids, id)
      {
        DepsOfExtend(nodes, i, ids, id);
      }
    }
    assert nodes[..|nodes|] == nodes;
  }

  lemma DepsOfExtend(nodes: seq<NodeSpec>, i: nat, ids: set<string>, id: string)
    requires i < |nodes|
    ensures DepsOf(nodes[..i + 1], ids, id) == DepsOf(nodes[..i], ids, id) +
      if nodes[i].id == id then SourcesOf(nodes[i], nodes[i].edges.Keys, ids) else {}
  {
    assert nodes[..i + 1] == nodes[..i] + [nodes[i]];
    assert forall n :: n in nodes[..i + 1] <==> n in nodes[..i] || n == nodes[i];
  }

  /** Depth-first topological sort. It fails exactly on a cyclic template, and then names
      a node of a cycle; the order in which a node's dependencies are visited is left open. */
  method TopoOrder(nodes: seq<NodeSpec>) returns (r: Result<seq<string>, string>)
    ensures r.Ok? <==> !Cyclic(Deps(nodes))
    ensures r.Ok? ==> IsTopoOrder(Deps(nodes), r.value)
    ensures r.Err? ==> OnCycle(Deps(nodes), r.error)
  {
    var deps := BuildDeps(nodes);
    var sorter := new Sorter(deps);
    for i := 0 to |nodes|
      invariant sorter.deps == deps && fresh(sorter)
      invariant sorter.Valid([])
      invariant Ids(nodes[..i]) <= sorter.visited
    {
      var bad := sorter.Visit(nodes[i].id, []);
      if bad.Some? {
        return Err(bad.value);
      }
      assert nodes[..i + 1] == nodes[..i] + [nodes[i]];
    }
    assert nodes[..|nodes|] == nodes;
    OrderedMeansAcyclic(deps, sorter.order);
    return Ok(sorter.order);
  }
}
