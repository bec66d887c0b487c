/** The worklist searches compute reachability, validation is exact, and governed graphs have bounded walks. */
module GraphTopology {
  import opened Common
  import opened GraphModel

  // ---------- reachability ----------

  lemma ReachesSelf(adj: Adjacency, a: NodeId)
    ensures Reaches(adj, a, a)
  {
    var p := [a];
    assert Walk(adj, p);
  }

  lemma ReachesStep(adj: Adjacency, a: NodeId, b: NodeId, c: NodeId)
    requires Reaches(adj, a, b) && b in adj && c in adj[b]
    ensures Reaches(adj, a, c)
  {
    var p :| |p| >= 1 && p[0] == a && p[|p| - 1] == b && Walk(adj, p);
    var q := p + [c];
    assert Walk(adj, q);
    assert q[0] == a && q[|q| - 1] == c;
  }

  /** A set that holds the start and all successors of its members holds everything reachable. */
  lemma {:induction false} ClosedHolds(adj: Adjacency, s: set<NodeId>, p: seq<NodeId>)
    requires |p| >= 1 && p[0] in s && Walk(adj, p)
    requires forall a, b :: a in s && a in adj && b in adj[a] ==> b in s
    ensures p[|p| - 1] in s
  {
    if |p| > 1 {
      var q := p[..|p| - 1];
      assert Walk(adj, q);
      ClosedHolds(adj, s, q);
      assert q[|q| - 1] == p[|p| - 2];
    }
  }

  /** The elements of a set, in some order, at the end of a list. */
  method Extend(pending: seq<NodeId>, more: set<NodeId>) returns (r: seq<NodeId>)
    ensures forall x :: x in r <==> x in pending || x in more
  {
    r := pending;
    var rest := more;
    while rest != {}
      invariant rest <= more && forall x :: x in r <==> x in pending || (x in more && x !in rest)
    {
      var x :| x in rest;
      r, rest := r + [x], rest - {x};
    }
  }

  /** Everything reachable from the start, by a worklist. */
  method ReachableNodes(start: NodeId, adj: Adjacency) returns (reachable: set<NodeId>)
    requires start in adj && Closed(adj)
    ensures forall id :: id in reachable <==> Reaches(adj, start, id)
  {
    reachable := {};
    var pending := [start];
    ReachesSelf(adj, start);
    while pending != []
      invariant reachable <= adj.Keys && (forall x :: x in pending ==> x in adj)
      invariant start in reachable || start in pending
      invariant forall x :: x in reachable || x in pending ==> Reaches(adj, start, x)
      invariant forall a, b :: a in reachable && b in adj[a] ==> b in reachable || b in pending
      decreases |adj.Keys - reachable|, |pending|
    {
      hide Reaches, Walk;
      var id := pending[|pending| - 1];
      var rest := pending[..|pending| - 1];
      assert forall x :: x in pending <==> x in rest || x == id;
      if id in reachable {
        pending := rest;
      } else {
        assert adj.Keys - (reachable + {id}) < adj.Keys - reachable by { assert id in adj.Keys - reachable; }
        SubsetSize(adj.Keys - (reachable + {id}), adj.Keys - reachable);
        forall x | x in adj[id] ensures Reaches(adj, start, x) { ReachesStep(adj, start, id, x); }
        reachable := reachable + {id};
        pending := Extend(rest, adj[id] - reachable);
      }
    }
    forall id | Reaches(adj, start, id) ensures id in reachable {
      var p :| |p| >= 1 && p[0] == start && p[|p| - 1] == id && Walk(adj, p);
      ClosedHolds(adj, reachable, p);
    }
  }

  lemma SubsetSize<T>(a: set<T>, b: set<T>)
    requires a < b
    ensures |a| < |b|
  {
    var x :| x in b && x !in a;
    assert |b - a| >= 1 by { assert x in b - a; }
    assert a + (b - a) == b;
  }

  /** Whether a walk leads from the start to the destination, by a worklist that stops at it. */
  method CanReach(start: NodeId, destination: NodeId, adj: Adjacency) returns (r: bool)
    requires start in adj && Closed(adj)
    ensures r <==> Reaches(adj, start, destination)
  {
    var visited: set<NodeId> := {};
    var pending := [start];
    ReachesSelf(adj, start);
    while pending != []
      invariant visited <= adj.Keys && (forall x :: x in pending ==> x in adj) && destination !in visited
      invariant start in visited || start in pending
      invariant forall x :: x in visited || x in pending ==> Reaches(adj, start, x)
      invariant forall a, b :: a in visited && b in adj[a] ==> b in visited || b in pending
      decreases |adj.Keys - visited|, |pending|
    {
      hide Reaches, Walk;
      var id := pending[|pending| - 1];
      var rest := pending[..|pending| - 1];
      assert forall x :: x in pending <==> x in rest || x == id;
      if id == destination { return true; }
      if id in visited {
        pending := rest;
      } else {
        assert adj.Keys - (visited + {id}) < adj.Keys - visited by { assert id in adj.Keys - visited; }
        SubsetSize(adj.Keys - (visited + {id}), adj.Keys - visited);
        forall x | x in adj[id] ensures Reaches(adj, start, x) { ReachesStep(adj, start, id, x); }
        visited := visited + {id};
        pending := Extend(rest, adj[id] - visited);
      }
    }
    if Reaches(adj, start, destination) {
      var p :| |p| >= 1 && p[0] == start && p[|p| - 1] == destination && Walk(adj, p);
      ClosedHolds(adj, visited, p);
    }
    r := false;
  }

  // ---------- validation ----------

  /** The targets of every node, by node id. */
  method BuildAdjacency(g: Graph) returns (adj: Adjacency)
    requires Distinct(AllIds(g))
    ensures IsAdjacency(g, adj) && Closed(adj)
  {
    adj := map[];
    var i := 0;
    while i < |g.nodes|
      invariant 0 <= i <= |g.nodes|
      invariant forall id :: id in adj <==> exists j :: 0 <= j < i && g.nodes[j].id == id
      invariant forall j :: 0 <= j < i ==> g.nodes[j].id in adj && adj[g.nodes[j].id] == Targets(g, g.nodes[j])
      invariant forall id :: id in adj ==> adj[id] <= NodeIds(g)
    {
      hide Targets;
      NodesDiffer(g, i);
      TargetsAreNodes(g, g.nodes[i]);
      adj := adj[g.nodes[i].id := Targets(g, g.nodes[i])];
      i := i + 1;
    }
    assert forall id :: id in NodeIds(g) <==> id in adj;
  }

  lemma TargetsAreNodes(g: Graph, n: Node)
    ensures Targets(g, n) <= NodeIds(g)
  {
  }

  lemma NodesDiffer(g: Graph, i: nat)
    requires Distinct(AllIds(g)) && i < |g.nodes|
    ensures forall j :: 0 <= j < |g.nodes| && j != i ==> g.nodes[j].id != g.nodes[i].id
  {
    forall j | 0 <= j < |g.nodes| && j != i ensures g.nodes[j].id != g.nodes[i].id {
      assert AllIds(g)[i] == g.nodes[i].id && AllIds(g)[j] == g.nodes[j].id;
    }
  }

  /** The model's validator: the first violated rule, or nothing when the topology is valid. */
  method ValidateTopology(g: Graph) returns (fault: Option<Fault>)
    ensures fault.None? <==> exists adj :: ValidTopology(g, adj)
    ensures fault.Some? ==> Violates(g, fault.value)
  {
    hide Reaches, AllIds, EdgesResolve, IsAdjacency, Governed, Closed;
    if !Distinct(AllIds(g)) { return Some(DuplicateIds); }
    if g.entrypoint !in NodeIds(g) { return Some(UnknownEntrypoint); }
    if !(exists t :: t in g.terminals && t.success) || !(exists t :: t in g.terminals && !t.success) {
      return Some(MissingOutcome);
    }
    if !EdgesResolve(g) { return Some(UnknownTarget); }
    var adj := BuildAdjacency(g);
    forall other | IsAdjacency(g, other) ensures other == adj { OneAdjacency(g, adj, other); }
    AdjacencyKeys(g, adj);
    var reachable := ReachableNodes(g.entrypoint, adj);
    if !(NodeIds(g) <= reachable) {
      var id :| id in NodeIds(g) && id !in reachable;
      return Some(Unreachable);
    }
    var ungoverned := HasUngovernedCycle(g, adj);
    if ungoverned { return Some(UngovernedCycle); }
    assert ValidTopology(g, adj);
    fault := None;
  }

  lemma AdjacencyKeys(g: Graph, adj: Adjacency)
    requires IsAdjacency(g, adj)
    ensures adj.Keys == NodeIds(g)
  {
  }

  method HasUngovernedCycle(g: Graph, adj: Adjacency) returns (r: bool)
    requires IsAdjacency(g, adj) && Closed(adj)
    ensures r <==> !Governed(g, adj)
  {
    hide OnCycle, Targets, Closed;
    var i := 0;
    while i < |g.nodes|
      invariant 0 <= i <= |g.nodes|
      invariant forall j :: 0 <= j < i && OnCycle(adj, g.nodes[j].id) ==> g.nodes[j].retry.Some?
    {
      assert g.nodes[i] in g.nodes;
      var cyclic := IsCyclic(adj, g.nodes[i].id);
      if cyclic && g.nodes[i].retry.None? { return true; }
      i := i + 1;
    }
    r := false;
  }

  lemma OneAdjacency(g: Graph, a: Adjacency, b: Adjacency)
    requires IsAdjacency(g, a) && IsAdjacency(g, b)
    ensures a == b
  {
    hide Targets;
    forall id | id in a ensures a[id] == b[id] {
      var n :| n in g.nodes && n.id == id;
    }
  }

  method IsCyclic(adj: Adjacency, id: NodeId) returns (r: bool)
    requires id in adj && Closed(adj)
    ensures r <==> OnCycle(adj, id)
  {
    hide Reaches, Walk;
    var targets := adj[id];
    var rest := targets;
    while rest != {}
      invariant rest <= targets && forall b :: b in targets && b !in rest ==> !Reaches(adj, b, id)
    {
      var b :| b in rest;
      var back := CanReach(b, id, adj);
      if back { return true; }
      rest := rest - {b};
    }
    r := false;
  }

  // ---------- bounded walks ----------

  /** A node that occurs twice on a walk is on a cycle. */
  lemma TwiceIsCycle(adj: Adjacency, p: seq<NodeId>, i: nat, j: nat)
    requires Walk(adj, p) && i < j < |p| && p[i] == p[j]
    ensures OnCycle(adj, p[i])
  {
    var q := p[i + 1..j + 1];
    assert Walk(adj, q) by {
      forall k | 0 <= k < |q| - 1 ensures q[k] in adj && q[k + 1] in adj[q[k]] {
        assert q[k] == p[i + 1 + k] && q[k + 1] == p[i + 1 + k + 1];
      }
    }
    assert q[0] == p[i + 1] && q[|q| - 1] == p[j];
    assert Reaches(adj, p[i + 1], p[i]);
  }

  function Visits(p: seq<NodeId>, id: NodeId): nat {
    if p == [] then 0 else Visits(p[..|p| - 1], id) + if p[|p| - 1] == id then 1 else 0
  }

  lemma {:induction false} VisitsTwice(p: seq<NodeId>, id: NodeId) returns (i: nat, j: nat)
    requires Visits(p, id) >= 2
    ensures i < j < |p| && p[i] == id && p[j] == id
  {
    var init := p[..|p| - 1];
    if Visits(init, id) >= 2 {
      i, j := VisitsTwice(init, id);
    } else {
      i := VisitsOnce(init, id);
      j := |p| - 1;
    }
  }

  lemma {:induction false} VisitsOnce(p: seq<NodeId>, id: NodeId) returns (i: nat)
    requires Visits(p, id) >= 1
    ensures i < |p| && p[i] == id
  {
    if p[|p| - 1] == id { i := |p| - 1; } else { i := VisitsOnce(p[..|p| - 1], id); }
  }

  /** How often a walk may visit a node. */
  function Limit(n: Node): nat { if n.retry.Some? then n.retry.value else 1 }

  function SumLimits(nodes: seq<Node>): nat {
    if nodes == [] then 0 else SumLimits(nodes[..|nodes| - 1]) + Limit(nodes[|nodes| - 1])
  }

  function Without(p: seq<NodeId>, id: NodeId): seq<NodeId> {
    if p == [] then []
    else Without(p[..|p| - 1], id) + if p[|p| - 1] == id then [] else [p[|p| - 1]]
  }

  lemma {:induction false} WithoutCounts(p: seq<NodeId>, id: NodeId, other: NodeId)
    ensures |p| == |Without(p, id)| + Visits(p, id)
    ensures Visits(Without(p, id), other) == if other == id then 0 else Visits(p, other)
    ensures forall x :: x in Without(p, id) ==> x in p && x != id
  {
    if p != [] {
      var init, last := p[..|p| - 1], p[|p| - 1];
      WithoutCounts(init, id, other);
      assert p == init + [last];
      if last != id {
        assert Without(p, id)[..|Without(p, id)| - 1] == Without(init, id);
      } else {
        assert Without(p, id) == Without(init, id);
      }
    }
  }

  lemma FirstMember(p: seq<NodeId>)
    ensures p == [] || p[0] in p
  {
  }

  /** A sequence over the nodes that visits each at most its limit is at most as long as the limits together. */
  lemma {:induction false} LimitsBound(nodes: seq<Node>, p: seq<NodeId>)
    requires forall x :: x in p ==> exists n :: n in nodes && n.id == x
    requires forall i, j :: 0 <= i < j < |nodes| ==> nodes[i].id != nodes[j].id
    requires forall n :: n in nodes ==> Visits(p, n.id) <= Limit(n)
    ensures |p| <= SumLimits(nodes)
    decreases |nodes|
  {
    if nodes == [] {
      FirstMember(p);
    } else {
      var init, last := nodes[..|nodes| - 1], nodes[|nodes| - 1];
      assert last in nodes && forall n :: n in init ==> n in nodes;
      assert forall n :: n in nodes <==> n in init || n == last;
      var q := Without(p, last.id);
      WithoutCounts(p, last.id, "");
      forall n | n in init ensures Visits(q, n.id) <= Limit(n) { WithoutCounts(p, last.id, n.id); }
      forall x | x in q ensures exists n :: n in init && n.id == x {
        var n :| n in nodes && n.id == x;
        assert n in init;
      }
      LimitsBound(init, q);
    }
  }

  /**
   * In a valid graph a node without a retry policy occurs at most once on any walk, so a walk that visits every
   * governed node at most its max_iterations times is no longer than all of these limits together.
   */
  lemma WalksAreBounded(g: Graph, adj: Adjacency, p: seq<NodeId>)
    requires ValidTopology(g, adj) && Walk(adj, p) && forall x :: x in p ==> x in adj
    requires forall n :: n in g.nodes && n.retry.Some? ==> Visits(p, n.id) <= n.retry.value
    ensures forall n :: n in g.nodes && n.retry.None? ==> Visits(p, n.id) <= 1
    ensures |p| <= SumLimits(g.nodes)
  {
    hide Reaches;
    forall n | n in g.nodes ensures Visits(p, n.id) <= Limit(n) {
      if n.retry.None? && Visits(p, n.id) >= 2 {
        var i, j := VisitsTwice(p, n.id);
        TwiceIsCycle(adj, p, i, j);
      }
    }
    forall i, j | 0 <= i < j < |g.nodes| ensures g.nodes[i].id != g.nodes[j].id { NodesDiffer(g, i); }
    forall x | x in p ensures exists n :: n in g.nodes && n.id == x { assert x in NodeIds(g); }
    LimitsBound(g.nodes, p);
  }
}
