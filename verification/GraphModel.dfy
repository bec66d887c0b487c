/** Graph specifications and what makes their topology valid. */
module GraphModel {
  import opened Common

  type NodeId = string

  datatype Node = Node(id: NodeId, onSuccess: NodeId, onFailure: NodeId, retry: Option<nat>)   // retry: max_iterations

  datatype Terminal = Terminal(id: NodeId, success: bool)

  datatype Graph = Graph(nodes: seq<Node>, terminals: seq<Terminal>, entrypoint: NodeId)

  datatype Fault = DuplicateIds | UnknownEntrypoint | MissingOutcome | UnknownTarget | Unreachable | UngovernedCycle

  type Adjacency = map<NodeId, set<NodeId>>

  function NodeIds(g: Graph): set<NodeId> { set n | n in g.nodes :: n.id }
  function TerminalIds(g: Graph): set<NodeId> { set t | t in g.terminals :: t.id }

  /** All identifiers, nodes first, as they are listed. */
  function AllIds(g: Graph): seq<NodeId> {
    seq(|g.nodes| + |g.terminals|,
        i requires 0 <= i < |g.nodes| + |g.terminals| =>
          if i < |g.nodes| then g.nodes[i].id else g.terminals[i - |g.nodes|].id)
  }

  predicate Distinct<T(==)>(s: seq<T>) { forall i, j :: 0 <= i < j < |s| ==> s[i] != s[j] }

  /** The nodes a node leads to; terminal states are left out. */
  function Targets(g: Graph, n: Node): set<NodeId> {
    (if n.onSuccess in NodeIds(g) then {n.onSuccess} else {})
      + (if n.onFailure in NodeIds(g) then {n.onFailure} else {})
  }

  // ---------- walks ----------

  predicate Walk(adj: Adjacency, p: seq<NodeId>) {
    forall i :: 0 <= i < |p| - 1 ==> p[i] in adj && p[i + 1] in adj[p[i]]
  }

  /** Some walk leads from one node to the other; the empty walk leads from a node to itself. */
  ghost predicate Reaches(adj: Adjacency, a: NodeId, b: NodeId) {
    exists p :: |p| >= 1 && p[0] == a && p[|p| - 1] == b && Walk(adj, p)
  }

  predicate Closed(adj: Adjacency) { forall a, b :: a in adj && b in adj[a] ==> b in adj }

  /** A node that some walk leads back to. */
  ghost predicate OnCycle(adj: Adjacency, a: NodeId) { a in adj && exists b :: b in adj[a] && Reaches(adj, b, a) }

  // ---------- valid graphs ----------

  predicate EdgesResolve(g: Graph) {
    forall n :: n in g.nodes ==>
      && (n.onSuccess in NodeIds(g) || n.onSuccess in TerminalIds(g))
      && (n.onFailure in NodeIds(g) || n.onFailure in TerminalIds(g))
  }

  predicate IsAdjacency(g: Graph, adj: Adjacency) {
    && adj.Keys == NodeIds(g)
    && forall n :: n in g.nodes ==> n.id in adj && adj[n.id] == Targets(g, n)
  }

  ghost predicate Governed(g: Graph, adj: Adjacency) {
    forall n :: n in g.nodes && OnCycle(adj, n.id) ==> n.retry.Some?
  }

  ghost predicate ValidTopology(g: Graph, adj: Adjacency) {
    && Distinct(AllIds(g)) && g.entrypoint in NodeIds(g)
    && (exists t :: t in g.terminals && t.success) && (exists t :: t in g.terminals && !t.success)
    && EdgesResolve(g) && IsAdjacency(g, adj)
    && (forall id :: id in NodeIds(g) ==> Reaches(adj, g.entrypoint, id))
    && Governed(g, adj)
  }

  /** The rule a fault names is broken. */
  ghost predicate Violates(g: Graph, f: Fault) {
    match f
    case DuplicateIds => !Distinct(AllIds(g))
    case UnknownEntrypoint => g.entrypoint !in NodeIds(g)
    case MissingOutcome => !(exists t :: t in g.terminals && t.success) || !(exists t :: t in g.terminals && !t.success)
    case UnknownTarget => !EdgesResolve(g)
    case Unreachable => exists adj, id :: IsAdjacency(g, adj) && id in NodeIds(g) && !Reaches(adj, g.entrypoint, id)
    case UngovernedCycle => exists adj :: IsAdjacency(g, adj) && !Governed(g, adj)
  }
}
