/** Compiled graph artifacts: how one is built, and what its own validator demands of it. */
module ArtifactModel {
  import opened Common
  import opened CanonicalOrder

  datatype Permission = Permission(tool: string, effect: string)

  /** `rest` stands for the fields whose order is fixed; `contracts` are the input and output of an agent node. */
  datatype Node = Node(id: string, contracts: seq<string>, permissions: seq<Permission>, rest: string)

  datatype Terminal = Terminal(id: string, outcome: string)

  datatype Graph = Graph(metadata: string, version: string, nodes: seq<Node>, terminals: seq<Terminal>,
                         policies: seq<string>, contracts: seq<string>)

  datatype Contract = Contract(reference: string, name: string, contents: string)

  datatype PolicyNode = PolicyNode(id: string, allowed: set<string>, rest: string)

  datatype Payload = Tools(roles: map<string, seq<PolicyNode>>) | Plain(text: string)

  datatype Policy = Policy(reference: string, version: string, payload: Payload)

  datatype Source = Source(kind: string, id: string, digest: string)

  /** SHA-256 over canonical JSON, as an injective function of what it is taken over. */
  datatype Digest = OfGraph(graph: Graph) | OfPolicies(policies: seq<Policy>) | OfContract(contents: string)

  datatype ContractEntry = ContractEntry(reference: string, name: string, digest: Digest)

  datatype Artifact = Artifact(
    graphDigest: Digest, policyDigest: Digest, index: seq<ContractEntry>, manifest: seq<Source>,
    capabilities: set<string>, graph: Graph, contracts: seq<Contract>, policies: seq<Policy>)

  const TOOL_POLICY := "policies/tool_policy.yaml"
  const GRAPH_VERSION := "1.0"
  const POLICY_VERSION := "1.0"

  // ---------- canonical order ----------

  function NodeKey(n: Node): Key { Key(n.id, "") }
  function TerminalKey(t: Terminal): Key { Key(t.id, "") }
  function TextKey(s: string): Key { Key(s, "") }
  function PermissionKey(p: Permission): Key { Key(p.tool, p.effect) }
  function ContractKey(c: Contract): Key { Key(c.reference, c.name) }
  function PolicyKey(p: Policy): Key { Key(p.reference, "") }
  function PolicyNodeKey(n: PolicyNode): Key { Key(n.id, "") }
  function SourceKey(s: Source): Key { Key(s.kind, s.id) }

  function ContractName(c: Contract): string { c.reference }
  function PolicyName(p: Policy): string { p.reference }

  function Map<T, U>(s: seq<T>, f: T -> U): seq<U> { seq(|s|, i requires 0 <= i < |s| => f(s[i])) }

  function CanonicalNode(n: Node): Node { n.(permissions := SortBy(n.permissions, PermissionKey)) }

  function CanonicalGraph(g: Graph): Graph {
    g.(nodes := SortBy(Map(g.nodes, CanonicalNode), NodeKey), terminals := SortBy(g.terminals, TerminalKey),
       policies := SortBy(g.policies, TextKey), contracts := SortBy(g.contracts, TextKey))
  }

  function CanonicalPolicy(p: Policy): Policy {
    if p.reference == TOOL_POLICY && p.payload.Tools?
    then p.(payload := Tools(map r | r in p.payload.roles :: SortBy(p.payload.roles[r], PolicyNodeKey)))
    else p
  }

  function CanonicalContracts(cs: seq<Contract>): seq<Contract> { SortBy(cs, ContractKey) }
  function CanonicalPolicies(ps: seq<Policy>): seq<Policy> { SortBy(Map(ps, CanonicalPolicy), PolicyKey) }
  function CanonicalManifest(ms: seq<Source>): seq<Source> { SortBy(ms, SourceKey) }

  function Entry(c: Contract): ContractEntry { ContractEntry(c.reference, c.name, OfContract(c.contents)) }

  function Index(cs: seq<Contract>): seq<ContractEntry> { Map(CanonicalContracts(cs), Entry) }

  /** The tools some node of the tool policy is allowed. */
  function Capabilities(ps: seq<Policy>): set<string> {
    set p, r, n, c | p in ps && p.reference == TOOL_POLICY && p.payload.Tools? && r in p.payload.roles
                     && n in p.payload.roles[r] && c in n.allowed :: c
  }

  // ---------- building and validating ----------

  function Assemble(g: Graph, cs: seq<Contract>, ps: seq<Policy>, ms: seq<Source>): Artifact {
    var graph, contracts, policies := CanonicalGraph(g), CanonicalContracts(cs), CanonicalPolicies(ps);
    Artifact(OfGraph(graph), OfPolicies(policies), Index(contracts), CanonicalManifest(ms), Capabilities(policies),
             graph, contracts, policies)
  }

  predicate Unique<T(!new, ==)>(s: seq<T>) { forall i, j :: 0 <= i < j < |s| ==> s[i] != s[j] }

  function References(g: Graph): set<string> {
    (set c | c in g.contracts) + (set n, c | n in g.nodes && c in n.contracts :: c)
  }

  predicate Valid(a: Artifact) {
    && a.graph.version == GRAPH_VERSION && (forall p :: p in a.policies ==> p.version == POLICY_VERSION)
    && a.graph == CanonicalGraph(a.graph)
    && a.contracts == CanonicalContracts(a.contracts)
    && a.policies == CanonicalPolicies(a.policies)
    && Unique(Map(a.contracts, ContractName))
    && (set c | c in a.contracts :: c.reference) == References(a.graph)
    && Unique(Map(a.policies, PolicyName))
    && (set p | p in a.policies :: p.reference) == (set r | r in a.graph.policies)
    && a.index == Index(a.contracts)
    && a.graphDigest == OfGraph(a.graph) && a.policyDigest == OfPolicies(a.policies)
    && a.capabilities == Capabilities(a.policies)
    && a.manifest == CanonicalManifest(a.manifest)
    && Unique(Map(a.manifest, SourceKey))
    && (exists i :: 0 <= i < |a.manifest| && a.manifest[i].kind == "graph")
    && (forall i, j :: 0 <= i < j < |a.manifest| && a.manifest[i].kind == "graph" ==> a.manifest[j].kind != "graph")
  }

  /** The artifact of these inputs, unless its validator refuses it. */
  function Build(g: Graph, cs: seq<Contract>, ps: seq<Policy>, ms: seq<Source>): Option<Artifact> {
    var a := Assemble(g, cs, ps, ms);
    if Valid(a) then Some(a) else None
  }
}
