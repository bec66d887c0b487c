/** Building is insensitive to order, and an artifact rebuilt from its own fields is itself. */
module ArtifactTheorems {
  import opened Common
  import opened CanonicalOrder
  import opened ArtifactModel

  // ---------- mapping and order ----------

  lemma MapSplit<T, U>(s: seq<T>, k: nat, f: T -> U)
    requires k < |s|
    ensures Map(s, f) == Map(s[..k], f) + [f(s[k])] + Map(s[k + 1..], f)
  {
  }

  lemma MapJoins<T, U>(s: seq<T>, t: seq<T>, f: T -> U)
    ensures Map(s + t, f) == Map(s, f) + Map(t, f)
  {
  }

  lemma Removed<T>(t: seq<T>, k: nat)
    requires k < |t|
    ensures multiset(t[..k] + t[k + 1..]) == multiset(t) - multiset{t[k]}
  {
    assert t == t[..k] + [t[k]] + t[k + 1..];
  }

  lemma MapRemoved<T, U>(t: seq<T>, k: nat, f: T -> U)
    requires k < |t|
    ensures multiset(Map(t, f)) == multiset(Map(t[..k] + t[k + 1..], f)) + multiset{f(t[k])}
  {
    MapSplit(t, k, f);
    MapJoins(t[..k], t[k + 1..], f);
    hide Map;
  }

  /** Mapping keeps reorderings. */
  lemma {:induction false} MapPermutes<T, U>(s: seq<T>, t: seq<T>, f: T -> U)
    requires multiset(s) == multiset(t)
    ensures multiset(Map(s, f)) == multiset(Map(t, f))
    decreases |s|
  {
    SameLength(s, t);
    if s == [] {
      assert t == [];
    } else {
      hide Map;
      var last := |s| - 1;
      assert s[last] in multiset(s);
      assert s[last] in multiset(t);
      var k :| 0 <= k < |t| && t[k] == s[last];
      Removed(s, last);
      Removed(t, k);
      MapRemoved(s, last, f);
      MapRemoved(t, k, f);
      MapPermutes(s[..last] + s[last + 1..], t[..k] + t[k + 1..], f);
    }
  }

  // ---------- the graph ----------

  /** The same node, its permissions listed in another order. */
  predicate SameNode(n: Node, m: Node) {
    n.(permissions := []) == m.(permissions := []) && multiset(n.permissions) == multiset(m.permissions)
  }

  /** The same elements, in another order, each related to its counterpart. */
  ghost predicate Matched<T(!new)>(s: seq<T>, t: seq<T>, same: (T, T) -> bool) {
    exists r: seq<T> :: multiset(r) == multiset(s) && |r| == |t| && forall i :: 0 <= i < |t| ==> same(r[i], t[i])
  }

  ghost predicate Reordered(g: Graph, h: Graph) {
    && g.metadata == h.metadata && g.version == h.version
    && Matched(g.nodes, h.nodes, SameNode) && multiset(g.terminals) == multiset(h.terminals)
    && multiset(g.policies) == multiset(h.policies) && multiset(g.contracts) == multiset(h.contracts)
  }

  /** The identifiers of nodes and of terminal states tell them apart, as graph validation demands. */
  ghost predicate Identified(g: Graph) {
    KeysIdentify(g.nodes, NodeKey) && KeysIdentify(g.terminals, TerminalKey)
  }

  lemma SameNodeIsCanonical(n: Node, m: Node)
    requires SameNode(n, m)
    ensures CanonicalNode(n) == CanonicalNode(m)
  {
    assert KeysIdentify(n.permissions, PermissionKey);
    SortIgnoresOrder(n.permissions, m.permissions, PermissionKey);
    assert n.(permissions := []).(permissions := SortBy(n.permissions, PermissionKey)) == CanonicalNode(n);
  }

  lemma CanonicalNodeTwice(n: Node)
    ensures CanonicalNode(CanonicalNode(n)) == CanonicalNode(n)
  {
    SortIsIdempotent(n.permissions, PermissionKey);
  }

  /** Sorting the images gives the same for every order, when the images are the same and keys identify. */
  lemma MatchedSort<T(!new)>(s: seq<T>, t: seq<T>, same: (T, T) -> bool, f: T -> T, key: T -> Key)
    requires Matched(s, t, same) && KeysIdentify(Map(s, f), key)
    requires forall x, y :: same(x, y) ==> f(x) == f(y)
    ensures SortBy(Map(s, f), key) == SortBy(Map(t, f), key)
  {
    var r: seq<T> :| multiset(r) == multiset(s) && |r| == |t| && forall i :: 0 <= i < |t| ==> same(r[i], t[i]);
    assert Map(r, f) == Map(t, f);
    MapPermutes(s, r, f);
    SortIgnoresOrder(Map(s, f), Map(t, f), key);
  }

  lemma TextsIdentify(s: seq<string>)
    ensures KeysIdentify(s, TextKey)
  {
  }

  /** Graphs that differ in order only have the same canonical form. */
  lemma GraphIgnoresOrder(g: Graph, h: Graph)
    requires Reordered(g, h) && Identified(g)
    ensures CanonicalGraph(g) == CanonicalGraph(h)
  {
    forall n, m | SameNode(n, m) ensures CanonicalNode(n) == CanonicalNode(m) { SameNodeIsCanonical(n, m); }
    assert KeysIdentify(Map(g.nodes, CanonicalNode), NodeKey);
    hide KeysIdentify, SortBy, Sorted, Matched, SameNode, CanonicalNode;
    MatchedSort(g.nodes, h.nodes, SameNode, CanonicalNode, NodeKey);
    SortIgnoresOrder(g.terminals, h.terminals, TerminalKey);
    TextsIdentify(g.policies);
    TextsIdentify(g.contracts);
    SortIgnoresOrder(g.policies, h.policies, TextKey);
    SortIgnoresOrder(g.contracts, h.contracts, TextKey);
  }

  /** Members of a sequence of images. */
  lemma MapMembers<T, U>(s: seq<T>, f: T -> U, y: U)
    requires y in Map(s, f)
    ensures exists x :: x in s && f(x) == y
  {
    var i :| 0 <= i < |Map(s, f)| && Map(s, f)[i] == y;
    assert s[i] in s && f(s[i]) == y;
  }

  /** Sorted images are left alone by mapping and sorting again. */
  lemma SortedImages<T(!new)>(s: seq<T>, f: T -> T, key: T -> Key)
    requires forall x :: f(f(x)) == f(x)
    ensures var c := SortBy(Map(s, f), key); SortBy(Map(c, f), key) == c
  {
    var c := SortBy(Map(s, f), key);
    SortSorts(Map(s, f), key);
    forall i | 0 <= i < |c| ensures f(c[i]) == c[i] {
      assert c[i] in multiset(c);
      assert c[i] in Map(s, f);
      MapMembers(s, f, c[i]);
    }
    assert Map(c, f) == c;
    SortKeepsSorted(c, key);
  }

  lemma GraphIsIdempotent(g: Graph)
    ensures CanonicalGraph(CanonicalGraph(g)) == CanonicalGraph(g)
  {
    forall n ensures CanonicalNode(CanonicalNode(n)) == CanonicalNode(n) { CanonicalNodeTwice(n); }
    hide SortBy, CanonicalNode;
    SortedImages(g.nodes, CanonicalNode, NodeKey);
    SortIsIdempotent(g.terminals, TerminalKey);
    SortIsIdempotent(g.policies, TextKey);
    SortIsIdempotent(g.contracts, TextKey);
  }

  // ---------- the policies ----------

  /** The same policy; the nodes of its roles, told apart by their ids, listed in another order. */
  ghost predicate SamePolicy(p: Policy, q: Policy) {
    || p == q
    || (p.reference == TOOL_POLICY && p.payload.Tools? && q.payload.Tools? && p.(payload := q.payload) == q
        && p.payload.roles.Keys == q.payload.roles.Keys
        && forall r :: r in p.payload.roles ==>
             && multiset(p.payload.roles[r]) == multiset(q.payload.roles[r])
             && KeysIdentify(p.payload.roles[r], PolicyNodeKey))
  }

  lemma SamePolicyIsCanonical(p: Policy, q: Policy)
    requires SamePolicy(p, q)
    ensures CanonicalPolicy(p) == CanonicalPolicy(q)
  {
    if p != q {
      hide SortBy, KeysIdentify;
      forall r | r in p.payload.roles
        ensures SortBy(p.payload.roles[r], PolicyNodeKey) == SortBy(q.payload.roles[r], PolicyNodeKey)
      {
        SortIgnoresOrder(p.payload.roles[r], q.payload.roles[r], PolicyNodeKey);
      }
      assert CanonicalPolicy(p).payload.roles == CanonicalPolicy(q).payload.roles;
    }
  }

  lemma CanonicalPolicyTwice(p: Policy)
    ensures CanonicalPolicy(CanonicalPolicy(p)) == CanonicalPolicy(p)
  {
    hide SortBy;
    var q := CanonicalPolicy(p);
    if p.reference == TOOL_POLICY && p.payload.Tools? {
      forall r | r in p.payload.roles ensures SortBy(q.payload.roles[r], PolicyNodeKey) == q.payload.roles[r] {
        SortIsIdempotent(p.payload.roles[r], PolicyNodeKey);
      }
      assert CanonicalPolicy(q).payload.roles == q.payload.roles;
    }
  }

  lemma PoliciesAreIdempotent(ps: seq<Policy>)
    ensures CanonicalPolicies(CanonicalPolicies(ps)) == CanonicalPolicies(ps)
  {
    forall p ensures CanonicalPolicy(CanonicalPolicy(p)) == CanonicalPolicy(p) { CanonicalPolicyTwice(p); }
    hide SortBy, CanonicalPolicy;
    SortedImages(ps, CanonicalPolicy, PolicyKey);
  }

  lemma PoliciesIgnoreOrder(ps: seq<Policy>, qs: seq<Policy>)
    requires Matched(ps, qs, SamePolicy) && KeysIdentify(ps, PolicyKey)
    ensures CanonicalPolicies(ps) == CanonicalPolicies(qs)
  {
    forall p, q | SamePolicy(p, q) ensures CanonicalPolicy(p) == CanonicalPolicy(q) { SamePolicyIsCanonical(p, q); }
    CanonicalKeepsKeys(ps);
    hide SortBy, CanonicalPolicy, SamePolicy, KeysIdentify, Matched;
    MatchedSort(ps, qs, SamePolicy, CanonicalPolicy, PolicyKey);
  }

  lemma CanonicalKeepsKeys(ps: seq<Policy>)
    requires KeysIdentify(ps, PolicyKey)
    ensures KeysIdentify(Map(ps, CanonicalPolicy), PolicyKey)
  {
    hide CanonicalPolicy;
    forall p ensures PolicyKey(CanonicalPolicy(p)) == PolicyKey(p) { PolicyKeyKept(p); }
  }

  lemma PolicyKeyKept(p: Policy)
    ensures PolicyKey(CanonicalPolicy(p)) == PolicyKey(p)
  {
  }

  // ---------- colliding keys ----------

  lemma {:induction false} UniqueCounts<T(!new)>(s: seq<T>)
    ensures Unique(s) <==> forall x :: multiset(s)[x] <= 1
  {
    if s != [] {
      var init, last := s[..|s| - 1], s[|s| - 1];
      UniqueCounts(init);
      assert s == init + [last];
      assert forall x :: multiset(s)[x] == multiset(init)[x] + if x == last then 1 else 0;
      if Unique(init) && last !in init { UniqueGrows(init, last); }
      if Unique(s) {
        UniqueShrinks(s);
        assert last !in init;
      }
      if last in init { assert multiset(init)[last] >= 1; }
    }
  }

  lemma UniqueGrows<T(!new)>(s: seq<T>, x: T)
    requires Unique(s) && x !in s
    ensures Unique(s + [x])
  {
  }

  lemma UniqueShrinks<T(!new)>(s: seq<T>)
    requires Unique(s) && s != []
    ensures Unique(s[..|s| - 1]) && s[|s| - 1] !in s[..|s| - 1]
  {
  }

  lemma UniqueIsOrderless<T(!new)>(s: seq<T>, t: seq<T>)
    requires multiset(s) == multiset(t)
    ensures Unique(s) <==> Unique(t)
  {
    UniqueCounts(s);
    UniqueCounts(t);
    hide Unique;
  }

  /** Sorting does not change what repeats. */
  lemma UniqueSorted<T(!new), U(!new)>(s: seq<T>, t: seq<T>, key: T -> Key, name: T -> U)
    requires multiset(Map(s, name)) == multiset(Map(t, name))
    ensures Unique(Map(SortBy(s, key), name)) <==> Unique(Map(t, name))
  {
    SortSorts(s, key);
    MapPermutes(SortBy(s, key), s, name);
    hide SortBy, Map, Unique;
    UniqueIsOrderless(Map(SortBy(s, key), name), Map(t, name));
  }

  /** Names that do not repeat tell elements apart, and so do keys that determine the name. */
  lemma UniqueIdentifies<T(!new), U(!new)>(s: seq<T>, key: T -> Key, name: T -> U)
    requires Unique(Map(s, name)) && forall x, y :: key(x) == key(y) ==> name(x) == name(y)
    ensures KeysIdentify(s, key)
  {
    forall i, j | 0 <= i < |s| && 0 <= j < |s| && key(s[i]) == key(s[j]) ensures s[i] == s[j] {
      assert Map(s, name)[i] == Map(s, name)[j];
    }
  }

  lemma SameNames(r: seq<Policy>, qs: seq<Policy>)
    requires |r| == |qs| && forall i :: 0 <= i < |qs| ==> SamePolicy(r[i], qs[i])
    ensures Map(r, PolicyName) == Map(qs, PolicyName)
  {
    forall i | 0 <= i < |r| ensures Map(r, PolicyName)[i] == Map(qs, PolicyName)[i] {
      assert SamePolicy(r[i], qs[i]);
      assert PolicyName(r[i]) == PolicyName(qs[i]);
    }
  }

  /** Matched policies have the same references. */
  lemma MatchedNames(ps: seq<Policy>, qs: seq<Policy>)
    requires Matched(ps, qs, SamePolicy)
    ensures multiset(Map(ps, PolicyName)) == multiset(Map(qs, PolicyName))
  {
    hide SamePolicy, Map;
    var r: seq<Policy> :| multiset(r) == multiset(ps) && |r| == |qs| && forall i :: 0 <= i < |qs| ==>
      SamePolicy(r[i], qs[i]);
    MapPermutes(ps, r, PolicyName);
    SameNames(r, qs);
  }

  lemma CanonicalNames(ps: seq<Policy>)
    ensures Map(Map(ps, CanonicalPolicy), PolicyName) == Map(ps, PolicyName)
  {
    forall i | 0 <= i < |ps| ensures Map(Map(ps, CanonicalPolicy), PolicyName)[i] == Map(ps, PolicyName)[i] {
      assert PolicyName(CanonicalPolicy(ps[i])) == PolicyName(ps[i]);
    }
  }

  /** What an artifact's validator asks of the keys of its entries. */
  predicate KeysUnique(cs: seq<Contract>, ps: seq<Policy>, ms: seq<Source>) {
    Unique(Map(cs, ContractName)) && Unique(Map(ps, PolicyName)) && Unique(Map(ms, SourceKey))
  }

  /** An artifact is refused when keys collide in what it is built from. */
  lemma CollidingKeysAreRefused(g: Graph, cs: seq<Contract>, ps: seq<Policy>, ms: seq<Source>)
    requires Build(g, cs, ps, ms).Some?
    ensures KeysUnique(cs, ps, ms)
  {
    var a := Assemble(g, cs, ps, ms);
    UniqueSorted(cs, cs, ContractKey, ContractName);
    CanonicalNames(ps);
    UniqueSorted(Map(ps, CanonicalPolicy), ps, PolicyKey, PolicyName);
    UniqueSorted(ms, ms, SourceKey, SourceKey);
    hide SortBy, Map, Unique, CanonicalGraph, Capabilities, Index, References;
  }

  lemma UniqueKeysIdentify(cs: seq<Contract>, ps: seq<Policy>, ms: seq<Source>)
    requires KeysUnique(cs, ps, ms)
    ensures KeysIdentify(cs, ContractKey) && KeysIdentify(ps, PolicyKey) && KeysIdentify(ms, SourceKey)
  {
    hide KeysIdentify, Unique, Map;
    UniqueIdentifies(cs, ContractKey, ContractName);
    UniqueIdentifies(ps, PolicyKey, PolicyName);
    UniqueIdentifies(ms, SourceKey, SourceKey);
  }

  lemma KeysUniqueIsOrderless(
    cs: seq<Contract>, ds: seq<Contract>, ps: seq<Policy>, qs: seq<Policy>, ms: seq<Source>, ns: seq<Source>)
    requires multiset(cs) == multiset(ds) && Matched(ps, qs, SamePolicy) && multiset(ms) == multiset(ns)
    ensures KeysUnique(cs, ps, ms) <==> KeysUnique(ds, qs, ns)
  {
    MapPermutes(cs, ds, ContractName);
    MatchedNames(ps, qs);
    MapPermutes(ms, ns, SourceKey);
    hide Unique, Map, Matched;
    UniqueIsOrderless(Map(cs, ContractName), Map(ds, ContractName));
    UniqueIsOrderless(Map(ps, PolicyName), Map(qs, PolicyName));
    UniqueIsOrderless(Map(ms, SourceKey), Map(ns, SourceKey));
  }

  // ---------- artifacts ----------

  /**
   * Graphs, contracts, policies and manifests that differ in order only build the same artifact, digests
   * included, or are both refused.
   */
  lemma BuildIgnoresOrder(
    g: Graph, h: Graph, cs: seq<Contract>, ds: seq<Contract>, ps: seq<Policy>, qs: seq<Policy>,
    ms: seq<Source>, ns: seq<Source>)
    requires Reordered(g, h) && Identified(g)
    requires multiset(cs) == multiset(ds) && Matched(ps, qs, SamePolicy) && multiset(ms) == multiset(ns)
    ensures Build(g, cs, ps, ms) == Build(h, ds, qs, ns)
  {
    hide Reordered, Identified, KeysIdentify, KeysUnique, Matched, Valid, CanonicalGraph, Capabilities, Index;
    KeysUniqueIsOrderless(cs, ds, ps, qs, ms, ns);
    if KeysUnique(cs, ps, ms) {
      UniqueKeysIdentify(cs, ps, ms);
      GraphIgnoresOrder(g, h);
      PoliciesIgnoreOrder(ps, qs);
      SortIgnoresOrder(cs, ds, ContractKey);
      SortIgnoresOrder(ms, ns, SourceKey);
    } else {
      RefusedWithout(g, cs, ps, ms);
      RefusedWithout(h, ds, qs, ns);
    }
  }

  lemma RefusedWithout(g: Graph, cs: seq<Contract>, ps: seq<Policy>, ms: seq<Source>)
    requires !KeysUnique(cs, ps, ms)
    ensures Build(g, cs, ps, ms).None?
  {
    hide KeysUnique, Assemble, Valid;
    if Build(g, cs, ps, ms).Some? { CollidingKeysAreRefused(g, cs, ps, ms); }
  }

  /** Whatever is assembled is canonical, and assembling it again from its own fields gives it back. */
  lemma BuildIsIdempotent(g: Graph, cs: seq<Contract>, ps: seq<Policy>, ms: seq<Source>)
    ensures var a := Assemble(g, cs, ps, ms); Assemble(a.graph, a.contracts, a.policies, a.manifest) == a
  {
    hide SortBy, CanonicalNode, CanonicalPolicy, Capabilities;
    GraphIsIdempotent(g);
    PoliciesAreIdempotent(ps);
    SortIsIdempotent(cs, ContractKey);
    SortIsIdempotent(ms, SourceKey);
  }

  lemma ValidIsFixed(a: Artifact)
    requires Valid(a)
    ensures Build(a.graph, a.contracts, a.policies, a.manifest) == Some(a)
  {
    hide CanonicalGraph, CanonicalPolicies, CanonicalContracts, CanonicalManifest, Capabilities, Index, References,
      Unique;
  }

  /** Corollary: building what was built, from its own fields, gives it back. */
  lemma RebuildIsIdentity(g: Graph, cs: seq<Contract>, ps: seq<Policy>, ms: seq<Source>, a: Artifact)
    requires Build(g, cs, ps, ms) == Some(a)
    ensures Build(a.graph, a.contracts, a.policies, a.manifest) == Some(a)
  {
    hide Assemble, Valid;
    BuildIsIdempotent(g, cs, ps, ms);
  }

  // ---------- what can be built, and what it says ----------

  /** Exactly one source of the manifest is the graph. */
  predicate OneGraph(ms: seq<Source>) {
    && (exists i :: 0 <= i < |ms| && ms[i].kind == "graph")
    && forall i, j :: 0 <= i < j < |ms| && ms[i].kind == "graph" ==> ms[j].kind != "graph"
  }

  /** What the validator asks, said of the inputs as they are given. */
  ghost predicate Buildable(g: Graph, cs: seq<Contract>, ps: seq<Policy>, ms: seq<Source>) {
    && g.version == GRAPH_VERSION && (forall p :: p in ps ==> p.version == POLICY_VERSION)
    && KeysUnique(cs, ps, ms) && OneGraph(ms)
    && ContractsMatch(g, cs) && PoliciesMatch(g, ps)
  }

  lemma SortedMembers<T>(s: seq<T>, key: T -> Key)
    ensures forall x :: x in SortBy(s, key) <==> x in s
  {
    SortSorts(s, key);
    hide SortBy;
    assert forall x :: x in s <==> x in multiset(s);
    assert forall x :: x in SortBy(s, key) <==> x in multiset(SortBy(s, key));
  }

  function KindOf(s: Source): string { s.kind }

  lemma {:induction false} NoGraph(ms: seq<Source>)
    ensures multiset(Map(ms, KindOf))["graph"] == 0 <==> forall i :: 0 <= i < |ms| ==> ms[i].kind != "graph"
  {
    assert |Map(ms, KindOf)| == |ms|;
    assert forall i :: 0 <= i < |ms| ==> Map(ms, KindOf)[i] == KindOf(ms[i]);
    if i :| 0 <= i < |ms| && ms[i].kind == "graph" { assert Map(ms, KindOf)[i] in multiset(Map(ms, KindOf)); }
    if "graph" in multiset(Map(ms, KindOf)) { assert "graph" in Map(ms, KindOf); }
  }

  lemma {:induction false} GraphCount(ms: seq<Source>)
    ensures OneGraph(ms) <==> multiset(Map(ms, KindOf))["graph"] == 1
  {
    if ms != [] {
      var init, last := ms[..|ms| - 1], ms[|ms| - 1];
      GraphCount(init);
      NoGraph(init);
      assert ms == init + [last];
      MapJoins(init, [last], KindOf);
      assert Map([last], KindOf) == [KindOf(last)];
      if last.kind == "graph" { LastGraph(ms, init); } else { LastOther(ms); }
    }
  }

  lemma LastGraph(ms: seq<Source>, init: seq<Source>)
    requires ms != [] && ms[|ms| - 1].kind == "graph" && init == ms[..|ms| - 1]
    ensures OneGraph(ms) <==> forall i :: 0 <= i < |init| ==> init[i].kind != "graph"
  {
    assert forall i :: 0 <= i < |init| ==> init[i] == ms[i];
  }

  lemma LastOther(ms: seq<Source>)
    requires ms != [] && ms[|ms| - 1].kind != "graph"
    ensures OneGraph(ms) <==> OneGraph(ms[..|ms| - 1])
  {
    var init := ms[..|ms| - 1];
    if i :| 0 <= i < |ms| && ms[i].kind == "graph" { assert init[i].kind == "graph"; }
  }

  lemma OneGraphIsOrderless(s: seq<Source>, t: seq<Source>)
    requires multiset(s) == multiset(t)
    ensures OneGraph(s) <==> OneGraph(t)
  {
    hide OneGraph;
    GraphCount(s);
    GraphCount(t);
    MapPermutes(s, t, KindOf);
  }

  /** Which parts of a canonical artifact are members of which inputs. */
  lemma CanonicalMembers(g: Graph, cs: seq<Contract>, ps: seq<Policy>, ms: seq<Source>)
    ensures var a := Assemble(g, cs, ps, ms);
            && (forall c :: c in a.contracts <==> c in cs) && (forall s :: s in a.manifest <==> s in ms)
            && (forall r :: r in a.graph.contracts <==> r in g.contracts)
            && (forall r :: r in a.graph.policies <==> r in g.policies)
            && (forall n :: n in a.graph.nodes <==> exists m :: m in g.nodes && CanonicalNode(m) == n)
            && (forall p :: p in a.policies <==> exists q :: q in ps && CanonicalPolicy(q) == p)
  {
    SortedMembers(cs, ContractKey);
    SortedMembers(ms, SourceKey);
    SortedMembers(g.contracts, TextKey);
    SortedMembers(g.policies, TextKey);
    SortedMembers(Map(g.nodes, CanonicalNode), NodeKey);
    SortedMembers(Map(ps, CanonicalPolicy), PolicyKey);
    MapHas(g.nodes, CanonicalNode);
    MapHas(ps, CanonicalPolicy);
    hide SortBy, CanonicalNode, CanonicalPolicy, Map;
  }

  lemma MapHas<T, U>(s: seq<T>, f: T -> U)
    ensures forall y :: y in Map(s, f) <==> exists x :: x in s && f(x) == y
  {
    forall y | y in Map(s, f) ensures exists x :: x in s && f(x) == y { MapMembers(s, f, y); }
    forall y, x | x in s && f(x) == y ensures y in Map(s, f) {
      var i :| 0 <= i < |s| && s[i] == x;
      assert Map(s, f)[i] == y;
    }
  }

  lemma CanonicalKeeps(n: Node, p: Policy)
    ensures CanonicalNode(n).contracts == n.contracts
    ensures CanonicalPolicy(p).reference == p.reference && CanonicalPolicy(p).version == p.version
  {
  }

  lemma ReferencesAre(g: Graph, r: string)
    ensures r in References(g) <==> r in g.contracts || exists n :: n in g.nodes && r in n.contracts
  {
  }

  lemma SameReferences(g: Graph)
    ensures References(CanonicalGraph(g)) == References(g)
  {
    var h := CanonicalGraph(g);
    SortedMembers(g.contracts, TextKey);
    SortedMembers(Map(g.nodes, CanonicalNode), NodeKey);
    MapHas(g.nodes, CanonicalNode);
    forall n ensures CanonicalNode(n).contracts == n.contracts { CanonicalKeeps(n, Policy("", "", Plain(""))); }
    hide SortBy, CanonicalNode, Map;
    forall r ensures r in References(h) <==> r in References(g) {
      ReferencesAre(g, r);
      ReferencesAre(h, r);
      if m :| m in g.nodes && r in m.contracts { assert CanonicalNode(m) in h.nodes; }
    }
  }

  /** The references of canonical contracts and policies are those of the given ones. */
  lemma SameNamesOf(g: Graph, cs: seq<Contract>, ps: seq<Policy>)
    ensures ContractRefs(CanonicalContracts(cs)) == ContractRefs(cs)
    ensures PolicyRefs(CanonicalPolicies(ps)) == PolicyRefs(ps)
    ensures (forall p :: p in CanonicalPolicies(ps) ==> p.version == POLICY_VERSION) <==>
            (forall p :: p in ps ==> p.version == POLICY_VERSION)
    ensures (set r | r in CanonicalGraph(g).policies) == (set r | r in g.policies)
  {
    SortedMembers(cs, ContractKey);
    SortedMembers(Map(ps, CanonicalPolicy), PolicyKey);
    SortedMembers(g.policies, TextKey);
    MapHas(ps, CanonicalPolicy);
    forall p ensures CanonicalPolicy(p).reference == p.reference && CanonicalPolicy(p).version == p.version {
      CanonicalKeeps(Node("", [], [], ""), p);
    }
    hide SortBy, CanonicalPolicy, Map;
    forall q | q in ps ensures CanonicalPolicy(q) in CanonicalPolicies(ps) { }
  }

  function ContractRefs(cs: seq<Contract>): set<string> { set c | c in cs :: c.reference }
  function PolicyRefs(ps: seq<Policy>): set<string> { set p | p in ps :: p.reference }

  /** The given contracts are exactly those the graph or one of its nodes refers to. */
  ghost predicate ContractsMatch(g: Graph, cs: seq<Contract>) {
    forall r :: r in ContractRefs(cs) <==> r in g.contracts || exists n :: n in g.nodes && r in n.contracts
  }

  ghost predicate PoliciesMatch(g: Graph, ps: seq<Policy>) {
    forall r :: r in PolicyRefs(ps) <==> r in g.policies
  }

  lemma ContractsMatchBySets(g: Graph, cs: seq<Contract>)
    ensures ContractRefs(cs) == References(g) <==> ContractsMatch(g, cs)
  {
    forall r ensures r in References(g) <==> r in g.contracts || exists n :: n in g.nodes && r in n.contracts {
      ReferencesAre(g, r);
    }
    hide References, ContractRefs;
    if ContractsMatch(g, cs) {
      forall r ensures r in ContractRefs(cs) <==> r in References(g) {}
    }
  }

  lemma PoliciesMatchBySets(g: Graph, ps: seq<Policy>)
    ensures PolicyRefs(ps) == (set r | r in g.policies) <==> PoliciesMatch(g, ps)
  {
    hide PolicyRefs;
    var listed := set r | r in g.policies;
    assert forall r :: r in listed <==> r in g.policies;
    if PoliciesMatch(g, ps) {
      forall r ensures r in PolicyRefs(ps) <==> r in listed {}
    }
  }

  lemma KeysOfSorted(cs: seq<Contract>, ps: seq<Policy>, ms: seq<Source>)
    ensures KeysUnique(CanonicalContracts(cs), CanonicalPolicies(ps), CanonicalManifest(ms)) <==> KeysUnique(cs, ps, ms)
  {
    UniqueSorted(cs, cs, ContractKey, ContractName);
    CanonicalNames(ps);
    UniqueSorted(Map(ps, CanonicalPolicy), ps, PolicyKey, PolicyName);
    UniqueSorted(ms, ms, SourceKey, SourceKey);
    hide SortBy, Map, Unique;
  }

  /** What the validator asks of an assembled artifact beyond its canonical form, which it has. */
  lemma AssembledIsValid(g: Graph, cs: seq<Contract>, ps: seq<Policy>, ms: seq<Source>)
    ensures var a := Assemble(g, cs, ps, ms);
            Valid(a) <==>
            && a.graph.version == GRAPH_VERSION && (forall p :: p in a.policies ==> p.version == POLICY_VERSION)
            && KeysUnique(a.contracts, a.policies, a.manifest) && OneGraph(a.manifest)
            && ContractRefs(a.contracts) == References(a.graph)
            && PolicyRefs(a.policies) == (set r | r in a.graph.policies)
  {
    BuildIsIdempotent(g, cs, ps, ms);
    hide Unique, Map, SortBy, CanonicalNode, CanonicalPolicy, Capabilities, References;
  }

  lemma GraphKeepsVersion(g: Graph)
    ensures CanonicalGraph(g).version == g.version
  {
    hide SortBy, Map;
  }

  /** An artifact is built exactly from buildable inputs, in whatever order they come. */
  lemma BuildSucceedsExactly(g: Graph, cs: seq<Contract>, ps: seq<Policy>, ms: seq<Source>)
    ensures Build(g, cs, ps, ms).Some? <==> Buildable(g, cs, ps, ms)
  {
    AssembledIsValid(g, cs, ps, ms);
    SameReferences(g);
    SameNamesOf(g, cs, ps);
    ContractsMatchBySets(g, cs);
    PoliciesMatchBySets(g, ps);
    KeysOfSorted(cs, ps, ms);
    SortSorts(ms, SourceKey);
    OneGraphIsOrderless(CanonicalManifest(ms), ms);
    GraphKeepsVersion(g);
    hide SortBy, CanonicalPolicies, CanonicalContracts, CanonicalGraph, CanonicalManifest, References, KeysUnique,
      OneGraph, Valid, Capabilities, Index, ContractsMatch, PoliciesMatch;
  }

  lemma IndexSays(cs: seq<Contract>)
    ensures |Index(CanonicalContracts(cs))| == |cs|
    ensures forall e :: e in Index(CanonicalContracts(cs)) <==>
              exists c :: c in cs && e.reference == c.reference && e.name == c.name
                && e.digest == OfContract(c.contents)
  {
    var sorted := CanonicalContracts(CanonicalContracts(cs));
    SortedMembers(cs, ContractKey);
    SortedMembers(CanonicalContracts(cs), ContractKey);
    SortSorts(cs, ContractKey);
    SortSorts(CanonicalContracts(cs), ContractKey);
    SameLength(sorted, cs);
    MapHas(sorted, Entry);
    hide SortBy, Map;
    EntryCount(sorted);
  }

  lemma EntryCount(cs: seq<Contract>)
    ensures |Map(cs, Entry)| == |cs|
  {
  }

  /** A policy allows the tool to some node of its roles. */
  ghost predicate Allows(p: Policy, t: string) {
    && p.reference == TOOL_POLICY && p.payload.Tools?
    && exists r, n :: r in p.payload.roles && n in p.payload.roles[r] && t in n.allowed
  }

  lemma CanonicalAllows(p: Policy, t: string)
    ensures Allows(CanonicalPolicy(p), t) <==> Allows(p, t)
  {
    var q := CanonicalPolicy(p);
    if p.reference == TOOL_POLICY && p.payload.Tools? {
      forall r | r in p.payload.roles ensures forall n :: n in q.payload.roles[r] <==> n in p.payload.roles[r] {
        SortedMembers(p.payload.roles[r], PolicyNodeKey);
      }
      hide SortBy;
      assert q.payload.roles.Keys == p.payload.roles.Keys;
    }
  }

  lemma CapabilitiesAllow(ps: seq<Policy>, t: string)
    ensures t in Capabilities(ps) <==> exists p :: p in ps && Allows(p, t)
  {
  }

  lemma CapabilitiesSay(ps: seq<Policy>)
    ensures forall t :: t in Capabilities(CanonicalPolicies(ps)) <==> exists p :: p in ps && Allows(p, t)
  {
    SortedMembers(Map(ps, CanonicalPolicy), PolicyKey);
    MapHas(ps, CanonicalPolicy);
    hide SortBy, CanonicalPolicy, Map, Allows, Capabilities;
    forall t ensures t in Capabilities(CanonicalPolicies(ps)) <==> exists p :: p in ps && Allows(p, t) {
      CapabilitiesAllow(CanonicalPolicies(ps), t);
      forall p ensures Allows(CanonicalPolicy(p), t) <==> Allows(p, t) { CanonicalAllows(p, t); }
      if p :| p in ps && Allows(p, t) { assert CanonicalPolicy(p) in CanonicalPolicies(ps); }
    }
  }

  /** What the built artifact says of its inputs: one digest per contract, and the tools the tool policy allows. */
  lemma BuildSays(g: Graph, cs: seq<Contract>, ps: seq<Policy>, ms: seq<Source>, a: Artifact)
    requires Build(g, cs, ps, ms) == Some(a)
    ensures |a.index| == |cs|
    ensures forall e :: e in a.index <==>
              exists c :: c in cs && e.reference == c.reference && e.name == c.name
                && e.digest == OfContract(c.contents)
    ensures forall t :: t in a.capabilities <==> exists p :: p in ps && Allows(p, t)
    ensures a.graphDigest == OfGraph(a.graph) && a.policyDigest == OfPolicies(a.policies)
  {
    hide Valid;
    CanonicalMembers(g, cs, ps, ms);
    IndexSays(cs);
    hide SortBy, Index, Capabilities, CanonicalPolicies, Allows;
    CapabilitiesSay(ps);
  }
}
