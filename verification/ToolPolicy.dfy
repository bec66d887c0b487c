/** Which tools each node may use: role, role policy and the node's own permissions combined. */
module ToolPolicy {

  type Tool = string

  datatype Permission = Permission(tool: Tool, allow: bool)

  datatype RolePolicy = RolePolicy(allowed: set<Tool>, forbidden: set<Tool>)

  /** The registered tools, the agent roles with their tools, and the tool policy's entry for each role. */
  datatype Catalog = Catalog(tools: set<Tool>, roles: map<string, set<Tool>>, policies: map<string, RolePolicy>)
  {
    /** The consistency the registry demands of the catalog when it is loaded. */
    predicate Consistent() {
      && policies.Keys == roles.Keys
      && forall r :: r in roles ==>
           && roles[r] + policies[r].allowed + policies[r].forbidden <= tools
           && policies[r].allowed <= roles[r]
    }
  }

  datatype AgentNode = AgentNode(id: string, role: string, permissions: seq<Permission>)

  datatype Decision = Decision(node: string, role: string, allowed: set<Tool>, denied: set<Tool>)

  datatype Fault = UnknownRole | UnknownTool | Repeated | Unauthorized

  datatype Result<T> = Ok(value: T) | Refused(fault: Fault)

  // ---------- one node ----------

  /** The permissions name each tool once, and allow only what role and policy allow and the policy does not forbid. */
  predicate Grantable(c: Catalog, n: AgentNode) {
    && n.role in c.roles && n.role in c.policies
    && (forall i, j :: 0 <= i < j < |n.permissions| ==> n.permissions[i].tool != n.permissions[j].tool)
    && (forall p :: p in n.permissions ==> p.tool in c.tools)
    && (forall p :: p in n.permissions && p.allow ==>
          p.tool in c.roles[n.role] && p.tool in c.policies[n.role].allowed && p.tool !in c.policies[n.role].forbidden)
  }

  function Allowed(permissions: seq<Permission>): set<Tool> { set p | p in permissions && p.allow :: p.tool }
  function Denied(permissions: seq<Permission>): set<Tool> { set p | p in permissions && !p.allow :: p.tool }

  /** Whether one more permission may follow those already listed. */
  predicate Fits(c: Catalog, role: string, before: seq<Permission>, p: Permission)
    requires role in c.roles && role in c.policies
  {
    && p.tool in c.tools && p.tool !in Allowed(before) && p.tool !in Denied(before)
    && (p.allow ==>
          && p.tool in c.roles[role] && p.tool in c.policies[role].allowed
          && p.tool !in c.policies[role].forbidden)
  }

  lemma GrantStep(c: Catalog, n: AgentNode, i: nat)
    requires i < |n.permissions| && n.role in c.roles && n.role in c.policies
    requires Grantable(c, n.(permissions := n.permissions[..i]))
    ensures Grantable(c, n.(permissions := n.permissions[..i + 1])) <==>
            Fits(c, n.role, n.permissions[..i], n.permissions[i])
  {
    var ps, init, p := n.permissions[..i + 1], n.permissions[..i], n.permissions[i];
    assert ps == init + [p];
    hide Allowed, Denied;
    if exists j :: 0 <= j < i && init[j].tool == p.tool {
      var j :| 0 <= j < i && init[j].tool == p.tool;
      assert ps[j] == init[j] && ps[i] == p;
      NamedIn(init, init[j]);
    } else {
      NotNamed(init, p.tool);
    }
    assert p in ps && forall q :: q in ps <==> q in init || q == p;
  }

  lemma NamedIn(ps: seq<Permission>, q: Permission)
    requires q in ps
    ensures q.tool in Allowed(ps) || q.tool in Denied(ps)
  {
  }

  lemma NotNamed(ps: seq<Permission>, t: Tool)
    requires forall j :: 0 <= j < |ps| ==> ps[j].tool != t
    ensures t !in Allowed(ps) && t !in Denied(ps)
  {
  }

  lemma GrantPrefix(c: Catalog, n: AgentNode, i: nat)
    requires i <= |n.permissions| && Grantable(c, n)
    ensures Grantable(c, n.(permissions := n.permissions[..i]))
  {
    assert forall p :: p in n.permissions[..i] ==> p in n.permissions;
  }

  /** The registry's loop over a node's permissions, in the order they are listed. */
  method ResolveNodeTools(c: Catalog, n: AgentNode) returns (r: Result<Decision>)
    requires c.Consistent()
    ensures r.Ok? <==> Grantable(c, n)
    ensures r.Ok? ==> r.value == Decision(n.id, n.role, Allowed(n.permissions),
            c.policies[n.role].forbidden + Denied(n.permissions))
  {
    if n.role !in c.roles { return Refused(UnknownRole); }
    var policy := c.policies[n.role];
    var seen: set<Tool>, allowed: set<Tool>, denied := {}, {}, policy.forbidden;
    var i := 0;
    while i < |n.permissions|
      invariant 0 <= i <= |n.permissions|
      invariant Grantable(c, n.(permissions := n.permissions[..i]))
      invariant seen == Allowed(n.permissions[..i]) + Denied(n.permissions[..i])
      invariant allowed == Allowed(n.permissions[..i])
      invariant denied == policy.forbidden + Denied(n.permissions[..i])
    {
      hide Grantable, Allowed, Denied;
      var p := n.permissions[i];
      Prefix(n.permissions, i);
      GrantStep(c, n, i);
      if Grantable(c, n) { GrantPrefix(c, n, i + 1); }
      if p.tool !in c.tools { return Refused(UnknownTool); }
      if p.tool in seen { return Refused(Repeated); }
      if p.allow && (p.tool !in c.roles[n.role] || p.tool !in policy.allowed || p.tool in denied) {
        return Refused(Unauthorized);
      }
      seen := seen + {p.tool};
      if p.allow { allowed := allowed + {p.tool}; }
      else { denied, allowed := denied + {p.tool}, allowed - {p.tool}; }
      i := i + 1;
    }
    assert n.permissions[..i] == n.permissions;
    r := Ok(Decision(n.id, n.role, allowed, denied));
  }

  lemma Prefix(ps: seq<Permission>, i: nat)
    requires i < |ps|
    ensures Allowed(ps[..i + 1]) == Allowed(ps[..i]) + if ps[i].allow then {ps[i].tool} else {}
    ensures Denied(ps[..i + 1]) == Denied(ps[..i]) + if ps[i].allow then {} else {ps[i].tool}
  {
    assert ps[..i + 1] == ps[..i] + [ps[i]];
  }

  /** No tool is both allowed to a node and denied to it. */
  lemma AllowedAndDeniedAreDisjoint(c: Catalog, n: AgentNode)
    requires Grantable(c, n)
    ensures Allowed(n.permissions) !! c.policies[n.role].forbidden + Denied(n.permissions)
  {
    forall t | t in Allowed(n.permissions) ensures t !in Denied(n.permissions) {
      var i :| 0 <= i < |n.permissions| && n.permissions[i] == Permission(t, true);
      assert forall j :: 0 <= j < |n.permissions| && n.permissions[j].tool == t ==> j == i;
    }
  }

  /** Neither success nor the decision depends on the order of a node's permissions. */
  lemma OrderIsIrrelevant(c: Catalog, n: AgentNode, m: AgentNode)
    requires n.id == m.id && n.role == m.role && multiset(n.permissions) == multiset(m.permissions)
    ensures Grantable(c, n) <==> Grantable(c, m)
    ensures Allowed(n.permissions) == Allowed(m.permissions) && Denied(n.permissions) == Denied(m.permissions)
  {
    assert forall p :: p in n.permissions <==> p in multiset(n.permissions);
    assert forall p :: p in m.permissions <==> p in multiset(m.permissions);
    DistinctByCount(n.permissions);
    DistinctByCount(m.permissions);
  }

  /** Distinct tools, said of the multiset: no permission twice, and no two permissions for one tool. */
  ghost predicate DistinctTools(ps: multiset<Permission>) {
    && (forall p :: p in ps ==> ps[p] == 1)
    && (forall p, q :: p in ps && q in ps && p.tool == q.tool ==> p == q)
  }

  lemma TwiceCounts(ps: seq<Permission>, i: nat, j: nat)
    requires i < j < |ps| && ps[i] == ps[j]
    ensures multiset(ps)[ps[i]] >= 2
  {
    assert ps == ps[..j] + [ps[j]] + ps[j + 1..];
    assert ps[..j][i] == ps[i] && ps[i] in multiset(ps[..j]);
  }

  lemma {:induction false} CountsTwice(ps: seq<Permission>, p: Permission) returns (i: nat, j: nat)
    requires multiset(ps)[p] >= 2
    ensures i < j < |ps| && ps[i] == p && ps[j] == p
  {
    assert ps != [];
    var init, last := ps[..|ps| - 1], ps[|ps| - 1];
    assert ps == init + [last];
    assert multiset(ps) == multiset(init) + multiset{last};
    if multiset(init)[p] >= 2 {
      i, j := CountsTwice(init, p);
    } else {
      assert p in multiset(init);
      i :| 0 <= i < |init| && init[i] == p;
      j := |ps| - 1;
    }
  }

  lemma DistinctByCount(ps: seq<Permission>)
    ensures (forall i, j :: 0 <= i < j < |ps| ==> ps[i].tool != ps[j].tool) <==> DistinctTools(multiset(ps))
  {
    if forall i, j :: 0 <= i < j < |ps| ==> ps[i].tool != ps[j].tool {
      forall p | p in multiset(ps) ensures multiset(ps)[p] == 1 {
        if multiset(ps)[p] >= 2 { var i, j := CountsTwice(ps, p); }
      }
      forall p, q | p in multiset(ps) && q in multiset(ps) && p.tool == q.tool ensures p == q {
        var i :| 0 <= i < |ps| && ps[i] == p;
        var j :| 0 <= j < |ps| && ps[j] == q;
      }
    }
    if DistinctTools(multiset(ps)) {
      forall i, j | 0 <= i < j < |ps| ensures ps[i].tool != ps[j].tool {
        assert ps[i] in multiset(ps) && ps[j] in multiset(ps);
        if ps[i] == ps[j] { TwiceCounts(ps, i, j); }
      }
    }
  }

  // ---------- whole graphs ----------

  /** The decisions of all agent nodes, or the first refusal. */
  method ResolveGraph(c: Catalog, nodes: seq<AgentNode>) returns (r: Result<seq<Decision>>)
    requires c.Consistent()
    ensures r.Ok? <==> forall n :: n in nodes ==> Grantable(c, n)
    ensures r.Ok? ==> Decided(c, nodes, r.value)
  {
    hide Grantable;
    var decisions: seq<Decision> := [];
    var i := 0;
    while i < |nodes|
      invariant 0 <= i <= |nodes| && |decisions| == i
      invariant forall j :: 0 <= j < i ==> Grantable(c, nodes[j])
      invariant forall j :: 0 <= j < i ==>
                  nodes[j].role in c.policies &&
                  decisions[j] == Decision(nodes[j].id, nodes[j].role, Allowed(nodes[j].permissions),
                                           c.policies[nodes[j].role].forbidden + Denied(nodes[j].permissions))
    {
      assert nodes[i] in nodes;
      var d := ResolveNodeTools(c, nodes[i]);
      if !d.Ok? { return Refused(d.fault); }
      assert nodes[i].role in c.policies by { GrantableRole(c, nodes[i]); }
      decisions := decisions + [d.value];
      i := i + 1;
    }
    r := Ok(decisions);
  }

  lemma GrantableRole(c: Catalog, n: AgentNode)
    requires Grantable(c, n)
    ensures n.role in c.policies
  {
  }

  predicate Decided(c: Catalog, nodes: seq<AgentNode>, decisions: seq<Decision>) {
    && |decisions| == |nodes|
    && forall j :: 0 <= j < |nodes| ==>
         && nodes[j].role in c.policies
         && decisions[j] == Decision(nodes[j].id, nodes[j].role, Allowed(nodes[j].permissions),
                                     c.policies[nodes[j].role].forbidden + Denied(nodes[j].permissions))
  }

  /** The tool policy's payload: the decisions, grouped by role. */
  function OfRole(decisions: seq<Decision>, role: string): seq<Decision> {
    if decisions == [] then []
    else
      var last := decisions[|decisions| - 1];
      OfRole(decisions[..|decisions| - 1], role) + if last.role == role then [last] else []
  }

  function Payload(decisions: seq<Decision>): map<string, seq<Decision>> {
    map r | r in (set d | d in decisions :: d.role) :: OfRole(decisions, r)
  }

  lemma {:induction false} OfRoleHolds(decisions: seq<Decision>, role: string, d: Decision)
    ensures d in OfRole(decisions, role) <==> d in decisions && d.role == role
  {
    if decisions != [] {
      var init := decisions[..|decisions| - 1];
      OfRoleHolds(init, role, d);
      assert decisions == init + [decisions[|decisions| - 1]];
    }
  }

  predicate AllowsIn(nodes: seq<Decision>, t: Tool) { exists d :: d in nodes && t in d.allowed }

  lemma AllowsStep(nodes: seq<Decision>, i: nat, t: Tool)
    requires i < |nodes|
    ensures AllowsIn(nodes[..i + 1], t) <==> AllowsIn(nodes[..i], t) || t in nodes[i].allowed
  {
    assert nodes[..i + 1] == nodes[..i] + [nodes[i]];
  }

  /** All tools that some node in the payload is allowed, by a loop over roles and their nodes. */
  method RequiredCapabilities(payload: map<string, seq<Decision>>) returns (capabilities: set<Tool>)
    ensures forall t :: t in capabilities <==> exists r :: r in payload && AllowsIn(payload[r], t)
  {
    hide AllowsIn;
    capabilities := {};
    var roles := payload.Keys;
    while roles != {}
      invariant roles <= payload.Keys
      invariant forall t :: t in capabilities <==> exists r :: r in payload && r !in roles && AllowsIn(payload[r], t)
    {
      var role :| role in roles;
      var nodes, before := payload[role], capabilities;
      var i := 0;
      NobodyAllows();
      while i < |nodes|
        invariant 0 <= i <= |nodes|
        invariant forall t :: t in capabilities <==> t in before || AllowsIn(nodes[..i], t)
      {
        forall t ensures AllowsIn(nodes[..i + 1], t) <==> AllowsIn(nodes[..i], t) || t in nodes[i].allowed {
          AllowsStep(nodes, i, t);
        }
        capabilities := capabilities + nodes[i].allowed;
        i := i + 1;
      }
      assert nodes[..i] == nodes;
      roles := roles - {role};
    }
  }

  lemma NobodyAllows()
    ensures forall t :: !AllowsIn([], t)
  {
  }

  /** A node that asks for a tool, and whose role and role policy give it. */
  ghost predicate Witness(c: Catalog, nodes: seq<AgentNode>, t: Tool, n: AgentNode) {
    && n in nodes && Permission(t, true) in n.permissions && n.role in c.roles && n.role in c.policies
    && t in c.roles[n.role] && t in c.policies[n.role].allowed && t !in c.policies[n.role].forbidden
  }

  /** A tool is a required capability exactly when some node is granted it by its role and by the role's policy. */
  lemma CapabilitiesAreWitnessed(c: Catalog, nodes: seq<AgentNode>, decisions: seq<Decision>, t: Tool)
    requires Decided(c, nodes, decisions) && forall n :: n in nodes ==> Grantable(c, n)
    ensures (exists r :: r in Payload(decisions) && AllowsIn(Payload(decisions)[r], t)) <==>
            exists n :: Witness(c, nodes, t, n)
  {
    if r :| r in Payload(decisions) && AllowsIn(Payload(decisions)[r], t) {
      var d :| d in Payload(decisions)[r] && t in d.allowed;
      OfRoleHolds(decisions, r, d);
      var j :| 0 <= j < |decisions| && decisions[j] == d;
      assert nodes[j] in nodes;
      assert Witness(c, nodes, t, nodes[j]);
    }
    if n :| Witness(c, nodes, t, n) {
      var j :| 0 <= j < |nodes| && nodes[j] == n;
      var d := decisions[j];
      OfRoleHolds(decisions, d.role, d);
      assert d in decisions && d.role in Payload(decisions);
      assert t in d.allowed;
    }
  }
}
