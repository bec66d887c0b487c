/** What limits mean on the operations, in plain numbers: which cap a node has, and when a request is within it. */
module BudgetLimits {
  import opened Common
  import opened BudgetText
  import opened BudgetModel
  import opened BudgetConservation
  import opened BudgetBoundary
  import opened BudgetAgreement

  // ---------- the limits of a node ----------

  /** The node's own limit where it has one, the default limit where it does not. */
  ghost predicate IsCap(limits: Limits, id: NodeId, pick: LimitSet -> Option<nat>, n: nat) {
    if id in limits.overrides && pick(limits.overrides[id]).Some? then pick(limits.overrides[id]) == Some(n)
    else pick(limits.defaultNode) == Some(n)
  }

  lemma NodeLimits(limits: Limits, id: NodeId, n: nat)
    ensures var own := limits.ForNode(id);
            && (own.prompt == Some(n) <==> IsCap(limits, id, (s: LimitSet) => s.prompt, n))
            && (own.completion == Some(n) <==> IsCap(limits, id, (s: LimitSet) => s.completion, n))
            && (own.total == Some(n) <==> IsCap(limits, id, (s: LimitSet) => s.total, n))
            && (own.tools == Some(n) <==> IsCap(limits, id, (s: LimitSet) => s.tools, n))
            && (own.duration == Some(n) <==> IsCap(limits, id, (s: LimitSet) => s.duration, n))
            && (own.attempts == Some(n) <==> IsCap(limits, id, (s: LimitSet) => s.attempts, n))
            && (own.cost == Some(n) <==> IsCap(limits, id, (s: LimitSet) => s.cost, n))
  {
  }

  // ---------- being beyond a cap ----------

  function Plus(t: Totals, u: Totals): Totals {
    Totals(t.prompt + u.prompt, t.completion + u.completion, t.tools + u.tools, t.duration + u.duration,
           t.attempts + u.attempts, t.known + u.known, t.unpriced + u.unpriced)
  }

  predicate Above(n: nat, cap: Option<nat>) { cap.Some? && n > cap.value }

  /** The dimensions in which totals are beyond caps; a cost cap needs every operation priced. */
  predicate Beyond(caps: LimitSet, t: Totals, d: Dim) {
    match d
    case PromptTokens => Above(t.prompt, caps.prompt)
    case CompletionTokens => Above(t.completion, caps.completion)
    case TotalTokens => Above(t.prompt + t.completion, caps.total)
    case ToolCalls => Above(t.tools, caps.tools)
    case DurationMs => Above(t.duration, caps.duration)
    case Attempts => Above(t.attempts, caps.attempts)
    case CostUsd => t.unpriced == 0 && Above(t.known, caps.cost)
    case CostUnavailable => t.unpriced > 0 && caps.cost.Some?
  }

  lemma BeyondIsExceeded(caps: LimitSet, t: Totals, d: Dim)
    ensures Exceeds(caps, Usage(t), d) <==> Beyond(caps, t, d)
    ensures d in Exceeded(caps, Usage(t)) <==> Beyond(caps, t, d)
  {
    EveryDim(d);
    hide DIMS;
  }

  /** What a snapshot lists: recorded evidence, and every balance beyond a cap. */
  lemma ListedExactly(limits: Limits, l: Ledger, id: NodeId, d: Dim)
    ensures Listed(limits, l, Exec(d)) <==> Exec(d) in l.evidence || Beyond(limits.execution, l.exec, d)
    ensures Listed(limits, l, OfNode(id, d)) <==>
            OfNode(id, d) in l.evidence || (id in l.nodes && Beyond(limits.ForNode(id), l.nodes[id], d))
  {
    BeyondIsExceeded(limits.execution, l.exec, d);
    if id in l.nodes { BeyondIsExceeded(limits.ForNode(id), l.nodes[id], d); }
    hide Exceeds, Usage, Beyond, Exceeded;
  }

  /** All caps hold with `use` on top of a balance. */
  ghost predicate Room(caps: LimitSet, t: Totals, use: Totals) {
    && (caps.prompt.Some? ==> t.prompt + use.prompt <= caps.prompt.value)
    && (caps.completion.Some? ==> t.completion + use.completion <= caps.completion.value)
    && (caps.total.Some? ==> t.prompt + use.prompt + t.completion + use.completion <= caps.total.value)
    && (caps.tools.Some? ==> t.tools + use.tools <= caps.tools.value)
    && (caps.duration.Some? ==> t.duration + use.duration <= caps.duration.value)
    && (caps.attempts.Some? ==> t.attempts + use.attempts <= caps.attempts.value)
    && (caps.cost.Some? ==> t.unpriced + use.unpriced == 0 && t.known + use.known <= caps.cost.value)
  }

  lemma RoomIsNothingBeyond(caps: LimitSet, t: Totals, use: Totals)
    ensures Room(caps, t, use) <==> forall d :: !Beyond(caps, Plus(t, use), d)
  {
    var all := Plus(t, use);
    if forall d :: !Beyond(caps, all, d) {
      assert !Beyond(caps, all, PromptTokens) && !Beyond(caps, all, CompletionTokens)
             && !Beyond(caps, all, TotalTokens);
      assert !Beyond(caps, all, ToolCalls) && !Beyond(caps, all, DurationMs) && !Beyond(caps, all, Attempts);
      assert !Beyond(caps, all, CostUsd) && !Beyond(caps, all, CostUnavailable);
    }
  }

  // ---------- what a request asks for ----------

  function PriceKey(provider: string, model: string): string { provider + ":" + model }

  /** The usage a reservation sets aside: one millisecond, and the call with all its completion tokens. */
  function Wish(limits: Limits, resource: Resource, prompt: nat): Totals {
    match resource
    case ToolCall(tool) =>
      if tool in limits.toolPrices then Totals(0, 0, 1, 1, 0, limits.toolPrices[tool], 0)
        else Totals(0, 0, 1, 1, 0, 0, 1)
    case ModelCall(provider, model) =>
      var most := limits.maxCompletion;
      if PriceKey(provider, model) in limits.modelPrices
      then
        var q := limits.modelPrices[PriceKey(provider, model)];
        Totals(prompt, most, 0, 1, 0, prompt * q.prompt + most * q.completion, 0)
      else Totals(prompt, most, 0, 1, 0, 0, 1)
  }

  lemma EstimateIsWish(limits: Limits, resource: Resource, prompt: nat, t: Totals)
    ensures Add(t, Estimate(limits, resource, prompt)) == Plus(t, Wish(limits, resource, prompt))
  {
    match resource
    case ToolCall(tool) =>
    case ModelCall(provider, model) =>
      assert PriceKey(provider, model) == provider + ":" + model;
  }

  lemma UnpricedIsUnknown(limits: Limits, node: NodeId, resource: Resource, prompt: nat)
    ensures PriceOf(limits, resource, 0, 0).None? <==> Wish(limits, resource, prompt).unpriced == 1
    ensures Unpriceable(limits, node, resource) <==>
            (limits.execution.cost.Some? || limits.ForNode(node).cost.Some?)
              && Wish(limits, resource, prompt).unpriced == 1
  {
    if resource.ModelCall? {
      assert PriceKey(resource.provider, resource.model) == resource.provider + ":" + resource.model;
    }
  }

  // ---------- reservations ----------

  /** The dimensions a denial names, of the first balance that has no room. */
  ghost predicate Denies(d: Denial, scope: Scope, caps: LimitSet, all: Totals) {
    d.scope == scope && forall x :: x in d.dims <==> Beyond(caps, all, x)
  }

  lemma ShortfallExactly(limits: Limits, l: Ledger, node: NodeId, i: Increment, use: Totals)
    requires l.active == {} && forall t :: Add(t, i) == Plus(t, use)
    ensures var short := Shortfall(limits, l, node, i);
            var own := NodeTotals(l, node);
            && (short.None? <==> Room(limits.execution, l.exec, use) && Room(limits.ForNode(node), own, use))
            && (short.Some? ==>
                  if Room(limits.execution, l.exec, use)
                  then Denies(short.value, NodeScope, limits.ForNode(node), Plus(own, use))
                  else Denies(short.value, ExecutionScope, limits.execution, Plus(l.exec, use)))
  {
    var owned := set r | r in l.active && r.node == node;
    PendingNothing(l.exec, l.active);
    PendingNothing(NodeTotals(l, node), owned);
    var x, n := Plus(l.exec, use), Plus(NodeTotals(l, node), use);
    forall d ensures d in Exceeded(limits.execution, Usage(x)) <==> Beyond(limits.execution, x, d) {
      BeyondIsExceeded(limits.execution, x, d);
    }
    forall d ensures d in Exceeded(limits.ForNode(node), Usage(n)) <==> Beyond(limits.ForNode(node), n, d) {
      BeyondIsExceeded(limits.ForNode(node), n, d);
    }
    RoomIsNothingBeyond(limits.execution, l.exec, use);
    RoomIsNothingBeyond(limits.ForNode(node), NodeTotals(l, node), use);
    hide Exceeds, Exceeded, Beyond, Room, Usage, Pending, Limits.ForNode, Add, Plus, NodeTotals;
    NoneIsEmpty(Exceeded(limits.execution, Usage(x)));
    NoneIsEmpty(Exceeded(limits.ForNode(node), Usage(n)));
  }

  lemma NoneIsEmpty(ds: set<Dim>)
    ensures ds == {} <==> forall d :: d !in ds
  {
    if ds != {} { var d :| d in ds; }
  }

  /** The verdict on a request for `use`: granted, without a price, or beyond a cap of the execution or of the node. */
  ghost predicate Ruled(limits: Limits, l: Ledger, node: NodeId, use: Totals, d: Option<Denial>) {
    var caps, own := limits.ForNode(node), NodeTotals(l, node);
    && (d.None? <==> Room(limits.execution, l.exec, use) && Room(caps, own, use))
    && (d.Some? ==>
          if use.unpriced == 1 && (limits.execution.cost.Some? || caps.cost.Some?)
          then d.value == Denial(ExecutionScope, {CostUnavailable})
          else if Room(limits.execution, l.exec, use)
          then Denies(d.value, NodeScope, caps, Plus(own, use))
          else Denies(d.value, ExecutionScope, limits.execution, Plus(l.exec, use)))
  }

  lemma NoPriceNoRoom(limits: Limits, l: Ledger, node: NodeId, use: Totals)
    requires use.unpriced == 1 && (limits.execution.cost.Some? || limits.ForNode(node).cost.Some?)
    ensures !Room(limits.execution, l.exec, use) || !Room(limits.ForNode(node), NodeTotals(l, node), use)
  {
    hide Limits.ForNode, NodeTotals;
  }

  lemma JudgedExactly(limits: Limits, l: Ledger, v: View, r: Reservation, prompt: nat)
    requires l.active == {} && r.estimate == Estimate(limits, r.resource, prompt)
    ensures Ruled(limits, l, v.node, Wish(limits, r.resource, prompt), Judged(limits, l, v, r))
  {
    hide Room, Denies, Shortfall, Unpriceable, Wish, Estimate, Limits.ForNode, NodeTotals, Plus, Add;
    var use := Wish(limits, r.resource, prompt);
    forall t ensures Add(t, r.estimate) == Plus(t, use) { EstimateIsWish(limits, r.resource, prompt, t); }
    UnpricedIsUnknown(limits, v.node, r.resource, prompt);
    ShortfallExactly(limits, l, v.node, r.estimate, use);
    if Unpriceable(limits, v.node, r.resource) { NoPriceNoRoom(limits, l, v.node, use); }
  }

  /**
   * On a readable journal without an open reservation, a request is granted if and only if its usage fits every cap of
   * the execution and of the node; otherwise it is refused, for want of a price or for exactly the dimensions it would
   * put beyond their caps.
   */
  lemma ReserveExactly(
    limits: Limits, events: seq<Event>, v: View, now: int, resource: Resource, prompt: nat, l: Ledger)
    requires Replay(limits, events) == Some(l) && l.active == {}
    ensures var answer := Reserve(limits, events, v, now, resource, prompt).answer;
            && (answer.Held? || answer.Refused?)
            && Ruled(limits, l, v.node, Wish(limits, resource, prompt),
                     if answer.Refused? then Some(answer.denial) else None)
  {
    hide Replay, Ruled, Judged, Wish, Estimate, CountOps;
    JudgedExactly(limits, l, v, Planned(limits, events, v, resource, prompt), prompt);
  }

  /** The check before an attempt asks for one attempt and one millisecond. */
  lemma AttemptExactly(limits: Limits, events: seq<Event>, v: View, now: int, l: Ledger)
    requires Replay(limits, events) == Some(l) && l.active == {}
    ensures var use := Totals(0, 0, 0, 1, 1, 0, 0);
            CheckedAttempt(limits, events, v, now).answer == Done <==>
            Room(limits.execution, l.exec, use) && Room(limits.ForNode(v.node), NodeTotals(l, v.node), use)
  {
    hide Replay, Room, Denies, Limits.ForNode, NodeTotals;
    ShortfallExactly(limits, l, v.node, Increment(0, 0, 0, 1, 1, None, 0), Totals(0, 0, 0, 1, 1, 0, 0));
  }

  lemma ToolWish(limits: Limits, tool: string)
    ensures Wish(limits, ToolCall(tool), 0).tools == 1
  {
  }

  /** A node's own cap on tool calls binds its reservations, whatever the default. */
  lemma OwnToolCapBinds(limits: Limits, events: seq<Event>, v: View, now: int, tool: string, n: nat, l: Ledger)
    requires Replay(limits, events) == Some(l)
    requires v.node in limits.overrides && limits.overrides[v.node].tools == Some(n)
    requires Reserve(limits, events, v, now, ToolCall(tool), 0).answer.Held?
    ensures NodeTotals(l, v.node).tools + 1 <= n
  {
    assert l.active == {} by { hide Judged; }
    ReserveExactly(limits, events, v, now, ToolCall(tool), 0, l);
    hide Replay, Reserve, NodeTotals, Wish;
    assert Wish(limits, ToolCall(tool), 0).tools == 1 by { ToolWish(limits, tool); }
    NodeLimits(limits, v.node, n);
  }

  /** The estimate a granted reservation records. */
  lemma HeldSetsAside(limits: Limits, events: seq<Event>, v: View, now: int, resource: Resource, prompt: nat)
    requires Reserve(limits, events, v, now, resource, prompt).answer.Held?
    ensures var r := Reserve(limits, events, v, now, resource, prompt).answer.reservation;
            && r.node == v.node && r.attempt == v.attempt && r.token == v.token && r.resource == resource
            && r.limits == limits && Add(ZERO, r.estimate) == Wish(limits, resource, prompt)
            && (r.estimate.cost.None? <==> r.estimate.unpriced == 1)
  {
    EstimateIsWish(limits, resource, prompt, ZERO);
    EstimateCost(limits, resource, prompt);
    hide Replay, Judged, CountOps, Estimate, Wish, Add;
    assert Plus(ZERO, Wish(limits, resource, prompt)) == Wish(limits, resource, prompt);
  }

  lemma EstimateCost(limits: Limits, resource: Resource, prompt: nat)
    ensures var e := Estimate(limits, resource, prompt); e.cost.None? <==> e.unpriced == 1
  {
  }
}
