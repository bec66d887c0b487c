/** What every event adds to the balances, in plain numbers; a replayed balance is the sum of these. */
module BudgetCharges {
  import opened Common
  import opened BudgetText
  import opened BudgetModel
  import opened BudgetConservation
  import opened BudgetBoundary
  import opened BudgetAgreement
  import opened BudgetBlindSpot
  import opened BudgetRuns
  import opened BudgetCapacity
  import opened BudgetLimits

  // ---------- prices ----------

  /** Tokens and money of a model call: each kind of token at its own price, or one operation without a price. */
  function ModelCost(limits: Limits, provider: string, model: string, prompt: nat, completion: nat, ms: nat): Totals {
    if PriceKey(provider, model) in limits.modelPrices
    then
      var q := limits.modelPrices[PriceKey(provider, model)];
      Totals(prompt, completion, 0, ms, 0, prompt * q.prompt + completion * q.completion, 0)
    else Totals(prompt, completion, 0, ms, 0, 0, 1)
  }

  function ToolCost(limits: Limits, tool: string, ms: nat): Totals {
    if tool in limits.toolPrices then Totals(0, 0, 1, ms, 0, limits.toolPrices[tool], 0)
    else Totals(0, 0, 1, ms, 0, 0, 1)
  }

  function Time(ms: nat): Totals { Totals(0, 0, 0, ms, 0, 0, 0) }

  const ONE_START := Totals(0, 0, 0, 0, 1, 0, 0)

  function Elapsed(since: int, until: int): nat { if until > since then (until - since) / 1000 else 0 }

  // ---------- what an event spends ----------

  /** When an attempt last started. */
  function StartOf(events: seq<Event>, node: NodeId, attempt: nat): Option<int> {
    if events == [] then None
    else
      var e := events[|events| - 1];
      if e.body == AttemptStarted(node, attempt) then Some(e.at) else StartOf(events[..|events| - 1], node, attempt)
  }

  /** When a gate last started. */
  function GateStartOf(events: seq<Event>, gate: string, attempt: nat, index: nat): Option<int> {
    if events == [] then None
    else
      var e := events[|events| - 1];
      if e.body == GateStarted(gate, attempt, index) then Some(e.at)
      else GateStartOf(events[..|events| - 1], gate, attempt, index)
  }

  function CallCost(limits: Limits, c: PastCall): Totals {
    if c.prompt < 0 || c.completion < 0 then ZERO
    else if c.provider.Some? && c.model.Some?
    then ModelCost(limits, c.provider.value, c.model.value, c.prompt, c.completion, 0)
    else Totals(c.prompt, c.completion, 0, 0, 0, 0, 1)
  }

  function CallsCost(limits: Limits, calls: seq<PastCall>): Totals {
    if calls == [] then ZERO else Plus(CallsCost(limits, calls[..|calls| - 1]), CallCost(limits, calls[|calls| - 1]))
  }

  /** An increment as totals. */
  function ResultCost(i: Increment): Totals {
    var cost := if i.cost.Some? then i.cost.value else 0;
    Totals(i.prompt, i.completion, i.tools, i.duration, i.attempts, cost, i.unpriced)
  }

  /** What a result costs at the prices of the limits: a failed model call has no price at all. */
  function Worth(limits: Limits, x: Result): Totals {
    var a := x.actual;
    match x.reservation.resource
    case ModelCall(provider, model) =>
      if x.ok then ModelCost(limits, provider, model, a.prompt, a.completion, a.duration)
      else Totals(0, 0, 0, a.duration, 0, 0, 1)
    case ToolCall(tool) => ToolCost(limits, tool, a.duration)
  }

  /** What an event spends, after the events before it; historical usage counts until the first budget event. */
  function Spent(limits: Limits, events: seq<Event>, e: Event): Totals {
    match e.body
    case Committed(x) => Worth(limits, x)
    case AttemptStarted(_, _) => ONE_START
    case PlanStarted(_) => ONE_START
    case GateStarted(_, _, _) => ONE_START
    case GateRecorded(gate, attempt, index, persisted) =>
      var since := GateStartOf(events, gate, attempt, index);
      Time(if persisted.Some? then persisted.value else if since.Some? then Elapsed(since.value, e.at) else 0)
    case NodeEnded(node, attempt, calls) =>
      if !Unbudgeted(events) then ZERO
      else
        var since := StartOf(events, node, attempt);
        Plus(Time(if since.Some? then Elapsed(since.value, e.at) else 0), CallsCost(limits, calls))
    case PlanGenerated(c) => if Unbudgeted(events) then CallCost(limits, c) else ZERO
    case ToolEnded(_, _, _, tool, _, _, _) => if Unbudgeted(events) then ToolCost(limits, tool, 0) else ZERO
    case _ => ZERO
  }

  /** The one node an event spends for. */
  function Spender(e: Event): NodeId {
    match e.body
    case Committed(x) => x.reservation.node
    case AttemptStarted(node, _) => node
    case PlanStarted(_) => PLANNING
    case PlanGenerated(_) => PLANNING
    case GateStarted(gate, _, _) => GateNode(gate)
    case GateRecorded(gate, _, _, _) => GateNode(gate)
    case NodeEnded(node, _, _) => node
    case ToolEnded(node, _, _, _, _, _, _) => node
    case _ => ""
  }

  /** The sum over a journal, for the execution or for one node. */
  function SpentBy(limits: Limits, events: seq<Event>, b: Balance): Totals {
    if events == [] then ZERO
    else
      var init, e := events[..|events| - 1], events[|events| - 1];
      if b.Covers(Spender(e)) then Plus(SpentBy(limits, init, b), Spent(limits, init, e)) else SpentBy(limits, init, b)
  }

  // ---------- one balance ahead of another ----------

  /** `m` is `l` with `u` more for node `id` and for the execution. */
  ghost predicate AheadBy(l: Ledger, m: Ledger, id: NodeId, u: Totals) {
    forall b: Balance :: b.In(m) == if b.Covers(id) then Plus(b.In(l), u) else b.In(l)
  }

  lemma AheadAt(l: Ledger, m: Ledger, id: NodeId, u: Totals, b: Balance)
    requires AheadBy(l, m, id, u)
    ensures b.In(m) == if b.Covers(id) then Plus(b.In(l), u) else b.In(l)
  {
  }

  lemma AheadByNothing(l: Ledger, m: Ledger, id: NodeId)
    requires l.exec == m.exec && l.nodes == m.nodes
    ensures AheadBy(l, m, id, ZERO)
  {
    assert forall t :: Plus(t, ZERO) == t;
    hide Plus;
  }

  lemma ChargedIn(l: Ledger, id: NodeId, i: Increment, b: Balance)
    ensures b.In(Charged(l, id, i)) == if b.Covers(id) then Add(b.In(l), i) else b.In(l)
  {
    hide Add;
  }

  lemma AddIsPlus(t: Totals, i: Increment)
    ensures Add(t, i) == Plus(t, ResultCost(i))
  {
  }

  lemma ChargeIsAhead(l: Ledger, id: NodeId, i: Increment)
    ensures AheadBy(l, Charged(l, id, i), id, ResultCost(i))
  {
    hide Charged, Add, Plus, ResultCost;
    forall b: Balance
      ensures b.In(Charged(l, id, i)) == if b.Covers(id) then Plus(b.In(l), ResultCost(i)) else b.In(l)
    {
      ChargedIn(l, id, i, b);
      AddIsPlus(b.In(l), i);
    }
  }

  lemma PlusAdd(t: Totals, u: Totals, i: Increment)
    ensures Add(Plus(t, u), i) == Plus(Add(t, i), u)
  {
  }

  /** Charging both keeps the distance. */
  lemma ChargeKeepsDistance(l: Ledger, m: Ledger, id: NodeId, u: Totals, k: NodeId, i: Increment)
    requires AheadBy(l, m, id, u)
    ensures AheadBy(Charged(l, k, i), Charged(m, k, i), id, u)
  {
    hide Charged, Add, Plus;
    var x, y := Charged(l, k, i), Charged(m, k, i);
    forall b: Balance ensures b.In(y) == if b.Covers(id) then Plus(b.In(x), u) else b.In(x) {
      AheadAt(l, m, id, u, b);
      ChargedIn(l, k, i, b);
      ChargedIn(m, k, i, b);
      PlusAdd(b.In(l), u, i);
    }
  }

  lemma AheadThen(l: Ledger, m: Ledger, n: Ledger, id: NodeId, u: Totals, w: Totals)
    requires AheadBy(l, m, id, u) && AheadBy(m, n, id, w)
    ensures AheadBy(l, n, id, Plus(u, w))
  {
    forall t ensures Plus(Plus(t, u), w) == Plus(t, Plus(u, w)) { }
    hide Plus;
    forall b: Balance ensures b.In(n) == if b.Covers(id) then Plus(b.In(l), Plus(u, w)) else b.In(l) {
      AheadAt(l, m, id, u, b);
      AheadAt(m, n, id, w, b);
    }
  }

  lemma {:induction false} PassesKeepDistance(l: Ledger, m: Ledger, id: NodeId, u: Totals, events: seq<Event>)
    requires AheadBy(l, m, id, u)
    ensures AheadBy(WithAttempts(l, events), WithAttempts(m, events), id, u)
    ensures AheadBy(WithGates(l, events), WithGates(m, events), id, u)
  {
    if events != [] {
      var init, e := events[..|events| - 1], events[|events| - 1];
      PassesKeepDistance(l, m, id, u, init);
      hide AheadBy, Charged, GateDuration;
      if AttemptOf(e).Some? {
        ChargeKeepsDistance(
          WithAttempts(l, init), WithAttempts(m, init), id, u, AttemptOf(e).value.node, ONE_ATTEMPT);
      }
      if e.body.GateRecorded? {
        ChargeKeepsDistance(WithGates(l, init), WithGates(m, init), id, u, GateNode(e.body.gate),
                            Duration(GateDuration(OpenGates(init), e)));
      }
    }
  }

  lemma {:induction false} SharesKeepDistance(l: Ledger, m: Ledger, id: NodeId, u: Totals, shares: seq<Share>)
    requires AheadBy(l, m, id, u)
    ensures AheadBy(ChargeAll(l, shares), ChargeAll(m, shares), id, u)
  {
    if shares != [] {
      var init, s := shares[..|shares| - 1], shares[|shares| - 1];
      SharesKeepDistance(l, m, id, u, init);
      hide AheadBy, Charged;
      ChargeKeepsDistance(ChargeAll(l, init), ChargeAll(m, init), id, u, s.node, s.usage);
    }
  }

  lemma LateKeepsDistance(limits: Limits, l: Ledger, m: Ledger, id: NodeId, u: Totals, events: seq<Event>)
    requires AheadBy(l, m, id, u)
    ensures AheadBy(Late(limits, l, events), Late(limits, m, events), id, u)
  {
    hide AheadBy, History;
    PassesKeepDistance(l, m, id, u, events);
    PassesKeepDistance(WithAttempts(l, events), WithAttempts(m, events), id, u, events);
    SharesKeepDistance(
      WithGates(WithAttempts(l, events), events), WithGates(WithAttempts(m, events), events), id, u,
      History(limits, events));
  }

  // ---------- what historical usage adds ----------

  /** The cost of shares that are all one node's. */
  function SharesCost(shares: seq<Share>): Totals {
    if shares == [] then ZERO else Plus(SharesCost(shares[..|shares| - 1]), ResultCost(shares[|shares| - 1].usage))
  }

  lemma {:induction false} SharesAreAhead(l: Ledger, shares: seq<Share>, more: seq<Share>, id: NodeId)
    requires forall s :: s in more ==> s.node == id
    ensures AheadBy(ChargeAll(l, shares), ChargeAll(l, shares + more), id, SharesCost(more))
  {
    if more == [] {
      assert shares + more == shares;
      AheadByNothing(ChargeAll(l, shares), ChargeAll(l, shares), id);
    } else {
      var init, s := more[..|more| - 1], more[|more| - 1];
      SharesAreAhead(l, shares, init, id);
      assert (shares + more)[..|shares + more| - 1] == shares + init && s in more;
      hide AheadBy, Charged;
      ChargeIsAhead(ChargeAll(l, shares + init), id, s.usage);
      AheadThen(ChargeAll(l, shares), ChargeAll(l, shares + init), ChargeAll(l, shares + more), id,
                SharesCost(init), ResultCost(s.usage));
    }
  }

  lemma CallUsageIsCost(limits: Limits, c: PastCall)
    requires c.WellFormed()
    ensures ResultCost(PastModelUsage(limits, c)) == CallCost(limits, c)
  {
    if c.provider.Some? && c.model.Some? {
      assert PriceKey(c.provider.value, c.model.value) == c.provider.value + ":" + c.model.value;
    }
  }

  lemma ToolUsageIsCost(limits: Limits, tool: string)
    ensures ResultCost(PastToolUsage(limits, tool)) == ToolCost(limits, tool, 0)
  {
  }

  ghost predicate AddsShares(p: Past, q: Past, id: NodeId, u: Totals) {
    p.shares <= q.shares
    && (forall s :: s in q.shares[|p.shares|..] ==> s.node == id) && SharesCost(q.shares[|p.shares|..]) == u
  }

  lemma OneShareMore(p: Past, q: Past, r: Past, id: NodeId, u: Totals, s: Share)
    requires AddsShares(p, q, id, u) && r.shares == q.shares + [s] && s.node == id
    ensures AddsShares(p, r, id, Plus(u, ResultCost(s.usage)))
  {
    var old_, all := q.shares[|p.shares|..], r.shares[|p.shares|..];
    assert all == old_ + [s] && all[..|all| - 1] == old_;
    hide ResultCost, Plus;
  }

  lemma NoShareMore(p: Past, id: NodeId)
    ensures AddsShares(p, p, id, ZERO)
  {
  }

  lemma CallAddsCost(limits: Limits, p: Past, q: Past, id: NodeId, u: Totals, c: PastCall)
    requires AddsShares(p, q, id, u) && AfterCall(limits, q, id, c).Some?
    ensures AddsShares(p, AfterCall(limits, q, id, c).value, id, Plus(u, CallCost(limits, c)))
  {
    assert c.WellFormed();
    CallUsageIsCost(limits, c);
    hide AddsShares, ResultCost, CallCost, Plus, PastModelUsage, PastCall.WellFormed;
    OneShareMore(p, q, AfterCall(limits, q, id, c).value, id, u, Share(id, PastModelUsage(limits, c)));
  }

  lemma {:induction false} CallsAddCost(
    limits: Limits, p: Past, q: Past, id: NodeId, u: Totals, calls: seq<PastCall>)
    requires AddsShares(p, q, id, u) && AfterCalls(limits, q, id, calls).Some?
    ensures AddsShares(p, AfterCalls(limits, q, id, calls).value, id, Plus(u, CallsCost(limits, calls)))
  {
    hide AddsShares, AfterCall, CallCost, Plus;
    if calls == [] {
      PlusNothing(u);
    } else {
      var init, c := calls[..|calls| - 1], calls[|calls| - 1];
      CallsAddCost(limits, p, q, id, u, init);
      CallAddsCost(limits, p, AfterCalls(limits, q, id, init).value, id, Plus(u, CallsCost(limits, init)), c);
      PlusIsAssociative(u, CallsCost(limits, init), CallCost(limits, c));
    }
  }

  lemma PlusIsAssociative(t: Totals, u: Totals, w: Totals)
    ensures Plus(Plus(t, u), w) == Plus(t, Plus(u, w))
  {
  }

  lemma {:induction false} StartsAreLast(limits: Limits, events: seq<Event>, node: NodeId, attempt: nat)
    requires PastOf(limits, events).Some?
    ensures var k, starts := AttemptKey(node, attempt), PastOf(limits, events).value.starts;
            StartOf(events, node, attempt) == if k in starts then Some(starts[k]) else None
  {
    if events != [] {
      var init, e := events[..|events| - 1], events[|events| - 1];
      StartsAreLast(limits, init, node, attempt);
      StartsStep(limits, PastOf(limits, init).value, e);
      hide AfterEvent;
    }
  }

  lemma StartsStep(limits: Limits, p: Past, e: Event)
    requires AfterEvent(limits, p, e).Some?
    ensures AfterEvent(limits, p, e).value.starts ==
            if e.body.AttemptStarted? then p.starts[AttemptKey(e.body.node, e.body.attempt) := e.at] else p.starts
  {
    if e.body.NodeEnded? {
      CallsKeepStarts(limits, AfterRunning(p, AttemptKey(e.body.node, e.body.attempt), e.at), e.body.node,
        e.body.calls);
    }
    hide AfterCalls, PastModelUsage, PastToolUsage;
  }

  lemma {:induction false} CallsKeepStarts(limits: Limits, p: Past, node: NodeId, calls: seq<PastCall>)
    requires AfterCalls(limits, p, node, calls).Some?
    ensures AfterCalls(limits, p, node, calls).value.starts == p.starts
  {
    if calls != [] { CallsKeepStarts(limits, p, node, calls[..|calls| - 1]); }
  }

  lemma DurationCost(ms: nat)
    ensures ResultCost(Duration(ms)) == Time(ms) && Time(0) == ZERO
  {
  }

  lemma RunningIs(p: Past, key: AttemptKey, at: int)
    ensures AfterRunning(p, key, at) ==
            if key in p.starts then WithShare(p, Share(key.node, Duration(Elapsed(p.starts[key], at)))) else p
  {
  }

  lemma RunningSpends(p: Past, key: AttemptKey, at: int, since: Option<int>)
    requires since == if key in p.starts then Some(p.starts[key]) else None
    ensures AddsShares(p, AfterRunning(p, key, at), key.node, Time(if since.Some? then Elapsed(since.value, at) else 0))
  {
    hide AddsShares, Plus, ResultCost, Time, Duration, AfterRunning, Elapsed;
    RunningIs(p, key, at);
    NoShareMore(p, key.node);
    DurationCost(0);
    if key in p.starts {
      var ms := Elapsed(p.starts[key], at);
      DurationCost(ms);
      PlusNothing(Time(ms));
      OneShareMore(p, p, AfterRunning(p, key, at), key.node, ZERO, Share(key.node, Duration(ms)));
    }
  }

  lemma NodeEndedSpends(limits: Limits, events: seq<Event>, e: Event)
    requires PastOf(limits, events).Some? && Unbudgeted(events) && e.body.NodeEnded?
    requires AfterEvent(limits, PastOf(limits, events).value, e).Some?
    ensures AddsShares(PastOf(limits, events).value, AfterEvent(limits, PastOf(limits, events).value, e).value,
                       Spender(e), Spent(limits, events, e))
  {
    hide PastOf, Unbudgeted, AddsShares, AfterRunning, AfterCalls, CallsCost, Plus, Elapsed, Time;
    var p, b := PastOf(limits, events).value, e.body;
    StartsAreLast(limits, events, b.node, b.attempt);
    var key, since := AttemptKey(b.node, b.attempt), StartOf(events, b.node, b.attempt);
    var time := Time(if since.Some? then Elapsed(since.value, e.at) else 0);
    RunningSpends(p, key, e.at, since);
    CallsAddCost(limits, p, AfterRunning(p, key, e.at), b.node, time, b.calls);
  }

  lemma PlanSpends(limits: Limits, p: Past, e: Event)
    requires e.body.PlanGenerated? && AfterEvent(limits, p, e).Some?
    ensures AddsShares(p, AfterEvent(limits, p, e).value, PLANNING, CallCost(limits, e.body.call))
  {
    NoShareMore(p, PLANNING);
    hide AddsShares, CallCost, Plus, AfterCall;
    CallAddsCost(limits, p, p, PLANNING, ZERO, e.body.call);
    PlusNothing(CallCost(limits, e.body.call));
  }

  lemma ToolSpends(limits: Limits, p: Past, e: Event)
    requires e.body.ToolEnded? && AfterEvent(limits, p, e).Some?
    ensures AddsShares(p, AfterEvent(limits, p, e).value, e.body.node, ToolCost(limits, e.body.tool, 0))
  {
    NoShareMore(p, e.body.node);
    ToolUsageIsCost(limits, e.body.tool);
    hide AddsShares, Plus, PastToolUsage, ToolCost, ResultCost;
    OneShareMore(p, p, AfterEvent(limits, p, e).value, e.body.node, ZERO,
                 Share(e.body.node, PastToolUsage(limits, e.body.tool)));
    PlusNothing(ToolCost(limits, e.body.tool, 0));
  }

  predicate IsUseBody(b: Body) { b.NodeEnded? || b.PlanGenerated? || b.ToolEnded? }

  lemma OthersKeepShares(limits: Limits, p: Past, e: Event)
    requires !IsUseBody(e.body)
    ensures AfterEvent(limits, p, e).Some? && AfterEvent(limits, p, e).value.shares == p.shares
  {
  }

  lemma PastSpends(limits: Limits, events: seq<Event>, e: Event)
    requires PastOf(limits, events + [e]).Some? && Unbudgeted(events) && IsUseBody(e.body)
    ensures PastOf(limits, events).Some?
    ensures AddsShares(PastOf(limits, events).value, PastOf(limits, events + [e]).value, Spender(e),
                       Spent(limits, events, e))
  {
    assert (events + [e])[..|events|] == events;
    assert PastOf(limits, events + [e]) == AfterEvent(limits, PastOf(limits, events).value, e);
    hide PastOf, Unbudgeted, AfterEvent, AddsShares;
    match e.body
    case NodeEnded(_, _, _) => NodeEndedSpends(limits, events, e);
    case PlanGenerated(c) => PlanSpends(limits, PastOf(limits, events).value, e);
    case ToolEnded(_, _, _, _, _, _, _) => ToolSpends(limits, PastOf(limits, events).value, e);
  }

  // ---------- the gates ----------

  lemma {:induction false} GatesAreLast(events: seq<Event>, k: GateKey)
    requires OpenGates(events).Some? && k in OpenGates(events).value
    ensures GateStartOf(events, k.gate, k.attempt, k.index) == Some(OpenGates(events).value[k])
  {
    var init, e := events[..|events| - 1], events[|events| - 1];
    if e.body != GateStarted(k.gate, k.attempt, k.index) { GatesAreLast(init, k); }
  }

  lemma GateSpends(limits: Limits, events: seq<Event>, e: Event)
    requires OpenGates(events + [e]).Some? && e.body.GateRecorded?
    ensures ResultCost(Duration(GateDuration(OpenGates(events), e))) == Spent(limits, events, e)
  {
    assert (events + [e])[..|events|] == events;
    GatesAreLast(events, GateKey(e.body.gate, e.body.attempt, e.body.index));
  }

  // ---------- one event ----------

  /** What the loop charges for an event. */
  lemma LoopSpends(limits: Limits, l: Ledger, e: Event)
    requires Accepts(limits, l, e)
    ensures var u := if e.body.Committed? then Worth(limits, e.body.result) else ZERO;
            AheadBy(l, Next(limits, l, e), Spender(e), u)
  {
    hide Worth;
    if e.body.Committed? {
      var x := e.body.result;
      ResultIsWorth(limits, l, e);
      var m := Charged(l, x.reservation.node, x.actual);
      var n := Next(limits, l, e);
      assert n.exec == m.exec && n.nodes == m.nodes;
      ChargeIsAhead(l, x.reservation.node, x.actual);
      hide Charged, ResultCost, Plus, Accepts, Next;
      forall b: Balance ensures b.In(n) == b.In(m) {}
    } else {
      NextSpendsNothing(limits, l, e);
      hide Accepts, Next;
      AheadByNothing(l, Next(limits, l, e), Spender(e));
    }
  }

  /** What the late passes charge for an event, on any ledger. */
  lemma LateSpends(limits: Limits, l: Ledger, events: seq<Event>, e: Event)
    requires OpenGates(events + [e]).Some? && PastOf(limits, Before(events + [e])).Some?
    ensures var u := if e.body.Committed? then ZERO else Spent(limits, events, e);
            AheadBy(Late(limits, l, events), Late(limits, l, events + [e]), Spender(e), u)
  {
    hide AheadBy, PastOf, Before, OpenGates, ChargeAll, WithAttempts, WithGates;
    if e.body.IsBudget() {
      LateSkips(limits, l, events, e);
      AheadByNothing(Late(limits, l, events), Late(limits, l, events + [e]), Spender(e));
    } else if AttemptOf(e).Some? {
      StartSpends(limits, l, events, e);
    } else if e.body.GateRecorded? {
      RecordSpends(limits, l, events, e);
    } else {
      UseSpends(limits, l, events, e);
    }
  }

  lemma HistoryIsSame(limits: Limits, events: seq<Event>, e: Event)
    requires PastOf(limits, Before(events + [e])).Some? && !IsUseBody(e.body)
    ensures History(limits, events + [e]) == History(limits, events)
  {
    BeforeStep(events, e);
    if Unbudgeted(events) && !e.body.IsBudget() {
      assert Before(events) == events;
      assert (events + [e])[..|events|] == events;
      OthersKeepShares(limits, PastOf(limits, events).value, e);
    }
    hide Unbudgeted, AfterEvent;
  }

  lemma StartSpends(limits: Limits, l: Ledger, events: seq<Event>, e: Event)
    requires PastOf(limits, Before(events + [e])).Some? && AttemptOf(e).Some?
    ensures AheadBy(Late(limits, l, events), Late(limits, l, events + [e]), Spender(e), Spent(limits, events, e))
  {
    var all := events + [e];
    assert all[..|events|] == events && all[|events|] == e;
    var w, x := WithAttempts(l, events), WithAttempts(l, all);
    assert x == Charged(w, Spender(e), ONE_ATTEMPT);
    assert ResultCost(ONE_ATTEMPT) == ONE_START == Spent(limits, events, e);
    assert WithGates(x, all) == WithGates(x, events);
    hide AheadBy, PastOf, Before, Spent, Charged, ResultCost, WithAttempts, WithGates, ChargeAll;
    ChargeIsAhead(w, Spender(e), ONE_ATTEMPT);
    PassesKeepDistance(w, x, Spender(e), Spent(limits, events, e), events);
    HistoryIsSame(limits, events, e);
    SharesKeepDistance(WithGates(w, events), WithGates(x, events), Spender(e), Spent(limits, events, e),
                       History(limits, events));
  }

  lemma RecordSpends(limits: Limits, l: Ledger, events: seq<Event>, e: Event)
    requires OpenGates(events + [e]).Some? && PastOf(limits, Before(events + [e])).Some? && e.body.GateRecorded?
    ensures AheadBy(Late(limits, l, events), Late(limits, l, events + [e]), Spender(e), Spent(limits, events, e))
  {
    var all := events + [e];
    assert all[..|events|] == events && all[|events|] == e;
    var w := WithAttempts(l, events);
    assert WithAttempts(l, all) == w;
    var i := Duration(GateDuration(OpenGates(events), e));
    assert WithGates(w, all) == Charged(WithGates(w, events), Spender(e), i);
    GateSpends(limits, events, e);
    hide AheadBy, PastOf, Before, Spent, Charged, ResultCost, WithAttempts, WithGates, ChargeAll, OpenGates,
      GateDuration;
    ChargeIsAhead(WithGates(w, events), Spender(e), i);
    HistoryIsSame(limits, events, e);
    SharesKeepDistance(WithGates(w, events), WithGates(w, all), Spender(e), Spent(limits, events, e),
                       History(limits, events));
  }

  /** The passes over attempts and gates do not see the event. */
  lemma PassesSkip(l: Ledger, events: seq<Event>, e: Event)
    requires AttemptOf(e).None? && !e.body.GateRecorded?
    ensures WithGates(WithAttempts(l, events + [e]), events + [e]) == WithGates(WithAttempts(l, events), events)
  {
    var all := events + [e];
    assert all[..|events|] == events && all[|events|] == e;
    hide AttemptOf, Charged;
  }

  lemma AddedShares(p: Past, q: Past, id: NodeId, u: Totals) returns (more: seq<Share>)
    requires AddsShares(p, q, id, u)
    ensures q.shares == p.shares + more && (forall s :: s in more ==> s.node == id) && SharesCost(more) == u
  {
    more := q.shares[|p.shares|..];
  }

  lemma HistoryOf(limits: Limits, events: seq<Event>, e: Event)
    requires PastOf(limits, Before(events + [e])).Some? && Unbudgeted(events) && IsUseBody(e.body)
    ensures PastOf(limits, events).Some? && PastOf(limits, events + [e]).Some?
    ensures History(limits, events) == PastOf(limits, events).value.shares
    ensures History(limits, events + [e]) == PastOf(limits, events + [e]).value.shares
  {
    BeforeStep(events, e);
    assert Before(events) == events;
    assert (events + [e])[..|events|] == events;
    hide AfterEvent, Before, Unbudgeted;
  }

  lemma HistoryParts(limits: Limits, events: seq<Event>, e: Event) returns (more: seq<Share>)
    requires PastOf(limits, Before(events + [e])).Some? && Unbudgeted(events) && IsUseBody(e.body)
    ensures History(limits, events + [e]) == History(limits, events) + more
    ensures (forall s :: s in more ==> s.node == Spender(e)) && SharesCost(more) == Spent(limits, events, e)
  {
    hide PastOf, Before, Unbudgeted, Spent, Spender, SharesCost, AddsShares, History, IsUseBody;
    HistoryOf(limits, events, e);
    PastSpends(limits, events, e);
    more := AddedShares(PastOf(limits, events).value, PastOf(limits, events + [e]).value, Spender(e),
                        Spent(limits, events, e));
  }

  lemma HistorySpends(limits: Limits, g: Ledger, events: seq<Event>, e: Event)
    requires PastOf(limits, Before(events + [e])).Some? && Unbudgeted(events) && IsUseBody(e.body)
    ensures AheadBy(ChargeAll(g, History(limits, events)), ChargeAll(g, History(limits, events + [e])), Spender(e),
                    Spent(limits, events, e))
  {
    hide PastOf, Before, Unbudgeted, AheadBy, Spent, Spender, ChargeAll, History, SharesCost;
    var more := HistoryParts(limits, events, e);
    SharesAreAhead(g, History(limits, events), more, Spender(e));
  }

  lemma HistoryIsOver(limits: Limits, events: seq<Event>, e: Event)
    requires !Unbudgeted(events) && IsUseBody(e.body)
    ensures History(limits, events + [e]) == History(limits, events) && Spent(limits, events, e) == ZERO
  {
    BeforeStep(events, e);
    hide PastOf, Before, Unbudgeted;
  }

  lemma NotUseSpendsNothing(limits: Limits, events: seq<Event>, e: Event)
    requires !e.body.IsBudget() && AttemptOf(e).None? && !e.body.GateRecorded? && !IsUseBody(e.body)
    ensures Spent(limits, events, e) == ZERO
  {
  }

  lemma UseSpends(limits: Limits, l: Ledger, events: seq<Event>, e: Event)
    requires PastOf(limits, Before(events + [e])).Some?
    requires !e.body.IsBudget() && AttemptOf(e).None? && !e.body.GateRecorded?
    ensures AheadBy(Late(limits, l, events), Late(limits, l, events + [e]), Spender(e), Spent(limits, events, e))
  {
    var all, g := events + [e], WithGates(WithAttempts(l, events), events);
    PassesSkip(l, events, e);
    hide WithAttempts, WithGates, ChargeAll, PastOf, Before, AheadBy, Spent, Spender, History, Unbudgeted;
    if !IsUseBody(e.body) {
      NotUseSpendsNothing(limits, events, e);
      HistoryIsSame(limits, events, e);
      AheadByNothing(ChargeAll(g, History(limits, events)), ChargeAll(g, History(limits, all)), Spender(e));
    } else if Unbudgeted(events) {
      HistorySpends(limits, g, events, e);
    } else {
      HistoryIsOver(limits, events, e);
      AheadByNothing(ChargeAll(g, History(limits, events)), ChargeAll(g, History(limits, all)), Spender(e));
    }
  }

  lemma LoopAndLate(limits: Limits, events: seq<Event>, e: Event)
    ensures var u := if e.body.Committed? then Worth(limits, e.body.result) else ZERO;
            var w := if e.body.Committed? then ZERO else Spent(limits, events, e);
            Plus(u, w) == Spent(limits, events, e)
  {
    PlusNothing(Spent(limits, events, e));
    hide Plus, Worth;
  }

  /** The reader accepts a result only at its worth. */
  lemma ResultIsWorth(limits: Limits, l: Ledger, e: Event)
    requires Accepts(limits, l, e) && e.body.Committed?
    ensures ResultCost(e.body.result.actual) == Worth(limits, e.body.result)
  {
    var x := e.body.result;
    ActualIsWorth(limits, x);
    hide ActualOk, Worth, ResultCost;
  }

  lemma ActualIsWorth(limits: Limits, x: Result)
    requires ActualOk(limits, x.reservation, x)
    ensures ResultCost(x.actual) == Worth(limits, x)
  {
    var r := x.reservation.resource;
    if r.ModelCall? { assert PriceKey(r.provider, r.model) == r.provider + ":" + r.model; }
  }

  /** Every accepted event adds exactly what it spends to the execution and to one node, and nothing to any other. */
  lemma EventSpends(limits: Limits, events: seq<Event>, e: Event)
    requires Accepted(limits, events + [e])
    ensures Accepted(limits, events)
    ensures AheadBy(Replay(limits, events).value, Replay(limits, events + [e]).value, Spender(e),
                    Spent(limits, events, e))
  {
    hide Accepts, Next, Loop, Replay, Late, AheadBy, Accepted, Spent, Spender, Worth, Plus, OpenGates, PastOf;
    GatesOpen(limits, events + [e]);
    ReplayStep(limits, events, e);
    var l := Loop(limits, events).value;
    var n := Next(limits, l, e);
    LoopSpends(limits, l, e);
    var u := if e.body.Committed? then Worth(limits, e.body.result) else ZERO;
    var w := if e.body.Committed? then ZERO else Spent(limits, events, e);
    LateKeepsDistance(limits, l, n, Spender(e), u, events);
    LateSpends(limits, n, events, e);
    AheadThen(Late(limits, l, events), Late(limits, n, events), Late(limits, n, events + [e]), Spender(e), u, w);
    LoopAndLate(limits, events, e);
  }

  lemma GatesOpen(limits: Limits, events: seq<Event>)
    requires Accepted(limits, events)
    ensures OpenGates(events).Some?
  {
  }

  lemma PlusNothing(u: Totals)
    ensures Plus(u, ZERO) == u && Plus(ZERO, u) == u
  {
  }

  /** Every balance of an accepted journal is the sum of what its events spent, for the execution and for every node. */
  lemma {:induction false} ReplayIsSum(limits: Limits, events: seq<Event>, b: Balance)
    requires Accepted(limits, events)
    ensures b.In(Replay(limits, events).value) == SpentBy(limits, events, b)
  {
    if events == [] {
      assert Before([]) == [];
    } else {
      var init, e := events[..|events| - 1], events[|events| - 1];
      assert init + [e] == events;
      EventSpends(limits, init, e);
      hide AheadBy, Replay, Spent, Plus, Balance.In, Accepted;
      ReplayIsSum(limits, init, b);
      AheadAt(Replay(limits, init).value, Replay(limits, events).value, Spender(e), Spent(limits, init, e), b);
    }
  }

  // ---------- what a result records ----------

  /** The cost a settling request puts on the execution and on its node. */
  function Paid(limits: Limits, q: Request): Totals
    requires q.CommitModel? || q.FailModel? || q.CommitTool?
  {
    match q
    case CommitModel(h, Some(u), ms) =>
      if h.resource.ModelCall?
      then ModelCost(limits, h.resource.provider, h.resource.model, u.prompt, u.completion, ms) else ZERO
    case FailModel(_, ms) => Totals(0, 0, 0, ms, 0, 0, 1)
    case CommitTool(h, _, ms) => if h.resource.ToolCall? then ToolCost(limits, h.resource.tool, ms) else ZERO
    case _ => ZERO
  }

  lemma ResultIsPaid(limits: Limits, q: Request)
    requires (q.CommitModel? || q.FailModel? || q.CommitTool?) && Settles(q) && ResultOf(limits, q).Some?
    ensures Worth(limits, ResultOf(limits, q).value) == Paid(limits, q)
  {
    if q.CommitModel? {
      var r := q.handle.resource;
      assert PriceKey(r.provider, r.model) == r.provider + ":" + r.model;
    }
  }

  /**
   * A request that records a result appends it first, and the journal up to there is readable and has charged exactly
   * what the request says, at the prices of the limits, to the execution and to the node.
   */
  lemma CommitIsCharged(limits: Limits, w: World, v: View, now: int, later: int, q: Request)
    requires WorldOk(limits, w) && Records(limits, w, v, q)
    ensures var after := Answered(limits, w, v, now, later, q).events;
            && |after| > |w.events| && w.events <= after
            && var once := after[..|w.events| + 1];
               && Accepted(limits, w.events) && Accepted(limits, once)
               && AheadBy(Replay(limits, w.events).value, Replay(limits, once).value, v.node, Paid(limits, q))
  {
    var x := ResultOf(limits, q).value;
    var e := Event(Stamp(w.events, now), Committed(x));
    Readable(limits, w);
    ResultIsOk(limits, q);
    hide Loop, Replay, WorldOk, ResultOf, AheadBy, Accepted, ActualOk, Paid;
    CommittedAccepted(limits, w, now, x);
    Readable(limits, w.(events := w.events + [e]));
    EventSpends(limits, w.events, e);
    ResultIsPaid(limits, q);
    RecordAppends(limits, w, v, now, later, q);
  }

  lemma RecordAppends(limits: Limits, w: World, v: View, now: int, later: int, q: Request)
    requires WorldOk(limits, w) && Records(limits, w, v, q)
    ensures var after := Answered(limits, w, v, now, later, q).events;
            var e := Event(Stamp(w.events, now), Committed(ResultOf(limits, q).value));
            |after| > |w.events| && w.events <= after && after[..|w.events| + 1] == w.events + [e]
  {
    RecordIsCommit(limits, w, v, now, later, q);
    hide WorldOk, Records, Answered, ResultOf, Stamp;
    CommitAppends(limits, w.events, now, later, ResultOf(limits, q).value);
  }

  lemma CommitAppends(limits: Limits, events: seq<Event>, now: int, later: int, x: Result)
    ensures var after, e := Commit(limits, events, now, later, x).events, Event(Stamp(events, now), Committed(x));
            |after| > |events| && events <= after && after[..|events| + 1] == events + [e]
  {
    hide Replay, AnyListed, LocalNames, Snapshot, Accepted, Stamp, ScopeIn;
  }
}
