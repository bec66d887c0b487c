/** Limits, usage, budget events, and what the strict replay of a journal accepts. */
module BudgetModel {
  import opened Common
  import opened BudgetText

  // ---------- usage ----------

  /** One estimate, one actual contribution, or an aggregated usage; money is in scaled units. */
  datatype Increment = Increment(
    prompt: nat, completion: nat, tools: nat, duration: nat, attempts: nat,
    cost: Option<nat>, unpriced: nat)
  {
    predicate Valid() { unpriced > 0 ==> cost.None? }
  }

  /** Running totals of an execution or of a node. */
  datatype Totals = Totals(
    prompt: nat, completion: nat, tools: nat, duration: nat, attempts: nat, known: nat, unpriced: nat)

  const ZERO := Totals(0, 0, 0, 0, 0, 0, 0)

  function Add(t: Totals, i: Increment): Totals {
    Totals(t.prompt + i.prompt, t.completion + i.completion, t.tools + i.tools,
           t.duration + i.duration, t.attempts + i.attempts, t.known + OrZero(i.cost), t.unpriced + i.unpriced)
  }

  /** The cost of an aggregate is unknown as soon as one operation has no price. */
  function Usage(t: Totals): Increment {
    Increment(t.prompt, t.completion, t.tools, t.duration, t.attempts,
              if t.unpriced > 0 then None else Some(t.known), t.unpriced)
  }

  const ONE_ATTEMPT := Increment(0, 0, 0, 0, 1, None, 0)

  // ---------- limits ----------

  datatype LimitSet = LimitSet(
    prompt: Option<nat>, completion: Option<nat>, total: Option<nat>, tools: Option<nat>,
    duration: Option<nat>, attempts: Option<nat>, cost: Option<nat>)

  function Prefer(override: Option<nat>, base: Option<nat>): Option<nat> {
    if override.Some? then override else base
  }

  function Merged(base: LimitSet, override: Option<LimitSet>): LimitSet {
    match override
    case None => base
    case Some(o) =>
      LimitSet(Prefer(o.prompt, base.prompt), Prefer(o.completion, base.completion), Prefer(o.total, base.total),
               Prefer(o.tools, base.tools), Prefer(o.duration, base.duration), Prefer(o.attempts, base.attempts),
               Prefer(o.cost, base.cost))
  }

  datatype Price = Price(prompt: nat, completion: nat)

  datatype Limits = Limits(
    execution: LimitSet, defaultNode: LimitSet, overrides: map<NodeId, LimitSet>,
    maxCompletion: nat, modelPrices: map<string, Price>, toolPrices: map<string, nat>)
  {
    function ForNode(id: NodeId): LimitSet {
      Merged(defaultNode, if id in overrides then Some(overrides[id]) else None)
    }

    function ModelPrice(provider: string, model: string): Option<Price> {
      var key := provider + ":" + model;
      if key in modelPrices then Some(modelPrices[key]) else None
    }

    function ToolPrice(tool: string): Option<nat> {
      if tool in toolPrices then Some(toolPrices[tool]) else None
    }
  }

  function Charge(p: Option<Price>, prompt: nat, completion: nat): Option<nat> {
    match p case None => None case Some(q) => Some(prompt * q.prompt + completion * q.completion)
  }

  predicate Over(limit: Option<nat>, used: nat) { limit.Some? && used > limit.value }

  /** The dimensions in which a usage is beyond its limits. */
  predicate Exceeds(l: LimitSet, u: Increment, d: Dim) {
    match d
    case PromptTokens => Over(l.prompt, u.prompt)
    case CompletionTokens => Over(l.completion, u.completion)
    case TotalTokens => Over(l.total, u.prompt + u.completion)
    case ToolCalls => Over(l.tools, u.tools)
    case DurationMs => Over(l.duration, u.duration)
    case Attempts => Over(l.attempts, u.attempts)
    case CostUsd => l.cost.Some? && u.cost.Some? && u.cost.value > l.cost.value
    case CostUnavailable => l.cost.Some? && u.cost.None?
  }

  function Exceeded(l: LimitSet, u: Increment): set<Dim> {
    set d | d in DIMS && Exceeds(l, u, d)
  }

  // ---------- events ----------

  datatype Kind = Model | Tool | Attempt

  type NonEmpty = s: string | s != "" witness "operation"

  /** Operation ids such as model-000001 or attempt-2, and any other text a caller chooses. */
  datatype OpId = Op(kind: Kind, n: nat) | Free(text: NonEmpty)

  datatype Resource = ModelCall(provider: string, model: string) | ToolCall(tool: string)
  {
    function Kind(): Kind { if ModelCall? then Model else Tool }
  }

  /** A reservation; its SHA-256 identifier is injective, so the record identifies itself. */
  datatype Reservation = Reservation(
    limits: Limits, node: NodeId, attempt: nat, op: OpId, token: nat, resource: Resource, estimate: Increment)

  /** The identity every result, release and evidence record repeats. */
  datatype Identity = Identity(limits: Limits, node: NodeId, attempt: nat, op: OpId, kind: Kind, token: nat)

  function IdentityOf(r: Reservation): Identity {
    Identity(r.limits, r.node, r.attempt, r.op, r.resource.Kind(), r.token)
  }

  datatype Result = Result(
    reservation: Reservation, identity: Identity, ok: bool, actual: Increment, response: Option<string>)

  datatype Scope = ExecutionScope | NodeScope

  /** Evidence names its dimensions as text. */
  datatype Evidence = Evidence(identity: Identity, scope: Scope, names: set<string>, reservation: Option<Reservation>)

  /** A model call as the record of a node or of a plan reports it, before the budget has a boundary. */
  datatype PastCall = PastCall(
    response: string, prompt: int, completion: int, total: int, provider: Option<string>, model: Option<string>)
  {
    predicate WellFormed() { response != "" && prompt >= 0 && completion >= 0 && total == prompt + completion }
  }

  datatype Body =
    | Reserved(reservation: Reservation)
    | Committed(result: Result)
    | Released(released: Reservation, identity: Identity)
    | Exhausted(evidence: Evidence)
    | AttemptStarted(node: NodeId, attempt: nat)
    | PlanStarted(attempt: nat)
    | NodeEnded(node: NodeId, attempt: nat, calls: seq<PastCall>)
    | PlanGenerated(call: PastCall)
    | ToolCalled(node: NodeId, attempt: nat, callId: string, tool: string)
    | ToolEnded(node: NodeId, attempt: nat, callId: string, tool: string, ok: bool, duration: nat, cost: Option<nat>)
    | GateStarted(gate: string, attempt: nat, index: nat)
    | GateRecorded(gate: string, attempt: nat, index: nat, persisted: Option<nat>)
    | Other
  {
    predicate IsBudget() { Reserved? || Committed? || Released? || Exhausted? }
  }

  /** Time stamps count microseconds. */
  datatype Event = Event(at: int, body: Body)

  // ---------- the replay loop ----------

  datatype Dispatch = Dispatch(reservation: Reservation, tool: string)
  datatype CallKey = CallKey(node: NodeId, attempt: nat, callId: string)

  datatype Ledger = Ledger(
    active: set<Reservation>, closed: set<Reservation>, results: map<Reservation, Result>,
    exec: Totals, nodes: map<NodeId, Totals>, evidence: set<Item>,
    lastAt: Option<int>, lastToken: nat, dispatched: map<CallKey, Dispatch>, started: bool)

  const EMPTY_LEDGER := Ledger({}, {}, map[], ZERO, map[], {}, None, 0, map[], false)

  function NodeTotals(l: Ledger, id: NodeId): Totals {
    if id in l.nodes then l.nodes[id] else ZERO
  }

  function Charged(l: Ledger, id: NodeId, i: Increment): Ledger {
    l.(exec := Add(l.exec, i), nodes := l.nodes[id := Add(NodeTotals(l, id), i)])
  }

  /** The exceeded entries of a snapshot. */
  predicate Listed(limits: Limits, l: Ledger, item: Item) {
    || item in l.evidence
    || match item
       case Exec(d) => Exceeds(limits.execution, Usage(l.exec), d)
       case OfNode(id, d) => id in l.nodes && Exceeds(limits.ForNode(id), Usage(l.nodes[id]), d)
  }

  function Entries(limits: Limits, l: Ledger): set<Item> {
    l.evidence
    + (set d | d in DIMS && Exceeds(limits.execution, Usage(l.exec), d) :: Exec(d))
    + (set id, d | id in l.nodes && d in DIMS && Exceeds(limits.ForNode(id), Usage(l.nodes[id]), d) :: OfNode(id, d))
  }

  lemma EntriesAreListed(limits: Limits, l: Ledger, item: Item)
    ensures item in Entries(limits, l) <==> Listed(limits, l, item)
  {
    hide Exceeds, Usage, Limits.ForNode;
    EveryDim(item.dim);
  }

  /** The texts a snapshot lists. */
  function Snapshot(limits: Limits, l: Ledger): set<string> { Texts(Entries(limits, l)) }

  /** The scope a commit of node `id` reports: its own when any text starts as its own do. */
  function ScopeIn(texts: set<string>, id: NodeId): Scope {
    if HasOwnText(texts, id) then NodeScope else ExecutionScope
  }

  predicate EstimateOk(limits: Limits, r: Reservation) {
    var e := r.estimate;
    && e.Valid() && e.duration == 1 && e.attempts == 0
    && match r.resource
       case ModelCall(provider, model) =>
         var price := limits.ModelPrice(provider, model);
         && e.completion == limits.maxCompletion && e.tools == 0
         && e.cost == Charge(price, e.prompt, limits.maxCompletion)
         && e.unpriced == if price.None? then 1 else 0
       case ToolCall(tool) =>
         && e.prompt == 0 && e.completion == 0 && e.tools == 1
         && e.cost == limits.ToolPrice(tool)
         && e.unpriced == if limits.ToolPrice(tool).None? then 1 else 0
  }

  predicate ActualOk(limits: Limits, r: Reservation, x: Result) {
    var a := x.actual;
    && a.Valid() && a.attempts == 0
    && match r.resource
       case ModelCall(provider, model) =>
         if !x.ok then
           && x.response.None? && a.prompt == 0 && a.completion == 0 && a.tools == 0
           && a.cost.None? && a.unpriced == 1
         else
           var price := limits.ModelPrice(provider, model);
           && x.response.Some? && a.tools == 0
           && a.cost == Charge(price, a.prompt, a.completion)
           && a.unpriced == if price.None? then 1 else 0
       case ToolCall(tool) =>
         && x.response.None? && a.prompt == 0 && a.completion == 0 && a.tools == 1
         && a.cost == limits.ToolPrice(tool)
         && a.unpriced == if limits.ToolPrice(tool).None? then 1 else 0
  }

  /** What every budget record demands of the identity it names. */
  predicate Named(node: NodeId, attempt: nat, token: nat) { node != "" && attempt >= 1 && token >= 1 }

  predicate InOrder(l: Ledger, e: Event) { l.lastAt.Some? ==> e.at >= l.lastAt.value }

  predicate MatchesActive(limits: Limits, l: Ledger, r: Reservation, identity: Identity) {
    identity.limits == limits && r in l.active && identity == IdentityOf(r)
  }

  /** What a commit of node `id` may read, entry by entry; `ReadsAreNames` gives it as operations on texts. */
  ghost predicate ReadsOff(limits: Limits, l: Ledger, id: NodeId, n: string) {
    exists item :: Listed(limits, l, item) && TakenAsLocal(Text(item), id) && LastPart(Text(item), 2) == n
  }

  ghost predicate OwnTextListed(limits: Limits, l: Ledger, id: NodeId) {
    exists item :: Listed(limits, l, item) && Prefix(id) <= Text(item)
  }

  lemma ReadsAreNames(limits: Limits, l: Ledger, id: NodeId)
    ensures forall n :: ReadsOff(limits, l, id, n) <==> n in LocalNames(Snapshot(limits, l), id)
    ensures OwnTextListed(limits, l, id) <==> ScopeIn(Snapshot(limits, l), id) == NodeScope
  {
    hide Listed, Entries, Text, Prefix, TakenAsLocal, LastPart;
    forall item ensures item in Entries(limits, l) <==> Listed(limits, l, item) { EntriesAreListed(limits, l, item); }
    forall n ensures ReadsOff(limits, l, id, n) <==> n in LocalNames(Snapshot(limits, l), id) {
      if item :| Listed(limits, l, item) && TakenAsLocal(Text(item), id) && LastPart(Text(item), 2) == n {
        ReadOff(Entries(limits, l), id, item);
      }
      if n in LocalNames(Snapshot(limits, l), id) {
        var item := ReadFrom(Entries(limits, l), id, n);
      }
    }
    if item :| Listed(limits, l, item) && Prefix(id) <= Text(item) { assert Text(item) in Snapshot(limits, l); }
  }

  ghost predicate EvidenceOk(limits: Limits, l: Ledger, v: Evidence) {
    && v.identity.limits == limits && v.identity.token >= l.lastToken && v.names != {}
    && Named(v.identity.node, v.identity.attempt, v.identity.token)
    && v.names <= NamesOf(DIMS)
    && (v.reservation.Some? ==>
          && v.reservation.value in l.results
          && v.identity == l.results[v.reservation.value].identity
          && (v.scope == NodeScope <==> OwnTextListed(limits, l, v.identity.node))
          && (forall n :: n in v.names <==> ReadsOff(limits, l, v.identity.node, n)))
  }

  function ItemsOf(v: Evidence): set<Item> {
    set d | d in DIMS && Name(d) in v.names :: if v.scope.ExecutionScope? then Exec(d) else OfNode(v.identity.node, d)
  }

  predicate Dispatchable(l: Ledger, node: NodeId, attempt: nat, tool: string, r: Reservation) {
    r in l.active && r.node == node && r.attempt == attempt && r.resource == ToolCall(tool)
  }

  /** Whether the strict loop accepts the next event. */
  ghost predicate Accepts(limits: Limits, l: Ledger, e: Event) {
    match e.body
    case Reserved(r) =>
      && InOrder(l, e) && r.limits == limits && r.token >= l.lastToken && Named(r.node, r.attempt, r.token)
      && r !in l.active && r !in l.closed && l.active == {} && EstimateOk(limits, r)
    case Committed(x) =>
      && InOrder(l, e) && MatchesActive(limits, l, x.reservation, x.identity)
      && ActualOk(limits, x.reservation, x) && x.reservation !in l.closed
    case Released(r, identity) =>
      InOrder(l, e) && MatchesActive(limits, l, r, identity) && r !in l.closed
    case Exhausted(v) => InOrder(l, e) && EvidenceOk(limits, l, v)
    case ToolCalled(node, attempt, callId, tool) =>
      l.started ==>
        && CallKey(node, attempt, callId) !in l.dispatched
        && (exists r :: Dispatchable(l, node, attempt, tool, r))
        && (forall r, s :: Dispatchable(l, node, attempt, tool, r) && Dispatchable(l, node, attempt, tool, s) ==>
              r == s)
        && (forall r, k :: Dispatchable(l, node, attempt, tool, r) && k in l.dispatched ==>
              l.dispatched[k].reservation != r)
    case ToolEnded(node, attempt, callId, tool, ok, duration, cost) =>
      l.started ==>
        var k := CallKey(node, attempt, callId);
        && k in l.dispatched && l.dispatched[k].tool == tool
        && l.dispatched[k].reservation in l.results
        && var x := l.results[l.dispatched[k].reservation];
           ok == x.ok && duration == x.actual.duration && cost == x.actual.cost
    case _ => true
  }

  function Close(l: Ledger, r: Reservation): Ledger {
    l.(active := l.active - {r}, closed := l.closed + {r})
  }

  ghost function Next(limits: Limits, l: Ledger, e: Event): Ledger
    requires Accepts(limits, l, e)
  {
    var n := if e.body.IsBudget() then l.(lastAt := Some(e.at), started := true) else l;
    match e.body
    case Reserved(r) => n.(active := n.active + {r}, lastToken := r.token)
    case Committed(x) =>
      Close(Charged(n, x.reservation.node, x.actual).(results := n.results[x.reservation := x]), x.reservation)
    case Released(r, _) => Close(n, r)
    case Exhausted(v) => n.(evidence := n.evidence + ItemsOf(v), lastToken := v.identity.token)
    case ToolCalled(node, attempt, callId, tool) =>
      if !n.started then n
      else
        var r :| Dispatchable(l, node, attempt, tool, r);
        n.(dispatched := n.dispatched[CallKey(node, attempt, callId) := Dispatch(r, tool)])
    case ToolEnded(node, attempt, callId, _, _, _, _) =>
      n.(dispatched := n.dispatched - {CallKey(node, attempt, callId)})
    case _ => n
  }

  /** The ledger after the event loop, or nothing if some event was rejected. */
  ghost function Loop(limits: Limits, events: seq<Event>): Option<Ledger> {
    if events == [] then Some(EMPTY_LEDGER)
    else
      var before := Loop(limits, events[..|events| - 1]);
      var e := events[|events| - 1];
      if before.Some? && Accepts(limits, before.value, e) then Some(Next(limits, before.value, e)) else None
  }

  // ---------- the passes after the loop ----------

  datatype AttemptKey = AttemptKey(node: NodeId, attempt: nat)
  datatype GateKey = GateKey(gate: string, attempt: nat, index: nat)

  function GateNode(gate: string): NodeId { "__verification__:" + gate }

  const PLANNING := "__planning__"

  /** The attempt an event starts, if it starts one. */
  function AttemptOf(e: Event): Option<AttemptKey> {
    match e.body
    case AttemptStarted(node, attempt) => Some(AttemptKey(node, attempt))
    case PlanStarted(attempt) => Some(AttemptKey(PLANNING, attempt))
    case GateStarted(gate, attempt, _) => Some(AttemptKey(GateNode(gate), attempt))
    case _ => None
  }

  /** Attempts seen so far, or nothing once one is malformed or repeated. */
  function SeenAttempts(events: seq<Event>): Option<set<AttemptKey>> {
    if events == [] then Some({})
    else
      var before, key := SeenAttempts(events[..|events| - 1]), AttemptOf(events[|events| - 1]);
      if before.None? || key.None? then before
      else if key.value.node == "" || key.value.attempt < 1 || key.value in before.value then None
      else Some(before.value + {key.value})
  }

  /** One unit of usage per started attempt. */
  function WithAttempts(l: Ledger, events: seq<Event>): Ledger {
    if events == [] then l
    else
      var before, key := WithAttempts(l, events[..|events| - 1]), AttemptOf(events[|events| - 1]);
      if key.None? then before else Charged(before, key.value.node, ONE_ATTEMPT)
  }

  /** Verification gates started and not yet recorded, or nothing once a record is out of order. */
  function OpenGates(events: seq<Event>): Option<map<GateKey, int>> {
    if events == [] then Some(map[])
    else
      var before, e := OpenGates(events[..|events| - 1]), events[|events| - 1];
      match e.body
      case GateStarted(gate, attempt, index) =>
        var k := GateKey(gate, attempt, index);
        if before.None? || gate == "" || attempt < 1 || k in before.value then None else Some(before.value[k := e.at])
      case GateRecorded(gate, attempt, index, _) =>
        var k := GateKey(gate, attempt, index);
        if before.None? || k !in before.value then None else Some(before.value - {k})
      case _ => before
  }

  function Duration(ms: nat): Increment { Increment(0, 0, 0, ms, 0, None, 0) }

  /** The duration a gate record adds: the persisted one, else the whole milliseconds since its start. */
  function GateDuration(open: Option<map<GateKey, int>>, e: Event): nat
    requires e.body.GateRecorded?
  {
    var k := GateKey(e.body.gate, e.body.attempt, e.body.index);
    match e.body.persisted
    case Some(ms) => ms
    case None => if open.Some? && k in open.value && e.at > open.value[k] then (e.at - open.value[k]) / 1000 else 0
  }

  function WithGates(l: Ledger, events: seq<Event>): Ledger {
    if events == [] then l
    else
      var before, e := WithGates(l, events[..|events| - 1]), events[|events| - 1];
      if e.body.GateRecorded?
      then Charged(before, GateNode(e.body.gate), Duration(GateDuration(OpenGates(events[..|events| - 1]), e)))
      else before
  }

  // ---------- usage from before the first budget event ----------

  predicate Unbudgeted(events: seq<Event>) { forall e :: e in events ==> !e.body.IsBudget() }

  /** The events before the first budget event. */
  function Before(events: seq<Event>): seq<Event> {
    if Unbudgeted(events) then events else Before(events[..|events| - 1])
  }

  /** What one node used. */
  datatype Share = Share(node: NodeId, usage: Increment)

  /** What the historical pass has seen: response and tool call ids, latest starts, and usage in order. */
  datatype Past = Past(responses: set<string>, tools: set<CallKey>, starts: map<AttemptKey, int>, shares: seq<Share>)

  const NO_PAST := Past({}, {}, map[], [])

  function PastModelUsage(limits: Limits, c: PastCall): Increment
    requires c.WellFormed()
  {
    var price := if c.provider.Some? && c.model.Some? then limits.ModelPrice(c.provider.value, c.model.value) else None;
    Increment(c.prompt, c.completion, 0, 0, 0, Charge(price, c.prompt, c.completion), if price.None? then 1 else 0)
  }

  function PastToolUsage(limits: Limits, tool: string): Increment {
    var price := limits.ToolPrice(tool);
    Increment(0, 0, 1, 0, 0, price, if price.None? then 1 else 0)
  }

  function WithShare(p: Past, s: Share): Past { p.(shares := p.shares + [s]) }

  function AfterCall(limits: Limits, p: Past, node: NodeId, c: PastCall): Option<Past> {
    if !c.WellFormed() || c.response in p.responses then None
    else Some(WithShare(p, Share(node, PastModelUsage(limits, c))).(responses := p.responses + {c.response}))
  }

  function AfterCalls(limits: Limits, p: Past, node: NodeId, calls: seq<PastCall>): Option<Past> {
    if calls == [] then Some(p)
    else
      var before := AfterCalls(limits, p, node, calls[..|calls| - 1]);
      if before.None? then None else AfterCall(limits, before.value, node, calls[|calls| - 1])
  }

  /** A node that ends is charged the whole milliseconds since its start, if that was seen. */
  function AfterRunning(p: Past, key: AttemptKey, at: int): Past {
    if key !in p.starts then p
    else WithShare(p, Share(key.node, Duration(if at > p.starts[key] then (at - p.starts[key]) / 1000 else 0)))
  }

  function AfterEvent(limits: Limits, p: Past, e: Event): Option<Past> {
    match e.body
    case AttemptStarted(node, attempt) => Some(p.(starts := p.starts[AttemptKey(node, attempt) := e.at]))
    case NodeEnded(node, attempt, calls) =>
      AfterCalls(limits, AfterRunning(p, AttemptKey(node, attempt), e.at), node, calls)
    case PlanGenerated(call) => AfterCall(limits, p, PLANNING, call)
    case ToolEnded(node, attempt, callId, tool, _, _, _) =>
      var k := CallKey(node, attempt, callId);
      if k in p.tools then None
      else Some(WithShare(p, Share(node, PastToolUsage(limits, tool))).(tools := p.tools + {k}))
    case _ => Some(p)
  }

  /** Nothing once an entry is malformed or repeated. */
  function PastOf(limits: Limits, events: seq<Event>): Option<Past> {
    if events == [] then Some(NO_PAST)
    else
      var before := PastOf(limits, events[..|events| - 1]);
      if before.None? then None else AfterEvent(limits, before.value, events[|events| - 1])
  }

  /** The usage a journal shows from before its first budget event. */
  function History(limits: Limits, events: seq<Event>): seq<Share> {
    var past := PastOf(limits, Before(events));
    if past.None? then [] else past.value.shares
  }

  function ChargeAll(l: Ledger, shares: seq<Share>): Ledger {
    if shares == [] then l
    else
      var s := shares[|shares| - 1];
      Charged(ChargeAll(l, shares[..|shares| - 1]), s.node, s.usage)
  }

  // ---------- the whole replay ----------

  /** Usage the replay adds only after its loop: attempts, verification durations, historical usage. */
  function Late(limits: Limits, l: Ledger, events: seq<Event>): Ledger {
    ChargeAll(WithGates(WithAttempts(l, events), events), History(limits, events))
  }

  /** The strict replay: the loop over all events, then the three passes. */
  ghost function Replay(limits: Limits, events: seq<Event>): Option<Ledger> {
    if && Loop(limits, events).Some? && SeenAttempts(events).Some? && OpenGates(events).Some?
       && PastOf(limits, Before(events)).Some?
    then Some(Late(limits, Loop(limits, events).value, events)) else None
  }

  ghost predicate Accepted(limits: Limits, events: seq<Event>) { Replay(limits, events).Some? }
}
