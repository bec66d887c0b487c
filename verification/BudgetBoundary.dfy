/** The journal boundary that writes budget evidence: what each request appends and answers. */
module BudgetBoundary {
  import opened Common
  import opened BudgetText
  import opened BudgetModel

  /** One node attempt's view of the journal, under the fencing token of its lock. */
  datatype View = View(node: NodeId, attempt: nat, token: nat)
  {
    predicate Valid() { Named(node, attempt, token) }
  }

  /** The journal of one execution and the newest fencing token issued for it. */
  datatype World = World(events: seq<Event>, fence: nat)

  datatype ModelUsage = ModelUsage(prompt: nat, completion: nat, response: string)

  datatype Request =
    | ReserveModel(provider: string, model: string, promptBytes: nat)
    | ReserveTool(tool: string)
    | CommitModel(handle: Reservation, usage: Option<ModelUsage>, duration: nat)
    | FailModel(handle: Reservation, duration: nat)
    | CommitTool(handle: Reservation, ok: bool, duration: nat)
    | Release(handle: Reservation)
    | CheckAttempt
    | Materialize(op: OpId, kind: Kind)

  /** A step of the execution: a new lock, an event of another writer, or a request of a boundary. */
  datatype Call =
    | Acquire
    | Outside(event: Event)
    | Ask(view: View, now: int, later: int, request: Request)

  datatype Fault = InvalidView | StaleLock | Unreadable | Ambiguous | ForeignHandle | InvalidUsage | NoLocalDimension

  datatype Denial = Denial(scope: Scope, dims: set<Dim>)

  /** What a boundary's evidence says: a denial names dimensions, a snapshot is read as text. */
  datatype Notice = Notice(scope: Scope, names: set<string>)

  function NoticeOf(d: Denial): Notice { Notice(d.scope, NamesOf(d.dims)) }

  datatype Answer = Held(reservation: Reservation) | Refused(denial: Denial) | Done | Overspent | Failed(fault: Fault)

  datatype Reply = Reply(events: seq<Event>, answer: Answer)

  // ---------- appending ----------

  /** A budget event is always later than everything before it. */
  function Stamp(events: seq<Event>, now: int): int {
    if events != [] && now <= events[|events| - 1].at then events[|events| - 1].at + 1 else now
  }

  function Appended(events: seq<Event>, now: int, body: Body): seq<Event> {
    events + [Event(Stamp(events, now), body)]
  }

  /** Whether an event takes the next operation number of a node attempt. */
  predicate Numbers(e: Event, node: NodeId, attempt: nat, kind: Kind) {
    match e.body
    case Reserved(r) => r.node == node && r.attempt == attempt && r.resource.Kind() == kind
    case Exhausted(v) => v.identity.node == node && v.identity.attempt == attempt && v.identity.kind == kind
    case _ => false
  }

  function CountOps(events: seq<Event>, node: NodeId, attempt: nat, kind: Kind): nat {
    if events == [] then 0
    else
      CountOps(events[..|events| - 1], node, attempt, kind) +
      if Numbers(events[|events| - 1], node, attempt, kind) then 1 else 0
  }

  // ---------- reservations ----------

  /** Totals with the estimates of some reservations on top. */
  ghost function Pending(t: Totals, rs: set<Reservation>): Totals {
    if rs == {} then t else var r :| r in rs; Add(Pending(t, rs - {r}), r.estimate)
  }

  lemma PendingNothing(t: Totals, rs: set<Reservation>)
    requires rs == {}
    ensures Pending(t, rs) == t
  {
  }

  /** Whether an increment fits both balances; the first scope it does not fit is reported. */
  ghost function Shortfall(limits: Limits, l: Ledger, node: NodeId, i: Increment): Option<Denial> {
    var xs := Exceeded(limits.execution, Usage(Add(Pending(l.exec, l.active), i)));
    var own := set r | r in l.active && r.node == node;
    var ns := Exceeded(limits.ForNode(node), Usage(Add(Pending(NodeTotals(l, node), own), i)));
    if xs != {} then Some(Denial(ExecutionScope, xs))
    else if ns != {} then Some(Denial(NodeScope, ns))
    else None
  }

  function PriceOf(limits: Limits, resource: Resource, prompt: nat, completion: nat): Option<nat> {
    match resource
    case ModelCall(provider, model) => Charge(limits.ModelPrice(provider, model), prompt, completion)
    case ToolCall(tool) => limits.ToolPrice(tool)
  }

  function Unpriced(cost: Option<nat>): nat { if cost.None? then 1 else 0 }

  function Estimate(limits: Limits, resource: Resource, prompt: nat): Increment {
    var completion := if resource.ModelCall? then limits.maxCompletion else 0;
    var cost := PriceOf(limits, resource, prompt, completion);
    if resource.ModelCall?
    then Increment(prompt, completion, 0, 1, 0, cost, Unpriced(cost))
    else Increment(0, 0, 1, 1, 0, cost, Unpriced(cost))
  }

  /** A monetary cap refuses every operation without a price. */
  predicate Unpriceable(limits: Limits, node: NodeId, resource: Resource) {
    (limits.execution.cost.Some? || limits.ForNode(node).cost.Some?) && PriceOf(limits, resource, 0, 0).None?
  }

  function Planned(limits: Limits, events: seq<Event>, v: View, resource: Resource, prompt: nat): Reservation {
    var n := CountOps(events, v.node, v.attempt, resource.Kind()) + 1;
    Reservation(limits, v.node, v.attempt, Op(resource.Kind(), n), v.token, resource,
      Estimate(limits, resource, prompt))
  }

  function Refusal(limits: Limits, v: View, op: OpId, kind: Kind, n: Notice): Evidence {
    Evidence(Identity(limits, v.node, v.attempt, op, kind, v.token), n.scope, n.names, None)
  }

  ghost function Judged(limits: Limits, l: Ledger, v: View, r: Reservation): Option<Denial> {
    if Unpriceable(limits, v.node, r.resource) then Some(Denial(ExecutionScope, {CostUnavailable}))
    else Shortfall(limits, l, v.node, r.estimate)
  }

  ghost function Reserve(
    limits: Limits, events: seq<Event>, v: View, now: int, resource: Resource, prompt: nat): Reply
  {
    match Replay(limits, events)
    case None => Reply(events, Failed(Unreadable))
    case Some(l) =>
      if l.active != {} then Reply(events, Failed(Ambiguous))
      else
        var r := Planned(limits, events, v, resource, prompt);
        match Judged(limits, l, v, r)
        case Some(d) =>
          Reply(Appended(events, now, Exhausted(Refusal(limits, v, r.op, resource.Kind(), NoticeOf(d)))), Refused(d))
        case None => Reply(Appended(events, now, Reserved(r)), Held(r))
  }

  ghost function CheckedAttempt(limits: Limits, events: seq<Event>, v: View, now: int): Reply {
    match Replay(limits, events)
    case None => Reply(events, Failed(Unreadable))
    case Some(l) =>
      match Shortfall(limits, l, v.node, Increment(0, 0, 0, 1, 1, None, 0))
      case Some(d) =>
        var op := Op(Attempt, v.attempt);
        Reply(Appended(events, now, Exhausted(Refusal(limits, v, op, Attempt, NoticeOf(d)))), Refused(d))
      case None => Reply(events, Done)
  }

  // ---------- results ----------

  ghost predicate AnyListed(limits: Limits, l: Ledger) { exists item :: Listed(limits, l, item) }

  lemma EmptySnapshot(limits: Limits, l: Ledger)
    ensures Snapshot(limits, l) == {} <==> !AnyListed(limits, l)
  {
    hide Listed, Entries, Text;
    forall item ensures item in Entries(limits, l) <==> Listed(limits, l, item) { EntriesAreListed(limits, l, item); }
    if item :| item in Entries(limits, l) { assert Text(item) in Snapshot(limits, l); }
  }

  function CommitEvidence(limits: Limits, l: Ledger, r: Reservation): Evidence {
    var texts := Snapshot(limits, l);
    Evidence(IdentityOf(r), ScopeIn(texts, r.node), LocalNames(texts, r.node), Some(r))
  }

  /** Record a result; when the balance is then exceeded, record the evidence too. */
  ghost function Commit(limits: Limits, events: seq<Event>, now: int, later: int, x: Result): Reply {
    var once := Appended(events, now, Committed(x));
    match Replay(limits, once)
    case None => Reply(once, Failed(Unreadable))
    case Some(l) =>
      if !AnyListed(limits, l) then Reply(once, Done)
      else if LocalNames(Snapshot(limits, l), x.reservation.node) == {} then Reply(once, Failed(NoLocalDimension))
      else
        var twice := Appended(once, later, Exhausted(CommitEvidence(limits, l, x.reservation)));
        Reply(twice, if Accepted(limits, twice) then Overspent else Failed(Unreadable))
  }

  /** The node's own entries, or else the execution's. */
  function Shown(limits: Limits, l: Ledger, id: NodeId): Notice {
    var own := OwnTails(Snapshot(limits, l), id);
    if own != {} then Notice(NodeScope, own) else Notice(ExecutionScope, ExecTexts(Snapshot(limits, l)))
  }

  predicate RecordedBy(v: View, op: OpId, e: Event) {
    && e.body.Exhausted? && e.body.evidence.identity.node == v.node
    && e.body.evidence.identity.attempt == v.attempt && e.body.evidence.identity.op == op
  }

  ghost function Materialized(limits: Limits, events: seq<Event>, v: View, now: int, op: OpId, kind: Kind): Reply {
    match Replay(limits, events)
    case None => Reply(events, Failed(Unreadable))
    case Some(l) =>
      var n := Shown(limits, l, v.node);
      if !AnyListed(limits, l) then Reply(events, Done)
      else if exists e :: e in events && RecordedBy(v, op, e) then Reply(events, Overspent)
      else if n.names == {} then Reply(events, Failed(NoLocalDimension))
      else
        var more := Appended(events, now, Exhausted(Refusal(limits, v, op, kind, n)));
        Reply(more, if Accepted(limits, more) then Overspent else Failed(Unreadable))
  }

  predicate Owns(v: View, handle: Reservation) {
    handle.node == v.node && handle.attempt == v.attempt && handle.token == v.token
  }

  /** The result a commit request records, or why it records none. */
  function ResultOf(limits: Limits, q: Request): Option<Result>
    requires q.CommitModel? || q.FailModel? || q.CommitTool?
  {
    var r := q.handle;
    match q
    case CommitModel(_, Some(u), duration) =>
      if u.response == "" || !r.resource.ModelCall? then None
      else
        var cost := PriceOf(limits, r.resource, u.prompt, u.completion);
        Some(Result(r, IdentityOf(r), true, Increment(u.prompt, u.completion, 0, duration, 0, cost, Unpriced(cost)),
                    Some(u.response)))
    case FailModel(_, duration) =>
      Some(Result(r, IdentityOf(r), false, Increment(0, 0, 0, duration, 0, None, 1), None))
    case CommitTool(_, ok, duration) =>
      var cost := PriceOf(limits, r.resource, 0, 0);
      Some(Result(r, IdentityOf(r), ok, Increment(0, 0, 1, duration, 0, cost, Unpriced(cost)), None))
    case _ => None
  }

  /** The kind of operation a request settles; a release settles either kind. */
  predicate Settles(q: Request) {
    match q
    case CommitModel(h, _, _) => h.resource.ModelCall?
    case FailModel(h, _) => h.resource.ModelCall?
    case CommitTool(h, _, _) => h.resource.ToolCall?
    case Release(_) => true
    case _ => false
  }

  predicate HasHandle(q: Request) { q.CommitModel? || q.FailModel? || q.CommitTool? || q.Release? }

  ghost function Settlement(limits: Limits, events: seq<Event>, v: View, now: int, later: int, q: Request): Reply
    requires HasHandle(q)
  {
    if !Owns(v, q.handle) || !Settles(q) then Reply(events, Failed(ForeignHandle))
    else
      match Replay(limits, events)
      case None => Reply(events, Failed(Unreadable))
      case Some(l) =>
        if q.handle !in l.active then Reply(events, Failed(ForeignHandle))
        else if q.Release? then Reply(Appended(events, now, Released(q.handle, IdentityOf(q.handle))), Done)
        else
          match ResultOf(limits, q)
          case None => Reply(events, Failed(InvalidUsage))
          case Some(x) => Commit(limits, events, now, later, x)
  }

  // ---------- one step ----------

  ghost function Answered(limits: Limits, w: World, v: View, now: int, later: int, q: Request): Reply {
    if !v.Valid() then Reply(w.events, Failed(InvalidView))
    else if HasHandle(q) && !(Owns(v, q.handle) && Settles(q)) then Reply(w.events, Failed(ForeignHandle))
    else if v.token != w.fence then Reply(w.events, Failed(StaleLock))
    else
      match q
      case ReserveModel(provider, model, bytes) => Reserve(limits, w.events, v, now, ModelCall(provider, model), bytes)
      case ReserveTool(tool) => Reserve(limits, w.events, v, now, ToolCall(tool), 0)
      case CheckAttempt => CheckedAttempt(limits, w.events, v, now)
      case Materialize(op, kind) => Materialized(limits, w.events, v, now, op, kind)
      case _ => Settlement(limits, w.events, v, now, later, q)
  }

  ghost function Step(limits: Limits, w: World, c: Call): World {
    match c
    case Acquire => w.(fence := w.fence + 1)
    case Outside(e) => w.(events := w.events + [e])
    case Ask(v, now, later, q) => w.(events := Answered(limits, w, v, now, later, q).events)
  }

  ghost function Run(limits: Limits, w: World, calls: seq<Call>): World {
    if calls == [] then w
    else Step(limits, Run(limits, w, calls[..|calls| - 1]), calls[|calls| - 1])
  }

  const START := World([], 0)
}
