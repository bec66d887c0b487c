/** What the strict loop demands of a budget event, said of the events before it alone. */
module BudgetReader {
  import opened Common
  import opened BudgetText
  import opened BudgetModel
  import opened BudgetConservation
  import opened BudgetBoundary
  import opened BudgetAgreement
  import opened BudgetCapacity
  import opened BudgetLimits
  import opened BudgetCharges

  // ---------- the history of a reservation ----------

  predicate Closes(e: Event, r: Reservation) {
    (e.body.Committed? && e.body.result.reservation == r) || (e.body.Released? && e.body.released == r)
  }

  ghost predicate WasReserved(events: seq<Event>, r: Reservation) { exists e :: e in events && e.body == Reserved(r) }

  ghost predicate WasClosed(events: seq<Event>, r: Reservation) { exists e :: e in events && Closes(e, r) }

  /** A result recorded for the reservation. */
  ghost predicate WasCommitted(events: seq<Event>, r: Reservation, x: Result) {
    x.reservation == r && exists e :: e in events && e.body == Committed(x)
  }

  function TokenOf(e: Event): nat {
    match e.body
    case Reserved(r) => r.token
    case Exhausted(v) => v.identity.token
    case _ => 0
  }

  /** An entry that some evidence names: the execution's, or its own node's. */
  predicate Reports(e: Event, item: Item) {
    && e.body.Exhausted? && Name(item.dim) in e.body.evidence.names
    && match item
       case Exec(_) => e.body.evidence.scope == ExecutionScope
       case OfNode(m, _) => e.body.evidence.scope == NodeScope && e.body.evidence.identity.node == m
  }

  ghost predicate WasReported(events: seq<Event>, item: Item) { exists e :: e in events && Reports(e, item) }

  // ---------- what the loop remembers ----------

  ghost predicate Latest(events: seq<Event>, l: Ledger) {
    && (forall e :: e in events && e.body.IsBudget() ==> l.lastAt.Some? && e.at <= l.lastAt.value)
    && (l.lastAt.Some? ==> exists e :: e in events && e.body.IsBudget() && e.at == l.lastAt.value)
    && (forall e :: e in events ==> TokenOf(e) <= l.lastToken)
    && (l.lastToken > 0 ==> exists e :: e in events && TokenOf(e) == l.lastToken)
  }

  ghost predicate Remembers(events: seq<Event>, l: Ledger) {
    && (forall r :: r in l.closed <==> WasClosed(events, r))
    && (forall r :: r in l.active <==> WasReserved(events, r) && !WasClosed(events, r))
    && (forall r :: WasClosed(events, r) ==> WasReserved(events, r))
    && (forall r, x :: (r in l.results && l.results[r] == x) <==> WasCommitted(events, r, x))
    && (forall item :: item in l.evidence <==> WasReported(events, item))
  }

  lemma OneMore(events: seq<Event>, e: Event)
    ensures forall x :: x in events + [e] <==> x in events || x == e
  {
  }

  lemma ReservedMore(events: seq<Event>, e: Event, r: Reservation)
    ensures WasReserved(events + [e], r) <==> WasReserved(events, r) || e.body == Reserved(r)
    ensures WasClosed(events + [e], r) <==> WasClosed(events, r) || Closes(e, r)
  {
    OneMore(events, e);
  }

  lemma CommittedMore(events: seq<Event>, e: Event, r: Reservation, x: Result)
    ensures WasCommitted(events + [e], r, x) <==>
            WasCommitted(events, r, x) || (e.body == Committed(x) && x.reservation == r)
  {
    OneMore(events, e);
  }

  lemma ReportedMore(events: seq<Event>, e: Event, item: Item)
    ensures WasReported(events + [e], item) <==> WasReported(events, item) || Reports(e, item)
  {
    OneMore(events, e);
  }

  lemma ItemsAreReported(e: Event, item: Item)
    requires e.body.Exhausted?
    ensures item in ItemsOf(e.body.evidence) <==> Reports(e, item)
  {
    EveryDim(item.dim);
    hide Name;
  }

  lemma NextLatest(limits: Limits, events: seq<Event>, l: Ledger, e: Event)
    requires Latest(events, l) && Accepts(limits, l, e)
    ensures Latest(events + [e], Next(limits, l, e))
  {
    OneMore(events, e);
    hide EstimateOk, ActualOk, Dispatchable, ReadsOff, OwnTextListed, ItemsOf, Add, NamesOf;
    var n, all := Next(limits, l, e), events + [e];
    assert e in all;
    if e.body.IsBudget() {
      assert n.lastAt == Some(e.at);
    } else {
      assert n.lastAt == l.lastAt && n.lastToken == l.lastToken;
    }
  }

  lemma NextActive(limits: Limits, l: Ledger, e: Event)
    requires Accepts(limits, l, e)
    ensures Next(limits, l, e).active == (match e.body
                                          case Reserved(r) => l.active + {r}
                                          case Committed(x) => l.active - {x.reservation}
                                          case Released(r, _) => l.active - {r}
                                          case _ => l.active)
  {
    hide EstimateOk, ActualOk, Dispatchable, EvidenceOk, ItemsOf, Add, NodeTotals, Named, MatchesActive, InOrder;
  }

  lemma NextClosed(limits: Limits, l: Ledger, e: Event)
    requires Accepts(limits, l, e)
    ensures Next(limits, l, e).closed == (match e.body
                                          case Committed(x) => l.closed + {x.reservation}
                                          case Released(r, _) => l.closed + {r}
                                          case _ => l.closed)
  {
    hide EstimateOk, ActualOk, Dispatchable, EvidenceOk, ItemsOf, Add, NodeTotals, Named, MatchesActive, InOrder;
  }

  /** What an accepted event changes of the reservations... */
  lemma NextReservations(limits: Limits, l: Ledger, e: Event)
    requires Accepts(limits, l, e)
    ensures var n := Next(limits, l, e);
            && n.active == (match e.body
                            case Reserved(r) => l.active + {r}
                            case Committed(x) => l.active - {x.reservation}
                            case Released(r, _) => l.active - {r}
                            case _ => l.active)
            && n.closed == (match e.body
                            case Committed(x) => l.closed + {x.reservation}
                            case Released(r, _) => l.closed + {r}
                            case _ => l.closed)
    ensures e.body.Reserved? ==> e.body.reservation !in l.active && e.body.reservation !in l.closed
    ensures e.body.Committed? ==> e.body.result.reservation in l.active
    ensures e.body.Released? ==> e.body.released in l.active
  {
    NextActive(limits, l, e);
    NextClosed(limits, l, e);
    hide EstimateOk, ActualOk, Dispatchable, EvidenceOk, Next;
  }

  /** ... and of results and evidence. */
  lemma NextRecords(limits: Limits, l: Ledger, e: Event)
    requires Accepts(limits, l, e)
    ensures var n := Next(limits, l, e);
            && n.results == (if e.body.Committed? then l.results[e.body.result.reservation := e.body.result]
                  else l.results)
            && n.evidence == (if e.body.Exhausted? then l.evidence + ItemsOf(e.body.evidence) else l.evidence)
    ensures e.body.Committed? ==> e.body.result.reservation in l.active
  {
    hide EstimateOk, ActualOk, Dispatchable, EvidenceOk, ItemsOf, Add;
  }

  lemma NextRemembersReservations(limits: Limits, events: seq<Event>, l: Ledger, e: Event, r: Reservation)
    requires Remembers(events, l) && Accepts(limits, l, e) && l.active !! l.closed
    ensures var n, all := Next(limits, l, e), events + [e];
            && (r in n.closed <==> WasClosed(all, r)) && (WasClosed(all, r) ==> WasReserved(all, r))
            && (r in n.active <==> WasReserved(all, r) && !WasClosed(all, r))
  {
    NextReservations(limits, l, e);
    ReservedMore(events, e, r);
    hide Accepts, Next, WasReserved, WasClosed, WasCommitted, WasReported, ItemsOf;
  }

  lemma NextRemembersResults(limits: Limits, events: seq<Event>, l: Ledger, e: Event, r: Reservation, x: Result)
    requires Remembers(events, l) && Accepts(limits, l, e) && LoopInv(l)
    ensures var n, all := Next(limits, l, e), events + [e];
            (r in n.results && n.results[r] == x) <==> WasCommitted(all, r, x)
  {
    NextRecords(limits, l, e);
    CommittedMore(events, e, r, x);
    hide Accepts, Next, WasReserved, WasClosed, WasReported, ItemsOf, Conserved;
    if e.body.Committed? && e.body.result.reservation == r {
      assert r !in l.results;
      assert forall y :: !WasCommitted(events, r, y);
    }
    hide WasCommitted;
  }

  lemma NextRemembers(limits: Limits, events: seq<Event>, l: Ledger, e: Event)
    requires Remembers(events, l) && Accepts(limits, l, e) && LoopInv(l)
    ensures Remembers(events + [e], Next(limits, l, e))
  {
    hide Accepts, Next, WasReserved, WasClosed, WasCommitted, WasReported, ItemsOf, Conserved, Reports;
    var n, all := Next(limits, l, e), events + [e];
    forall r ensures (r in n.closed <==> WasClosed(all, r)) && (WasClosed(all, r) ==> WasReserved(all, r))
             ensures r in n.active <==> WasReserved(all, r) && !WasClosed(all, r)
    {
      NextRemembersReservations(limits, events, l, e, r);
    }
    forall r, x ensures (r in n.results && n.results[r] == x) <==> WasCommitted(all, r, x) {
      NextRemembersResults(limits, events, l, e, r, x);
    }
    NextRecords(limits, l, e);
    forall item ensures item in n.evidence <==> WasReported(all, item) {
      ReportedMore(events, e, item);
      if e.body.Exhausted? { ItemsAreReported(e, item); } else { NotReported(e, item); }
    }
  }

  lemma NotReported(e: Event, item: Item)
    requires !e.body.Exhausted?
    ensures !Reports(e, item)
  {
  }

  lemma {:induction false} LoopRemembers(limits: Limits, events: seq<Event>)
    requires Loop(limits, events).Some?
    ensures Remembers(events, Loop(limits, events).value) && Latest(events, Loop(limits, events).value)
  {
    if events != [] {
      var init, e := events[..|events| - 1], events[|events| - 1];
      assert init + [e] == events;
      LoopRemembers(limits, init);
      LoopKeeps(limits, init);
      hide Accepts, Next, Remembers, Latest, LoopInv;
      NextRemembers(limits, init, Loop(limits, init).value, e);
      NextLatest(limits, init, Loop(limits, init).value, e);
    }
  }

  // ---------- what a record must say ----------

  /** No budget event is later, and no token is greater. */
  ghost predicate InTurn(events: seq<Event>, e: Event) {
    && (forall x :: x in events && x.body.IsBudget() ==> x.at <= e.at)
    && (e.body.Reserved? || e.body.Exhausted? ==> forall x :: x in events ==> TokenOf(x) <= TokenOf(e))
  }

  ghost predicate IsOpen(events: seq<Event>, r: Reservation) { WasReserved(events, r) && !WasClosed(events, r) }

  /** The identity repeats the reservation, under the limits of the execution. */
  predicate SameIdentity(limits: Limits, identity: Identity, r: Reservation) {
    && identity.limits == limits && r.limits == limits && identity.node == r.node && identity.attempt == r.attempt
    && identity.op == r.op && identity.token == r.token
    && (identity.kind == if r.resource.ModelCall? then Kind.Model else Kind.Tool)
  }

  /** A result is recorded at its worth, with a response exactly for a model call that succeeded. */
  predicate WellRecorded(limits: Limits, x: Result) {
    && ResultCost(x.actual) == Worth(limits, x) && (x.actual.cost.None? <==> x.actual.unpriced == 1)
    && (x.response.Some? <==> x.ok && x.reservation.resource.ModelCall?)
  }

  /** An estimate is what the request asks for. */
  predicate WellEstimated(limits: Limits, r: Reservation) {
    && ResultCost(r.estimate) == Wish(limits, r.resource, r.estimate.prompt)
    && (r.estimate.cost.None? <==> r.estimate.unpriced == 1)
  }

  lemma EstimateIsStrict(limits: Limits, r: Reservation)
    ensures EstimateOk(limits, r) <==> WellEstimated(limits, r)
  {
    match r.resource
    case ModelCall(provider, model) => assert PriceKey(provider, model) == provider + ":" + model;
    case ToolCall(_) =>
  }

  lemma ActualIsStrict(limits: Limits, r: Reservation, x: Result)
    requires x.reservation == r
    ensures ActualOk(limits, r, x) <==> WellRecorded(limits, x)
  {
    match r.resource
    case ModelCall(provider, model) => assert PriceKey(provider, model) == provider + ":" + model;
    case ToolCall(_) =>
  }

  /** What the strict loop demands of a budget event after the events before it. */
  ghost predicate Strict(limits: Limits, events: seq<Event>, e: Event) {
    match e.body
    case Reserved(r) =>
      && InTurn(events, e) && r.limits == limits && r.node != "" && r.attempt >= 1 && r.token >= 1
      && !WasReserved(events, r) && (forall s :: !IsOpen(events, s)) && WellEstimated(limits, r)
    case Committed(x) =>
      && InTurn(events, e) && IsOpen(events, x.reservation) && SameIdentity(limits, x.identity, x.reservation)
      && WellRecorded(limits, x)
    case Released(r, identity) => InTurn(events, e) && IsOpen(events, r) && SameIdentity(limits, identity, r)
    case Exhausted(v) =>
      && InTurn(events, e) && v.identity.limits == limits && v.identity.node != "" && v.identity.attempt >= 1
      && v.identity.token >= 1 && v.names != {} && (forall n :: n in v.names ==> exists d :: n == Name(d))
      && (v.reservation.Some? ==> exists x :: WasCommitted(events, v.reservation.value, x) && v.identity == x.identity)
    case _ => true
  }

  lemma InTurnExactly(events: seq<Event>, l: Ledger, e: Event)
    requires Latest(events, l) && e.body.IsBudget()
    ensures InTurn(events, e) <==>
            InOrder(l, e) && (e.body.Reserved? || e.body.Exhausted? ==> TokenOf(e) >= l.lastToken)
  {
  }

  lemma OpenExactly(limits: Limits, events: seq<Event>, l: Ledger, r: Reservation, identity: Identity)
    requires Remembers(events, l) && ActiveOk(limits, l, l.lastToken)
    ensures IsOpen(events, r) && SameIdentity(limits, identity, r) <==> MatchesActive(limits, l, r, identity)
  {
    hide WasReserved, WasClosed, WasCommitted, WasReported, EstimateOk;
    assert IsOpen(events, r) <==> r in l.active;
  }

  lemma NamesAreDimensions(names: set<string>)
    ensures names <= NamesOf(DIMS) <==> forall n :: n in names ==> exists d :: n == Name(d)
  {
    hide Name;
    forall d ensures d in DIMS { EveryDim(d); }
    if forall n :: n in names ==> exists d :: n == Name(d) {
      forall n | n in names ensures n in NamesOf(DIMS) {
        var d :| n == Name(d);
        assert d in DIMS;
      }
    }
  }

  /**
   * Reservations, results and releases are accepted exactly when they are strict, and so is evidence, as far as its own
   * reading of the snapshot goes.
   */
  lemma AcceptsExactly(limits: Limits, events: seq<Event>, e: Event)
    requires Loop(limits, events).Some? && e.body.IsBudget()
    ensures var l := Loop(limits, events).value;
            Accepts(limits, l, e) <==>
            && Strict(limits, events, e)
            && (e.body.Exhausted? && e.body.evidence.reservation.Some? ==>
                  var v := e.body.evidence;
                  && (v.scope == NodeScope <==> OwnTextListed(limits, l, v.identity.node))
                  && forall n :: n in v.names <==> ReadsOff(limits, l, v.identity.node, n))
  {
    LoopRemembers(limits, events);
    LoopActiveOk(limits, events);
    LoopKeeps(limits, events);
    var l := Loop(limits, events).value;
    hide Loop;
    InTurnExactly(events, l, e);
    match e.body
    case Reserved(r) => ReservedExactly(limits, events, l, e);
    case Committed(x) => CommittedExactly(limits, events, l, e);
    case Released(r, identity) =>
      OpenExactly(limits, events, l, r, identity);
      hide InTurn, IsOpen, SameIdentity, MatchesActive, Remembers, Latest, ActiveOk, Conserved;
    case Exhausted(v) => ExhaustedExactly(limits, events, l, e);
  }

  lemma ReservedExactly(limits: Limits, events: seq<Event>, l: Ledger, e: Event)
    requires e.body.Reserved? && Remembers(events, l)
    requires InTurn(events, e) <==> InOrder(l, e) && TokenOf(e) >= l.lastToken
    ensures Accepts(limits, l, e) <==> Strict(limits, events, e)
  {
    var r := e.body.reservation;
    EstimateIsStrict(limits, r);
    assert forall s :: IsOpen(events, s) <==> s in l.active;
    assert (forall s :: !IsOpen(events, s)) <==> l.active == {} by {
      if l.active != {} { var s :| s in l.active; }
    }
    assert WasReserved(events, r) <==> r in l.active || r in l.closed;
    hide InTurn, IsOpen, EstimateOk, WellEstimated, Remembers, WasReserved, InOrder;
  }

  lemma CommittedExactly(limits: Limits, events: seq<Event>, l: Ledger, e: Event)
    requires e.body.Committed? && Remembers(events, l) && ActiveOk(limits, l, l.lastToken) && l.active !! l.closed
    requires InTurn(events, e) <==> InOrder(l, e)
    ensures Accepts(limits, l, e) <==> Strict(limits, events, e)
  {
    var x := e.body.result;
    ActualIsStrict(limits, x.reservation, x);
    OpenExactly(limits, events, l, x.reservation, x.identity);
    hide InTurn, IsOpen, SameIdentity, ActualOk, WellRecorded, Remembers, InOrder, ActiveOk;
  }

  lemma ExhaustedExactly(limits: Limits, events: seq<Event>, l: Ledger, e: Event)
    requires e.body.Exhausted? && Remembers(events, l)
    requires InTurn(events, e) <==> InOrder(l, e) && TokenOf(e) >= l.lastToken
    ensures Accepts(limits, l, e) <==>
            && Strict(limits, events, e)
            && (e.body.evidence.reservation.Some? ==>
                  var v := e.body.evidence;
                  && (v.scope == NodeScope <==> OwnTextListed(limits, l, v.identity.node))
                  && forall n :: n in v.names <==> ReadsOff(limits, l, v.identity.node, n))
  {
    var v := e.body.evidence;
    NamesAreDimensions(v.names);
    if v.reservation.Some? {
      var r := v.reservation.value;
      assert (exists x :: WasCommitted(events, r, x) && v.identity == x.identity) <==>
             r in l.results && v.identity == l.results[r].identity by {
        if r in l.results { assert WasCommitted(events, r, l.results[r]); }
      }
    }
    hide InTurn, NamesOf, ReadsOff, OwnTextListed, Remembers, InOrder, WasCommitted;
  }

  // ---------- evidence and tool outcomes ----------

  /** A snapshot lists what evidence has reported, and every balance beyond a cap. */
  lemma SnapshotRemembers(limits: Limits, events: seq<Event>, item: Item)
    requires Accepted(limits, events)
    ensures var l := Replay(limits, events).value;
            item in l.evidence <==> WasReported(events, item)
  {
    LoopRemembers(limits, events);
    LateFrame(limits, Loop(limits, events).value, events);
    hide Late, Loop, WasReported, Latest;
  }

  /** A tool call with this key and tool ran under the reservation. */
  ghost predicate CalledUnder(limits: Limits, events: seq<Event>, k: CallKey, d: Dispatch) {
    exists i :: && 0 <= i < |events| && RunsUnder(limits, events, i, d.reservation)
                && events[i].body == ToolCalled(k.node, k.attempt, k.callId, d.tool)
  }

  lemma CalledStays(limits: Limits, events: seq<Event>, e: Event, k: CallKey, d: Dispatch)
    requires CalledUnder(limits, events, k, d)
    ensures CalledUnder(limits, events + [e], k, d)
  {
    hide Loop;
    var i :| && 0 <= i < |events| && RunsUnder(limits, events, i, d.reservation)
             && events[i].body == ToolCalled(k.node, k.attempt, k.callId, d.tool);
    assert (events + [e])[..i] == events[..i] && (events + [e])[i] == events[i];
    assert RunsUnder(limits, events + [e], i, d.reservation);
  }

  ghost predicate DispatchesKnown(limits: Limits, events: seq<Event>, l: Ledger) {
    forall k :: k in l.dispatched ==> CalledUnder(limits, events, k, l.dispatched[k])
  }

  /** A call that is dispatched now runs under the reservation it is dispatched to. */
  lemma CalledNow(limits: Limits, events: seq<Event>, l: Ledger, e: Event)
    requires Loop(limits, events) == Some(l) && Accepts(limits, l, e) && e.body.ToolCalled? && l.started
    ensures var b := e.body;
            var k := CallKey(b.node, b.attempt, b.callId);
            var n := Next(limits, l, e);
            && n.dispatched.Keys == l.dispatched.Keys + {k}
            && (forall x :: x in l.dispatched && x != k ==> n.dispatched[x] == l.dispatched[x])
            && CalledUnder(limits, events + [e], k, n.dispatched[k])
  {
    var b := e.body;
    var k, n, all := CallKey(b.node, b.attempt, b.callId), Next(limits, l, e), events + [e];
    hide Loop;
    assert Dispatchable(l, b.node, b.attempt, b.tool, n.dispatched[k].reservation) && n.dispatched[k].tool == b.tool;
    assert all[..|events|] == events && all[|events|] == e;
    assert RunsUnder(limits, all, |events|, n.dispatched[k].reservation);
  }

  lemma OthersDispatchNothing(limits: Limits, l: Ledger, e: Event)
    requires Accepts(limits, l, e) && !(e.body.ToolCalled? && l.started)
    ensures var n := Next(limits, l, e);
            && n.dispatched.Keys <= l.dispatched.Keys
            && forall k :: k in n.dispatched ==> n.dispatched[k] == l.dispatched[k]
  {
    hide EstimateOk, ActualOk, Dispatchable, ReadsOff, OwnTextListed, ItemsOf, NamesOf, Add;
  }

  lemma {:induction false} LoopKnowsDispatches(limits: Limits, events: seq<Event>)
    requires Loop(limits, events).Some?
    ensures DispatchesKnown(limits, events, Loop(limits, events).value)
  {
    if events != [] {
      var init, e := events[..|events| - 1], events[|events| - 1];
      assert init + [e] == events;
      LoopKnowsDispatches(limits, init);
      var l := Loop(limits, init).value;
      var n := Next(limits, l, e);
      if e.body.ToolCalled? && l.started {
        CalledNow(limits, init, l, e);
      } else {
        OthersDispatchNothing(limits, l, e);
      }
      hide Accepts, Next, CalledUnder;
      forall k | k in n.dispatched ensures CalledUnder(limits, events, k, n.dispatched[k]) {
        if k in l.dispatched && n.dispatched[k] == l.dispatched[k] { CalledStays(limits, init, e, k, l.dispatched[k]); }
      }
    }
  }

  /**
   * After the first budget event, an accepted tool outcome ends a call of the same tool under the same key, and repeats
   * the outcome, the duration and the cost of the result recorded for its reservation.
   */
  lemma ToolOutcomeIsRecorded(limits: Limits, events: seq<Event>, e: Event)
    requires Loop(limits, events).Some? && Loop(limits, events).value.started && e.body.ToolEnded?
    requires Accepts(limits, Loop(limits, events).value, e)
    ensures exists r, x :: var b := e.body;
              && CalledUnder(limits, events, CallKey(b.node, b.attempt, b.callId), Dispatch(r, b.tool))
              && WasCommitted(events, r, x) && b.ok == x.ok && b.duration == x.actual.duration
              && b.cost == x.actual.cost
  {
    LoopKnowsDispatches(limits, events);
    LoopRemembers(limits, events);
    var l, b := Loop(limits, events).value, e.body;
    var d := l.dispatched[CallKey(b.node, b.attempt, b.callId)];
    hide Loop, CalledUnder;
    assert d == Dispatch(d.reservation, b.tool);
    assert WasCommitted(events, d.reservation, l.results[d.reservation]);
  }

  // ---------- the passes after the loop ----------

  predicate StartsAttempt(e: Event, node: NodeId, attempt: nat) {
    match e.body
    case AttemptStarted(n, a) => n == node && a == attempt
    case PlanStarted(a) => PLANNING == node && a == attempt
    case GateStarted(gate, a, _) => GateNode(gate) == node && a == attempt
    case _ => false
  }

  ghost predicate WasStarted(events: seq<Event>, node: NodeId, attempt: nat) {
    exists e :: e in events && StartsAttempt(e, node, attempt)
  }

  lemma StartedMore(events: seq<Event>, e: Event, node: NodeId, attempt: nat)
    ensures WasStarted(events + [e], node, attempt) <==>
            WasStarted(events, node, attempt) || StartsAttempt(e, node, attempt)
  {
    OneMore(events, e);
  }

  lemma KeyIsStart(e: Event, k: AttemptKey)
    ensures AttemptOf(e) == Some(k) <==> StartsAttempt(e, k.node, k.attempt)
  {
    hide GateNode;
  }

  lemma {:induction false} SeenAreStarted(events: seq<Event>)
    ensures SeenAttempts(events).Some? ==>
              forall k :: k in SeenAttempts(events).value <==> WasStarted(events, k.node, k.attempt)
  {
    if events != [] {
      var init, e := events[..|events| - 1], events[|events| - 1];
      assert init + [e] == events;
      SeenAreStarted(init);
      if SeenAttempts(events).Some? {
        forall k ensures k in SeenAttempts(events).value <==> WasStarted(events, k.node, k.attempt) {
          StartedMore(init, e, k.node, k.attempt);
          KeyIsStart(e, k);
          hide AttemptOf, StartsAttempt, WasStarted;
        }
      }
    }
  }

  /** A start is of a named node, of a positive attempt, and the first of its kind. */
  ghost predicate StartIsNew(events: seq<Event>, e: Event) {
    forall node, attempt :: StartsAttempt(e, node, attempt) ==>
      node != "" && attempt >= 1 && !WasStarted(events, node, attempt)
  }

  lemma AttemptsExactly(events: seq<Event>, e: Event)
    requires SeenAttempts(events).Some?
    ensures SeenAttempts(events + [e]).Some? <==> StartIsNew(events, e)
  {
    SeenAreStarted(events);
    assert (events + [e])[..|events|] == events;
    forall k { KeyIsStart(e, k); }
    if AttemptOf(e).Some? {
      var k := AttemptOf(e).value;
      KeyIsStart(e, k);
      hide AttemptOf, WasStarted;
      forall node, attempt | StartsAttempt(e, node, attempt) ensures node == k.node && attempt == k.attempt {
        KeyIsStart(e, AttemptKey(node, attempt));
      }
    } else {
      forall node, attempt ensures !StartsAttempt(e, node, attempt) { KeyIsStart(e, AttemptKey(node, attempt)); }
    }
  }

  /** A gate that was started and not recorded since. */
  predicate GateOpen(events: seq<Event>, gate: string, attempt: nat, index: nat) {
    events != [] &&
    match events[|events| - 1].body
    case GateStarted(g, a, i) => (g == gate && a == attempt && i == index)
      || GateOpen(events[..|events| - 1], gate, attempt, index)
    case GateRecorded(g, a, i, _) =>
      !(g == gate && a == attempt && i == index) && GateOpen(events[..|events| - 1], gate, attempt, index)
    case _ => GateOpen(events[..|events| - 1], gate, attempt, index)
  }

  lemma {:induction false} OpenGatesAre(events: seq<Event>, k: GateKey)
    requires OpenGates(events).Some?
    ensures k in OpenGates(events).value <==> GateOpen(events, k.gate, k.attempt, k.index)
  {
    if events != [] { OpenGatesAre(events[..|events| - 1], k); }
  }

  /** A gate is started while it is not open, and recorded while it is. */
  predicate GateInTurn(events: seq<Event>, e: Event) {
    match e.body
    case GateStarted(gate, attempt, index) => gate != "" && attempt >= 1 && !GateOpen(events, gate, attempt, index)
    case GateRecorded(gate, attempt, index, _) => GateOpen(events, gate, attempt, index)
    case _ => true
  }

  lemma GatesExactly(events: seq<Event>, e: Event)
    requires OpenGates(events).Some?
    ensures OpenGates(events + [e]).Some? <==> GateInTurn(events, e)
  {
    assert (events + [e])[..|events|] == events;
    match e.body
    case GateStarted(gate, attempt, index) => OpenGatesAre(events, GateKey(gate, attempt, index));
    case GateRecorded(gate, attempt, index, _) => OpenGatesAre(events, GateKey(gate, attempt, index));
    case _ =>
  }

  // ---------- historical usage ----------

  /** The model calls an event reports. */
  function CallsOf(e: Event): seq<PastCall> {
    match e.body
    case NodeEnded(_, _, calls) => calls
    case PlanGenerated(c) => [c]
    case _ => []
  }

  ghost predicate WasAnswered(events: seq<Event>, response: string) {
    exists e, c :: e in events && c in CallsOf(e) && c.response == response
  }

  ghost predicate ToolWasEnded(events: seq<Event>, node: NodeId, attempt: nat, callId: string) {
    exists e :: e in events && EndsTool(e, node, attempt, callId)
  }

  predicate EndsTool(e: Event, node: NodeId, attempt: nat, callId: string) {
    e.body.ToolEnded? && e.body.node == node && e.body.attempt == attempt && e.body.callId == callId
  }

  /** Every call has a response of its own and consistent tokens, and no response is reported twice. */
  ghost predicate UsageIsNew(events: seq<Event>, e: Event) {
    var calls := CallsOf(e);
    && (forall c :: c in calls ==>
          && c.response != "" && c.prompt >= 0 && c.completion >= 0 && c.total == c.prompt + c.completion
          && !WasAnswered(events, c.response))
    && (forall i, j :: 0 <= i < j < |calls| ==> calls[i].response != calls[j].response)
    && (e.body.ToolEnded? ==> !ToolWasEnded(events, e.body.node, e.body.attempt, e.body.callId))
  }

  ghost predicate CallsAreNew(seen: set<string>, calls: seq<PastCall>) {
    && (forall c :: c in calls ==> c.WellFormed() && c.response !in seen)
    && (forall i, j :: 0 <= i < j < |calls| ==> calls[i].response != calls[j].response)
  }

  function Responses(calls: seq<PastCall>): set<string> { set c | c in calls :: c.response }

  lemma {:induction false} CallsExactly(limits: Limits, p: Past, node: NodeId, calls: seq<PastCall>)
    ensures AfterCalls(limits, p, node, calls).Some? <==> CallsAreNew(p.responses, calls)
    ensures AfterCalls(limits, p, node, calls).Some? ==>
              && AfterCalls(limits, p, node, calls).value.responses == p.responses + Responses(calls)
              && AfterCalls(limits, p, node, calls).value.tools == p.tools
  {
    if calls != [] {
      var init, c := calls[..|calls| - 1], calls[|calls| - 1];
      CallsExactly(limits, p, node, init);
      assert calls == init + [c];
      hide PastCall.WellFormed, PastModelUsage;
      CallsStep(p.responses, init, c);
      assert Responses(calls) == Responses(init) + {c.response};
    } else {
      assert Responses(calls) == {};
    }
  }

  lemma CallsStep(seen: set<string>, calls: seq<PastCall>, c: PastCall)
    ensures CallsAreNew(seen, calls + [c]) <==>
            CallsAreNew(seen, calls) && c.WellFormed() && c.response !in seen && c.response !in Responses(calls)
  {
    hide PastCall.WellFormed;
    var all := calls + [c];
    assert c in all && forall x :: x in all <==> x in calls || x == c;
    if CallsAreNew(seen, all) {
      forall i, j | 0 <= i < j < |calls| ensures calls[i].response != calls[j].response {
        assert all[i].response != all[j].response;
      }
      forall i | 0 <= i < |calls| ensures calls[i].response != c.response {
        assert all[i].response != all[|calls|].response;
      }
    }
    if CallsAreNew(seen, calls) && c.response !in Responses(calls) {
      forall i, j | 0 <= i < j < |all| ensures all[i].response != all[j].response {
        if j == |calls| { assert calls[i] in calls && calls[i].response in Responses(calls); }
      }
    }
  }

  lemma EventUsage(limits: Limits, p: Past, e: Event)
    ensures AfterEvent(limits, p, e).Some? <==>
            && CallsAreNew(p.responses, CallsOf(e))
            && (e.body.ToolEnded? ==> CallKey(e.body.node, e.body.attempt, e.body.callId) !in p.tools)
    ensures AfterEvent(limits, p, e).Some? ==>
              && AfterEvent(limits, p, e).value.responses == p.responses + Responses(CallsOf(e))
              && AfterEvent(limits, p, e).value.tools ==
                 p.tools + if e.body.ToolEnded? then {CallKey(e.body.node, e.body.attempt, e.body.callId)} else {}
  {
    hide PastModelUsage, PastToolUsage, CallsAreNew;
    match e.body
    case NodeEnded(node, attempt, calls) =>
      CallsExactly(limits, AfterRunning(p, AttemptKey(node, attempt), e.at), node, calls);
    case PlanGenerated(c) =>
      OneCall(p.responses, c);
      assert Responses([c]) == {c.response};
    case _ =>
      NoCalls(p.responses);
      assert Responses([]) == {};
  }

  lemma OneCall(seen: set<string>, c: PastCall)
    ensures CallsAreNew(seen, [c]) <==> c.WellFormed() && c.response !in seen
  {
    assert c in [c];
  }

  lemma NoCalls(seen: set<string>)
    ensures CallsAreNew(seen, [])
  {
  }

  lemma AnsweredMore(events: seq<Event>, e: Event, s: string)
    ensures WasAnswered(events + [e], s) <==> WasAnswered(events, s) || s in Responses(CallsOf(e))
  {
    OneMore(events, e);
    hide CallsOf;
    if s in Responses(CallsOf(e)) {
      var c :| c in CallsOf(e) && c.response == s;
      assert e in events + [e];
    }
  }

  lemma EndedMore(events: seq<Event>, e: Event, k: CallKey)
    ensures ToolWasEnded(events + [e], k.node, k.attempt, k.callId) <==>
            ToolWasEnded(events, k.node, k.attempt, k.callId) || EndsTool(e, k.node, k.attempt, k.callId)
  {
    OneMore(events, e);
  }

  ghost predicate Recalls(events: seq<Event>, p: Past) {
    && (forall s :: s in p.responses <==> WasAnswered(events, s))
    && (forall k :: k in p.tools <==> ToolWasEnded(events, k.node, k.attempt, k.callId))
  }

  lemma {:induction false} PastRecalls(limits: Limits, events: seq<Event>)
    requires PastOf(limits, events).Some?
    ensures Recalls(events, PastOf(limits, events).value)
  {
    if events != [] {
      var init, e := events[..|events| - 1], events[|events| - 1];
      assert init + [e] == events;
      PastRecalls(limits, init);
      EventUsage(limits, PastOf(limits, init).value, e);
      hide AfterEvent, WasAnswered, ToolWasEnded, CallsOf, CallsAreNew;
      var q := PastOf(limits, events).value;
      forall s ensures s in q.responses <==> WasAnswered(events, s) { AnsweredMore(init, e, s); }
      forall k ensures k in q.tools <==> ToolWasEnded(events, k.node, k.attempt, k.callId) { EndedMore(init, e, k); }
    }
  }

  lemma NewByMembers(events: seq<Event>, p: Past, e: Event)
    requires Recalls(events, p)
    ensures UsageIsNew(events, e) <==>
            && CallsAreNew(p.responses, CallsOf(e))
            && (e.body.ToolEnded? ==> CallKey(e.body.node, e.body.attempt, e.body.callId) !in p.tools)
  {
    hide WasAnswered, ToolWasEnded, CallsOf;
    if e.body.ToolEnded? {
      var k := CallKey(e.body.node, e.body.attempt, e.body.callId);
      assert k in p.tools <==> ToolWasEnded(events, k.node, k.attempt, k.callId);
    }
  }

  lemma UsageExactly(limits: Limits, events: seq<Event>, e: Event)
    requires PastOf(limits, Before(events)).Some?
    ensures PastOf(limits, Before(events + [e])).Some? <==> (Unbudgeted(events) ==> UsageIsNew(events, e))
  {
    BeforeStep(events, e);
    if Unbudgeted(events) {
      assert Before(events) == events;
      PastRecalls(limits, events);
      NewByMembers(events, PastOf(limits, events).value, e);
      EventUsage(limits, PastOf(limits, events).value, e);
      assert (events + [e])[..|events|] == events;
      hide UsageIsNew, CallsAreNew, AfterEvent, CallsOf, Recalls;
      if e.body.IsBudget() { BudgetIsNew(events, e); }
    }
  }

  lemma BudgetIsNew(events: seq<Event>, e: Event)
    requires e.body.IsBudget()
    ensures UsageIsNew(events, e)
  {
  }

  /**
   * What the whole replay demands of the next event: the loop accepts it, a start is new, gates are in turn, and before
   * the first budget event usage is well-formed and reported once.
   */
  lemma ReplayAcceptsExactly(limits: Limits, events: seq<Event>, e: Event)
    requires Accepted(limits, events)
    ensures Loop(limits, events).Some?
    ensures Accepted(limits, events + [e]) <==>
            && Accepts(limits, Loop(limits, events).value, e) && StartIsNew(events, e) && GateInTurn(events, e)
            && (Unbudgeted(events) ==> UsageIsNew(events, e))
  {
    assert (events + [e])[..|events|] == events;
    AttemptsExactly(events, e);
    GatesExactly(events, e);
    UsageExactly(limits, events, e);
    hide Accepts, Next, SeenAttempts, OpenGates, PastOf, Before, StartIsNew, GateInTurn, UsageIsNew, Late;
  }
}
