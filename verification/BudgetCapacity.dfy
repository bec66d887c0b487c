/** Capacity over whole runs: what a grant guarantees, how far a balance can overshoot, when it is closed for good. */
module BudgetCapacity {
  import opened Common
  import opened BudgetText
  import opened BudgetModel
  import opened BudgetConservation
  import opened BudgetBoundary
  import opened BudgetAgreement
  import opened BudgetBlindSpot
  import opened BudgetRuns

  /** A balance: the whole execution, or one node. */
  datatype Balance = Whole | Of(id: NodeId)
  {
    function In(l: Ledger): Totals {
      match this case Whole => l.exec case Of(id) => NodeTotals(l, id)
    }

    function Caps(limits: Limits): LimitSet {
      match this case Whole => limits.execution case Of(id) => limits.ForNode(id)
    }

    predicate Covers(node: NodeId) {
      match this case Whole => true case Of(id) => id == node
    }
  }

  /** Dimensions that only operations add to. */
  predicate Spendable(d: Dim) {
    d == PromptTokens || d == CompletionTokens || d == TotalTokens || d == ToolCalls || d == CostUsd
  }

  function Amount(t: Totals, d: Dim): nat {
    match d
    case PromptTokens => t.prompt
    case CompletionTokens => t.completion
    case TotalTokens => t.prompt + t.completion
    case ToolCalls => t.tools
    case CostUsd => t.known
    case DurationMs => t.duration
    case Attempts => t.attempts
    case CostUnavailable => t.unpriced
  }

  function Cost(i: Increment, d: Dim): nat { Amount(Add(ZERO, i), d) }

  function Cap(limits: LimitSet, d: Dim): Option<nat> {
    match d
    case PromptTokens => limits.prompt
    case CompletionTokens => limits.completion
    case TotalTokens => limits.total
    case ToolCalls => limits.tools
    case CostUsd => limits.cost
    case DurationMs => limits.duration
    case Attempts => limits.attempts
    case CostUnavailable => None
  }

  lemma AmountAdds(t: Totals, i: Increment, d: Dim)
    ensures Amount(Add(t, i), d) == Amount(t, d) + Cost(i, d)
  {
  }

  lemma WithinCap(limits: LimitSet, t: Totals, d: Dim)
    requires Exceeded(limits, Usage(t)) == {} && Cap(limits, d).Some?
    ensures Amount(t, d) <= Cap(limits, d).value
  {
    forall x ensures !Exceeds(limits, Usage(t), x) {
      EveryDim(x);
      assert x !in Exceeded(limits, Usage(t));
    }
    assert !Exceeds(limits, Usage(t), d) && !Exceeds(limits, Usage(t), CostUnavailable);
  }

  // ---------- a grant fits ----------

  /** With the reservation's estimate on top, a balance is within a cap. */
  predicate Fits(limits: Limits, l: Ledger, b: Balance, r: Reservation, d: Dim) {
    var cap := Cap(b.Caps(limits), d);
    b.Covers(r.node) && cap.Some? ==> Amount(b.In(l), d) + Cost(r.estimate, d) <= cap.value
  }

  lemma NoneExceeded(limits: Limits, l: Ledger, v: View, r: Reservation)
    requires Judged(limits, l, v, r).None? && l.active == {} && r.node == v.node
    ensures Exceeded(limits.execution, Usage(Add(l.exec, r.estimate))) == {}
    ensures Exceeded(limits.ForNode(r.node), Usage(Add(NodeTotals(l, r.node), r.estimate))) == {}
  {
    var own := set x | x in l.active && x.node == v.node;
    PendingNothing(l.exec, l.active);
    PendingNothing(NodeTotals(l, v.node), own);
    hide Exceeded, Pending, NodeTotals, Usage, Add, Limits.ForNode, PriceOf;
  }

  lemma JudgedFits(limits: Limits, l: Ledger, v: View, r: Reservation, b: Balance, d: Dim)
    requires Judged(limits, l, v, r).None? && l.active == {} && r.node == v.node
    ensures Fits(limits, l, b, r, d)
  {
    NoneExceeded(limits, l, v, r);
    hide Judged, Exceeded, NodeTotals, Usage, Add, Cost, Amount, Limits.ForNode;
    if b.Covers(r.node) && Cap(b.Caps(limits), d).Some? {
      WithinCap(b.Caps(limits), Add(b.In(l), r.estimate), d);
      AmountAdds(b.In(l), r.estimate, d);
    }
  }

  /** A reservation is granted only when it fits every cap of both of its balances, late usage included. */
  lemma GrantFits(
    limits: Limits, events: seq<Event>, v: View, now: int, resource: Resource, prompt: nat, b: Balance, d: Dim)
    requires Reserve(limits, events, v, now, resource, prompt).answer.Held?
    ensures Replay(limits, events).Some? && Replay(limits, events).value.active == {}
    ensures Fits(limits, Replay(limits, events).value, b, Planned(limits, events, v, resource, prompt), d)
  {
    hide Fits, Judged, Replay, Planned, CountOps;
    var l, r := Replay(limits, events).value, Planned(limits, events, v, resource, prompt);
    assert r.node == v.node by { PlannedNode(limits, events, v, resource, prompt); }
    JudgedFits(limits, l, v, r, b, d);
  }

  lemma PlannedNode(limits: Limits, events: seq<Event>, v: View, resource: Resource, prompt: nat)
    ensures Planned(limits, events, v, resource, prompt).node == v.node
  {
  }

  // ---------- journals whose reservations were all granted ----------

  /** Where it was written, a reservation fitted every cap of its balances, with all usage until then. */
  ghost predicate GrantedAt(limits: Limits, events: seq<Event>, i: nat)
    requires i < |events| && events[i].body.Reserved?
  {
    && Accepted(limits, events[..i])
    && forall b, d :: Fits(limits, Replay(limits, events[..i]).value, b, events[i].body.reservation, d)
  }

  ghost predicate AllGranted(limits: Limits, events: seq<Event>) {
    forall i :: 0 <= i < |events| && events[i].body.Reserved? ==> GrantedAt(limits, events, i)
  }

  lemma OneMoreGranted(limits: Limits, events: seq<Event>, e: Event)
    requires AllGranted(limits, events)
    requires e.body.Reserved? ==>
               && Accepted(limits, events)
               && forall b, d :: Fits(limits, Replay(limits, events).value, b, e.body.reservation, d)
    ensures AllGranted(limits, events + [e])
  {
    hide Replay, Fits;
    var all := events + [e];
    forall i | 0 <= i < |all| && all[i].body.Reserved? ensures GrantedAt(limits, all, i) {
      assert all[..i] == events[..i];
      if i < |events| { assert GrantedAt(limits, events, i); } else { assert all[..i] == events; }
    }
  }

  lemma ReserveGrants(limits: Limits, events: seq<Event>, v: View, now: int, resource: Resource, prompt: nat)
    requires AllGranted(limits, events)
    ensures AllGranted(limits, Reserve(limits, events, v, now, resource, prompt).events)
  {
    hide Fits, Replay, Planned, Judged, AllGranted;
    var reply := Reserve(limits, events, v, now, resource, prompt);
    if reply.answer.Held? {
      var r := Planned(limits, events, v, resource, prompt);
      forall b, d ensures Fits(limits, Replay(limits, events).value, b, r, d) {
        GrantFits(limits, events, v, now, resource, prompt, b, d);
      }
      OneMoreGranted(limits, events, Event(Stamp(events, now), Reserved(r)));
    } else {
      NotReserved(limits, events, v, now, resource, prompt);
    }
  }

  lemma NotReserved(limits: Limits, events: seq<Event>, v: View, now: int, resource: Resource, prompt: nat)
    requires AllGranted(limits, events) && !Reserve(limits, events, v, now, resource, prompt).answer.Held?
    ensures AllGranted(limits, Reserve(limits, events, v, now, resource, prompt).events)
  {
    hide Fits, Replay, Judged, AllGranted, Estimate, CountOps;
    var reply := Reserve(limits, events, v, now, resource, prompt);
    if reply.events != events {
      OneMoreGranted(limits, events, reply.events[|events|]);
    }
  }

  /** Other requests reserve nothing. */
  lemma OthersGrant(limits: Limits, events: seq<Event>, more: seq<Event>)
    requires AllGranted(limits, events) && events <= more && |more| <= |events| + 2
    requires forall i :: |events| <= i < |more| ==> !more[i].body.Reserved?
    ensures AllGranted(limits, more)
  {
    hide AllGranted, Fits, Replay;
    if |more| > |events| {
      OneMoreGranted(limits, events, more[|events|]);
      assert more[..|events| + 1] == events + [more[|events|]];
      if |more| == |events| + 2 {
        OneMoreGranted(limits, more[..|events| + 1], more[|events| + 1]);
        assert more == more[..|events| + 1] + [more[|events| + 1]];
      } else {
        assert more == more[..|events| + 1];
      }
    } else {
      assert more == events;
    }
  }

  lemma OthersReserveNothing(limits: Limits, w: World, v: View, now: int, later: int, q: Request)
    requires !q.ReserveModel? && !q.ReserveTool?
    ensures var more := Answered(limits, w, v, now, later, q).events;
            && w.events <= more && |more| <= |w.events| + 2
            && (forall i :: |w.events| <= i < |more| ==> !more[i].body.Reserved?)
  {
    hide Replay, Shortfall, AnyListed, LocalNames, Snapshot, Shown, ResultOf, Estimate, CountOps, Accepted, RecordedBy;
  }

  /** Other writers write no budget events. */
  predicate NoForeignBudget(calls: seq<Call>) {
    forall c :: c in calls && c.Outside? ==> !c.event.body.IsBudget()
  }

  /** In every run, every reservation ever written fitted its balances when it was written. */
  lemma {:induction false} RunsAreGranted(limits: Limits, calls: seq<Call>)
    requires NoForeignBudget(calls)
    ensures AllGranted(limits, Run(limits, START, calls).events)
  {
    if calls != [] {
      var init, c := calls[..|calls| - 1], calls[|calls| - 1];
      assert c in calls;
      RunsAreGranted(limits, init);
      hide AllGranted, Reserve, Answered;
      var w := Run(limits, START, init);
      match c
      case Acquire =>
      case Outside(e) => OneMoreGranted(limits, w.events, e);
      case Ask(v, now, later, q) => AskGrants(limits, w, v, now, later, q);
    }
  }

  lemma AskGrants(limits: Limits, w: World, v: View, now: int, later: int, q: Request)
    requires AllGranted(limits, w.events)
    ensures AllGranted(limits, Answered(limits, w, v, now, later, q).events)
  {
    hide AllGranted, Reserve, CheckedAttempt, Materialized, Settlement;
    match q
    case ReserveModel(provider, model, bytes) =>
      ReserveGrants(limits, w.events, v, now, ModelCall(provider, model), bytes);
    case ReserveTool(tool) => ReserveGrants(limits, w.events, v, now, ToolCall(tool), 0);
    case _ =>
      OthersReserveNothing(limits, w, v, now, later, q);
      OthersGrant(limits, w.events, Answered(limits, w, v, now, later, q).events);
  }

  // ---------- overshoot ----------

  /** The usage of a balance that dates from before the first budget event. */
  function SharesIn(shares: seq<Share>, b: Balance, d: Dim): nat {
    if shares == [] then 0
    else
      var s := shares[|shares| - 1];
      SharesIn(shares[..|shares| - 1], b, d) + if b.Covers(s.node) then Cost(s.usage, d) else 0
  }

  function Base(limits: Limits, events: seq<Event>, b: Balance, d: Dim): nat { SharesIn(History(limits, events), b, d) }

  lemma ChargedSpend(l: Ledger, node: NodeId, i: Increment, b: Balance, d: Dim)
    ensures Amount(b.In(Charged(l, node, i)), d) == Amount(b.In(l), d) + if b.Covers(node) then Cost(i, d) else 0
  {
    hide Add, Amount, Cost;
    match b
    case Whole => AmountAdds(l.exec, i, d);
    case Of(id) => AmountAdds(NodeTotals(l, id), i, d);
  }

  lemma {:induction false} SharesSpend(l: Ledger, shares: seq<Share>, b: Balance, d: Dim)
    ensures Amount(b.In(ChargeAll(l, shares)), d) == Amount(b.In(l), d) + SharesIn(shares, b, d)
  {
    if shares != [] {
      var init, s := shares[..|shares| - 1], shares[|shares| - 1];
      SharesSpend(l, init, b, d);
      hide Amount, Cost, Charged;
      ChargedSpend(ChargeAll(l, init), s.node, s.usage, b, d);
    }
  }

  /** Attempts and durations cost nothing else. */
  lemma TimeIsFree(i: Increment, d: Dim)
    requires d != DurationMs && d != Attempts
    requires i == Increment(0, 0, 0, i.duration, i.attempts, None, 0)
    ensures Cost(i, d) == 0
  {
  }

  lemma {:induction false} AttemptsSpend(l: Ledger, events: seq<Event>, b: Balance, d: Dim)
    requires d != DurationMs && d != Attempts
    ensures Amount(b.In(WithAttempts(l, events)), d) == Amount(b.In(l), d)
  {
    hide Amount, Cost, Charged;
    if events != [] {
      var init, key := events[..|events| - 1], AttemptOf(events[|events| - 1]);
      AttemptsSpend(l, init, b, d);
      TimeIsFree(ONE_ATTEMPT, d);
      if key.Some? { ChargedSpend(WithAttempts(l, init), key.value.node, ONE_ATTEMPT, b, d); }
    }
  }

  lemma {:induction false} GatesSpend(l: Ledger, events: seq<Event>, b: Balance, d: Dim)
    requires d != DurationMs && d != Attempts
    ensures Amount(b.In(WithGates(l, events)), d) == Amount(b.In(l), d)
  {
    hide Amount, Cost, Charged;
    if events != [] {
      var init, e := events[..|events| - 1], events[|events| - 1];
      GatesSpend(l, init, b, d);
      if e.body.GateRecorded? {
        TimeIsFree(Duration(GateDuration(OpenGates(init), e)), d);
        ChargedSpend(WithGates(l, init), GateNode(e.body.gate), Duration(GateDuration(OpenGates(init), e)), b, d);
      }
    }
  }

  /** Apart from durations and attempts, a balance is what the loop has added up on top of historical usage. */
  lemma LateAmount(limits: Limits, l: Ledger, events: seq<Event>, b: Balance, d: Dim)
    requires d != DurationMs && d != Attempts
    ensures Amount(b.In(Late(limits, l, events)), d) == Amount(b.In(l), d) + Base(limits, events, b, d)
  {
    hide Amount, WithAttempts, WithGates, ChargeAll, History, SharesIn, Balance.In;
    AttemptsSpend(l, events, b, d);
    GatesSpend(WithAttempts(l, events), events, b, d);
    SharesSpend(WithGates(WithAttempts(l, events), events), History(limits, events), b, d);
  }

  /**
   * The loop has added nothing to a balance, or historical usage is within the cap and the sum is so too, or
   * is beyond it by no more than one operation's actual over its estimate.
   */
  ghost predicate BoundedBy(limits: Limits, l: Ledger, base: nat, b: Balance, d: Dim) {
    var cap := Cap(b.Caps(limits), d);
    cap.Some? ==>
      || Amount(b.In(l), d) == 0
      || (&& base <= cap.value
          && (|| base + Amount(b.In(l), d) <= cap.value
              || exists r :: && r in l.results && b.Covers(r.node)
                             && base + Amount(b.In(l), d) + Cost(r.estimate, d) <=
                                cap.value + Cost(l.results[r].actual, d)))
  }

  /** `Fits` in terms of what the loop has added up on top of historical usage. */
  predicate FitsOn(limits: Limits, l: Ledger, base: nat, b: Balance, r: Reservation, d: Dim) {
    var cap := Cap(b.Caps(limits), d);
    b.Covers(r.node) && cap.Some? ==> base + Amount(b.In(l), d) + Cost(r.estimate, d) <= cap.value
  }

  ghost predicate CapInv(limits: Limits, l: Ledger, base: nat, b: Balance, d: Dim) {
    && BoundedBy(limits, l, base, b, d)
    && (forall r :: r in l.active ==> FitsOn(limits, l, base, b, r, d))
    && (forall r :: r in l.active ==> r !in l.results)
  }

  lemma CommitBounded(limits: Limits, l: Ledger, e: Event, base: nat, b: Balance, d: Dim)
    requires CapInv(limits, l, base, b, d) && LoopInv(l) && Accepts(limits, l, e) && e.body.Committed?
    ensures CapInv(limits, Next(limits, l, e), base, b, d)
  {
    var x, n := e.body.result, Next(limits, l, e);
    var r := x.reservation;
    assert FitsOn(limits, l, base, b, r, d);
    var m := Charged(l.(lastAt := Some(e.at), started := true), r.node, x.actual);
    assert n.exec == m.exec && n.nodes == m.nodes;
    ChargedSpend(l.(lastAt := Some(e.at), started := true), r.node, x.actual, b, d);
    assert n.results == l.results[r := x] && n.active == {};
    hide Accepts, Next, Charged, LoopInv, Amount, Cost;
    assert b.In(n) == b.In(m) && b.In(l.(lastAt := Some(e.at), started := true)) == b.In(l);
    CommitArithmetic(limits, l, n, r, x, base, b, d);
  }

  lemma CommitArithmetic(limits: Limits, l: Ledger, n: Ledger, r: Reservation, x: Result, base: nat, b: Balance, d: Dim)
    requires BoundedBy(limits, l, base, b, d) && FitsOn(limits, l, base, b, r, d) && r !in l.results
    requires n.results == l.results[r := x]
    requires Amount(b.In(n), d) == Amount(b.In(l), d) + if b.Covers(r.node) then Cost(x.actual, d) else 0
    ensures BoundedBy(limits, n, base, b, d)
  {
    hide Amount, Cost;
    var cap := Cap(b.Caps(limits), d);
    if cap.Some? {
      if b.Covers(r.node) {
        assert r in n.results && n.results[r] == x;
      } else if Amount(b.In(l), d) != 0 && base + Amount(b.In(l), d) > cap.value {
        var s :| && s in l.results && b.Covers(s.node)
                 && base + Amount(b.In(l), d) + Cost(s.estimate, d) <= cap.value + Cost(l.results[s].actual, d);
        assert s in n.results && n.results[s] == l.results[s];
      }
    }
  }

  lemma NextSpendsNothing(limits: Limits, l: Ledger, e: Event)
    requires Accepts(limits, l, e) && !e.body.Committed?
    ensures var n := Next(limits, l, e);
            && n.exec == l.exec && n.nodes == l.nodes && n.results == l.results
            && (forall r :: r in n.active ==> r in l.active || e.body == Reserved(r))
  {
    hide EstimateOk, EvidenceOk, ItemsOf, Dispatchable, Charged;
  }

  lemma ReservedIsFresh(limits: Limits, l: Ledger, e: Event, r: Reservation)
    requires LoopInv(l) && Accepts(limits, l, e) && e.body == Reserved(r)
    ensures r !in l.results
  {
    hide EstimateOk, Conserved;
  }

  lemma OtherBounded(limits: Limits, l: Ledger, e: Event, base: nat, b: Balance, d: Dim)
    requires CapInv(limits, l, base, b, d) && LoopInv(l) && Accepts(limits, l, e) && !e.body.Committed?
    requires e.body.Reserved? ==> FitsOn(limits, l, base, b, e.body.reservation, d)
    ensures CapInv(limits, Next(limits, l, e), base, b, d)
  {
    hide Accepts, Next, LoopInv, Amount, Cost, Cap, Balance.Caps;
    var n := Next(limits, l, e);
    NextSpendsNothing(limits, l, e);
    if e.body.Reserved? { ReservedIsFresh(limits, l, e, e.body.reservation); }
    assert b.In(n) == b.In(l);
    SameBalance(limits, l, n, base, b, d);
  }

  lemma SameBalance(limits: Limits, l: Ledger, n: Ledger, base: nat, b: Balance, d: Dim)
    requires BoundedBy(limits, l, base, b, d) && b.In(n) == b.In(l) && n.results == l.results
    ensures BoundedBy(limits, n, base, b, d)
    ensures forall r :: FitsOn(limits, n, base, b, r, d) == FitsOn(limits, l, base, b, r, d)
  {
    hide Amount, Cost, Cap, Balance.Caps, Balance.In;
  }

  /** A reservation of a journal was granted on the historical usage the whole journal shows. */
  lemma GrantedOnBase(limits: Limits, events: seq<Event>, e: Event, b: Balance, d: Dim)
    requires AllGranted(limits, events + [e]) && e.body.Reserved? && Spendable(d) && Loop(limits, events).Some?
    ensures FitsOn(limits, Loop(limits, events).value, Base(limits, events + [e], b, d), b, e.body.reservation, d)
  {
    hide Amount, Cost, Loop, Late, History, SharesIn, Balance.In, Cap;
    var all := events + [e];
    assert all[..|events|] == events && all[|events|] == e;
    assert GrantedAt(limits, all, |events|);
    assert Fits(limits, Replay(limits, events).value, b, e.body.reservation, d);
    LateAmount(limits, Loop(limits, events).value, events, b, d);
    HistoryStays(limits, events, e);
  }

  lemma HistoryStays(limits: Limits, events: seq<Event>, e: Event)
    requires !Unbudgeted(events) || e.body.IsBudget()
    ensures History(limits, events + [e]) == History(limits, events)
  {
    BeforeStep(events, e);
  }

  lemma {:induction false} LoopIsBounded(limits: Limits, events: seq<Event>, base: nat, b: Balance, d: Dim)
    requires AllGranted(limits, events) && Loop(limits, events).Some? && Spendable(d)
    requires !Unbudgeted(events) ==> base == Base(limits, events, b, d)
    ensures CapInv(limits, Loop(limits, events).value, base, b, d)
  {
    if events != [] {
      var init, e := events[..|events| - 1], events[|events| - 1];
      assert init + [e] == events;
      EarlierGranted(limits, events);
      UnbudgetedStep(init, e);
      if !Unbudgeted(init) { HistoryStays(limits, init, e); }
      LoopIsBounded(limits, init, base, b, d);
      LoopKeeps(limits, init);
      var l := Loop(limits, init).value;
      if e.body.Reserved? { GrantedOnBase(limits, init, e, b, d); }
      hide CapInv, AllGranted, LoopInv, Accepts, Next, Spendable, Unbudgeted, Base;
      if e.body.Committed? { CommitBounded(limits, l, e, base, b, d); } else { OtherBounded(limits, l, e, base, b, d); }
    }
  }

  /** Within the cap, or beyond it by at most what one operation took beyond its own estimate. */
  ghost predicate OneOperationOver(limits: Limits, l: Ledger, b: Balance, d: Dim) {
    var cap := Cap(b.Caps(limits), d);
    cap.Some? ==>
      || Amount(b.In(l), d) <= cap.value
      || exists r :: && r in l.results && b.Covers(r.node)
                     && Amount(b.In(l), d) + Cost(r.estimate, d) <= cap.value + Cost(l.results[r].actual, d)
  }

  /**
   * On every accepted journal whose reservations were granted, every balance, historical usage included, stays
   * within each cap or passes it by at most what one operation of it took beyond its own estimate. The only
   * exception is a balance that historical usage alone put beyond the cap: it never gains anything.
   */
  lemma OvershootIsOneOperation(limits: Limits, events: seq<Event>, b: Balance, d: Dim)
    requires AllGranted(limits, events) && Accepted(limits, events) && Spendable(d)
    ensures var l, base, cap := Replay(limits, events).value, Base(limits, events, b, d), Cap(b.Caps(limits), d);
            if cap.Some? && base > cap.value then Amount(b.In(l), d) == base else OneOperationOver(limits, l, b, d)
  {
    hide Amount, Cost, Loop, Late, AllGranted, Base, Balance.In, Cap, Unbudgeted;
    var seen, base := Loop(limits, events).value, Base(limits, events, b, d);
    LoopIsBounded(limits, events, base, b, d);
    LateAmount(limits, seen, events, b, d);
    LateFrame(limits, seen, events);
    BoundIsTight(limits, seen, Late(limits, seen, events), base, b, d);
  }

  lemma BoundIsTight(limits: Limits, seen: Ledger, total: Ledger, base: nat, b: Balance, d: Dim)
    requires BoundedBy(limits, seen, base, b, d) && total.results == seen.results
    requires Amount(b.In(total), d) == Amount(b.In(seen), d) + base
    ensures var cap := Cap(b.Caps(limits), d);
            if cap.Some? && base > cap.value then Amount(b.In(total), d) == base
              else OneOperationOver(limits, total, b, d)
  {
    hide Amount, Cost, Cap, Balance.In, Balance.Caps;
  }

  lemma EarlierGranted(limits: Limits, events: seq<Event>)
    requires AllGranted(limits, events) && events != []
    ensures AllGranted(limits, events[..|events| - 1])
  {
    hide Loop, Fits;
    var init := events[..|events| - 1];
    forall i | 0 <= i < |init| && init[i].body.Reserved? ensures GrantedAt(limits, init, i) {
      assert GrantedAt(limits, events, i);
      assert init[..i] == events[..i];
    }
  }

  // ---------- tool calls never overshoot ----------

  ghost predicate ResultsOk(limits: Limits, l: Ledger) {
    forall r :: r in l.results ==> EstimateOk(limits, r) && ActualOk(limits, r, l.results[r])
  }

  lemma NextResultsOk(limits: Limits, l: Ledger, e: Event)
    requires Accepts(limits, l, e) && ResultsOk(limits, l) && ActiveOk(limits, l, l.lastToken)
    ensures ResultsOk(limits, Next(limits, l, e))
  {
    if e.body.Committed? {
      hide EstimateOk, ActualOk, Charged;
    } else {
      NextSpendsNothing(limits, l, e);
      hide Accepts, Next, EstimateOk, ActualOk;
    }
  }

  lemma {:induction false} LoopResultsOk(limits: Limits, events: seq<Event>)
    requires Loop(limits, events).Some?
    ensures ResultsOk(limits, Loop(limits, events).value)
  {
    if events != [] {
      LoopResultsOk(limits, events[..|events| - 1]);
      LoopActiveOk(limits, events[..|events| - 1]);
      hide Accepts, Next, ResultsOk, ActiveOk;
      NextResultsOk(limits, Loop(limits, events[..|events| - 1]).value, events[|events| - 1]);
    }
  }

  lemma ToolCostsAgree(limits: Limits, r: Reservation, x: Result)
    requires EstimateOk(limits, r) && ActualOk(limits, r, x)
    ensures Cost(r.estimate, ToolCalls) == Cost(x.actual, ToolCalls)
  {
    assert r.estimate.tools == x.actual.tools;
    hide EstimateOk, ActualOk, Charge, Limits.ModelPrice, Limits.ToolPrice;
    ToolCost(r.estimate);
    ToolCost(x.actual);
  }

  lemma ToolCost(i: Increment)
    ensures Cost(i, ToolCalls) == i.tools
  {
  }

  /**
   * Tool calls never pass the cap on tool calls, of the execution or of any node, unless there were more
   * before the first budget event, and then none is added.
   */
  lemma ToolCallsStayWithinCap(limits: Limits, events: seq<Event>, b: Balance)
    requires AllGranted(limits, events) && Accepted(limits, events) && b.Caps(limits).tools.Some?
    ensures var tools, past := b.In(Replay(limits, events).value).tools, Base(limits, events, b, ToolCalls);
            var cap := b.Caps(limits).tools.value;
            if past > cap then tools == past else tools <= cap
  {
    hide Loop, AllGranted, EstimateOk, ActualOk, Cost, Late, Base;
    OvershootIsOneOperation(limits, events, b, ToolCalls);
    LoopResultsOk(limits, events);
    LateFrame(limits, Loop(limits, events).value, events);
    var l := Replay(limits, events).value;
    var cap := b.Caps(limits).tools.value;
    if Base(limits, events, b, ToolCalls) <= cap && Amount(b.In(l), ToolCalls) > cap {
      var r :| && r in l.results && b.Covers(r.node)
               && Amount(b.In(l), ToolCalls) + Cost(r.estimate, ToolCalls) <=
                  cap + Cost(l.results[r].actual, ToolCalls);
      ToolCostsAgree(limits, r, l.results[r]);
    }
  }

  // ---------- an exceeded balance is closed for good ----------

  lemma ExceededGrows(limits: LimitSet, s: Totals, t: Totals)
    requires forall p :: BudgetConservation.Of(s, p) <= BudgetConservation.Of(t, p)
    requires Exceeded(limits, Usage(s)) != {}
    ensures Exceeded(limits, Usage(t)) != {}
  {
    var d :| d in Exceeded(limits, Usage(s));
    assert BudgetConservation.Of(s, PromptPart) <= BudgetConservation.Of(t, PromptPart);
    assert BudgetConservation.Of(s, CompletionPart) <= BudgetConservation.Of(t, CompletionPart);
    assert BudgetConservation.Of(s, ToolPart) <= BudgetConservation.Of(t, ToolPart);
    assert BudgetConservation.Of(s, DurationPart) <= BudgetConservation.Of(t, DurationPart);
    assert BudgetConservation.Of(s, AttemptPart) <= BudgetConservation.Of(t, AttemptPart);
    assert BudgetConservation.Of(s, CostPart) <= BudgetConservation.Of(t, CostPart);
    assert BudgetConservation.Of(s, UnpricedPart) <= BudgetConservation.Of(t, UnpricedPart);
    var e := if d == CostUsd && Usage(t).cost.None? then CostUnavailable else d;
    EveryDim(e);
    assert e in Exceeded(limits, Usage(t));
  }

  lemma AddGrows(t: Totals, i: Increment, p: Part)
    ensures BudgetConservation.Of(t, p) <= BudgetConservation.Of(Add(t, i), p)
  {
  }

  lemma BelowIn(l: Ledger, m: Ledger, b: Balance, p: Part)
    requires Below(l, m)
    ensures BudgetConservation.Of(b.In(l), p) <= BudgetConservation.Of(b.In(m), p)
  {
  }

  /** Once usage exceeds a balance, no later request for a reservation in it is granted. */
  lemma ExceededIsClosed(
    limits: Limits, events: seq<Event>, more: seq<Event>, b: Balance, v: View, now: int,
    resource: Resource, prompt: nat)
    requires events <= more && Accepted(limits, events) && b.Covers(v.node)
    requires Exceeded(b.Caps(limits), Usage(b.In(Replay(limits, events).value))) != {}
    ensures !Reserve(limits, more, v, now, resource, prompt).answer.Held?
  {
    hide Exceeded, Usage, BudgetConservation.Of, Below, Estimate, CountOps, NodeTotals, Add, Limits.ForNode;
    if Reserve(limits, more, v, now, resource, prompt).answer.Held? {
      var m, r := Replay(limits, more).value, Planned(limits, more, v, resource, prompt);
      JournalGrows(limits, events, more);
      hide Replay, Loop, Late, Judged;
      var l := Replay(limits, events).value;
      forall p ensures BudgetConservation.Of(b.In(l), p) <= BudgetConservation.Of(Add(b.In(m), r.estimate), p) {
        BelowIn(l, m, b, p);
        AddGrows(b.In(m), r.estimate, p);
      }
      ExceededGrows(b.Caps(limits), b.In(l), Add(b.In(m), r.estimate));
      NoneExceeded(limits, m, v, r);
    }
  }
}
