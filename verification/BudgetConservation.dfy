/** What holds of every journal the strict replay accepts: reservations balance, execution usage
    is the sum of node usages, usage never shrinks, tool calls consume distinct reservations. */
module BudgetConservation {
  import opened Common
  import opened BudgetText
  import opened BudgetModel

  /** The additive components of usage. */
  datatype Part = PromptPart | CompletionPart | ToolPart | DurationPart | AttemptPart | CostPart | UnpricedPart

  function Of(t: Totals, p: Part): nat {
    match p
    case PromptPart => t.prompt
    case CompletionPart => t.completion
    case ToolPart => t.tools
    case DurationPart => t.duration
    case AttemptPart => t.attempts
    case CostPart => t.known
    case UnpricedPart => t.unpriced
  }

  function OfIncrement(i: Increment, p: Part): nat { Of(Add(ZERO, i), p) }

  // ---------- sums over nodes ----------

  ghost function SumOver(m: map<NodeId, Totals>, keys: set<NodeId>, p: Part): nat
    requires keys <= m.Keys
  {
    if keys == {} then 0
    else var k :| k in keys; Of(m[k], p) + SumOver(m, keys - {k}, p)
  }

  lemma {:induction false} SumPick(m: map<NodeId, Totals>, keys: set<NodeId>, k: NodeId, p: Part)
    requires keys <= m.Keys && k in keys
    ensures SumOver(m, keys, p) == Of(m[k], p) + SumOver(m, keys - {k}, p)
  {
    var j :| j in keys && SumOver(m, keys, p) == Of(m[j], p) + SumOver(m, keys - {j}, p);
    if j != k {
      SumPick(m, keys - {j}, k, p);
      SumPick(m, keys - {k}, j, p);
      assert keys - {j} - {k} == keys - {k} - {j};
    }
  }

  lemma {:induction false} SumAgree(m: map<NodeId, Totals>, n: map<NodeId, Totals>, keys: set<NodeId>, p: Part)
    requires keys <= m.Keys && keys <= n.Keys
    requires forall k :: k in keys ==> m[k] == n[k]
    ensures SumOver(m, keys, p) == SumOver(n, keys, p)
  {
    if keys != {} {
      var k :| k in keys;
      SumPick(m, keys, k, p);
      SumPick(n, keys, k, p);
      SumAgree(m, n, keys - {k}, p);
    }
  }

  ghost predicate Conserved(l: Ledger) {
    forall p :: Of(l.exec, p) == SumOver(l.nodes, l.nodes.Keys, p)
  }

  lemma ChargeConserves(l: Ledger, id: NodeId, i: Increment)
    requires Conserved(l)
    ensures Conserved(Charged(l, id, i))
  {
    var n := Charged(l, id, i);
    forall p ensures Of(n.exec, p) == SumOver(n.nodes, n.nodes.Keys, p) {
      assert Of(n.exec, p) == Of(l.exec, p) + OfIncrement(i, p);
      SumPick(n.nodes, n.nodes.Keys, id, p);
      var others := n.nodes.Keys - {id};
      SumAgree(l.nodes, n.nodes, others, p);
      if id in l.nodes {
        SumPick(l.nodes, l.nodes.Keys, id, p);
        assert l.nodes.Keys - {id} == others;
      } else {
        assert l.nodes.Keys == others;
      }
    }
  }

  // ---------- the loop ----------

  ghost predicate LoopInv(l: Ledger) {
    && Conserved(l)
    && (forall r, s :: r in l.active && s in l.active ==> r == s)
    && l.active !! l.closed
    && (forall r :: r in l.results ==> r in l.closed)
    && l.exec.attempts == 0 && (forall id :: id in l.nodes ==> l.nodes[id].attempts == 0)
    && (!l.started ==> l.dispatched == map[] && l.active == {})
  }

  lemma NextKeeps(limits: Limits, l: Ledger, e: Event)
    requires LoopInv(l) && Accepts(limits, l, e)
    ensures LoopInv(Next(limits, l, e))
  {
    if e.body.Committed? { ChargeConserves(l, e.body.result.reservation.node, e.body.result.actual); }
    hide SumOver;
  }

  lemma {:induction false} LoopKeeps(limits: Limits, events: seq<Event>)
    ensures Loop(limits, events).Some? ==> LoopInv(Loop(limits, events).value)
  {
    if events != [] {
      LoopKeeps(limits, events[..|events| - 1]);
      var before := Loop(limits, events[..|events| - 1]);
      if Loop(limits, events).Some? { NextKeeps(limits, before.value, events[|events| - 1]); }
    }
  }

  lemma {:induction false} LateConserves(l: Ledger, events: seq<Event>)
    requires Conserved(l)
    ensures Conserved(WithAttempts(l, events)) && Conserved(WithGates(l, events))
  {
    if events != [] {
      var init, e := events[..|events| - 1], events[|events| - 1];
      LateConserves(l, init);
      hide Conserved;
      if AttemptOf(e).Some? { ChargeConserves(WithAttempts(l, init), AttemptOf(e).value.node, ONE_ATTEMPT); }
      if e.body.GateRecorded? {
        ChargeConserves(WithGates(l, init), GateNode(e.body.gate), Duration(GateDuration(OpenGates(init), e)));
      }
    }
  }

  lemma {:induction false} SharesConserve(l: Ledger, shares: seq<Share>)
    requires Conserved(l)
    ensures Conserved(ChargeAll(l, shares))
  {
    if shares != [] {
      var init, s := shares[..|shares| - 1], shares[|shares| - 1];
      SharesConserve(l, init);
      hide Conserved;
      ChargeConserves(ChargeAll(l, init), s.node, s.usage);
    }
  }

  /** Execution usage is the sum of all node usages, in every component, whatever the pass. */
  lemma UsageIsConserved(limits: Limits, events: seq<Event>, p: Part)
    requires Accepted(limits, events)
    ensures var l := Replay(limits, events).value;
            Of(l.exec, p) == SumOver(l.nodes, l.nodes.Keys, p)
  {
    LoopKeeps(limits, events);
    var l := Loop(limits, events).value;
    LateConserves(l, events);
    LateConserves(WithAttempts(l, events), events);
    SharesConserve(WithGates(WithAttempts(l, events), events), History(limits, events));
  }

  // ---------- reservations balance ----------

  function CountReserved(events: seq<Event>): nat {
    if events == [] then 0
    else CountReserved(events[..|events| - 1]) + if events[|events| - 1].body.Reserved? then 1 else 0
  }

  function CountClosing(events: seq<Event>): nat {
    if events == [] then 0
    else
      CountClosing(events[..|events| - 1]) +
      if events[|events| - 1].body.Committed? || events[|events| - 1].body.Released? then 1 else 0
  }

  lemma NextBalances(limits: Limits, l: Ledger, e: Event)
    requires LoopInv(l) && Accepts(limits, l, e) && |l.active| <= 1
    ensures var n := Next(limits, l, e);
            && |n.active| <= 1
            && |l.active| + (if e.body.Reserved? then 1 else 0) ==
               |n.active| + (if e.body.Committed? || e.body.Released? then 1 else 0)
  {
    if |l.active| == 1 {
      var r :| r in l.active;
      assert l.active == {r};
    }
  }

  /** Every accepted journal has as many closings as reservations, except for at most one active. */
  lemma {:induction false} ReservationsBalance(limits: Limits, events: seq<Event>)
    requires Loop(limits, events).Some?
    ensures CountReserved(events) == CountClosing(events) + |Loop(limits, events).value.active|
    ensures |Loop(limits, events).value.active| <= 1
  {
    if events != [] {
      ReservationsBalance(limits, events[..|events| - 1]);
      LoopKeeps(limits, events[..|events| - 1]);
      hide LoopInv, Accepts, Next;
      NextBalances(limits, Loop(limits, events[..|events| - 1]).value, events[|events| - 1]);
    }
  }

  // ---------- usage is monotone ----------

  ghost predicate Below(l: Ledger, m: Ledger) {
    && (forall p :: Of(l.exec, p) <= Of(m.exec, p))
    && (forall id, p :: Of(NodeTotals(l, id), p) <= Of(NodeTotals(m, id), p))
    && l.evidence <= m.evidence && l.closed <= m.closed && l.nodes.Keys <= m.nodes.Keys
  }

  lemma ChargeGrows(l: Ledger, id: NodeId, i: Increment)
    ensures Below(l, Charged(l, id, i))
  {
  }

  lemma NextGrows(limits: Limits, l: Ledger, e: Event)
    requires Accepts(limits, l, e)
    ensures Below(l, Next(limits, l, e))
  {
    if e.body.Committed? { ChargeGrows(l, e.body.result.reservation.node, e.body.result.actual); }
  }

  lemma {:induction false} LateMonotone(l: Ledger, m: Ledger, events: seq<Event>)
    requires Below(l, m)
    ensures Below(WithAttempts(l, events), WithAttempts(m, events))
    ensures Below(WithGates(l, events), WithGates(m, events))
  {
    if events != [] {
      var init, e := events[..|events| - 1], events[|events| - 1];
      LateMonotone(l, m, init);
      hide Below;
      if AttemptOf(e).Some? {
        ChargeMonotone(WithAttempts(l, init), WithAttempts(m, init), AttemptOf(e).value.node, ONE_ATTEMPT);
      }
      if e.body.GateRecorded? {
        ChargeMonotone(WithGates(l, init), WithGates(m, init), GateNode(e.body.gate),
                       Duration(GateDuration(OpenGates(init), e)));
      }
    }
  }

  lemma {:induction false} SharesMonotone(l: Ledger, m: Ledger, shares: seq<Share>)
    requires Below(l, m)
    ensures Below(ChargeAll(l, shares), ChargeAll(m, shares))
  {
    if shares != [] {
      var init, s := shares[..|shares| - 1], shares[|shares| - 1];
      SharesMonotone(l, m, init);
      hide Below;
      ChargeMonotone(ChargeAll(l, init), ChargeAll(m, init), s.node, s.usage);
    }
  }

  lemma {:induction false} SharesGrow(l: Ledger, shares: seq<Share>, more: seq<Share>)
    requires shares <= more
    ensures Below(ChargeAll(l, shares), ChargeAll(l, more))
  {
    if shares == more {
      BelowRefl(ChargeAll(l, more));
    } else {
      var init, s := more[..|more| - 1], more[|more| - 1];
      SharesGrow(l, shares, init);
      hide Below;
      ChargeGrows(ChargeAll(l, init), s.node, s.usage);
      BelowTrans(ChargeAll(l, shares), ChargeAll(l, init), ChargeAll(l, more));
    }
  }

  // ---------- historical usage of a longer journal ----------

  lemma UnbudgetedStep(events: seq<Event>, e: Event)
    ensures Unbudgeted(events + [e]) <==> Unbudgeted(events) && !e.body.IsBudget()
  {
    var all := events + [e];
    assert e in all && forall x :: x in events ==> x in all;
  }

  /** The events before the first budget event stay what they are once there is a budget event. */
  lemma BeforeStep(events: seq<Event>, e: Event)
    ensures Before(events + [e]) == if Unbudgeted(events) && !e.body.IsBudget() then events + [e] else Before(events)
  {
    UnbudgetedStep(events, e);
    hide Unbudgeted;
    assert (events + [e])[..|events|] == events;
  }

  lemma {:induction false} CallsAppend(limits: Limits, p: Past, node: NodeId, calls: seq<PastCall>)
    requires AfterCalls(limits, p, node, calls).Some?
    ensures p.shares <= AfterCalls(limits, p, node, calls).value.shares
  {
    if calls != [] { CallsAppend(limits, p, node, calls[..|calls| - 1]); }
  }

  lemma EventAppends(limits: Limits, p: Past, e: Event)
    requires AfterEvent(limits, p, e).Some?
    ensures p.shares <= AfterEvent(limits, p, e).value.shares
  {
    if e.body.NodeEnded? {
      CallsAppend(limits, AfterRunning(p, AttemptKey(e.body.node, e.body.attempt), e.at), e.body.node, e.body.calls);
    }
    hide AfterCalls, PastModelUsage, PastToolUsage;
  }

  /** Historical usage of an accepted journal only grows, and not at all once there is a budget event. */
  lemma HistoryGrows(limits: Limits, events: seq<Event>, e: Event)
    requires PastOf(limits, Before(events + [e])).Some?
    ensures PastOf(limits, Before(events)).Some? && History(limits, events) <= History(limits, events + [e])
    ensures !Unbudgeted(events) || e.body.IsBudget() ==> History(limits, events + [e]) == History(limits, events)
  {
    BeforeStep(events, e);
    hide Unbudgeted;
    if Before(events + [e]) == events + [e] && events + [e] != Before(events) {
      assert (events + [e])[..|events|] == events;
      EventAppends(limits, PastOf(limits, events).value, e);
    }
  }

  /** One more event can only add usage in the passes after the loop. */
  lemma LateGrows(limits: Limits, l: Ledger, events: seq<Event>, e: Event)
    requires PastOf(limits, Before(events + [e])).Some?
    ensures Below(Late(limits, l, events), Late(limits, l, events + [e]))
  {
    var all := events + [e];
    assert all[..|events|] == events;
    hide Below, History;
    var w, x := WithAttempts(l, events), WithAttempts(l, all);
    BelowRefl(w);
    if AttemptOf(e).Some? { ChargeGrows(w, AttemptOf(e).value.node, ONE_ATTEMPT); }
    LateMonotone(w, x, events);
    var g := WithGates(x, events);
    BelowRefl(g);
    if e.body.GateRecorded? {
      ChargeGrows(g, GateNode(e.body.gate), Duration(GateDuration(OpenGates(events), e)));
    }
    BelowTrans(WithGates(w, events), g, WithGates(x, all));
    HistoryGrows(limits, events, e);
    SharesMonotone(WithGates(w, events), WithGates(x, all), History(limits, events));
    SharesGrow(WithGates(x, all), History(limits, events), History(limits, all));
    BelowTrans(Late(limits, l, events), ChargeAll(WithGates(x, all), History(limits, events)), Late(limits, l, all));
  }

  lemma BelowRefl(l: Ledger)
    ensures Below(l, l)
  {
  }

  lemma NodeCharged(l: Ledger, id: NodeId, i: Increment, k: NodeId, p: Part)
    ensures Of(NodeTotals(Charged(l, id, i), k), p) ==
            Of(NodeTotals(l, k), p) + if k == id then OfIncrement(i, p) else 0
  {
  }

  lemma ChargeMonotone(l: Ledger, m: Ledger, id: NodeId, i: Increment)
    requires Below(l, m)
    ensures Below(Charged(l, id, i), Charged(m, id, i))
  {
    var x, y := Charged(l, id, i), Charged(m, id, i);
    forall p ensures Of(x.exec, p) <= Of(y.exec, p) {
      assert Of(l.exec, p) <= Of(m.exec, p);
    }
    hide Of, OfIncrement, Charged;
    forall k, p ensures Of(NodeTotals(x, k), p) <= Of(NodeTotals(y, k), p) {
      NodeCharged(l, id, i, k, p);
      NodeCharged(m, id, i, k, p);
      assert Of(NodeTotals(l, k), p) <= Of(NodeTotals(m, k), p);
    }
    ChargedShape(l, id, i);
    ChargedShape(m, id, i);
  }

  lemma ChargedShape(l: Ledger, id: NodeId, i: Increment)
    ensures var n := Charged(l, id, i);
            n.evidence == l.evidence && n.closed == l.closed && n.nodes.Keys == l.nodes.Keys + {id}
  {
  }

  /** What accepting one more event says about the journal before it. */
  lemma ReplayStep(limits: Limits, events: seq<Event>, e: Event)
    requires Accepted(limits, events + [e])
    ensures Accepted(limits, events) && Loop(limits, events).Some?
    ensures Accepts(limits, Loop(limits, events).value, e) && PastOf(limits, Before(events + [e])).Some?
    ensures Replay(limits, events) == Some(Late(limits, Loop(limits, events).value, events))
    ensures Replay(limits, events + [e]) ==
            Some(Late(limits, Next(limits, Loop(limits, events).value, e), events + [e]))
  {
    hide Accepts, Next, Late;
    assert (events + [e])[..|events|] == events;
    HistoryGrows(limits, events, e);
  }

  lemma LateBelow(limits: Limits, l: Ledger, m: Ledger, events: seq<Event>)
    requires Below(l, m)
    ensures Below(Late(limits, l, events), Late(limits, m, events))
  {
    hide Below;
    LateMonotone(l, m, events);
    LateMonotone(WithAttempts(l, events), WithAttempts(m, events), events);
    SharesMonotone(
      WithGates(WithAttempts(l, events), events), WithGates(WithAttempts(m, events), events), History(limits, events));
  }

  /** Appending an accepted event never lowers any component of any usage. */
  lemma UsageIsMonotone(limits: Limits, events: seq<Event>, e: Event)
    requires Accepted(limits, events + [e])
    ensures Accepted(limits, events) && Below(Replay(limits, events).value, Replay(limits, events + [e]).value)
  {
    hide Below, Accepts, Next, Late, Loop, Replay, Accepted;
    ReplayStep(limits, events, e);
    var l := Loop(limits, events).value;
    var m := Next(limits, l, e);
    NextGrows(limits, l, e);
    LateBelow(limits, l, m, events);
    LateGrows(limits, m, events, e);
    BelowTrans(Late(limits, l, events), Late(limits, m, events), Late(limits, m, events + [e]));
  }

  /** Every earlier journal of an accepted one is accepted, with no more usage. */
  lemma {:induction false} JournalGrows(limits: Limits, events: seq<Event>, more: seq<Event>)
    requires Accepted(limits, more) && events <= more
    ensures Accepted(limits, events) && Below(Replay(limits, events).value, Replay(limits, more).value)
    decreases |more|
  {
    hide Replay, Below;
    if events == more { BelowRefl(Replay(limits, events).value); }
    else {
      var init, e := more[..|more| - 1], more[|more| - 1];
      assert init + [e] == more;
      UsageIsMonotone(limits, init, e);
      hide Accepted;
      JournalGrows(limits, events, init);
      BelowTrans(Replay(limits, events).value, Replay(limits, init).value, Replay(limits, more).value);
    }
  }

  lemma BelowTrans(a: Ledger, b: Ledger, c: Ledger)
    requires Below(a, b) && Below(b, c)
    ensures Below(a, c)
  {
    forall p ensures Of(a.exec, p) <= Of(c.exec, p) { assert Of(a.exec, p) <= Of(b.exec, p); }
    forall id, p ensures Of(NodeTotals(a, id), p) <= Of(NodeTotals(c, id), p) {
      assert Of(NodeTotals(a, id), p) <= Of(NodeTotals(b, id), p);
    }
  }

  // ---------- tool calls consume distinct reservations ----------

  /** The reservation a tool call at position `i` runs under. */
  ghost predicate RunsUnder(limits: Limits, events: seq<Event>, i: nat, r: Reservation)
    requires i < |events|
  {
    && events[i].body.ToolCalled?
    && Loop(limits, events[..i]).Some? && Loop(limits, events[..i]).value.started
    && var b := events[i].body; Dispatchable(Loop(limits, events[..i]).value, b.node, b.attempt, b.tool, r)
  }

  /** `r` was used by a tool call: it stays dispatched until it is closed, and closed for ever after. */
  ghost predicate Spent(l: Ledger, r: Reservation) {
    r in l.closed || (exists k :: k in l.dispatched && l.dispatched[k].reservation == r)
  }

  lemma SpentStays(limits: Limits, l: Ledger, e: Event, r: Reservation)
    requires LoopInv(l) && Accepts(limits, l, e) && Spent(l, r)
    ensures Spent(Next(limits, l, e), r)
  {
    var n := Next(limits, l, e);
    if r !in l.closed {
      var k :| k in l.dispatched && l.dispatched[k].reservation == r;
      match e.body
      case ToolEnded(node, attempt, callId, _, _, _, _) =>
        if k != CallKey(node, attempt, callId) { assert k in n.dispatched && n.dispatched[k].reservation == r; }
      case _ => assert k in n.dispatched && n.dispatched[k].reservation == r;
    }
  }

  lemma {:induction false} SpentFrom(limits: Limits, events: seq<Event>, i: nat, j: nat, r: Reservation)
    requires i < j <= |events| && Loop(limits, events[..j]).Some? && RunsUnder(limits, events, i, r)
    ensures Spent(Loop(limits, events[..j]).value, r)
  {
    assert events[..j][..j - 1] == events[..j - 1];
    LoopKeeps(limits, events[..j - 1]);
    var l := Loop(limits, events[..j - 1]).value;
    if i == j - 1 {
      var b := events[i].body;
      var n := Next(limits, l, events[i]);
      var k := CallKey(b.node, b.attempt, b.callId);
      assert k in n.dispatched && Dispatchable(l, b.node, b.attempt, b.tool, n.dispatched[k].reservation);
    } else {
      SpentFrom(limits, events, i, j - 1, r);
      SpentStays(limits, l, events[j - 1], r);
    }
  }

  lemma {:induction false} StartedAfterBudget(limits: Limits, events: seq<Event>, k: nat)
    requires Loop(limits, events).Some? && k < |events| && events[k].body.IsBudget()
    ensures Loop(limits, events).value.started
  {
    if k < |events| - 1 { StartedAfterBudget(limits, events[..|events| - 1], k); }
  }

  /** After the first budget event, every accepted tool call runs under an active reservation... */
  lemma ToolCallsAreCovered(limits: Limits, events: seq<Event>, i: nat, k: nat)
    requires Loop(limits, events).Some? && k < i < |events|
    requires events[k].body.IsBudget() && events[i].body.ToolCalled?
    ensures exists r :: RunsUnder(limits, events, i, r)
  {
    PrefixLoops(limits, events, i);
    PrefixLoops(limits, events, i + 1);
    assert events[..i + 1][..i] == events[..i];
    StartedAfterBudget(limits, events[..i], k);
    hide Loop, LoopInv;
    var l, b := Loop(limits, events[..i]).value, events[i].body;
    AcceptedAt(limits, events, i);
    var r0 :| Dispatchable(l, b.node, b.attempt, b.tool, r0);
    assert RunsUnder(limits, events, i, r0);
  }

  lemma AcceptedAt(limits: Limits, events: seq<Event>, i: nat)
    requires i < |events| && Loop(limits, events[..i + 1]).Some?
    ensures Loop(limits, events[..i]).Some? && Accepts(limits, Loop(limits, events[..i]).value, events[i])
  {
    assert events[..i + 1][..i] == events[..i];
  }

  /** ... and no two tool calls share one. */
  lemma ToolCallsAreDistinct(limits: Limits, events: seq<Event>, i: nat, j: nat, r: Reservation)
    requires Loop(limits, events).Some? && i < j < |events|
    requires RunsUnder(limits, events, i, r)
    ensures !RunsUnder(limits, events, j, r)
  {
    if RunsUnder(limits, events, j, r) {
      PrefixLoops(limits, events, j + 1);
      AcceptedAt(limits, events, j);
      SpentFrom(limits, events, i, j, r);
      LoopKeeps(limits, events[..j]);
    }
  }

  lemma {:induction false} PrefixLoops(limits: Limits, events: seq<Event>, k: nat)
    requires Loop(limits, events).Some? && k <= |events|
    ensures Loop(limits, events[..k]).Some?
  {
    if k == |events| { assert events[..k] == events; }
    else {
      PrefixLoops(limits, events[..|events| - 1], k);
      assert events[..|events| - 1][..k] == events[..k];
    }
  }
}
