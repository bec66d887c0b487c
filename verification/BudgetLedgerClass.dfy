/** The replaying ledger as the object the boundary works with, proved against the replay it specifies. */
module BudgetLedgerClass {
  import opened Common
  import opened BudgetText
  import opened BudgetModel
  import opened BudgetConservation
  import opened BudgetBoundary

  lemma SingletonSet<T>(s: set<T>)
    ensures |s| == 1 <==> s != {} && forall x, y :: x in s && y in s ==> x == y
  {
    if |s| == 1 {
      var x :| x in s;
      assert |s - {x}| == 0;
      assert s == {x};
    } else if s != {} && forall x, y :: x in s && y in s ==> x == y {
      var x :| x in s;
      assert s == {x};
    }
  }

  /** The order in which estimates are added up does not matter. */
  lemma {:induction false} PendingPick(t: Totals, rs: set<Reservation>, r: Reservation)
    requires r in rs
    ensures Pending(t, rs) == Add(Pending(t, rs - {r}), r.estimate)
    decreases |rs|
  {
    var s :| s in rs && Pending(t, rs) == Add(Pending(t, rs - {s}), s.estimate);
    if s != r {
      PendingPick(t, rs - {s}, r);
      PendingPick(t, rs - {r}, s);
      assert rs - {s} - {r} == rs - {r} - {s};
      AddCommutes(Pending(t, rs - {s} - {r}), r.estimate, s.estimate);
    }
  }

  lemma AddCommutes(t: Totals, i: Increment, j: Increment)
    ensures Add(Add(t, i), j) == Add(Add(t, j), i)
  {
  }

  class BudgetLedger {
    const limits: Limits
    var active: set<Reservation>
    var closed: set<Reservation>
    var results: map<Reservation, Result>
    var exec: Totals
    var nodes: map<NodeId, Totals>
    var evidence: set<Item>
    var lastAt: Option<int>
    var lastToken: nat
    var dispatched: map<CallKey, Dispatch>
    var started: bool

    ghost function Contents(): Ledger
      reads this
    {
      Ledger(active, closed, results, exec, nodes, evidence, lastAt, lastToken, dispatched, started)
    }

    constructor (limits: Limits)
      ensures this.limits == limits && Contents() == EMPTY_LEDGER
    {
      this.limits := limits;
      active, closed, results, exec, nodes, evidence := {}, {}, map[], ZERO, map[], {};
      lastAt, lastToken, dispatched, started := None, 0, map[], false;
    }

    /** Add an increment to the execution and to its node, which appears with its first increment. */
    method Charge(id: NodeId, i: Increment)
      modifies this
      ensures Contents() == Charged(old(Contents()), id, i)
    {
      hide Add;
      if id !in nodes { nodes := nodes[id := ZERO]; }
      exec := Add(exec, i);
      nodes := nodes[id := Add(nodes[id], i)];
      assert nodes == old(nodes)[id := Add(NodeTotals(old(Contents()), id), i)];
    }

    // ---------- the loop, one event at a time ----------

    method ObserveReserved(at: int, r: Reservation) returns (ok: bool)
      modifies this
      ensures ok == Accepts(limits, old(Contents()), Event(at, Reserved(r)))
      ensures ok ==> Contents() == Next(limits, old(Contents()), Event(at, Reserved(r)))
    {
      hide EstimateOk;
      started := true;
      if lastAt.Some? && at < lastAt.value { return false; }
      lastAt := Some(at);
      if !Named(r.node, r.attempt, r.token) || r.limits != limits || r.token < lastToken { return false; }
      lastToken := r.token;
      if r in active || r in closed || active != {} || !EstimateOk(limits, r) { return false; }
      active := active + {r};
      ok := true;
    }

    method ObserveCommitted(at: int, x: Result) returns (ok: bool)
      modifies this
      ensures ok == Accepts(limits, old(Contents()), Event(at, Committed(x)))
      ensures ok ==> Contents() == Next(limits, old(Contents()), Event(at, Committed(x)))
    {
      hide ActualOk, Charged;
      started := true;
      if lastAt.Some? && at < lastAt.value { return false; }
      lastAt := Some(at);
      var r := x.reservation;
      if x.identity.limits != limits || r !in active || x.identity != IdentityOf(r) { return false; }
      if !ActualOk(limits, r, x) { return false; }
      ghost var before := Contents();
      Charge(r.node, x.actual);
      ChargedFrame(before, r.node, x.actual);
      results := results[r := x];
      active := active - {r};
      if r in closed { return false; }
      closed := closed + {r};
      ok := true;
    }

    method ObserveReleased(at: int, r: Reservation, identity: Identity) returns (ok: bool)
      modifies this
      ensures ok == Accepts(limits, old(Contents()), Event(at, Released(r, identity)))
      ensures ok ==> Contents() == Next(limits, old(Contents()), Event(at, Released(r, identity)))
    {
      started := true;
      if lastAt.Some? && at < lastAt.value { return false; }
      lastAt := Some(at);
      if identity.limits != limits || r !in active || identity != IdentityOf(r) { return false; }
      active := active - {r};
      if r in closed { return false; }
      closed := closed + {r};
      ok := true;
    }

    method ObserveExhausted(at: int, v: Evidence) returns (ok: bool)
      modifies this
      ensures ok == Accepts(limits, old(Contents()), Event(at, Exhausted(v)))
      ensures ok ==> Contents() == Next(limits, old(Contents()), Event(at, Exhausted(v)))
    {
      hide Snapshot, LocalNames, ScopeIn, NamesOf, ItemsOf, ReadsOff, OwnTextListed;
      started := true;
      if lastAt.Some? && at < lastAt.value { return false; }
      lastAt := Some(at);
      if v.names == {} || !Named(v.identity.node, v.identity.attempt, v.identity.token) { return false; }
      if v.identity.limits != limits || v.identity.token < lastToken { return false; }
      lastToken := v.identity.token;
      if !(v.names <= NamesOf(DIMS)) { return false; }
      if v.reservation.Some? {
        if v.reservation.value !in results || v.identity != results[v.reservation.value].identity { return false; }
        var texts := SnapshotTexts();
        SameSnapshot(limits, Contents(), old(Contents()));
        ReadsAreNames(limits, old(Contents()), v.identity.node);
        var id := v.identity.node;
        if v.scope != ScopeIn(texts, id) || v.names != LocalNames(texts, id) { return false; }
      }
      evidence := evidence + ItemsOf(v);
      ok := true;
    }

    method ObserveToolCalled(at: int, node: NodeId, attempt: nat, callId: string, tool: string) returns (ok: bool)
      modifies this
      ensures ok == Accepts(limits, old(Contents()), Event(at, ToolCalled(node, attempt, callId, tool)))
      ensures ok ==> Contents() == Next(limits, old(Contents()), Event(at, ToolCalled(node, attempt, callId, tool)))
    {
      if !started { return true; }
      var matches := set r | r in active && r.node == node && r.attempt == attempt && r.resource == ToolCall(tool);
      assert forall r :: r in matches <==> Dispatchable(Contents(), node, attempt, tool, r);
      SingletonSet(matches);
      if |matches| != 1 { return false; }
      var r :| r in matches;
      var key := CallKey(node, attempt, callId);
      if key in dispatched || exists k :: k in dispatched && dispatched[k].reservation == r { return false; }
      dispatched := dispatched[key := Dispatch(r, tool)];
      ok := true;
    }

    method ObserveToolEnded(
        at: int, node: NodeId, attempt: nat, callId: string, tool: string, done: bool, duration: nat, cost: Option<nat>)
      returns (ok: bool)
      requires !started ==> dispatched == map[]
      modifies this
      ensures ok == Accepts(limits, old(Contents()),
              Event(at, ToolEnded(node, attempt, callId, tool, done, duration, cost)))
      ensures ok ==>
                Contents() ==
                Next(limits, old(Contents()), Event(at, ToolEnded(node, attempt, callId, tool, done, duration, cost)))
    {
      var key := CallKey(node, attempt, callId);
      if !started {
        assert dispatched - {key} == dispatched;
        return true;
      }
      if key !in dispatched { return false; }
      var d := dispatched[key];
      dispatched := dispatched - {key};
      if d.tool != tool || d.reservation !in results { return false; }
      var x := results[d.reservation];
      ok := done == x.ok && duration == x.actual.duration && cost == x.actual.cost;
    }

    method Observe(e: Event) returns (ok: bool)
      requires !started ==> dispatched == map[]
      modifies this
      ensures ok == Accepts(limits, old(Contents()), e)
      ensures ok ==> Contents() == Next(limits, old(Contents()), e) && (!started ==> dispatched == map[])
    {
      StartedStays(limits, Contents(), e);
      hide Accepts, Next;
      match e.body
      case Reserved(r) => ok := ObserveReserved(e.at, r);
      case Committed(x) => ok := ObserveCommitted(e.at, x);
      case Released(r, identity) => ok := ObserveReleased(e.at, r, identity);
      case Exhausted(v) => ok := ObserveExhausted(e.at, v);
      case ToolCalled(node, attempt, callId, tool) => ok := ObserveToolCalled(e.at, node, attempt, callId, tool);
      case ToolEnded(node, attempt, callId, tool, done, duration, cost) =>
        ok := ObserveToolEnded(e.at, node, attempt, callId, tool, done, duration, cost);
      case _ =>
        OthersPass(limits, Contents(), e);
        ok := true;
    }

    // ---------- the passes after the loop ----------

    method ReplayAttempts(events: seq<Event>) returns (ok: bool)
      modifies this
      ensures ok == SeenAttempts(events).Some?
      ensures ok ==> Contents() == WithAttempts(old(Contents()), events)
    {
      hide Charged, AttemptOf;
      var seen: set<AttemptKey> := {};
      var i := 0;
      while i < |events|
        invariant 0 <= i <= |events| && SeenAttempts(events[..i]) == Some(seen)
        invariant Contents() == WithAttempts(old(Contents()), events[..i])
      {
        assert events[..i + 1][..i] == events[..i];
        var key := AttemptOf(events[i]);
        if key.Some? {
          if key.value.node == "" || key.value.attempt < 1 || key.value in seen {
            SeenFails(events, i + 1);
            return false;
          }
          seen := seen + {key.value};
          Charge(key.value.node, ONE_ATTEMPT);
        }
        i := i + 1;
      }
      assert events[..i] == events;
      ok := true;
    }

    method ReplayVerification(events: seq<Event>) returns (ok: bool)
      modifies this
      ensures ok == OpenGates(events).Some?
      ensures ok ==> Contents() == WithGates(old(Contents()), events)
    {
      hide Charged, GateNode;
      var open: map<GateKey, int> := map[];
      var i := 0;
      while i < |events|
        invariant 0 <= i <= |events| && OpenGates(events[..i]) == Some(open)
        invariant Contents() == WithGates(old(Contents()), events[..i])
      {
        assert events[..i + 1][..i] == events[..i];
        match events[i].body {
          case GateStarted(gate, attempt, index) =>
            var key := GateKey(gate, attempt, index);
            if gate == "" || attempt < 1 || key in open { OpenFails(events, i + 1); return false; }
            open := open[key := events[i].at];
          case GateRecorded(gate, attempt, index, persisted) =>
            var key := GateKey(gate, attempt, index);
            if key !in open { OpenFails(events, i + 1); return false; }
            var since := events[i].at - open[key];
            open := open - {key};
            var ms := if persisted.Some? then persisted.value else if since > 0 then since / 1000 else 0;
            Charge(GateNode(gate), Duration(ms));
          case _ =>
        }
        i := i + 1;
      }
      assert events[..i] == events;
      ok := true;
    }

    /** A model call reported before the budget had a boundary. */
    method AddHistoricalModel(node: NodeId, c: PastCall, seen: set<string>) returns (ok: bool, responses: set<string>)
      modifies this
      ensures ok == (c.WellFormed() && c.response !in seen)
      ensures ok ==> responses == seen + {c.response}
      ensures ok ==> Contents() == Charged(old(Contents()), node, PastModelUsage(limits, c))
    {
      hide Charged;
      responses := seen;
      if c.response == "" || c.prompt < 0 || c.completion < 0 || c.total != c.prompt + c.completion {
        return false, seen;
      }
      if c.response in seen { return false, seen; }
      responses := seen + {c.response};
      var price := if c.provider.Some? && c.model.Some? then limits.ModelPrice(c.provider.value, c.model.value)
        else None;
      Charge(node, Increment(c.prompt, c.completion, 0, 0, 0, BudgetModel.Charge(price, c.prompt, c.completion),
                             if price.None? then 1 else 0));
      ok := true;
    }

    /** The model calls of one node, on top of what the pass has seen. */
    method AddHistoricalCalls(node: NodeId, calls: seq<PastCall>, seen: set<string>, ghost start: Ledger, ghost p: Past)
      returns (ok: bool, responses: set<string>, ghost after: Past)
      requires p.responses == seen && Contents() == ChargeAll(start, p.shares)
      modifies this
      ensures ok == AfterCalls(limits, p, node, calls).Some?
      ensures ok ==> AfterCalls(limits, p, node, calls) == Some(after) && after.responses == responses
      ensures ok ==> after.tools == p.tools && after.starts == p.starts && Contents() == ChargeAll(start, after.shares)
    {
      hide Charged, ChargeAll, PastModelUsage, PastCall.WellFormed;
      responses, after := seen, p;
      var i := 0;
      while i < |calls|
        invariant 0 <= i <= |calls| && AfterCalls(limits, p, node, calls[..i]) == Some(after)
        invariant after.responses == responses && after.tools == p.tools && after.starts == p.starts
        invariant Contents() == ChargeAll(start, after.shares)
      {
        assert calls[..i + 1][..i] == calls[..i];
        ok, responses := AddHistoricalModel(node, calls[i], responses);
        if !ok { CallsFail(limits, p, node, calls, i + 1); return; }
        ghost var share := Share(node, PastModelUsage(limits, calls[i]));
        OneMoreShare(start, after.shares, share);
        after := WithShare(after, share).(responses := responses);
        i := i + 1;
      }
      assert calls[..i] == calls;
      ok := true;
    }

    /** Usage from before the first budget event, which nothing was reserved for. */
    method ReplayHistoricalUsage(events: seq<Event>) returns (ok: bool)
      modifies this
      ensures ok == PastOf(limits, events).Some?
      ensures ok ==> Contents() == ChargeAll(old(Contents()), PastOf(limits, events).value.shares)
    {
      hide Charged, ChargeAll, PastModelUsage, PastToolUsage, AfterCalls;
      ghost var start, p := Contents(), NO_PAST;
      NoShares(start);
      var responses: set<string>, tools: set<CallKey>, starts: map<AttemptKey, int> := {}, {}, map[];
      var i := 0;
      while i < |events|
        invariant 0 <= i <= |events| && PastOf(limits, events[..i]) == Some(p)
        invariant p.responses == responses && p.tools == tools && p.starts == starts
        invariant Contents() == ChargeAll(start, p.shares)
      {
        assert events[..i + 1][..i] == events[..i];
        match events[i].body {
          case AttemptStarted(node, attempt) =>
            starts := starts[AttemptKey(node, attempt) := events[i].at];
            p := p.(starts := starts);
          case NodeEnded(node, attempt, calls) =>
            var key := AttemptKey(node, attempt);
            if key in starts {
              var since := events[i].at - starts[key];
              var ms := if since > 0 then since / 1000 else 0;
              Charge(node, Duration(ms));
              OneMoreShare(start, p.shares, Share(node, Duration(ms)));
            }
            ok, responses, p := AddHistoricalCalls(node, calls, responses, start, AfterRunning(p, key, events[i].at));
            if !ok { PastFails(limits, events, i + 1); return; }
          case PlanGenerated(call) =>
            ok, responses := AddHistoricalModel(PLANNING, call, responses);
            if !ok { PastFails(limits, events, i + 1); return; }
            OneMoreShare(start, p.shares, Share(PLANNING, PastModelUsage(limits, call)));
            p := WithShare(p, Share(PLANNING, PastModelUsage(limits, call))).(responses := responses);
          case ToolEnded(node, attempt, callId, tool, _, _, _) =>
            var key := CallKey(node, attempt, callId);
            if key in tools { PastFails(limits, events, i + 1); return false; }
            tools := tools + {key};
            Charge(node, PastToolUsage(limits, tool));
            OneMoreShare(start, p.shares, Share(node, PastToolUsage(limits, tool)));
            p := WithShare(p, Share(node, PastToolUsage(limits, tool))).(tools := tools);
          case _ =>
        }
        i := i + 1;
      }
      assert events[..i] == events;
      ok := true;
    }

    /** The loop over all events. */
    method ReplayEvents(events: seq<Event>) returns (ok: bool)
      requires Contents() == EMPTY_LEDGER
      modifies this
      ensures ok == Loop(limits, events).Some?
      ensures ok ==> Loop(limits, events) == Some(Contents())
    {
      hide Accepts, Next;
      var i := 0;
      while i < |events|
        invariant 0 <= i <= |events| && Loop(limits, events[..i]) == Some(Contents())
        invariant !started ==> dispatched == map[]
      {
        assert events[..i + 1][..i] == events[..i];
        ok := Observe(events[i]);
        if !ok { LoopFails(limits, events, i + 1); return; }
        i := i + 1;
      }
      assert events[..i] == events;
      ok := true;
    }

    /** The whole replay: accepted exactly when the specification accepts, and then with the same balances. */
    method ReplayAll(events: seq<Event>) returns (ok: bool)
      requires Contents() == EMPTY_LEDGER
      modifies this
      ensures ok == Accepted(limits, events)
      ensures ok ==> Contents() == Replay(limits, events).value
    {
      hide Loop, WithAttempts, WithGates, SeenAttempts, OpenGates, PastOf, ChargeAll, Before;
      var first := FirstBudgetIndex(events);
      ok := ReplayEvents(events);
      if !ok { return; }
      ok := ReplayAttempts(events);
      if !ok { return; }
      ok := ReplayVerification(events);
      if !ok { return; }
      ok := ReplayHistoricalUsage(events[..first]);
    }

    // ---------- balances ----------

    /** Every exceeded entry of the snapshot. */
    method ExceededItems() returns (items: set<Item>)
      ensures forall item :: item in items <==> Listed(limits, Contents(), item)
    {
      hide Exceeds, Usage;
      items := evidence + set d | d in DIMS && Exceeds(limits.execution, Usage(exec), d) :: Exec(d);
      forall d ensures d in DIMS { EveryDim(d); }
      var rest := nodes.Keys;
      while rest != {}
        invariant rest <= nodes.Keys
        invariant forall item :: item in items <==>
                    || item in evidence
                    || match item
                       case Exec(d) => Exceeds(limits.execution, Usage(exec), d)
                       case OfNode(id, d) =>
                         id in nodes && id !in rest && Exceeds(limits.ForNode(id), Usage(nodes[id]), d)
      {
        var id :| id in rest;
        var own := set d | d in DIMS && Exceeds(limits.ForNode(id), Usage(nodes[id]), d) :: OfNode(id, d);
        items, rest := items + own, rest - {id};
      }
    }

    /** The exceeded entries as the texts a snapshot lists. */
    method SnapshotTexts() returns (texts: set<string>)
      ensures texts == Snapshot(limits, Contents())
    {
      hide Listed, Entries, Texts;
      var items := ExceededItems();
      forall item ensures item in Entries(limits, Contents()) <==> item in items {
        EntriesAreListed(limits, Contents(), item);
      }
      assert items == Entries(limits, Contents());
      texts := Texts(items);
    }

    method SumOf(t: Totals, rs: set<Reservation>) returns (sum: Totals)
      ensures sum == Pending(t, rs)
    {
      hide Add;
      sum := t;
      var rest := rs;
      while rest != {}
        invariant rest <= rs && sum == Pending(t, rs - rest)
      {
        var r :| r in rest;
        PendingPick(t, rs - (rest - {r}), r);
        assert rs - (rest - {r}) - {r} == rs - rest;
        sum, rest := Add(sum, r.estimate), rest - {r};
      }
      assert rs - rest == rs;
    }

    method EnsureIncrement(node: NodeId, i: Increment) returns (denial: Option<Denial>)
      ensures denial == Shortfall(limits, Contents(), node, i)
    {
      hide Pending, Add, Usage, Exceeded, Limits.ForNode;
      var pending := SumOf(exec, active);
      var xs := Exceeded(limits.execution, Usage(Add(pending, i)));
      if xs != {} { return Some(Denial(ExecutionScope, xs)); }
      var own := set r | r in active && r.node == node;
      pending := SumOf(if node in nodes then nodes[node] else ZERO, own);
      var ns := Exceeded(limits.ForNode(node), Usage(Add(pending, i)));
      denial := if ns != {} then Some(Denial(NodeScope, ns)) else None;
    }
  }

  /** The index of the first budget event, or the length of the journal. */
  method FirstBudgetIndex(events: seq<Event>) returns (first: nat)
    ensures first <= |events| && events[..first] == Before(events)
  {
    first := 0;
    while first < |events| && !events[first].body.IsBudget()
      invariant first <= |events| && Unbudgeted(events[..first])
    {
      UnbudgetedStep(events[..first], events[first]);
      assert events[..first + 1] == events[..first] + [events[first]];
      first := first + 1;
    }
    BeforeAt(events, first);
  }

  // ---------- facts about the specification ----------

  lemma {:induction false} BeforeAt(events: seq<Event>, first: nat)
    requires first <= |events| && Unbudgeted(events[..first])
    requires first < |events| ==> events[first].body.IsBudget()
    ensures Before(events) == events[..first]
  {
    if first == |events| {
      assert events[..first] == events;
    } else {
      assert events[first] in events;
      var init := events[..|events| - 1];
      assert init[..first] == events[..first];
      BeforeAt(init, first);
    }
  }

  lemma NoShares(l: Ledger)
    ensures ChargeAll(l, []) == l
  {
  }

  lemma OneMoreShare(l: Ledger, shares: seq<Share>, s: Share)
    ensures ChargeAll(l, shares + [s]) == Charged(ChargeAll(l, shares), s.node, s.usage)
  {
    assert (shares + [s])[..|shares|] == shares;
  }

  lemma {:induction false} CallsFail(limits: Limits, p: Past, node: NodeId, calls: seq<PastCall>, i: nat)
    requires i <= |calls| && AfterCalls(limits, p, node, calls[..i]).None?
    ensures AfterCalls(limits, p, node, calls).None?
    decreases |calls| - i
  {
    if i == |calls| { assert calls[..i] == calls; }
    else {
      assert calls[..i + 1][..i] == calls[..i];
      CallsFail(limits, p, node, calls, i + 1);
    }
  }

  lemma {:induction false} PastFails(limits: Limits, events: seq<Event>, i: nat)
    requires i <= |events| && PastOf(limits, events[..i]).None?
    ensures PastOf(limits, events).None?
    decreases |events| - i
  {
    hide AfterEvent;
    if i == |events| { assert events[..i] == events; }
    else {
      assert events[..i + 1][..i] == events[..i];
      PastFails(limits, events, i + 1);
    }
  }

  lemma ChargedFrame(l: Ledger, id: NodeId, i: Increment)
    ensures var n := Charged(l, id, i);
            && n.active == l.active && n.closed == l.closed && n.results == l.results && n.evidence == l.evidence
            && n.lastAt == l.lastAt && n.lastToken == l.lastToken && n.dispatched == l.dispatched
            && n.started == l.started
  {
  }

  lemma StartedStays(limits: Limits, l: Ledger, e: Event)
    requires !l.started ==> l.dispatched == map[]
    ensures Accepts(limits, l, e) ==>
              var n := Next(limits, l, e); !n.started ==> n.dispatched == map[]
  {
    hide EstimateOk, ActualOk, EvidenceOk, Dispatchable;
  }

  lemma OthersPass(limits: Limits, l: Ledger, e: Event)
    requires !e.body.IsBudget() && !e.body.ToolCalled? && !e.body.ToolEnded?
    ensures Accepts(limits, l, e) && Next(limits, l, e) == l
  {
  }

  lemma {:induction false} SeenFails(events: seq<Event>, i: nat)
    requires i <= |events| && SeenAttempts(events[..i]).None?
    ensures SeenAttempts(events).None?
    decreases |events| - i
  {
    if i == |events| { assert events[..i] == events; }
    else {
      assert events[..i + 1][..i] == events[..i];
      SeenFails(events, i + 1);
    }
  }

  lemma {:induction false} OpenFails(events: seq<Event>, i: nat)
    requires i <= |events| && OpenGates(events[..i]).None?
    ensures OpenGates(events).None?
    decreases |events| - i
  {
    if i == |events| { assert events[..i] == events; }
    else {
      assert events[..i + 1][..i] == events[..i];
      OpenFails(events, i + 1);
    }
  }

  lemma {:induction false} LoopFails(limits: Limits, events: seq<Event>, i: nat)
    requires i <= |events| && Loop(limits, events[..i]).None?
    ensures Loop(limits, events).None?
    decreases |events| - i
  {
    hide Accepts, Next;
    if i == |events| { assert events[..i] == events; }
    else {
      assert events[..i + 1][..i] == events[..i];
      LoopFails(limits, events, i + 1);
    }
  }

  lemma SameSnapshot(limits: Limits, l: Ledger, m: Ledger)
    requires l.evidence == m.evidence && l.exec == m.exec && l.nodes == m.nodes
    ensures Snapshot(limits, l) == Snapshot(limits, m)
  {
    hide Exceeds;
  }
}
