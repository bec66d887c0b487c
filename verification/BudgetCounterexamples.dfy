/** Runs on which writer and reader part, and one on which a commit fails after its result was recorded. */
module BudgetCounterexamples {
  import opened Common
  import opened BudgetText
  import opened BudgetModel
  import opened BudgetConservation
  import opened BudgetBoundary
  import opened BudgetAgreement
  import opened BudgetBlindSpot
  import opened BudgetRuns

  // ---------- limits and journals ----------

  const FREE := LimitSet(None, None, None, None, None, None, None)

  function Within(ms: nat): LimitSet { FREE.(duration := Some(ms)) }

  /** A hundred milliseconds for the whole execution, nothing else limited. */
  const TIMED := Limits(Within(100), FREE, map[], 1, map[], map[])

  /** Ten milliseconds for one node, nothing else limited. */
  function Capped(node: NodeId): Limits { Limits(FREE, FREE, map[node := Within(10)], 1, map[], map[]) }

  const WORKER := View("worker", 1, 1)

  const FRESH := World([], 1)

  /** A verification gate of sixty milliseconds. */
  const GATE_STARTED := Event(0, GateStarted("gate", 1, 0))
  const GATE_RECORDED := Event(1, GateRecorded("gate", 1, 0, Some(60)))
  const GATED := World([GATE_STARTED, GATE_RECORDED], 1)

  /** A node that ran for sixty milliseconds before anything was reserved. */
  function Started(node: NodeId): Event { Event(0, AttemptStarted(node, 1)) }
  function Ended(node: NodeId): Event { Event(60_000, NodeEnded(node, 1, [])) }
  function Ran(node: NodeId): World { World([Started(node), Ended(node)], 1) }

  /** So many milliseconds that the loop does not see, none of them the node's. */
  ghost predicate MoreBy(l: Ledger, m: Ledger, node: NodeId, ms: nat) {
    && SameBut(l, m) && m.exec.duration == l.exec.duration + ms && NodeTotals(m, node) == NodeTotals(l, node)
  }

  /** A journal without budget events, and what the passes after the loop add to any ledger on it. */
  ghost predicate Delayed(limits: Limits, w: World, v: View, ms: nat) {
    && WorldOk(limits, w) && v.Valid() && v.token == w.fence && Loop(limits, w.events) == Some(EMPTY_LEDGER)
    && forall l :: MoreBy(l, Late(limits, l, w.events), v.node, ms)
  }

  lemma TwoCharges(l: Ledger, node: NodeId, other: NodeId)
    requires node != other
    ensures MoreBy(l, Charged(Charged(l, node, ONE_ATTEMPT), node, Duration(60)), other, 60)
    ensures NodeTotals(Charged(Charged(l, node, ONE_ATTEMPT), node, Duration(60)), node).duration ==
            NodeTotals(l, node).duration + 60
  {
    hide Add;
    var m := Charged(l, node, ONE_ATTEMPT);
    AddLate(l.exec, 0);
    AddLate(m.exec, 60);
    AddLate(NodeTotals(l, node), 0);
    AddLate(NodeTotals(m, node), 60);
  }

  lemma NoShare(l: Ledger)
    ensures ChargeAll(l, []) == l
  {
  }

  lemma OneShare(l: Ledger, s: Share)
    ensures ChargeAll(l, [s]) == Charged(l, s.node, s.usage)
  {
    assert [s][..0] == [];
    assert ChargeAll(l, []) == l;
  }

  /** Events before any budget event leave the loop's ledger as it is. */
  lemma LoopsEmpty(limits: Limits, a: Event, b: Event)
    requires !a.body.IsBudget() && !a.body.ToolEnded? && !b.body.IsBudget() && !b.body.ToolEnded?
    ensures Loop(limits, [a, b]) == Some(EMPTY_LEDGER)
  {
    assert [a][..0] == [] && [a, b][..1] == [a];
    assert Loop(limits, []) == Some(EMPTY_LEDGER);
    assert Loop(limits, [a]) == Some(EMPTY_LEDGER);
  }

  // ---------- the empty journal ----------

  lemma FreshIsOk(limits: Limits)
    ensures WorldOk(limits, FRESH)
    ensures Loop(limits, []) == Some(EMPTY_LEDGER) && Replay(limits, []) == Some(EMPTY_LEDGER)
    ensures forall l :: Late(limits, l, []) == l
  {
    assert Before([]) == [];
  }

  lemma FreshIsDelayed(limits: Limits, v: View)
    requires v.Valid() && v.token == 1
    ensures Delayed(limits, FRESH, v, 0)
  {
    FreshIsOk(limits);
    hide WorldOk, Loop, Late;
  }

  // ---------- the gate ----------

  const GATE := GateKey("gate", 1, 0)

  lemma GateIsNotWorker()
    ensures GateNode("gate") != "" && GateNode("gate") != "worker"
  {
    assert |GateNode("gate")| > 6;
  }

  lemma GatedPasses(l: Ledger)
    ensures SeenAttempts(GATED.events) == Some({AttemptKey(GateNode("gate"), 1)})
    ensures OpenGates(GATED.events) == Some(map[])
    ensures WithAttempts(l, GATED.events) == Charged(l, GateNode("gate"), ONE_ATTEMPT)
    ensures WithGates(l, GATED.events) == Charged(l, GateNode("gate"), Duration(60))
  {
    var one := [GATE_STARTED];
    assert one[..0] == [] && GATED.events[..1] == one;
    hide Charged;
    GateIsNotWorker();
    assert {} + {AttemptKey(GateNode("gate"), 1)} == {AttemptKey(GateNode("gate"), 1)};
    assert OpenGates(one) == Some(map[GATE := 0]);
    assert SeenAttempts(one) == Some({AttemptKey(GateNode("gate"), 1)});
    assert WithAttempts(l, one) == Charged(l, GateNode("gate"), ONE_ATTEMPT) && WithGates(l, one) == l;
    assert map[GATE := 0] - {GATE} == map[];
  }

  lemma GatedHistory(limits: Limits)
    ensures PastOf(limits, Before(GATED.events)) == Some(NO_PAST)
  {
    var one := [GATE_STARTED];
    assert one[..0] == [] && GATED.events[..1] == one;
    assert Before(GATED.events) == GATED.events;
    assert PastOf(limits, one) == Some(NO_PAST);
  }

  lemma GatedLate(l: Ledger)
    ensures MoreBy(l, Late(TIMED, l, GATED.events), "worker", 60)
  {
    hide MoreBy, WithAttempts, WithGates, PastOf, Before, Charged, GateNode, SeenAttempts, OpenGates, ChargeAll;
    GatedHistory(TIMED);
    GateIsNotWorker();
    GatedPasses(l);
    GatedPasses(Charged(l, GateNode("gate"), ONE_ATTEMPT));
    TwoCharges(l, GateNode("gate"), "worker");
    NoShare(Charged(Charged(l, GateNode("gate"), ONE_ATTEMPT), GateNode("gate"), Duration(60)));
  }

  lemma GatedIsOk()
    ensures WorldOk(TIMED, GATED) && Loop(TIMED, GATED.events) == Some(EMPTY_LEDGER)
  {
    hide Loop, SeenAttempts, OpenGates, PastOf, Before, Late;
    LoopsEmpty(TIMED, GATE_STARTED, GATE_RECORDED);
    GatedHistory(TIMED);
    GatedPasses(EMPTY_LEDGER);
  }

  lemma GatedIsDelayed()
    ensures Delayed(TIMED, GATED, WORKER, 60)
  {
    hide Loop, WorldOk, MoreBy, Late;
    GatedIsOk();
    forall l { GatedLate(l); }
  }

  // ---------- the node that ran before ----------

  lemma RanPasses(l: Ledger, node: NodeId)
    requires node != ""
    ensures SeenAttempts(Ran(node).events) == Some({AttemptKey(node, 1)}) && OpenGates(Ran(node).events) == Some(map[])
    ensures WithAttempts(l, Ran(node).events) == Charged(l, node, ONE_ATTEMPT) && WithGates(l, Ran(node).events) == l
  {
    var one := [Started(node)];
    assert one[..0] == [] && Ran(node).events[..1] == one;
    hide Charged;
    assert {} + {AttemptKey(node, 1)} == {AttemptKey(node, 1)};
    assert OpenGates(one) == Some(map[]);
    assert SeenAttempts(one) == Some({AttemptKey(node, 1)});
    assert WithAttempts(l, one) == Charged(l, node, ONE_ATTEMPT) && WithGates(l, one) == l;
  }

  lemma RanHistory(limits: Limits, node: NodeId)
    ensures PastOf(limits, Before(Ran(node).events)).Some?
    ensures History(limits, Ran(node).events) == [Share(node, Duration(60))]
  {
    var one := [Started(node)];
    assert one[..0] == [] && Ran(node).events[..1] == one;
    assert Before(Ran(node).events) == Ran(node).events;
    var p := NO_PAST.(starts := map[AttemptKey(node, 1) := 0]);
    assert PastOf(limits, one) == Some(p);
    assert PastOf(limits, Ran(node).events) == Some(AfterRunning(p, AttemptKey(node, 1), 60_000));
    assert [] + [Share(node, Duration(60))] == [Share(node, Duration(60))];
  }

  lemma RanLate(limits: Limits, l: Ledger, node: NodeId)
    requires node != ""
    ensures Late(limits, l, Ran(node).events) == Charged(Charged(l, node, ONE_ATTEMPT), node, Duration(60))
  {
    RanHistory(limits, node);
    RanPasses(l, node);
    RanPasses(Charged(l, node, ONE_ATTEMPT), node);
    hide History, Charged, WithAttempts, WithGates, ChargeAll;
    OneShare(Charged(l, node, ONE_ATTEMPT), Share(node, Duration(60)));
  }

  lemma RanIsOk(limits: Limits, node: NodeId)
    requires node != ""
    ensures WorldOk(limits, Ran(node)) && Loop(limits, Ran(node).events) == Some(EMPTY_LEDGER)
  {
    hide Loop, SeenAttempts, OpenGates, PastOf, Before, Late;
    LoopsEmpty(limits, Started(node), Ended(node));
    RanHistory(limits, node);
    RanPasses(EMPTY_LEDGER, node);
  }

  lemma RanIsDelayed(limits: Limits)
    ensures Delayed(limits, Ran("a"), WORKER, 60)
  {
    hide Loop, WorldOk, MoreBy, Late;
    RanIsOk(limits, "a");
    forall l ensures MoreBy(l, Late(limits, l, Ran("a").events), "worker", 60) {
      RanLate(limits, l, "a");
      TwoCharges(l, "a", "worker");
    }
  }

  /** Its sixty milliseconds are beyond a cap of ten. */
  lemma RanIsOver(seen: Ledger, node: NodeId)
    requires node != ""
    ensures Listed(Capped(node), Late(Capped(node), seen, Ran(node).events), OfNode(node, DurationMs))
  {
    hide Late, Add, Listed;
    RanLate(Capped(node), seen, node);
    TwoCharges(seen, node, node + "!");
    var l := Charged(seen, node, ONE_ATTEMPT);
    OverTen(Charged(l, node, Duration(60)), node);
  }

  lemma OverTen(l: Ledger, node: NodeId)
    requires node in l.nodes && l.nodes[node].duration > 10
    ensures Listed(Capped(node), l, OfNode(node, DurationMs))
  {
    assert Capped(node).ForNode(node).duration == Some(10);
  }

  // ---------- a tool call of fifty milliseconds ----------

  lemma UnlimitedNeverExceeds(u: Increment)
    ensures Exceeded(FREE, u) == {}
  {
  }

  lemma TimeFits(ms: nat, u: Increment)
    requires u.duration <= ms
    ensures Exceeded(Within(ms), u) == {}
  {
  }

  /** At most a hundred milliseconds for the execution, ten for the node, and nothing costs money. */
  predicate Roomy(limits: Limits, node: NodeId) {
    && (limits.execution == FREE || limits.execution == Within(100))
    && (limits.ForNode(node) == FREE || limits.ForNode(node) == Within(10))
    && limits.toolPrices == map[]
  }

  lemma RoomyFits(limits: Limits, node: NodeId, u: Increment)
    requires Roomy(limits, node)
    ensures u.duration <= 100 ==> Exceeded(limits.execution, u) == {}
    ensures u.duration <= 10 ==> Exceeded(limits.ForNode(node), u) == {}
  {
    UnlimitedNeverExceeds(u);
    if u.duration <= 100 { TimeFits(100, u); }
    if u.duration <= 10 { TimeFits(10, u); }
    hide Exceeded;
  }

  lemma ToolIsCheap(limits: Limits, node: NodeId, t: Totals)
    requires Roomy(limits, node)
    ensures Usage(Add(t, Estimate(limits, ToolCall("t"), 0))).duration == t.duration + 1
    ensures !Unpriceable(limits, node, ToolCall("t"))
  {
    hide Limits.ForNode;
  }

  lemma ToolFits(limits: Limits, l: Ledger, v: View, r: Reservation)
    requires Roomy(limits, v.node) && l.exec.duration <= 60 && l.active == {} && NodeTotals(l, v.node) == ZERO
    requires r.resource == ToolCall("t") && r.estimate == Estimate(limits, r.resource, 0)
    ensures Judged(limits, l, v, r).None?
  {
    hide Exceeded, Pending, NodeTotals, Limits.ForNode, Roomy, Usage, Add, Estimate, Unpriceable;
    var own := set x | x in l.active && x.node == v.node;
    PendingNothing(l.exec, l.active);
    PendingNothing(NodeTotals(l, v.node), own);
    ToolIsCheap(limits, v.node, l.exec);
    ToolIsCheap(limits, v.node, ZERO);
    RoomyFits(limits, v.node, Usage(Add(l.exec, r.estimate)));
    RoomyFits(limits, v.node, Usage(Add(ZERO, r.estimate)));
  }

  function Wanted(limits: Limits, w: World, v: View): Reservation { Planned(limits, w.events, v, ToolCall("t"), 0) }

  lemma ToolIsGranted(limits: Limits, w: World, v: View, ms: nat)
    requires Roomy(limits, v.node) && Delayed(limits, w, v, ms) && ms <= 60
    ensures Reserve(limits, w.events, v, 60_001, ToolCall("t"), 0) ==
            Reply(Appended(w.events, 60_001, Reserved(Wanted(limits, w, v))), Held(Wanted(limits, w, v)))
  {
    Readable(limits, w);
    hide Late, Loop, Replay, Judged, WorldOk, Estimate, CountOps, Roomy;
    assert MoreBy(EMPTY_LEDGER, Late(limits, EMPTY_LEDGER, w.events), v.node, ms);
    ToolFits(limits, Late(limits, EMPTY_LEDGER, w.events), v, Wanted(limits, w, v));
  }

  /** The ledger that holds just one reservation. */
  function Holding(r: Reservation, at: int): Ledger {
    EMPTY_LEDGER.(active := {r}, lastToken := r.token, lastAt := Some(at), started := true)
  }

  lemma DelayedView(limits: Limits, w: World, v: View, ms: nat)
    requires Delayed(limits, w, v, ms)
    ensures v.Valid() && v.token == w.fence && Loop(limits, w.events) == Some(EMPTY_LEDGER)
  {
    hide WorldOk, Loop, MoreBy;
  }

  lemma GrantedLedger(limits: Limits, w: World, v: View, ms: nat, r: Reservation)
    requires Delayed(limits, w, v, ms) && WorldOk(limits, w.(events := Appended(w.events, 60_001, Reserved(r))))
    ensures Loop(limits, Appended(w.events, 60_001, Reserved(r))) == Some(Holding(r, Stamp(w.events, 60_001)))
  {
    var e := Event(Stamp(w.events, 60_001), Reserved(r));
    var all := w.events + [e];
    assert all[..|w.events|] == w.events;
    Readable(limits, w.(events := all));
    assert {} + {r} == {r};
    hide WorldOk, Replay, MoreBy, Delayed;
    DelayedView(limits, w, v, ms);
    LoopOnce(limits, w.events, e);
    FirstReserved(limits, e);
  }

  lemma LoopOnce(limits: Limits, events: seq<Event>, e: Event)
    requires Loop(limits, events) == Some(EMPTY_LEDGER) && Loop(limits, events + [e]).Some?
    ensures Accepts(limits, EMPTY_LEDGER, e) && Loop(limits, events + [e]) == Some(Next(limits, EMPTY_LEDGER, e))
  {
    hide Accepts, Next;
    assert (events + [e])[..|events|] == events;
  }

  lemma FirstReserved(limits: Limits, e: Event)
    requires e.body.Reserved? && Accepts(limits, EMPTY_LEDGER, e)
    ensures Next(limits, EMPTY_LEDGER, e) == Holding(e.body.reservation, e.at)
  {
    hide EstimateOk;
    assert {} + {e.body.reservation} == {e.body.reservation};
  }

  /** What the loop and a snapshot hold after the tool call was recorded. */
  ghost predicate AfterFifty(limits: Limits, w: World, v: View, ms: nat, seen: Ledger, total: Ledger) {
    && seen.exec.duration == 50 && seen.evidence == {} && total == Late(limits, seen, w.events)
    && v.node in seen.nodes && seen.nodes[v.node].duration == 50 && MoreBy(seen, total, v.node, ms)
  }

  function FiftyOf(limits: Limits, r: Reservation): Result
    requires r.resource.ToolCall?
  {
    ResultOf(limits, CommitTool(r, true, 50)).value
  }

  lemma FiftyIsOk(limits: Limits, r: Reservation)
    requires r.resource.ToolCall?
    ensures ResultOf(limits, CommitTool(r, true, 50)) == Some(FiftyOf(limits, r))
    ensures var x := FiftyOf(limits, r);
            x.reservation == r && x.actual.duration == 50 && x.identity == IdentityOf(r) && ActualOk(limits, r, x)
  {
  }

  lemma FiftyCharged(r: Reservation, at: int, x: Result)
    requires x.actual.duration == 50
    ensures var m := Charged(Holding(r, at), r.node, x.actual);
            && m.exec.duration == 50 && m.evidence == {} && r.node in m.nodes && m.nodes[r.node].duration == 50
  {
  }

  /** The worker holds a reservation, written on a delayed journal. */
  ghost predicate Holds(limits: Limits, w: World, v: View, ms: nat, held: World, r: Reservation) {
    && Delayed(limits, w, v, ms) && held == w.(events := Appended(w.events, 60_001, Reserved(r)))
    && WorldOk(limits, held) && Loop(limits, held.events) == Some(Holding(r, Stamp(w.events, 60_001)))
    && r.node == v.node && r.attempt == v.attempt && r.token == v.token && r.resource == ToolCall("t")
  }

  lemma FiftyIsSeen(limits: Limits, w: World, v: View, ms: nat, held: World, r: Reservation, seen: Ledger, at: int)
    requires Holds(limits, w, v, ms, held, r)
    requires seen == Settled(limits, held.events, FiftyOf(limits, r)).(lastAt := Some(at), started := true)
    ensures AfterFifty(limits, w, v, ms, seen, Late(limits, seen, held.events))
  {
    hide Late, Loop, WorldOk, Charged, ActualOk, MoreBy, FiftyOf, Holding;
    FiftyIsOk(limits, r);
    FiftyCharged(r, Stamp(w.events, 60_001), FiftyOf(limits, r));
    LateSkips(limits, seen, w.events, Event(Stamp(w.events, 60_001), Reserved(r)));
    assert MoreBy(seen, Late(limits, seen, w.events), v.node, ms);
  }

  lemma HolderOf(limits: Limits, w: World, v: View, ms: nat, held: World, r: Reservation)
    requires Holds(limits, w, v, ms, held, r)
    ensures v.Valid() && v.token == held.fence && Owns(v, r) && r.resource == ToolCall("t") && r.node == v.node
    ensures WorldOk(limits, held) && Loop(limits, held.events).Some? && r in Loop(limits, held.events).value.active
  {
    hide WorldOk, Loop, MoreBy;
  }

  lemma ToolIsRecorded(limits: Limits, w: World, v: View, ms: nat, held: World, r: Reservation)
    requires Holds(limits, w, v, ms, held, r)
    ensures Records(limits, held, v, CommitTool(r, true, 50))
    ensures var once := Appended(held.events, 70_000, Committed(FiftyOf(limits, r)));
            && Loop(limits, once).Some? && Replay(limits, once).Some?
            && AfterFifty(limits, w, v, ms, Loop(limits, once).value, Replay(limits, once).value)
  {
    hide Late, WorldOk, Replay, Loop, ActualOk, FiftyOf, Settled, AfterFifty, Holds, Holding, ResultOf;
    HolderOf(limits, w, v, ms, held, r);
    FiftyIsOk(limits, r);
    var x, at := FiftyOf(limits, r), Stamp(held.events, 70_000);
    CommittedAccepted(limits, held, 70_000, x);
    var seen := Settled(limits, held.events, x).(lastAt := Some(at), started := true);
    FiftyIsSeen(limits, w, v, ms, held, r, seen, at);
    assert Late(limits, seen, held.events) == Replay(limits, Appended(held.events, 70_000, Committed(x))).value;
  }

  function HeldBy(limits: Limits, w: World, v: View): World {
    w.(events := Appended(w.events, 60_001, Reserved(Wanted(limits, w, v))))
  }

  /** A request for a tool of the current view is answered by the reservation. */
  lemma AskedIsReserved(limits: Limits, w: World, v: View, now: int, later: int, tool: string)
    requires v.Valid() && v.token == w.fence
    ensures Answered(limits, w, v, now, later, ReserveTool(tool)) ==
            Reserve(limits, w.events, v, now, ToolCall(tool), 0)
  {
    hide Reserve;
  }

  /** The reservation keeps the journal readable. */
  lemma HeldWorld(limits: Limits, w: World, v: View, ms: nat)
    requires Roomy(limits, v.node) && Delayed(limits, w, v, ms) && ms <= 60
    ensures Holds(limits, w, v, ms, HeldBy(limits, w, v), Wanted(limits, w, v))
  {
    hide Loop, Replay, Late, WorldOk, Reserve, Estimate, CountOps, Roomy, MoreBy, Holding;
    ToolIsGranted(limits, w, v, ms);
    ReserveAgrees(limits, w, v, 60_001, ToolCall("t"), 0);
    GrantedLedger(limits, w, v, ms, Wanted(limits, w, v));
  }

  // ---------- commits that make a journal unreadable ----------

  /** The tool call is granted on a readable journal, and its commit makes the journal unreadable. */
  ghost predicate Broken(limits: Limits, w: World, v: View, r: Reservation) {
    var held := Step(limits, w, Ask(v, 60_001, 60_001, ReserveTool("t")));
    && Answered(limits, w, v, 60_001, 60_001, ReserveTool("t")).answer == Held(r)
    && WorldOk(limits, held)
    && !Accepted(limits, Step(limits, held, Ask(v, 70_000, 70_001, CommitTool(r, true, 50))).events)
  }

  lemma CommitBreaks(limits: Limits, w: World, v: View, ms: nat)
    requires Roomy(limits, v.node) && Delayed(limits, w, v, ms) && ms <= 60
    requires forall seen, total :: AfterFifty(limits, w, v, ms, seen, total) ==>
             Unconfirmed(limits, seen, total, v.node)
    ensures exists r :: Broken(limits, w, v, r)
  {
    var r, held := Wanted(limits, w, v), HeldBy(limits, w, v);
    hide Loop, Replay, WorldOk, Accepted, Unconfirmed, Records, Holding, Wanted, Delayed, Answered, AfterFifty,
         FiftyOf, ResultOf, Roomy, Reserve;
    DelayedView(limits, w, v, ms);
    AskedIsReserved(limits, w, v, 60_001, 60_001, "t");
    ToolIsGranted(limits, w, v, ms);
    HeldWorld(limits, w, v, ms);
    FiftyIsOk(limits, r);
    ToolIsRecorded(limits, w, v, ms, held, r);
    WriterReaderAgreement(limits, held, v, 70_000, 70_001, CommitTool(r, true, 50));
    assert Broken(limits, w, v, r);
  }

  lemma FiftyIsBlind(w: World, v: View, seen: Ledger, total: Ledger)
    requires AfterFifty(TIMED, w, v, 60, seen, total)
    ensures Unconfirmed(TIMED, seen, total, v.node)
  {
    hide Late, Garbled, Entries;
    assert TIMED.ForNode(v.node) == FREE;
    assert ExecOver(TIMED, seen, total, DurationMs);
    assert DurationMs !in LocalDims(TIMED, seen, v.node);
  }

  lemma DelayBreaksTheJournal(w: World)
    requires Delayed(TIMED, w, WORKER, 60)
    ensures exists r :: Broken(TIMED, w, WORKER, r)
  {
    hide Delayed, AfterFifty, Unconfirmed, Broken, Wanted;
    forall seen, total | AfterFifty(TIMED, w, WORKER, 60, seen, total)
      ensures Unconfirmed(TIMED, seen, total, "worker") {
      FiftyIsBlind(w, WORKER, seen, total);
    }
    CommitBreaks(TIMED, w, WORKER, 60);
  }

  /**
   * Sixty milliseconds of verification, then a tool call of fifty: the writer sees 110 of 100 and says so,
   * the reader's loop has seen 50, and from then on the journal can no longer be read.
   */
  lemma VerificationTimeBreaksTheJournal()
    ensures exists r :: Broken(TIMED, GATED, WORKER, r)
  {
    hide Broken, Delayed, Wanted;
    GatedIsDelayed();
    DelayBreaksTheJournal(GATED);
  }

  /** The same with a node that ran for sixty milliseconds before the first reservation. */
  lemma PastUsageBreaksTheJournal()
    ensures exists r :: Broken(TIMED, Ran("a"), WORKER, r)
  {
    hide Broken, Delayed, Wanted;
    RanIsDelayed(TIMED);
    DelayBreaksTheJournal(Ran("a"));
  }

  const COLON := View("a:b", 1, 1)

  lemma FiftyIsGarbled(seen: Ledger, total: Ledger)
    requires AfterFifty(Capped("a:b"), FRESH, COLON, 0, seen, total)
    ensures Unconfirmed(Capped("a:b"), seen, total, "a:b")
  {
    var item := OfNode("a:b", DurationMs);
    FreshIsOk(Capped("a:b"));
    hide Late, Entries, Blind, Listed, Extends;
    OverTen(total, "a:b");
    EntriesAreListed(Capped("a:b"), total, item);
    assert "a:b"[1] == ':';
    assert item in Entries(Capped("a:b"), total) && item.node == "a:b" && ':' in item.node;
  }

  /**
   * A node id with a colon, on an empty journal and without late usage: its own tool call of fifty milliseconds is
   * beyond its cap of ten, the evidence names b:duration_ms, and the reader refuses that.
   */
  lemma ColonBreaksTheJournal()
    ensures exists r :: Broken(Capped("a:b"), FRESH, COLON, r)
  {
    hide Broken, Delayed, Wanted, AfterFifty, Unconfirmed;
    FreshIsDelayed(Capped("a:b"), COLON);
    forall seen, total | AfterFifty(Capped("a:b"), FRESH, COLON, 0, seen, total)
      ensures Unconfirmed(Capped("a:b"), seen, total, "a:b")
    {
      FiftyIsGarbled(seen, total);
    }
    CommitBreaks(Capped("a:b"), FRESH, COLON, 0);
  }

  // ---------- evidence that no commit reports ----------

  /** Node a has no colon and no usage; node a:b is beyond its cap, and a is asked to say so. */
  lemma NestedNodeBreaksTheJournal(now: int, later: int)
    ensures var limits, q := Capped("a:b"), Materialize(Free("verification-0"), Attempt);
            && Accepted(limits, Ran("a:b").events)
            && !Accepted(limits, Step(limits, Ran("a:b"), Ask(View("a", 1, 1), now, later, q)).events)
  {
    var limits, w, v, q := Capped("a:b"), Ran("a:b"), View("a", 1, 1), Materialize(Free("verification-0"), Attempt);
    hide Loop, Replay, Late, Step, WorldOk, Accepted, Entries, Listed, Extends;
    RanIsOk(limits, "a:b");
    Readable(limits, w);
    RanIsOver(EMPTY_LEDGER, "a:b");
    var item := OfNode("a:b", DurationMs);
    EntriesAreListed(limits, Replay(limits, w.events).value, item);
    assert item in Entries(limits, Replay(limits, w.events).value) && Extends(item.node, "a") by { ColonExtends(); }
    assert forall e :: e in w.events ==> !RecordedBy(v, q.op, e);
    WriterReaderAgreement(limits, w, v, now, later, q);
  }

  lemma ColonExtends()
    ensures Extends("a:b", "a")
  {
    assert "a" + ":" == "a:b"[..2];
  }

  // ---------- a commit that fails because of another node ----------

  /** The worker's call is granted and recorded, and its commit fails because only node a is exceeded. */
  ghost predicate Stranded(w: World, r: Reservation) {
    var held := Step(Capped("a"), w, Ask(WORKER, 60_001, 60_001, ReserveTool("t")));
    var reply := Answered(Capped("a"), held, WORKER, 70_000, 70_001, CommitTool(r, true, 50));
    && Answered(Capped("a"), w, WORKER, 60_001, 60_001, ReserveTool("t")).answer == Held(r)
    && reply.answer == Failed(NoLocalDimension)
    && Accepted(Capped("a"), reply.events) && |reply.events| == |held.events| + 1
  }

  lemma OnlyNodeIsOver(seen: Ledger, total: Ledger)
    requires AfterFifty(Capped("a"), Ran("a"), WORKER, 60, seen, total)
    ensures Listed(Capped("a"), total, OfNode("a", DurationMs))
    ensures forall d :: !Listed(Capped("a"), total, Exec(d)) && !Listed(Capped("a"), total, OfNode("worker", d))
    ensures forall m, d :: Listed(Capped("a"), total, OfNode(m, d)) ==> m == "a"
  {
    RanIsOver(seen, "a");
    assert total.evidence == {};
    hide Late, MoreBy, Listed, Capped;
    forall item: Item | item.Exec? || item.node != "a" ensures !Listed(Capped("a"), total, item) {
      NotCapped(total, item);
    }
  }

  lemma NotCapped(l: Ledger, item: Item)
    requires l.evidence == {} && (item.Exec? || item.node != "a")
    ensures !Listed(Capped("a"), l, item)
  {
    if item.OfNode? { assert Capped("a").ForNode(item.node) == FREE; }
    FreeNever(item.dim);
    hide Exceeds;
  }

  lemma FreeNever(d: Dim)
    ensures forall u :: !Exceeds(FREE, u, d)
  {
  }

  lemma NothingForWorker(l: Ledger)
    requires forall d :: !Listed(Capped("a"), l, Exec(d)) && !Listed(Capped("a"), l, OfNode("worker", d))
    requires forall m, d :: Listed(Capped("a"), l, OfNode(m, d)) ==> m == "a"
    ensures LocalNames(Snapshot(Capped("a"), l), "worker") == {}
  {
    hide Listed;
    NothingLocal(Capped("a"), l, "worker");
    assert !Extends("a", "worker");
  }

  lemma WorkerIsStranded(held: World, r: Reservation)
    requires Holds(Capped("a"), Ran("a"), WORKER, 60, held, r)
    ensures var x := FiftyOf(Capped("a"), r);
            && Commit(Capped("a"), held.events, 70_000, 70_001, x) ==
               Reply(Appended(held.events, 70_000, Committed(x)), Failed(NoLocalDimension))
            && Accepted(Capped("a"), Appended(held.events, 70_000, Committed(x)))
  {
    hide Loop, Replay, WorldOk, Delayed, AfterFifty, Listed, LocalNames, Snapshot, FiftyOf, Holding, Records, Capped;
    FiftyIsOk(Capped("a"), r);
    ToolIsRecorded(Capped("a"), Ran("a"), WORKER, 60, held, r);
    var once := Appended(held.events, 70_000, Committed(FiftyOf(Capped("a"), r)));
    var total := Replay(Capped("a"), once).value;
    OnlyNodeIsOver(Loop(Capped("a"), once).value, total);
    NothingForWorker(total);
  }

  lemma WorkerIsAnswered(held: World, r: Reservation)
    requires Holds(Capped("a"), Ran("a"), WORKER, 60, held, r)
    ensures var x := FiftyOf(Capped("a"), r);
            Answered(Capped("a"), held, WORKER, 70_000, 70_001, CommitTool(r, true, 50)) ==
            Reply(Appended(held.events, 70_000, Committed(x)), Failed(NoLocalDimension))
    ensures Accepted(Capped("a"), Appended(held.events, 70_000, Committed(FiftyOf(Capped("a"), r))))
  {
    hide Accepted, Delayed, Commit, ResultOf, Answered, FiftyOf, Records, WorldOk, Holding, Loop, Capped;
    FiftyIsOk(Capped("a"), r);
    ToolIsRecorded(Capped("a"), Ran("a"), WORKER, 60, held, r);
    WorkerIsStranded(held, r);
    RecordIsCommit(Capped("a"), held, WORKER, 70_000, 70_001, CommitTool(r, true, 50));
  }

  lemma CappedIsRoomy()
    ensures Roomy(Capped("a"), "worker")
  {
  }

  /** A commit fails after its result was recorded when nothing but another node is beyond a limit. */
  lemma OtherNodeFailsTheCommit()
    ensures exists r :: Stranded(Ran("a"), r)
  {
    var r, held := Wanted(Capped("a"), Ran("a"), WORKER), HeldBy(Capped("a"), Ran("a"), WORKER);
    hide Accepted, Wanted, Delayed, Answered, FiftyOf, Holds, Capped, Roomy, Ran, Reserve;
    CappedIsRoomy();
    RanIsDelayed(Capped("a"));
    DelayedView(Capped("a"), Ran("a"), WORKER, 60);
    AskedIsReserved(Capped("a"), Ran("a"), WORKER, 60_001, 60_001, "t");
    ToolIsGranted(Capped("a"), Ran("a"), WORKER, 60);
    HeldWorld(Capped("a"), Ran("a"), WORKER, 60);
    WorkerIsAnswered(held, r);
    assert Stranded(Ran("a"), r);
  }
}
