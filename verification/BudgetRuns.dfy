/** Agreement over whole runs: exactly when the journal stays readable, and a condition on the journal for it. */
module BudgetRuns {
  import opened Common
  import opened BudgetText
  import opened BudgetModel
  import opened BudgetConservation
  import opened BudgetBoundary
  import opened BudgetAgreement
  import opened BudgetBlindSpot

  // ---------- attempts, counted on the journal itself ----------

  function Starts(events: seq<Event>): nat {
    if events == [] then 0
    else Starts(events[..|events| - 1]) + if AttemptOf(events[|events| - 1]).Some? then 1 else 0
  }

  function StartsOf(events: seq<Event>, id: NodeId): nat {
    if events == [] then 0
    else
      var key := AttemptOf(events[|events| - 1]);
      StartsOf(events[..|events| - 1], id) + if key.Some? && key.value.node == id then 1 else 0
  }

  /** Started attempts are within every cap on attempts. */
  ghost predicate AttemptsWithin(limits: Limits, events: seq<Event>) {
    && !Over(limits.execution.attempts, Starts(events))
    && (forall id :: !Over(limits.ForNode(id).attempts, StartsOf(events, id)))
  }

  lemma {:induction false} StartsGrow(events: seq<Event>, k: nat, id: NodeId)
    requires k <= |events|
    ensures Starts(events[..k]) <= Starts(events) && StartsOf(events[..k], id) <= StartsOf(events, id)
  {
    if k == |events| { assert events[..k] == events; }
    else {
      StartsGrow(events[..|events| - 1], k, id);
      assert events[..|events| - 1][..k] == events[..k];
    }
  }

  lemma WithinEarlier(limits: Limits, earlier: seq<Event>, events: seq<Event>)
    requires earlier <= events && AttemptsWithin(limits, events)
    ensures AttemptsWithin(limits, earlier)
  {
    assert events[..|earlier|] == earlier;
    StartsGrow(events, |earlier|, "");
    forall id ensures !Over(limits.ForNode(id).attempts, StartsOf(earlier, id)) {
      StartsGrow(events, |earlier|, id);
    }
  }

  /** The end of a node, plan or tool call, which reports usage. */
  predicate IsUse(e: Event) { e.body.NodeEnded? || e.body.PlanGenerated? || e.body.ToolEnded? }

  /** Usage is reported only once there is a budget event. */
  predicate NoPastUsage(events: seq<Event>) {
    forall i :: 0 <= i < |events| && IsUse(events[i]) ==> !Unbudgeted(events[..i])
  }

  /** Journals on which no late usage can matter. */
  ghost predicate Quiet(limits: Limits, events: seq<Event>) {
    AttemptsWithin(limits, events) && NoPastUsage(events) && forall e :: e in events ==> !e.body.GateRecorded?
  }

  lemma QuietEarlier(limits: Limits, earlier: seq<Event>, events: seq<Event>)
    requires earlier <= events && Quiet(limits, events)
    ensures Quiet(limits, earlier)
  {
    WithinEarlier(limits, earlier, events);
    hide AttemptsWithin, Unbudgeted;
    forall i | 0 <= i < |earlier| && IsUse(earlier[i]) ensures !Unbudgeted(earlier[..i]) {
      assert earlier[..i] == events[..i];
    }
  }

  lemma {:induction false} BeforeIsPrefix(events: seq<Event>)
    ensures Before(events) <= events && Unbudgeted(Before(events))
  {
    if !Unbudgeted(events) { BeforeIsPrefix(events[..|events| - 1]); }
  }

  lemma {:induction false} NoUseNoPast(limits: Limits, events: seq<Event>)
    requires forall e :: e in events ==> !IsUse(e)
    ensures PastOf(limits, events).Some? && PastOf(limits, events).value.shares == []
  {
    if events != [] {
      assert !IsUse(events[|events| - 1]);
      NoUseNoPast(limits, events[..|events| - 1]);
      hide AfterCalls, PastToolUsage, PastModelUsage;
    }
  }

  lemma NoPastUsageNoHistory(limits: Limits, events: seq<Event>)
    requires NoPastUsage(events)
    ensures History(limits, events) == []
  {
    BeforeIsPrefix(events);
    var past := Before(events);
    forall i | 0 <= i < |past| ensures !IsUse(past[i]) {
      assert events[i] == past[i] && events[..i] == past[..i];
      assert Unbudgeted(past[..i]);
    }
    NoUseNoPast(limits, past);
  }

  lemma AddLate(t: Totals, ms: nat)
    ensures Add(t, ONE_ATTEMPT).attempts == t.attempts + 1 && Add(t, ONE_ATTEMPT).duration == t.duration
    ensures Add(t, Duration(ms)).duration == t.duration + ms && Add(t, Duration(ms)).attempts == t.attempts
  {
  }

  lemma ChargedTotals(l: Ledger, node: NodeId, i: Increment, id: NodeId)
    ensures var m := Charged(l, node, i);
            && m.exec == Add(l.exec, i) && m.active == l.active
            && NodeTotals(m, id) == if id == node then Add(NodeTotals(l, id), i) else NodeTotals(l, id)
  {
    hide Add;
  }

  lemma {:induction false} AttemptsAreCounted(l: Ledger, events: seq<Event>, id: NodeId)
    ensures var m := WithAttempts(l, events);
            && m.exec.attempts == l.exec.attempts + Starts(events) && m.exec.duration == l.exec.duration
            && NodeTotals(m, id).attempts == NodeTotals(l, id).attempts + StartsOf(events, id)
            && NodeTotals(m, id).duration == NodeTotals(l, id).duration
  {
    hide Charged, AttemptOf, NodeTotals, Add;
    if events != [] {
      AttemptsAreCounted(l, events[..|events| - 1], id);
      var m, key := WithAttempts(l, events[..|events| - 1]), AttemptOf(events[|events| - 1]);
      if key.Some? {
        ChargedTotals(m, key.value.node, ONE_ATTEMPT, id);
        AddLate(m.exec, 0);
        AddLate(NodeTotals(m, id), 0);
      }
    }
  }

  lemma {:induction false} NoGatesNoTime(l: Ledger, events: seq<Event>)
    requires forall e :: e in events ==> !e.body.GateRecorded?
    ensures WithGates(l, events) == l
  {
    if events != [] { NoGatesNoTime(l, events[..|events| - 1]); }
  }

  /** Attempts change nothing else. */
  lemma {:induction false} AttemptsChangeOnly(l: Ledger, events: seq<Event>, id: NodeId)
    ensures var m := WithAttempts(l, events);
            && m.exec == l.exec.(attempts := m.exec.attempts)
            && NodeTotals(m, id) == NodeTotals(l, id).(attempts := NodeTotals(m, id).attempts)
  {
    hide Charged, AttemptOf, NodeTotals;
    if events != [] {
      AttemptsChangeOnly(l, events[..|events| - 1], id);
      var m, key := WithAttempts(l, events[..|events| - 1]), AttemptOf(events[|events| - 1]);
      if key.Some? { ChargedTotals(m, key.value.node, ONE_ATTEMPT, id); }
    }
  }

  // ---------- when nothing is blind ----------

  lemma OnlyAttempts(limits: LimitSet, s: Totals, t: Totals, d: Dim)
    requires t == s.(attempts := t.attempts) && !Over(limits.attempts, t.attempts)
    ensures !LateOver(limits, s, t, d)
  {
  }

  lemma QuietIsNotBlind(limits: Limits, seen: Ledger, events: seq<Event>, id: NodeId)
    requires LoopInv(seen) && Quiet(limits, events)
    ensures !Blind(limits, seen, Late(limits, seen, events), id)
  {
    var total := Late(limits, seen, events);
    NoPastUsageNoHistory(limits, events);
    NoGatesNoTime(WithAttempts(seen, events), events);
    assert total == WithAttempts(seen, events);
    AttemptsAreCounted(seen, events, id);
    AttemptsChangeOnly(seen, events, id);
    LateOnlyLate(limits, seen, events);
    assert !Over(limits.ForNode(id).attempts, StartsOf(events, id));
    assert seen.exec.attempts == 0 && NodeTotals(seen, id).attempts == 0;
    hide Late, WithAttempts, WithGates, Conserved, NoPastUsage, History, Blind, Limits.ForNode, Starts, StartsOf;
    forall d ensures !ExecOver(limits, seen, total, d) && !NodeOver(limits, seen, total, id, d) {
      OnlyAttempts(limits.execution, seen.exec, total.exec, d);
      OnlyAttempts(limits.ForNode(id), NodeTotals(seen, id), NodeTotals(total, id), d);
    }
    if Blind(limits, seen, total, id) { BlindIsLate(limits, seen, total, id); }
  }

  // ---------- the nodes a journal names ----------

  function NodesOf(e: Event): set<NodeId> {
    match e.body
    case Reserved(r) => {r.node}
    case Committed(x) => {x.reservation.node}
    case Exhausted(v) => {v.identity.node}
    case AttemptStarted(node, _) => {node}
    case PlanStarted(_) => {PLANNING}
    case NodeEnded(node, _, _) => {node}
    case PlanGenerated(_) => {PLANNING}
    case ToolEnded(node, _, _, _, _, _, _) => {node}
    case GateStarted(gate, _, _) => {GateNode(gate)}
    case GateRecorded(gate, _, _, _) => {GateNode(gate)}
    case _ => {}
  }

  ghost predicate Names(events: seq<Event>, ns: set<NodeId>) { forall e :: e in events ==> NodesOf(e) <= ns }

  /** Balances and evidence are about these nodes only. */
  ghost predicate About(l: Ledger, ns: set<NodeId>) {
    l.nodes.Keys <= ns && forall item :: item in l.evidence && item.OfNode? ==> item.node in ns
  }

  lemma ChargeAbout(l: Ledger, id: NodeId, i: Increment, ns: set<NodeId>)
    requires About(l, ns) && id in ns
    ensures About(Charged(l, id, i), ns)
  {
    hide Add;
  }

  lemma NextAbout(limits: Limits, l: Ledger, e: Event, ns: set<NodeId>)
    requires Accepts(limits, l, e) && About(l, ns) && NodesOf(e) <= ns
    ensures About(Next(limits, l, e), ns)
  {
    if e.body.Committed? { ChargeAbout(l, e.body.result.reservation.node, e.body.result.actual, ns); }
    hide Add, Dispatchable, Accepts;
  }

  lemma {:induction false} LoopAbout(limits: Limits, events: seq<Event>, ns: set<NodeId>)
    requires Loop(limits, events).Some? && Names(events, ns)
    ensures About(Loop(limits, events).value, ns)
  {
    if events != [] {
      var init, e := events[..|events| - 1], events[|events| - 1];
      hide About, Accepts, Next;
      LoopAbout(limits, init, ns) by { assert forall x :: x in init ==> x in events; }
      NextAbout(limits, Loop(limits, init).value, e, ns);
    } else {
      hide Accepts, Next;
    }
  }

  lemma {:induction false} AttemptsAbout(l: Ledger, events: seq<Event>, ns: set<NodeId>)
    requires About(l, ns) && Names(events, ns)
    ensures About(WithAttempts(l, events), ns) && About(WithGates(l, events), ns)
  {
    if events != [] {
      var init, e := events[..|events| - 1], events[|events| - 1];
      hide About, Charged, GateDuration;
      AttemptsAbout(l, init, ns) by { assert forall x :: x in init ==> x in events; }
      assert NodesOf(e) <= ns;
      if AttemptOf(e).Some? { ChargeAbout(WithAttempts(l, init), AttemptOf(e).value.node, ONE_ATTEMPT, ns); }
      if e.body.GateRecorded? {
        ChargeAbout(WithGates(l, init), GateNode(e.body.gate), Duration(GateDuration(OpenGates(init), e)), ns);
      }
    }
  }

  ghost predicate SharesAbout(shares: seq<Share>, ns: set<NodeId>) { forall s :: s in shares ==> s.node in ns }

  lemma {:induction false} CallsAbout(limits: Limits, p: Past, node: NodeId, calls: seq<PastCall>, ns: set<NodeId>)
    requires AfterCalls(limits, p, node, calls).Some? && SharesAbout(p.shares, ns) && node in ns
    ensures SharesAbout(AfterCalls(limits, p, node, calls).value.shares, ns)
  {
    if calls != [] { CallsAbout(limits, p, node, calls[..|calls| - 1], ns); }
  }

  lemma {:induction false} PastAbout(limits: Limits, events: seq<Event>, ns: set<NodeId>)
    requires PastOf(limits, events).Some? && Names(events, ns)
    ensures SharesAbout(PastOf(limits, events).value.shares, ns)
  {
    if events != [] {
      var init, e := events[..|events| - 1], events[|events| - 1];
      PastAbout(limits, init, ns) by { assert forall x :: x in init ==> x in events; }
      EventAbout(limits, PastOf(limits, init).value, e, ns) by { assert NodesOf(e) <= ns; }
      hide AfterEvent, SharesAbout;
    }
  }

  lemma EventAbout(limits: Limits, p: Past, e: Event, ns: set<NodeId>)
    requires AfterEvent(limits, p, e).Some? && SharesAbout(p.shares, ns) && NodesOf(e) <= ns
    ensures SharesAbout(AfterEvent(limits, p, e).value.shares, ns)
  {
    if e.body.NodeEnded? {
      CallsAbout(limits, AfterRunning(p, AttemptKey(e.body.node, e.body.attempt), e.at), e.body.node, e.body.calls, ns);
    }
    hide AfterCalls, PastModelUsage, PastToolUsage;
  }

  lemma {:induction false} ChargesAbout(l: Ledger, shares: seq<Share>, ns: set<NodeId>)
    requires About(l, ns) && SharesAbout(shares, ns)
    ensures About(ChargeAll(l, shares), ns)
  {
    if shares != [] {
      var init, s := shares[..|shares| - 1], shares[|shares| - 1];
      hide About;
      ChargesAbout(l, init, ns);
      ChargeAbout(ChargeAll(l, init), s.node, s.usage, ns);
    }
  }

  /** Whatever an accepted journal charges or reports, it names. */
  lemma ReplayAbout(limits: Limits, events: seq<Event>, ns: set<NodeId>)
    requires Accepted(limits, events) && Names(events, ns)
    ensures About(Replay(limits, events).value, ns)
  {
    hide About, SharesAbout, Loop, WithAttempts, WithGates, PastOf, ChargeAll;
    var l := Loop(limits, events).value;
    LoopAbout(limits, events, ns);
    AttemptsAbout(l, events, ns);
    AttemptsAbout(WithAttempts(l, events), events, ns);
    BeforeIsPrefix(events);
    PastAbout(limits, Before(events), ns);
    ChargesAbout(WithGates(WithAttempts(l, events), events), History(limits, events), ns);
  }

  lemma EntriesAbout(limits: Limits, l: Ledger, ns: set<NodeId>, item: Item)
    requires About(l, ns) && item in Entries(limits, l) && item.OfNode?
    ensures item.node in ns
  {
    EntriesAreListed(limits, l, item);
    hide Entries, Exceeds;
  }

  /** The id has no colon, and no node named in the journal has an id that begins with it and a colon. */
  ghost predicate Apart(events: seq<Event>, id: NodeId) {
    ':' !in id && forall e, m :: e in events && m in NodesOf(e) ==> !Extends(m, id)
  }

  lemma ApartEarlier(earlier: seq<Event>, events: seq<Event>, id: NodeId)
    requires earlier <= events && Apart(events, id)
    ensures Apart(earlier, id)
  {
    assert forall e :: e in earlier ==> e in events;
  }

  function AllNodes(events: seq<Event>): set<NodeId> { set e, m | e in events && m in NodesOf(e) :: m }

  lemma ApartIsPlain(limits: Limits, events: seq<Event>, id: NodeId)
    requires Accepted(limits, events) && Apart(events, id)
    ensures var items := Entries(limits, Replay(limits, events).value); !Nested(items, id) && !Garbled(items, id)
  {
    var ns := AllNodes(events);
    assert Names(events, ns);
    ReplayAbout(limits, events, ns);
    var l := Replay(limits, events).value;
    hide Replay, Accepted, About, Entries, NodesOf, Extends;
    NestedIsGarbled(Entries(limits, l), id);
    if Nested(Entries(limits, l), id) {
      var item :| item in Entries(limits, l) && item.OfNode? && Extends(item.node, id);
      EntriesAbout(limits, l, ns, item);
    }
  }

  lemma ApartAfterCommit(events: seq<Event>, now: int, x: Result)
    requires Apart(events, x.reservation.node)
    ensures Apart(Appended(events, now, Committed(x)), x.reservation.node)
  {
    hide Stamp;
  }

  lemma QuietSpoilsNothing(limits: Limits, w: World, v: View, now: int, q: Request)
    requires WorldOk(limits, w) && Quiet(limits, w.events) && Apart(w.events, v.node)
    ensures !Spoils(limits, w, v, now, q)
  {
    hide WorldOk, Loop, Replay, Blind, Quiet, ResultOf, Apart, Entries, Nested, Garbled, Accepted, RecordedBy;
    Readable(limits, w);
    ApartIsPlain(limits, w.events, v.node);
    if Records(limits, w, v, q) {
      var x := ResultOf(limits, q).value;
      var once := Appended(w.events, now, Committed(x));
      ResultIsOk(limits, q);
      CommittedAccepted(limits, w, now, x);
      LoopKeeps(limits, once);
      QuietIsNotBlind(limits, Loop(limits, once).value, w.events, v.node);
      Readable(limits, w.(events := once));
      ApartAfterCommit(w.events, now, x);
      ApartIsPlain(limits, once, v.node);
    }
  }

  // ---------- runs ----------

  /** An event of another writer: not a budget event, in time order, and it does not break the journal. */
  ghost predicate Admissible(limits: Limits, w: World, e: Event) {
    && !e.body.IsBudget() && Ordered(w.events + [e])
    && (Accepted(limits, w.events) ==> Accepted(limits, w.events + [e]))
  }

  ghost predicate Plain(limits: Limits, calls: seq<Call>) {
    calls != [] ==>
      var init, c := calls[..|calls| - 1], calls[|calls| - 1];
      Plain(limits, init) && (c.Outside? ==> Admissible(limits, Run(limits, START, init), c.event))
  }

  /** No request of the run spoils the journal. */
  ghost predicate NeverSpoiled(limits: Limits, calls: seq<Call>) {
    calls != [] ==>
      var init, c := calls[..|calls| - 1], calls[|calls| - 1];
      && NeverSpoiled(limits, init)
      && (c.Ask? ==> !Spoils(limits, Run(limits, START, init), c.view, c.now, c.request))
  }

  lemma StepExtends(limits: Limits, w: World, c: Call)
    ensures w.events <= Step(limits, w, c).events
  {
    hide Replay, Judged, Shortfall, AnyListed, LocalNames, Snapshot, Shown, ResultOf, Estimate, CountOps, Accepted;
  }

  lemma OutsideKeeps(limits: Limits, w: World, e: Event)
    requires WorldOk(limits, w) && Admissible(limits, w, e)
    ensures WorldOk(limits, w.(events := w.events + [e]))
  {
    hide Accepted, Ordered;
    var all := w.events + [e];
    forall i | 0 <= i < |all| && all[i].body.Reserved? ensures Numbered(all, i) {
      assert all[..i] == w.events[..i];
      assert Numbered(w.events, i);
    }
  }

  lemma AcquireKeeps(limits: Limits, w: World)
    requires WorldOk(limits, w)
    ensures WorldOk(limits, w.(fence := w.fence + 1))
  {
    hide Accepted, Ordered, Numbered;
    forall e | e in w.events ensures TokenUpTo(e, w.fence + 1) { assert TokenUpTo(e, w.fence); }
  }

  /** One step of a run whose journal is still accepted. */
  lemma StepAgrees(limits: Limits, w: World, c: Call)
    requires WorldOk(limits, w) && (c.Outside? ==> Admissible(limits, w, c.event))
    ensures var next := Step(limits, w, c);
            && (Accepted(limits, next.events) <==> (c.Ask? ==> !Spoils(limits, w, c.view, c.now, c.request)))
            && (Accepted(limits, next.events) ==> WorldOk(limits, next))
  {
    Readable(limits, w);
    hide WorldOk, Answered, Accepted, Spoils;
    match c
    case Acquire => AcquireKeeps(limits, w);
    case Outside(e) => OutsideKeeps(limits, w, e);
    case Ask(v, now, later, q) => WriterReaderAgreement(limits, w, v, now, later, q);
  }

  /** After any run, the journal is readable if and only if no request of the run has spoiled it. */
  lemma {:induction false} RunsAgreeExactly(limits: Limits, calls: seq<Call>)
    requires Plain(limits, calls)
    ensures Accepted(limits, Run(limits, START, calls).events) <==> NeverSpoiled(limits, calls)
    ensures NeverSpoiled(limits, calls) ==> WorldOk(limits, Run(limits, START, calls))
  {
    if calls == [] {
      EmptyIsOk(limits);
    } else {
      var init, c := calls[..|calls| - 1], calls[|calls| - 1];
      var w := Run(limits, START, init);
      RunsAgreeExactly(limits, init);
      assert Run(limits, START, calls) == Step(limits, w, c);
      hide WorldOk, Run, Step, Accepted, Spoils, Replay, Below;
      if NeverSpoiled(limits, init) {
        StepAgrees(limits, w, c);
      } else {
        StepExtends(limits, w, c);
        if Accepted(limits, Step(limits, w, c).events) { JournalGrows(limits, w.events, Step(limits, w, c).events); }
      }
    }
  }

  /** Every boundary's node is apart from all nodes the journal names. */
  ghost predicate AllApart(calls: seq<Call>, events: seq<Event>) {
    forall c :: c in calls && c.Ask? ==> Apart(events, c.view.node)
  }

  /**
   * Any mix of boundaries, locks and other writers leaves a journal that the strict replay accepts, as long as
   * started attempts stay within their caps, no gate is recorded, no usage precedes the first budget event, and
   * no boundary's node id has a colon or is, with a colon behind it, the beginning of a named node's id.
   */
  lemma {:induction false} AgreementOverRuns(limits: Limits, calls: seq<Call>)
    requires Plain(limits, calls) && Quiet(limits, Run(limits, START, calls).events)
    requires AllApart(calls, Run(limits, START, calls).events)
    ensures NeverSpoiled(limits, calls) && WorldOk(limits, Run(limits, START, calls))
  {
    if calls != [] {
      var init, c := calls[..|calls| - 1], calls[|calls| - 1];
      var w := Run(limits, START, init);
      assert Run(limits, START, calls) == Step(limits, w, c);
      hide WorldOk, Run, Answered, Quiet, Spoils, Admissible, Apart;
      StepExtends(limits, w, c);
      QuietEarlier(limits, w.events, Step(limits, w, c).events);
      forall x | x in calls && x.Ask? ensures Apart(w.events, x.view.node) {
        ApartEarlier(w.events, Step(limits, w, c).events, x.view.node);
      }
      assert AllApart(init, w.events) by { assert forall x :: x in init ==> x in calls; }
      AgreementOverRuns(limits, init);
      if c.Ask? {
        assert c in calls;
        QuietSpoilsNothing(limits, w, c.view, c.now, c.request);
      }
    }
    RunsAgreeExactly(limits, calls);
  }

  lemma EmptyIsOk(limits: Limits)
    ensures WorldOk(limits, START)
  {
  }

}
