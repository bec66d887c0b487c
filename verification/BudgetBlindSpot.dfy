/**
 * The two places where writer and reader can part.  The writer judges a commit by a snapshot that includes
 * attempts, verification time and historical usage, the reader by the usage its loop has seen so far; and the
 * names a writer reads off the texts of a snapshot may not be dimensions.
 */
module BudgetBlindSpot {
  import opened Common
  import opened BudgetText
  import opened BudgetModel
  import opened BudgetConservation
  import opened BudgetBoundary
  import opened BudgetAgreement

  // ---------- what the late passes can change ----------

  /** In no component less. */
  predicate LateStep(s: Totals, t: Totals) {
    && s.prompt <= t.prompt && s.completion <= t.completion && s.tools <= t.tools && s.duration <= t.duration
    && s.attempts <= t.attempts && s.known <= t.known && s.unpriced <= t.unpriced
  }

  /** The same evidence, and in no balance less usage. */
  ghost predicate OnlyLate(l: Ledger, m: Ledger) {
    && m.evidence == l.evidence && l.nodes.Keys <= m.nodes.Keys
    && LateStep(l.exec, m.exec) && (forall id :: LateStep(NodeTotals(l, id), NodeTotals(m, id)))
  }

  lemma ChargeLate(l: Ledger, m: Ledger, id: NodeId, i: Increment)
    requires OnlyLate(l, m)
    ensures OnlyLate(l, Charged(m, id, i))
  {
    var n := Charged(m, id, i);
    forall k ensures LateStep(NodeTotals(l, k), NodeTotals(n, k)) {
      assert LateStep(NodeTotals(l, k), NodeTotals(m, k));
    }
  }

  lemma {:induction false} AttemptsOnlyLate(l: Ledger, m: Ledger, events: seq<Event>)
    requires OnlyLate(l, m)
    ensures OnlyLate(l, WithAttempts(m, events))
  {
    if events != [] {
      AttemptsOnlyLate(l, m, events[..|events| - 1]);
      hide OnlyLate, Charged;
      var key := AttemptOf(events[|events| - 1]);
      if key.Some? {
        ChargeLate(l, WithAttempts(m, events[..|events| - 1]), key.value.node, ONE_ATTEMPT);
      }
    }
  }

  lemma {:induction false} GatesOnlyLate(l: Ledger, m: Ledger, events: seq<Event>)
    requires OnlyLate(l, m)
    ensures OnlyLate(l, WithGates(m, events))
  {
    if events != [] {
      var init, e := events[..|events| - 1], events[|events| - 1];
      GatesOnlyLate(l, m, init);
      hide OnlyLate, Charged;
      if e.body.GateRecorded? {
        ChargeLate(l, WithGates(m, init), GateNode(e.body.gate), Duration(GateDuration(OpenGates(init), e)));
      }
    }
  }

  lemma {:induction false} SharesOnlyLate(l: Ledger, m: Ledger, shares: seq<Share>)
    requires OnlyLate(l, m)
    ensures OnlyLate(l, ChargeAll(m, shares))
  {
    if shares != [] {
      var init, s := shares[..|shares| - 1], shares[|shares| - 1];
      SharesOnlyLate(l, m, init);
      hide OnlyLate, Charged;
      ChargeLate(l, ChargeAll(m, init), s.node, s.usage);
    }
  }

  lemma LateOnlyLate(limits: Limits, l: Ledger, events: seq<Event>)
    ensures OnlyLate(l, Late(limits, l, events))
  {
    AttemptsOnlyLate(l, l, events);
    GatesOnlyLate(l, WithAttempts(l, events), events);
    SharesOnlyLate(l, WithGates(WithAttempts(l, events), events), History(limits, events));
  }

  // ---------- dimensions ----------

  /** The dimensions of a node and of the execution that a snapshot lists, whatever their texts. */
  function NodeDims(limits: Limits, l: Ledger, id: NodeId): set<Dim> {
    set d | d in DIMS && Listed(limits, l, OfNode(id, d))
  }

  function ExecDims(limits: Limits, l: Ledger): set<Dim> {
    set d | d in DIMS && Listed(limits, l, Exec(d))
  }

  function LocalDims(limits: Limits, l: Ledger, id: NodeId): set<Dim> {
    NodeDims(limits, l, id) + ExecDims(limits, l)
  }

  function LocalScope(limits: Limits, l: Ledger, id: NodeId): Scope {
    if NodeDims(limits, l, id) != {} then NodeScope else ExecutionScope
  }

  /** Late usage takes a balance beyond a limit that it is within without. */
  predicate LateOver(limits: LimitSet, s: Totals, t: Totals, d: Dim) {
    Exceeds(limits, Usage(t), d) && !Exceeds(limits, Usage(s), d)
  }

  /** A cost beyond its cap that late usage without a price makes unknown. */
  predicate Lost(limits: LimitSet, s: Totals, t: Totals, d: Dim) {
    d == CostUsd && Exceeds(limits, Usage(s), CostUsd) && t.unpriced > 0
  }

  lemma ExceedsLate(limits: LimitSet, s: Totals, t: Totals, d: Dim)
    requires LateStep(s, t)
    ensures Exceeds(limits, Usage(s), d) && !Exceeds(limits, Usage(t), d) <==> Lost(limits, s, t, d)
    ensures Lost(limits, s, t, d) ==> LateOver(limits, s, t, CostUnavailable)
  {
  }

  predicate ExecOver(limits: Limits, seen: Ledger, total: Ledger, d: Dim) {
    LateOver(limits.execution, seen.exec, total.exec, d)
  }

  predicate NodeOver(limits: Limits, seen: Ledger, total: Ledger, id: NodeId, d: Dim) {
    LateOver(limits.ForNode(id), NodeTotals(seen, id), NodeTotals(total, id), d)
  }

  /** How the entries of a snapshot differ from those the loop sees: only by late excess and lost costs. */
  lemma ListedLate(limits: Limits, l: Ledger, m: Ledger, id: NodeId, d: Dim)
    requires OnlyLate(l, m)
    ensures Listed(limits, m, Exec(d)) && !Listed(limits, l, Exec(d)) ==> ExecOver(limits, l, m, d)
    ensures ExecOver(limits, l, m, d) ==> Listed(limits, m, Exec(d))
    ensures Listed(limits, l, Exec(d)) && !Listed(limits, m, Exec(d)) ==>
              Lost(limits.execution, l.exec, m.exec, d) && ExecOver(limits, l, m, CostUnavailable)
    ensures Listed(limits, m, OfNode(id, d)) && !Listed(limits, l, OfNode(id, d)) ==> NodeOver(limits, l, m, id, d)
    ensures NodeOver(limits, l, m, id, d) ==> Listed(limits, m, OfNode(id, d))
    ensures Listed(limits, l, OfNode(id, d)) && !Listed(limits, m, OfNode(id, d)) ==>
              && Lost(limits.ForNode(id), NodeTotals(l, id), NodeTotals(m, id), d)
              && NodeOver(limits, l, m, id, CostUnavailable)
  {
    assert LateStep(NodeTotals(l, id), NodeTotals(m, id));
    ExceedsLate(limits.execution, l.exec, m.exec, d);
    ExceedsLate(limits.ForNode(id), NodeTotals(l, id), NodeTotals(m, id), d);
    hide Exceeds, Lost, LateStep, Usage, Limits.ForNode;
    ZeroIsFine(limits.ForNode(id), d);
  }

  lemma ZeroIsFine(limits: LimitSet, d: Dim)
    ensures !Exceeds(limits, Usage(ZERO), d)
  {
  }

  /**
   * Late usage has put the commit beyond a limit that the reader's loop cannot see it beyond, or has hidden
   * a cost that the loop does see.
   */
  predicate Blind(limits: Limits, seen: Ledger, total: Ledger, id: NodeId) {
    || (exists d :: && d !in LocalDims(limits, seen, id)
                    && (ExecOver(limits, seen, total, d) || NodeOver(limits, seen, total, id, d)))
    || (NodeDims(limits, seen, id) == {} && exists d :: NodeOver(limits, seen, total, id, d))
    || (CostUsd in LocalDims(limits, seen, id) && CostUsd !in LocalDims(limits, total, id))
  }

  lemma DimsLate(limits: Limits, l: Ledger, m: Ledger, id: NodeId, d: Dim)
    requires OnlyLate(l, m)
    ensures d in ExecDims(limits, m) && d !in ExecDims(limits, l) ==> ExecOver(limits, l, m, d)
    ensures ExecOver(limits, l, m, d) ==> d in ExecDims(limits, m)
    ensures d in ExecDims(limits, l) && d !in ExecDims(limits, m) ==>
            d == CostUsd && ExecOver(limits, l, m, CostUnavailable)
    ensures d in NodeDims(limits, m, id) && d !in NodeDims(limits, l, id) ==> NodeOver(limits, l, m, id, d)
    ensures NodeOver(limits, l, m, id, d) ==> d in NodeDims(limits, m, id)
    ensures d in NodeDims(limits, l, id) && d !in NodeDims(limits, m, id) ==>
              d == CostUsd && NodeOver(limits, l, m, id, CostUnavailable)
  {
    ListedLate(limits, l, m, id, d);
    hide Listed, OnlyLate, ExecOver, NodeOver;
    EveryDim(d);
  }

  /** Writer and reader see the same scope and dimensions exactly when nothing is blind. */
  lemma SameVerdict(limits: Limits, l: Ledger, m: Ledger, id: NodeId)
    requires OnlyLate(l, m)
    ensures LocalDims(limits, l, id) == LocalDims(limits, m, id)
            && LocalScope(limits, l, id) == LocalScope(limits, m, id)
            <==> !Blind(limits, l, m, id)
  {
    hide OnlyLate, ExecOver, NodeOver, NodeDims, ExecDims;
    forall d { DimsLate(limits, l, m, id, d); }
    if !Blind(limits, l, m, id) {
      assert forall d :: d in LocalDims(limits, m, id) ==> d in LocalDims(limits, l, id);
      assert forall d :: d in LocalDims(limits, l, id) ==> d in LocalDims(limits, m, id);
      NoneOfNode(limits, l, m, id);
    }
  }

  lemma NoneOfNode(limits: Limits, l: Ledger, m: Ledger, id: NodeId)
    requires OnlyLate(l, m) && !Blind(limits, l, m, id)
    ensures NodeDims(limits, l, id) == {} <==> NodeDims(limits, m, id) == {}
  {
    hide OnlyLate, ExecOver, NodeOver, LocalDims, NodeDims;
    forall d ensures NodeDims(limits, l, id) == {} ==> d !in NodeDims(limits, m, id)
             ensures NodeDims(limits, m, id) == {} ==> d !in NodeDims(limits, l, id)
    {
      DimsLate(limits, l, m, id, d);
      DimsLate(limits, l, m, id, CostUnavailable);
    }
  }

  /** Nothing is blind unless late usage alone takes the execution or the node beyond a limit. */
  lemma BlindIsLate(limits: Limits, l: Ledger, m: Ledger, id: NodeId)
    requires OnlyLate(l, m) && Blind(limits, l, m, id)
    ensures exists d :: ExecOver(limits, l, m, d) || NodeOver(limits, l, m, id, d)
  {
    hide OnlyLate, ExecOver, NodeOver, NodeDims, ExecDims;
    DimsLate(limits, l, m, id, CostUsd);
  }

  // ---------- the same in text ----------

  lemma EntriesByDim(limits: Limits, l: Ledger, id: NodeId)
    ensures DimsFor(Entries(limits, l), id) == LocalDims(limits, l, id)
    ensures NodeDims(limits, l, id) == set d | d in DIMS && OfNode(id, d) in Entries(limits, l)
    ensures ExecDims(limits, l) == set d | d in DIMS && Exec(d) in Entries(limits, l)
  {
    hide Listed, Entries;
    forall item ensures item in Entries(limits, l) <==> Listed(limits, l, item) { EntriesAreListed(limits, l, item); }
  }

  /** Unless an id with a colon is in the way, the texts say what the structure says. */
  lemma TextsSay(limits: Limits, l: Ledger, id: NodeId)
    requires !Garbled(Entries(limits, l), id)
    ensures LocalNames(Snapshot(limits, l), id) == NamesOf(LocalDims(limits, l, id))
    ensures ScopeIn(Snapshot(limits, l), id) == LocalScope(limits, l, id)
  {
    EntriesByDim(limits, l, id);
    PlainNames(Entries(limits, l), id);
    PlainScope(Entries(limits, l), id);
    hide Entries, LocalNames, NamesOf, HasOwnText, Texts, LocalDims, DimsFor, Garbled, ExecDims, Listed;
    var own := set d | d in DIMS && OfNode(id, d) in Entries(limits, l);
    assert own == NodeDims(limits, l, id);
    if HasOwnText(Snapshot(limits, l), id) {
      var d :| d in DIMS && OfNode(id, d) in Entries(limits, l);
      assert d in own;
    }
    if own != {} { var d :| d in own; }
  }

  lemma GarbledItem(items: set<Item>, id: NodeId) returns (item: Item)
    requires Garbled(items, id)
    ensures item in items && item.OfNode? && ':' in item.node && (item.node == id || Extends(item.node, id))
  {
    item :| item in items && item.OfNode? && ':' in item.node && (item.node == id || Extends(item.node, id));
  }

  /** Late usage does not repair a text. */
  lemma GarbledStays(limits: Limits, l: Ledger, m: Ledger, id: NodeId)
    requires OnlyLate(l, m) && Garbled(Entries(limits, l), id)
    ensures Garbled(Entries(limits, m), id)
  {
    hide OnlyLate, Entries, Listed, NodeOver, ExecOver, Lost, Extends;
    var item := GarbledItem(Entries(limits, l), id);
    var other := OfNode(item.node, CostUnavailable);
    EntriesAreListed(limits, l, item);
    EntriesAreListed(limits, m, item);
    EntriesAreListed(limits, m, other);
    ListedLate(limits, l, m, item.node, item.dim);
    ListedLate(limits, l, m, item.node, CostUnavailable);
    assert item in Entries(limits, m) || other in Entries(limits, m);
  }

  /** Writer and reader read the same names off their snapshots exactly when nothing is blind. */
  lemma SameText(limits: Limits, l: Ledger, m: Ledger, id: NodeId)
    requires OnlyLate(l, m) && !Garbled(Entries(limits, m), id)
    ensures LocalNames(Snapshot(limits, l), id) == LocalNames(Snapshot(limits, m), id)
            && ScopeIn(Snapshot(limits, l), id) == ScopeIn(Snapshot(limits, m), id)
            <==> !Blind(limits, l, m, id)
    ensures LocalNames(Snapshot(limits, m), id) <= NamesOf(DIMS)
  {
    hide OnlyLate, Entries, LocalNames, NamesOf, HasOwnText, ScopeIn, Texts, LocalDims, LocalScope, Garbled, Blind,
      Snapshot;
    if Garbled(Entries(limits, l), id) { GarbledStays(limits, l, m, id); }
    TextsSay(limits, l, id);
    TextsSay(limits, m, id);
    NamesOfIsInjective(LocalDims(limits, l, id), LocalDims(limits, m, id));
    NamesOfIsInjective(LocalDims(limits, m, id), DIMS);
    SameVerdict(limits, l, m, id);
  }

  // ---------- a commit leaves an accepted journal exactly when nothing is blind ----------

  /** A commit of the node leaves evidence that the reader refuses. */
  predicate Unconfirmed(limits: Limits, seen: Ledger, total: Ledger, id: NodeId) {
    Blind(limits, seen, total, id) || Garbled(Entries(limits, total), id)
  }

  lemma UnconfirmedShows(limits: Limits, l: Ledger, m: Ledger, id: NodeId)
    requires OnlyLate(l, m) && Unconfirmed(limits, l, m, id)
    ensures AnyListed(limits, m) && LocalNames(Snapshot(limits, m), id) != {}
  {
    hide LocalNames, Entries, Blind, OnlyLate, Texts, Listed, Extends;
    if Garbled(Entries(limits, m), id) {
      GarbledNames(Entries(limits, m), id);
      var item := GarbledItem(Entries(limits, m), id);
      EntriesAreListed(limits, m, item);
    } else {
      hide Garbled, ExecOver, NodeOver;
      BlindIsLate(limits, l, m, id);
      var d :| ExecOver(limits, l, m, d) || NodeOver(limits, l, m, id, d);
      ListedLate(limits, l, m, id, d);
      DimsLate(limits, l, m, id, d);
      ReadsNothing(Entries(limits, m), id);
      EntriesByDim(limits, m, id);
    }
  }

  lemma EvidenceAccepts(limits: Limits, seen: Ledger, total: Ledger, r: Reservation, at: int)
    requires r in seen.results && seen.results[r].identity == IdentityOf(r) && r.limits == limits
    requires Named(r.node, r.attempt, r.token) && r.token >= seen.lastToken
    requires InOrder(seen, Event(at, Exhausted(CommitEvidence(limits, total, r))))
    requires LocalNames(Snapshot(limits, total), r.node) != {} && OnlyLate(seen, total)
    ensures Accepts(limits, seen, Event(at, Exhausted(CommitEvidence(limits, total, r)))) <==>
            !Unconfirmed(limits, seen, total, r.node)
  {
    ReadsAreNames(limits, seen, r.node);
    NamesByMembers(limits, seen, CommitEvidence(limits, total, r));
    hide LocalNames, ScopeIn, OnlyLate, Blind, Snapshot, NamesOf, Garbled, Entries, ReadsOff, OwnTextListed;
    if Garbled(Entries(limits, total), r.node) {
      GarbledSnapshot(limits, total, r.node);
    } else {
      SameText(limits, seen, total, r.node);
    }
  }

  lemma NamesByMembers(limits: Limits, l: Ledger, v: Evidence)
    ensures (forall n :: n in v.names <==> ReadsOff(limits, l, v.identity.node, n)) <==>
            v.names == LocalNames(Snapshot(limits, l), v.identity.node)
  {
    ReadsAreNames(limits, l, v.identity.node);
    hide LocalNames, Snapshot, ReadsOff;
  }

  lemma GarbledSnapshot(limits: Limits, l: Ledger, id: NodeId)
    requires Garbled(Entries(limits, l), id)
    ensures !(LocalNames(Snapshot(limits, l), id) <= NamesOf(DIMS))
  {
    hide LocalNames, NamesOf, Texts, Entries, Garbled;
    GarbledNames(Entries(limits, l), id);
  }

  /** The journals just after a result: what the loop has seen, and what a snapshot shows. */
  ghost predicate JustSettled(limits: Limits, events: seq<Event>, x: Result, seen: Ledger, total: Ledger) {
    && Loop(limits, events) == Some(seen) && Replay(limits, events) == Some(total)
    && x.reservation in seen.results && seen.results[x.reservation] == x
    && x.reservation.limits == limits && OnlyLate(seen, total)
    && Named(x.reservation.node, x.reservation.attempt, x.reservation.token)
  }

  lemma CommitSettles(limits: Limits, w: World, now: int, x: Result)
    requires WorldOk(limits, w) && Loop(limits, w.events).Some?
    requires x.reservation in Loop(limits, w.events).value.active
    requires x.identity == IdentityOf(x.reservation) && ActualOk(limits, x.reservation, x)
    ensures var once := Appended(w.events, now, Committed(x));
            && WorldOk(limits, w.(events := once))
            && Loop(limits, once).Some? && Replay(limits, once).Some?
            && JustSettled(limits, once, x, Loop(limits, once).value, Replay(limits, once).value)
  {
    var once := Appended(w.events, now, Committed(x));
    CommittedAccepted(limits, w, now, x);
    ActiveFacts(limits, w, x.reservation);
    hide WorldOk, Loop, EstimateOk, ActualOk, Replay;
    LateOnlyLate(limits, Loop(limits, once).value, w.events);
  }

  /**
   * A commit leaves an accepted journal exactly when neither late usage nor the text of a node id keeps the
   * reader from confirming its evidence.
   */
  lemma CommitAgreement(limits: Limits, w: World, now: int, later: int, x: Result)
    requires WorldOk(limits, w) && Loop(limits, w.events).Some? && x.reservation.token == w.fence
    requires x.reservation in Loop(limits, w.events).value.active
    requires x.identity == IdentityOf(x.reservation) && ActualOk(limits, x.reservation, x)
    ensures var once := Appended(w.events, now, Committed(x));
            && Loop(limits, once).Some? && Replay(limits, once).Some?
            && (WorldOk(limits, w.(events := Commit(limits, w.events, now, later, x).events)) <==>
                !Unconfirmed(limits, Loop(limits, once).value, Replay(limits, once).value, x.reservation.node))
            && (WorldOk(limits, w.(events := Commit(limits, w.events, now, later, x).events)) <==>
                Accepted(limits, Commit(limits, w.events, now, later, x).events))
  {
    CommitSettles(limits, w, now, x);
    hide WorldOk, Loop, Replay, ActualOk, Unconfirmed, Accepted, LocalNames, Snapshot;
    var once := Appended(w.events, now, Committed(x));
    var seen, total := Loop(limits, once).value, Replay(limits, once).value;
    if Unconfirmed(limits, seen, total, x.reservation.node) {
      UnconfirmedShows(limits, seen, total, x.reservation.node);
    }
    if AnyListed(limits, total) && LocalNames(Snapshot(limits, total), x.reservation.node) != {} {
      SecondAppend(limits, w.(events := once), later, x, seen, total);
    }
  }

  lemma SecondAppend(limits: Limits, w: World, later: int, x: Result, seen: Ledger, total: Ledger)
    requires WorldOk(limits, w) && JustSettled(limits, w.events, x, seen, total)
    requires x.reservation.token == w.fence && x.identity == IdentityOf(x.reservation)
    requires LocalNames(Snapshot(limits, total), x.reservation.node) != {}
    ensures var twice := Appended(w.events, later, Exhausted(CommitEvidence(limits, total, x.reservation)));
            && (WorldOk(limits, w.(events := twice)) <==> !Unconfirmed(limits, seen, total, x.reservation.node))
            && (WorldOk(limits, w.(events := twice)) <==> Accepted(limits, twice))
  {
    var body := Exhausted(CommitEvidence(limits, total, x.reservation));
    NextInOrder(limits, w, later, body);
    AppendKeeps(limits, w, later, body);
    hide WorldOk, Loop, Replay, Unconfirmed, Accepts, OnlyLate, LocalNames, ScopeIn, Snapshot;
    EvidenceAccepts(limits, seen, total, x.reservation, Stamp(w.events, later));
    BodyAccepted(limits, w, later, body);
  }

  /**
   * What a commit answers, exactly: nothing exceeded, nothing exceeded that it takes for its own (the result is
   * recorded but no evidence can be), a verdict the reader confirms, or one it does not, after which the journal
   * is unreadable.
   */
  lemma CommitAnswers(limits: Limits, w: World, now: int, later: int, x: Result)
    requires WorldOk(limits, w) && Loop(limits, w.events).Some? && x.reservation.token == w.fence
    requires x.reservation in Loop(limits, w.events).value.active
    requires x.identity == IdentityOf(x.reservation) && ActualOk(limits, x.reservation, x)
    ensures var once := Appended(w.events, now, Committed(x));
            var answer, id := Commit(limits, w.events, now, later, x).answer, x.reservation.node;
            && Loop(limits, once).Some? && Replay(limits, once).Some?
            && var seen, total := Loop(limits, once).value, Replay(limits, once).value;
            && (answer == Done <==> forall item :: !Listed(limits, total, item))
            && (answer == Failed(NoLocalDimension) <==>
                && (forall d :: !Listed(limits, total, Exec(d)) && !Listed(limits, total, OfNode(id, d)))
                && (forall m, d :: Listed(limits, total, OfNode(m, d)) ==> !Extends(m, id))
                && (exists m, d :: Listed(limits, total, OfNode(m, d))))
            && (answer == Failed(Unreadable) <==> Unconfirmed(limits, seen, total, id))
            && (answer == Overspent ==> Accepted(limits, Commit(limits, w.events, now, later, x).events))
  {
    CommitAgreement(limits, w, now, later, x);
    CommitSettles(limits, w, now, x);
    var once := Appended(w.events, now, Committed(x));
    var seen, total, id := Loop(limits, once).value, Replay(limits, once).value, x.reservation.node;
    hide WorldOk, Loop, Replay, ActualOk, Unconfirmed, Listed, Exceeds, LocalNames, Snapshot, Extends;
    if Unconfirmed(limits, seen, total, id) { UnconfirmedShows(limits, seen, total, id); }
    NothingLocal(limits, total, id);
    if AnyListed(limits, total) && LocalNames(Snapshot(limits, total), id) == {} {
      var item :| Listed(limits, total, item);
      match item case Exec(d) => case OfNode(m, d) => assert Listed(limits, total, OfNode(m, d));
    }
  }

  lemma NothingLocal(limits: Limits, l: Ledger, id: NodeId)
    ensures LocalNames(Snapshot(limits, l), id) == {} <==>
            && (forall d :: !Listed(limits, l, Exec(d)) && !Listed(limits, l, OfNode(id, d)))
            && (forall m, d :: Listed(limits, l, OfNode(m, d)) ==> !Extends(m, id))
  {
    hide Listed, Entries, Texts, LocalNames, Extends;
    ReadsNothing(Entries(limits, l), id);
    EntriesByDim(limits, l, id);
    forall item ensures item in Entries(limits, l) <==> Listed(limits, l, item) { EntriesAreListed(limits, l, item); }
    forall d ensures d in LocalDims(limits, l, id) <==> Listed(limits, l, Exec(d)) || Listed(limits, l, OfNode(id, d)) {
      EveryDim(d);
    }
    forall m, d | Listed(limits, l, OfNode(m, d)) && Extends(m, id) ensures Nested(Entries(limits, l), id) {
      assert OfNode(m, d) in Entries(limits, l);
    }
  }

  // ---------- every request ----------

  /** A request that records a result. */
  ghost predicate Records(limits: Limits, w: World, v: View, q: Request) {
    && v.Valid() && v.token == w.fence && (q.CommitModel? || q.FailModel? || q.CommitTool?)
    && Owns(v, q.handle) && Settles(q) && ResultOf(limits, q).Some?
    && Loop(limits, w.events).Some? && q.handle in Loop(limits, w.events).value.active
  }

  /** A request that records a result whose evidence the reader will not confirm. */
  ghost predicate CommitsUnconfirmed(limits: Limits, w: World, v: View, now: int, q: Request) {
    && Records(limits, w, v, q)
    && var once := Appended(w.events, now, Committed(ResultOf(limits, q).value));
       && Loop(limits, once).Some? && Replay(limits, once).Some?
       && Unconfirmed(limits, Loop(limits, once).value, Replay(limits, once).value, v.node)
  }

  /** A request for evidence of usage that no commit reports, while an id that extends the node's is listed. */
  ghost predicate MaterializesGarbled(limits: Limits, w: World, v: View, q: Request) {
    && v.Valid() && v.token == w.fence && q.Materialize? && Replay(limits, w.events).Some?
    && Nested(Entries(limits, Replay(limits, w.events).value), v.node)
    && !(exists e :: e in w.events && RecordedBy(v, q.op, e))
  }

  /** The requests that make a journal unreadable. */
  ghost predicate Spoils(limits: Limits, w: World, v: View, now: int, q: Request) {
    CommitsUnconfirmed(limits, w, v, now, q) || MaterializesGarbled(limits, w, v, q)
  }

  lemma JudgedNonempty(limits: Limits, l: Ledger, v: View, r: Reservation)
    ensures Judged(limits, l, v, r).Some? ==> Judged(limits, l, v, r).value.dims != {}
  {
    hide Exceeded, Pending, Usage, Limits.ForNode;
  }

  lemma ReplayActive(limits: Limits, w: World)
    requires WorldOk(limits, w)
    ensures Loop(limits, w.events).Some? && Replay(limits, w.events).Some?
    ensures Replay(limits, w.events).value.active == Loop(limits, w.events).value.active
  {
    Readable(limits, w);
    hide Loop, WorldOk, Replay, Late;
    LateFrame(limits, Loop(limits, w.events).value, w.events);
  }

  /** A request of the current view that records a result is answered by the commit of that result. */
  lemma RecordIsCommit(limits: Limits, w: World, v: View, now: int, later: int, q: Request)
    requires WorldOk(limits, w) && Records(limits, w, v, q)
    ensures Answered(limits, w, v, now, later, q) == Commit(limits, w.events, now, later, ResultOf(limits, q).value)
  {
    ReplayActive(limits, w);
    hide Loop, Replay, WorldOk, Commit, ResultOf;
  }

  lemma ReserveAgrees(limits: Limits, w: World, v: View, now: int, resource: Resource, prompt: nat)
    requires WorldOk(limits, w) && v.Valid() && v.token == w.fence
    ensures WorldOk(limits, w.(events := Reserve(limits, w.events, v, now, resource, prompt).events))
  {
    ReplayActive(limits, w);
    hide WorldOk, Loop, Replay, Judged, Estimate;
    var l, r := Replay(limits, w.events).value, Planned(limits, w.events, v, resource, prompt);
    assert w.(events := w.events) == w;
    if l.active == {} {
      JudgedNonempty(limits, l, v, r);
      match Judged(limits, l, v, r)
      case Some(d) => DenialAccepted(limits, w, v, now, r.op, resource.Kind(), d);
      case None => ReservedAccepted(limits, w, v, now, resource, prompt);
    }
  }

  lemma AttemptAgrees(limits: Limits, w: World, v: View, now: int)
    requires WorldOk(limits, w) && v.Valid() && v.token == w.fence
    ensures WorldOk(limits, w.(events := CheckedAttempt(limits, w.events, v, now).events))
  {
    ReplayActive(limits, w);
    hide WorldOk, Loop, Replay, Exceeded, Pending, Usage, Limits.ForNode;
    assert w.(events := w.events) == w;
    match Shortfall(limits, Replay(limits, w.events).value, v.node, Increment(0, 0, 0, 1, 1, None, 0))
    case Some(d) => DenialAccepted(limits, w, v, now, Op(Attempt, v.attempt), Attempt, d);
    case None =>
  }

  /** The names a node reads for such evidence are dimensions exactly when no listed id extends its own. */
  lemma ShownNames(limits: Limits, l: Ledger, id: NodeId)
    ensures Shown(limits, l, id).names <= NamesOf(DIMS) <==> !Nested(Entries(limits, l), id)
    ensures Nested(Entries(limits, l), id) ==> AnyListed(limits, l) && Shown(limits, l, id).names != {}
  {
    hide OwnTails, ExecTexts, NamesOf, Entries, Texts, Extends, Listed;
    var items := Entries(limits, l);
    ExecNames(items);
    NamesOfIsInjective((set d | d in DIMS && Exec(d) in items), DIMS);
    if Nested(items, id) {
      NestedTails(items, id);
      var item :| item in items && item.OfNode? && Extends(item.node, id);
      EntriesAreListed(limits, l, item);
    } else {
      PlainTails(items, id);
      NamesOfIsInjective((set d | d in DIMS && OfNode(id, d) in items), DIMS);
    }
  }

  lemma MaterializeAgrees(limits: Limits, w: World, v: View, now: int, op: OpId, kind: Kind)
    requires WorldOk(limits, w) && v.Valid() && v.token == w.fence
    ensures var more := Materialized(limits, w.events, v, now, op, kind).events;
            && (WorldOk(limits, w.(events := more)) <==> !MaterializesGarbled(limits, w, v, Materialize(op, kind)))
            && (WorldOk(limits, w.(events := more)) <==> Accepted(limits, more))
  {
    ReplayActive(limits, w);
    Readable(limits, w);
    hide WorldOk, Loop, Replay, Shown, AnyListed, RecordedBy, Accepted, NamesOf, Nested, Entries;
    assert w.(events := w.events) == w;
    ShownNames(limits, Replay(limits, w.events).value, v.node);
    var n := Shown(limits, Replay(limits, w.events).value, v.node);
    if n.names != {} { NoticeAccepted(limits, w, v, now, op, kind, n); }
  }

  lemma SettlementAgrees(limits: Limits, w: World, v: View, now: int, later: int, q: Request)
    requires WorldOk(limits, w) && v.Valid() && v.token == w.fence && HasHandle(q)
    ensures WorldOk(limits, w.(events := Settlement(limits, w.events, v, now, later, q).events)) <==>
            !CommitsUnconfirmed(limits, w, v, now, q)
    ensures WorldOk(limits, w.(events := Settlement(limits, w.events, v, now, later, q).events)) <==>
            Accepted(limits, Settlement(limits, w.events, v, now, later, q).events)
  {
    ReplayActive(limits, w);
    hide WorldOk, Loop, Replay, Unconfirmed, Commit, ResultOf, Accepted;
    Readable(limits, w);
    assert w.(events := w.events) == w;
    var l := Loop(limits, w.events).value;
    if Owns(v, q.handle) && Settles(q) && q.handle in l.active {
      if q.Release? {
        ReleaseAccepted(limits, w, now, q.handle);
        Readable(limits, w.(events := Settlement(limits, w.events, v, now, later, q).events));
      } else if ResultOf(limits, q).Some? {
        ResultIsOk(limits, q);
        CommitAgreement(limits, w, now, later, ResultOf(limits, q).value);
      }
    }
  }

  /** Only a commit or a request for evidence can spoil a journal, and only under the newest token. */
  lemma SpoilsByKind(limits: Limits, w: World, v: View, now: int, q: Request)
    ensures Spoils(limits, w, v, now, q) ==> v.Valid() && v.token == w.fence && (HasHandle(q) || q.Materialize?)
    ensures HasHandle(q) ==> (Spoils(limits, w, v, now, q) <==> CommitsUnconfirmed(limits, w, v, now, q))
    ensures q.Materialize? ==> (Spoils(limits, w, v, now, q) <==> MaterializesGarbled(limits, w, v, q))
    ensures CommitsUnconfirmed(limits, w, v, now, q) ==> Owns(v, q.handle) && Settles(q)
  {
    hide Loop, Replay, Unconfirmed, ResultOf, Nested, Entries, RecordedBy, Owns, Settles;
  }

  /** Every request keeps the journal readable, except exactly those that spoil it. */
  lemma WriterReaderAgreement(limits: Limits, w: World, v: View, now: int, later: int, q: Request)
    requires WorldOk(limits, w)
    ensures WorldOk(limits, Step(limits, w, Ask(v, now, later, q))) <==> !Spoils(limits, w, v, now, q)
    ensures Accepted(limits, Step(limits, w, Ask(v, now, later, q)).events) <==> !Spoils(limits, w, v, now, q)
  {
    var next := Step(limits, w, Ask(v, now, later, q));
    if WorldOk(limits, next) { Readable(limits, next); }
    Readable(limits, w);
    SpoilsByKind(limits, w, v, now, q);
    hide Accepted, WorldOk, Loop, Replay, Spoils, CommitsUnconfirmed, MaterializesGarbled, Reserve, CheckedAttempt,
         Materialized, Settlement, Owns, Settles;
    assert w.(events := w.events) == w;
    if v.Valid() && v.token == w.fence {
      match q
      case ReserveModel(provider, model, bytes) => ReserveAgrees(limits, w, v, now, ModelCall(provider, model), bytes);
      case ReserveTool(tool) => ReserveAgrees(limits, w, v, now, ToolCall(tool), 0);
      case CheckAttempt => AttemptAgrees(limits, w, v, now);
      case Materialize(op, kind) => MaterializeAgrees(limits, w, v, now, op, kind);
      case _ => SettlementAgrees(limits, w, v, now, later, q);
    }
  }
}
