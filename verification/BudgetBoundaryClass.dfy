/** The journal boundary as the object that appends: every method leaves the journal its specification gives. */
module BudgetBoundaryClass {
  import opened Common
  import opened BudgetText
  import opened BudgetModel
  import opened BudgetBoundary
  import opened BudgetLedgerClass

  /** The canonical journal of one execution, with the newest token of its lock. */
  class BudgetJournal {
    var events: seq<Event>
    var fence: nat

    ghost function Contents(): World
      reads this
    {
      World(events, fence)
    }

    constructor ()
      ensures Contents() == START
    {
      events, fence := [], 0;
    }

    method Acquire() returns (token: nat)
      modifies this
      ensures forall limits :: Contents() == Step(limits, old(Contents()), Call.Acquire)
      ensures token == fence
    {
      fence := fence + 1;
      token := fence;
    }
  }

  class JournalBudgetBoundary {
    const journal: BudgetJournal
    const limits: Limits
    const view: View

    constructor (journal: BudgetJournal, limits: Limits, view: View)
      requires view.Valid()
      ensures this.journal == journal && this.limits == limits && this.view == view
    {
      this.journal, this.limits, this.view := journal, limits, view;
    }

    /** Replay the journal; the lock must still be the newest one, and the journal readable. */
    method LoadLedger() returns (ledger: BudgetLedger?, fault: Fault)
      ensures ledger != null <==> view.token == journal.fence && Accepted(limits, journal.events)
      ensures ledger != null ==>
                && fresh(ledger) && ledger.limits == limits && ledger.Contents() == Replay(limits, journal.events).value
      ensures ledger == null ==> fault == if view.token != journal.fence then StaleLock else Unreadable
    {
      hide Replay;
      fault := StaleLock;
      if view.token != journal.fence { return null, StaleLock; }
      var candidate := new BudgetLedger(limits);
      var ok := candidate.ReplayAll(journal.events);
      if !ok { return null, Unreadable; }
      ledger := candidate;
    }

    method Append(now: int, body: Body)
      modifies journal
      ensures journal.events == Appended(old(journal.events), now, body) && journal.fence == old(journal.fence)
    {
      var events := journal.events;
      var at := now;
      if |events| > 0 && at <= events[|events| - 1].at { at := events[|events| - 1].at + 1; }
      journal.events := events + [Event(at, body)];
    }

    /** The next operation number: one more than the reservations and refusals of this node attempt and kind. */
    method NextNumber(kind: Kind) returns (n: nat)
      ensures n == CountOps(journal.events, view.node, view.attempt, kind) + 1
    {
      hide Numbers;
      var events, i := journal.events, 0;
      n := 1;
      while i < |events|
        invariant 0 <= i <= |events| && n == CountOps(events[..i], view.node, view.attempt, kind) + 1
      {
        assert events[..i + 1][..i] == events[..i];
        if Numbers(events[i], view.node, view.attempt, kind) { n := n + 1; }
        i := i + 1;
      }
      assert events[..i] == events;
    }

    method AppendNotice(now: int, op: OpId, kind: Kind, n: Notice)
      modifies journal
      ensures journal.events == Appended(old(journal.events), now, Exhausted(Refusal(limits, view, op, kind, n)))
      ensures journal.fence == old(journal.fence)
    {
      var identity := Identity(limits, view.node, view.attempt, op, kind, view.token);
      Append(now, Exhausted(Evidence(identity, n.scope, n.names, None)));
    }

    method AppendDenial(now: int, op: OpId, kind: Kind, d: Denial)
      modifies journal
      ensures journal.events ==
              Appended(old(journal.events), now, Exhausted(Refusal(limits, view, op, kind, NoticeOf(d))))
      ensures journal.fence == old(journal.fence)
    {
      AppendNotice(now, op, kind, NoticeOf(d));
    }

    // ---------- reservations ----------

    method ReserveFor(now: int, resource: Resource, prompt: nat) returns (answer: Answer)
      requires view.Valid()
      modifies journal
      ensures journal.fence == old(journal.fence)
      ensures view.token != journal.fence ==> journal.events == old(journal.events) && answer == Failed(StaleLock)
      ensures view.token == journal.fence ==>
                Reply(journal.events, answer) == Reserve(limits, old(journal.events), view, now, resource, prompt)
    {
      hide Replay, CountOps, Pending, Exceeded, Estimate, Shortfall;
      var ledger, fault := LoadLedger();
      if ledger == null { return Failed(fault); }
      if ledger.active != {} { return Failed(Ambiguous); }
      var n := NextNumber(resource.Kind());
      var op := Op(resource.Kind(), n);
      if (limits.execution.cost.Some? || limits.ForNode(view.node).cost.Some?)
        && PriceOf(limits, resource, 0, 0).None? {
        var d := Denial(ExecutionScope, {CostUnavailable});
        AppendDenial(now, op, resource.Kind(), d);
        return Refused(d);
      }
      var estimate := Estimate(limits, resource, prompt);
      var denial := ledger.EnsureIncrement(view.node, estimate);
      if denial.Some? {
        AppendDenial(now, op, resource.Kind(), denial.value);
        return Refused(denial.value);
      }
      var r := Reservation(limits, view.node, view.attempt, op, view.token, resource, estimate);
      Append(now, Reserved(r));
      answer := Held(r);
    }

    method EnsureAttemptAvailable(now: int) returns (answer: Answer)
      requires view.Valid()
      modifies journal
      ensures journal.fence == old(journal.fence)
      ensures view.token != journal.fence ==> journal.events == old(journal.events) && answer == Failed(StaleLock)
      ensures view.token == journal.fence ==>
                Reply(journal.events, answer) == CheckedAttempt(limits, old(journal.events), view, now)
    {
      hide Replay, Pending, Exceeded, Shortfall;
      var ledger, fault := LoadLedger();
      if ledger == null { return Failed(fault); }
      var denial := ledger.EnsureIncrement(view.node, Increment(0, 0, 0, 1, 1, None, 0));
      if denial.None? { return Done; }
      AppendDenial(now, Op(Attempt, view.attempt), Attempt, denial.value);
      answer := Refused(denial.value);
    }

    // ---------- results ----------

    /** Append the result, then look again; evidence follows when the snapshot is exceeded. */
    method CommitResult(now: int, later: int, x: Result) returns (answer: Answer)
      requires view.token == journal.fence && Owns(view, x.reservation)
      modifies journal
      ensures journal.fence == old(journal.fence)
      ensures Reply(journal.events, answer) == Commit(limits, old(journal.events), now, later, x)
    {
      hide Replay, Listed, Stamp, Snapshot, LocalNames, ScopeIn;
      Append(now, Committed(x));
      var ledger, fault := LoadLedger();
      if ledger == null { return Failed(fault); }
      var texts := ledger.SnapshotTexts();
      EmptySnapshot(limits, ledger.Contents());
      if texts == {} { return Done; }
      var names := LocalNames(texts, view.node);
      if names == {} { return Failed(NoLocalDimension); }
      var r := x.reservation;
      var identity := Identity(r.limits, view.node, view.attempt, r.op, r.resource.Kind(), view.token);
      Append(later, Exhausted(Evidence(identity, ScopeIn(texts, view.node), names, Some(r))));
      ledger, fault := LoadLedger();
      answer := if ledger == null then Failed(fault) else Overspent;
    }

    /** Commit a model response, a failed model call or a tool call, or release the reservation. */
    method Settle(now: int, later: int, q: Request) returns (answer: Answer)
      requires view.Valid() && HasHandle(q)
      modifies journal
      ensures journal.fence == old(journal.fence)
      ensures view.token != journal.fence ==>
                && journal.events == old(journal.events)
                && answer == Failed(if Owns(view, q.handle) && Settles(q) then StaleLock else ForeignHandle)
      ensures !(Owns(view, q.handle) && Settles(q)) ==>
                journal.events == old(journal.events) && answer == Failed(ForeignHandle)
      ensures view.token == journal.fence ==>
                Reply(journal.events, answer) == Settlement(limits, old(journal.events), view, now, later, q)
    {
      hide Replay, ResultOf, Commit;
      if !Owns(view, q.handle) || !Settles(q) { return Failed(ForeignHandle); }
      var ledger, fault := LoadLedger();
      if ledger == null { return Failed(fault); }
      if q.handle !in ledger.active { return Failed(ForeignHandle); }
      if q.Release? {
        Append(now, Released(q.handle, IdentityOf(q.handle)));
        return Done;
      }
      var x := ResultOf(limits, q);
      if x.None? { return Failed(InvalidUsage); }
      assert x.value.reservation == q.handle by { ResultHandle(limits, q); }
      answer := CommitResult(now, later, x.value);
    }

    method MaterializeExceeded(now: int, op: OpId, kind: Kind) returns (answer: Answer)
      requires view.Valid()
      modifies journal
      ensures journal.fence == old(journal.fence)
      ensures view.token != journal.fence ==> journal.events == old(journal.events) && answer == Failed(StaleLock)
      ensures view.token == journal.fence ==>
                Reply(journal.events, answer) == Materialized(limits, old(journal.events), view, now, op, kind)
    {
      hide Replay, Listed, RecordedBy, Snapshot, OwnTails, ExecTexts;
      var ledger, fault := LoadLedger();
      if ledger == null { return Failed(fault); }
      var texts := ledger.SnapshotTexts();
      EmptySnapshot(limits, ledger.Contents());
      if texts == {} { return Done; }
      var i := 0;
      while i < |journal.events|
        invariant 0 <= i <= |journal.events| && journal.events == old(journal.events)
        invariant forall j :: 0 <= j < i ==> !RecordedBy(view, op, journal.events[j])
      {
        if RecordedBy(view, op, journal.events[i]) {
          assert journal.events[i] in journal.events;
          return Overspent;
        }
        i := i + 1;
      }
      assert forall e :: e in journal.events ==> !RecordedBy(view, op, e);
      var own := OwnTails(texts, view.node);
      var n := if own != {} then Notice(NodeScope, own) else Notice(ExecutionScope, ExecTexts(texts));
      if n.names == {} { return Failed(NoLocalDimension); }
      AppendNotice(now, op, kind, n);
      ledger, fault := LoadLedger();
      answer := if ledger == null then Failed(fault) else Overspent;
    }

    /** Any request: the journal takes exactly the step of the specification. */
    method Serve(now: int, later: int, q: Request) returns (answer: Answer)
      requires view.Valid()
      modifies journal
      ensures journal.Contents() == Step(limits, old(journal.Contents()), Ask(view, now, later, q))
      ensures answer == Answered(limits, old(journal.Contents()), view, now, later, q).answer
    {
      hide Reserve, CheckedAttempt, Materialized, Settlement, Owns, Settles;
      match q
      case ReserveModel(provider, model, bytes) => answer := ReserveFor(now, ModelCall(provider, model), bytes);
      case ReserveTool(tool) => answer := ReserveFor(now, ToolCall(tool), 0);
      case CheckAttempt => answer := EnsureAttemptAvailable(now);
      case Materialize(op, kind) => answer := MaterializeExceeded(now, op, kind);
      case _ =>
        answer := Settle(now, later, q);
    }
  }

  lemma ResultHandle(limits: Limits, q: Request)
    requires q.CommitModel? || q.FailModel? || q.CommitTool?
    ensures ResultOf(limits, q).Some? ==> ResultOf(limits, q).value.reservation == q.handle
  {
  }
}
