/** What a boundary writes and answers, request by request, in terms of the journal. */
module BudgetAnswers {
  import opened Common
  import opened BudgetText
  import opened BudgetModel
  import opened BudgetConservation
  import opened BudgetBoundary
  import opened BudgetAgreement
  import opened BudgetBlindSpot
  import opened BudgetLimits

  // ---------- appending ----------

  /** A budget event is stamped with the present, or one microsecond after the last event if that is later. */
  lemma StampExactly(events: seq<Event>, now: int)
    ensures Stamp(events, now) >= now
    ensures events != [] ==> Stamp(events, now) > events[|events| - 1].at
    ensures Stamp(events, now) == now || (events != [] && Stamp(events, now) == events[|events| - 1].at + 1)
    ensures events == [] || now > events[|events| - 1].at ==> Stamp(events, now) == now
  {
  }

  /** The reservations and evidence records of a node attempt and kind so far. */
  function Earlier(events: seq<Event>, node: NodeId, attempt: nat, kind: Kind): nat {
    if events == [] then 0
    else
      var b := events[|events| - 1].body;
      var own :=
        || (b.Reserved? && b.reservation.node == node && b.reservation.attempt == attempt
            && (if b.reservation.resource.ModelCall? then Kind.Model else Kind.Tool) == kind)
        || (b.Exhausted? && b.evidence.identity.node == node && b.evidence.identity.attempt == attempt
            && b.evidence.identity.kind == kind);
      Earlier(events[..|events| - 1], node, attempt, kind) + if own then 1 else 0
  }

  lemma {:induction false} CountIsEarlier(events: seq<Event>, node: NodeId, attempt: nat, kind: Kind)
    ensures CountOps(events, node, attempt, kind) == Earlier(events, node, attempt, kind)
  {
    if events != [] { CountIsEarlier(events[..|events| - 1], node, attempt, kind); }
  }

  /** The journal grew by one event, stamped now. */
  ghost predicate Grew(before: seq<Event>, after: seq<Event>, now: int, body: Body) {
    after == before + [Event(Stamp(before, now), body)]
  }

  predicate IsIdentity(limits: Limits, v: View, op: OpId, kind: Kind, i: Identity) {
    i.limits == limits && i.node == v.node && i.attempt == v.attempt && i.op == op && i.kind == kind
      && i.token == v.token
  }

  // ---------- reservations ----------

  /**
   * A request for a reservation writes the reservation under the next number of its kind, or evidence of the denial
   * under that number; an unreadable journal or an open reservation leaves the journal as it is.
   */
  lemma ReserveWrites(limits: Limits, events: seq<Event>, v: View, now: int, resource: Resource, prompt: nat)
    ensures var reply := Reserve(limits, events, v, now, resource, prompt);
            var kind := if resource.ModelCall? then Kind.Model else Kind.Tool;
            var op := Op(kind, Earlier(events, v.node, v.attempt, kind) + 1);
            match reply.answer
            case Held(r) => Grew(events, reply.events, now, Reserved(r)) && r.op == op
            case Refused(d) =>
              && |reply.events| > 0
              && var body := reply.events[|reply.events| - 1].body;
                 && Grew(events, reply.events, now, body) && body.Exhausted?
                 && IsIdentity(limits, v, op, kind, body.evidence.identity) && body.evidence.reservation == None
                 && body.evidence.scope == d.scope && body.evidence.names == NamesOf(d.dims)
            case Failed(Unreadable) => !Accepted(limits, events) && reply.events == events
            case Failed(Ambiguous) =>
              && Accepted(limits, events) && Replay(limits, events).value.active != {} && reply.events == events
            case _ => false
  {
    CountIsEarlier(events, v.node, v.attempt, resource.Kind());
    hide Judged, CountOps, Earlier, Estimate, Stamp, NamesOf, Loop, Late;
  }

  /** A denied attempt leaves evidence under the attempt's own operation id. */
  lemma AttemptWrites(limits: Limits, events: seq<Event>, v: View, now: int)
    ensures var reply := CheckedAttempt(limits, events, v, now);
            match reply.answer
            case Done => reply.events == events
            case Refused(d) =>
              && |reply.events| > 0
              && var body := reply.events[|reply.events| - 1].body;
                 && Grew(events, reply.events, now, body) && body.Exhausted?
                 && IsIdentity(limits, v, Op(Attempt, v.attempt), Attempt, body.evidence.identity)
                 && body.evidence.reservation == None && body.evidence.scope == d.scope
                 && body.evidence.names == NamesOf(d.dims)
            case Failed(Unreadable) => !Accepted(limits, events) && reply.events == events
            case _ => false
  {
    hide Shortfall, Stamp, NamesOf, Loop, Late;
  }

  // ---------- results ----------

  /** Whether a handle is this view's own and of the request's kind. */
  predicate OwnHandle(v: View, q: Request) {
    match q
    case CommitModel(h, _, _) => SameView(v, h) && h.resource.ModelCall?
    case FailModel(h, _) => SameView(v, h) && h.resource.ModelCall?
    case CommitTool(h, _, _) => SameView(v, h) && h.resource.ToolCall?
    case Release(h) => SameView(v, h)
    case _ => true
  }

  predicate SameView(v: View, h: Reservation) { h.node == v.node && h.attempt == v.attempt && h.token == v.token }

  /** Why a request is turned away before it writes anything, if it is. */
  ghost function TurnedAway(limits: Limits, w: World, v: View, q: Request): Option<Fault> {
    if v.node == "" || v.attempt < 1 || v.token < 1 then Some(InvalidView)
    else if !OwnHandle(v, q) then Some(ForeignHandle)
    else if v.token != w.fence then Some(StaleLock)
    else if !Accepted(limits, w.events) then Some(Unreadable)
    else if HasHandle(q) && q.handle !in Replay(limits, w.events).value.active then Some(ForeignHandle)
    else if q.CommitModel? && (q.usage.None? || q.usage.value.response == "") then Some(InvalidUsage)
    else None
  }

  /** A request that is turned away answers why, and leaves the journal as it is. */
  lemma TurnedAwayExactly(limits: Limits, w: World, v: View, now: int, later: int, q: Request)
    ensures TurnedAway(limits, w, v, q).Some? ==>
              Answered(limits, w, v, now, later, q) == Reply(w.events, Failed(TurnedAway(limits, w, v, q).value))
  {
    hide Commit, Judged, Estimate, CountOps, Shortfall, Shown, AnyListed, RecordedBy, Loop, Late;
  }

  /** What a request that settles a reservation writes first, if it is not turned away. */
  lemma SettlementWrites(limits: Limits, w: World, v: View, now: int, later: int, q: Request)
    requires HasHandle(q) && TurnedAway(limits, w, v, q).None?
    ensures var reply := Answered(limits, w, v, now, later, q);
            && (q.Release? ==>
                  && reply.answer == Done
                  && Grew(w.events, reply.events, now, Released(q.handle, IdentityOf(q.handle))))
            && (!q.Release? ==>
                  && |reply.events| > |w.events|
                  && var body := reply.events[|w.events|].body;
                     && Grew(w.events, reply.events[..|w.events| + 1], now, body) && body.Committed?
                     && body.result.reservation == q.handle && body.result.identity == IdentityOf(q.handle)
                     && body.result.ok == (if q.CommitTool? then q.ok else q.CommitModel?)
                     && body.result.response == if q.CommitModel? then Some(q.usage.value.response) else None)
  {
    hide Loop, Late, Replay, Commit, PriceOf;
    if !q.Release? {
      var x := ResultOf(limits, q).value;
      CommitStarts(limits, w.events, now, later, x);
    }
  }

  lemma CommitStarts(limits: Limits, events: seq<Event>, now: int, later: int, x: Result)
    ensures var after := Commit(limits, events, now, later, x).events;
            |after| > |events| && after[..|events| + 1] == events + [Event(Stamp(events, now), Committed(x))]
  {
    hide Replay, AnyListed, LocalNames, Snapshot, Accepted, Stamp, ScopeIn;
  }

  lemma IdentityIsOwn(r: Reservation)
    ensures var i := IdentityOf(r);
            && i.limits == r.limits && i.node == r.node && i.attempt == r.attempt && i.op == r.op && i.token == r.token
            && (i.kind == if r.resource.ModelCall? then Kind.Model else Kind.Tool)
  {
  }

  // ---------- evidence for usage that no commit reports ----------

  /** Evidence of this node attempt under this operation id. */
  ghost predicate AlreadyTold(events: seq<Event>, v: View, op: OpId) {
    exists e :: && e in events && e.body.Exhausted? && e.body.evidence.identity.node == v.node
                && e.body.evidence.identity.attempt == v.attempt && e.body.evidence.identity.op == op
  }

  /**
   * Evidence is written if and only if something is exceeded, this node attempt has not told so under this id, and
   * there is something to name: the node's own texts, without their prefix, or else the execution's.
   */
  lemma MaterializeWrites(limits: Limits, events: seq<Event>, v: View, now: int, op: OpId, kind: Kind)
    requires Accepted(limits, events)
    ensures var texts := Snapshot(limits, Replay(limits, events).value);
            var reply := Materialized(limits, events, v, now, op, kind);
            var own := OwnTails(texts, v.node);
            var names := if own != {} then own else ExecTexts(texts);
            if texts == {} then reply == Reply(events, Done)
            else if AlreadyTold(events, v, op) then reply == Reply(events, Overspent)
            else if names == {} then reply == Reply(events, Failed(NoLocalDimension))
            else
              && |reply.events| > 0
              && var body := reply.events[|reply.events| - 1].body;
                 && Grew(events, reply.events, now, body) && body.Exhausted?
                 && IsIdentity(limits, v, op, kind, body.evidence.identity) && body.evidence.reservation == None
                 && body.evidence.names == names
                 && body.evidence.scope == (if own != {} then NodeScope else ExecutionScope)
                 && (reply.answer == Overspent || reply.answer == Failed(Unreadable))
                 && (reply.answer == Overspent <==> Accepted(limits, reply.events))
  {
    EmptySnapshot(limits, Replay(limits, events).value);
    Told(events, v, op);
    hide Loop, Late, Snapshot, OwnTails, ExecTexts, AnyListed, Stamp, RecordedBy, AlreadyTold;
  }

  lemma Told(events: seq<Event>, v: View, op: OpId)
    ensures AlreadyTold(events, v, op) <==> exists e :: e in events && RecordedBy(v, op, e)
  {
    if e :| e in events && RecordedBy(v, op, e) { assert AlreadyTold(events, v, op); }
    if AlreadyTold(events, v, op) {
      var e :| && e in events && e.body.Exhausted? && e.body.evidence.identity.node == v.node
               && e.body.evidence.identity.attempt == v.attempt && e.body.evidence.identity.op == op;
      assert RecordedBy(v, op, e);
    }
  }
}
