/** Writer and reader agree: exactly which requests leave a journal that the strict replay accepts. */
module BudgetAgreement {
  import opened Common
  import opened BudgetText
  import opened BudgetModel
  import opened BudgetConservation
  import opened BudgetBoundary

  // ---------- what the loop remembers of a journal ----------

  predicate Ordered(events: seq<Event>) {
    forall i, j :: 0 <= i < j < |events| ==> events[i].at <= events[j].at
  }

  predicate TokenUpTo(e: Event, fence: nat) {
    match e.body
    case Reserved(r) => r.token <= fence
    case Exhausted(v) => v.identity.token <= fence
    case _ => true
  }

  predicate Numbered(events: seq<Event>, i: nat)
    requires i < |events| && events[i].body.Reserved?
  {
    var r := events[i].body.reservation;
    r.op == Op(r.resource.Kind(), CountOps(events[..i], r.node, r.attempt, r.resource.Kind()) + 1)
  }

  /** The journal is accepted, ordered, and written under issued tokens with running operation numbers. */
  ghost predicate WorldOk(limits: Limits, w: World) {
    && Accepted(limits, w.events)
    && Ordered(w.events)
    && (forall e :: e in w.events ==> TokenUpTo(e, w.fence))
    && (forall i :: 0 <= i < |w.events| && w.events[i].body.Reserved? ==> Numbered(w.events, i))
  }

  ghost predicate Traces(events: seq<Event>, l: Ledger, fence: nat) {
    && (l.lastAt.Some? ==> exists e :: e in events && e.at == l.lastAt.value)
    && l.lastToken <= fence
    && (forall r :: r in l.active || r in l.closed ==> exists e :: e in events && e.body == Reserved(r))
  }

  lemma NextTraces(limits: Limits, events: seq<Event>, l: Ledger, e: Event, fence: nat)
    requires Traces(events, l, fence) && Accepts(limits, l, e) && TokenUpTo(e, fence)
    ensures Traces(events + [e], Next(limits, l, e), fence)
  {
    var n, all := Next(limits, l, e), events + [e];
    assert e in all;
    assert forall x :: x in events ==> x in all;
    forall r | r in n.active || r in n.closed
      ensures exists x :: x in all && x.body == Reserved(r)
    {
      if r in l.active || r in l.closed {
        var x :| x in events && x.body == Reserved(r);
        assert x in all;
      } else {
        assert e.body == Reserved(r);
      }
    }
  }

  lemma {:induction false} LoopTraces(limits: Limits, events: seq<Event>, fence: nat)
    requires Loop(limits, events).Some?
    requires forall e :: e in events ==> TokenUpTo(e, fence)
    ensures Traces(events, Loop(limits, events).value, fence)
  {
    if events != [] {
      var init, e := events[..|events| - 1], events[|events| - 1];
      assert init + [e] == events;
      LoopTraces(limits, init, fence);
      hide Traces, Accepts, Next;
      NextTraces(limits, init, Loop(limits, init).value, e, fence);
    }
  }

  // ---------- appending a budget event ----------

  ghost predicate SameBut(l: Ledger, m: Ledger) {
    && m.active == l.active && m.closed == l.closed && m.results == l.results && m.evidence == l.evidence
    && m.lastAt == l.lastAt && m.lastToken == l.lastToken
  }

  /** The passes after the loop change balances only. */
  lemma LateFrame(limits: Limits, l: Ledger, events: seq<Event>)
    ensures SameBut(l, Late(limits, l, events))
  {
    AttemptsFrame(l, events);
    GatesFrame(WithAttempts(l, events), events);
    SharesFrame(WithGates(WithAttempts(l, events), events), History(limits, events));
  }

  lemma {:induction false} AttemptsFrame(l: Ledger, events: seq<Event>)
    ensures SameBut(l, WithAttempts(l, events))
  {
    if events != [] { AttemptsFrame(l, events[..|events| - 1]); }
  }

  lemma {:induction false} GatesFrame(l: Ledger, events: seq<Event>)
    ensures SameBut(l, WithGates(l, events))
  {
    if events != [] { GatesFrame(l, events[..|events| - 1]); }
  }

  lemma {:induction false} SharesFrame(l: Ledger, shares: seq<Share>)
    ensures SameBut(l, ChargeAll(l, shares))
  {
    if shares != [] { SharesFrame(l, shares[..|shares| - 1]); }
  }

  /** A budget event only meets the loop: the later passes do not see it. */
  lemma BudgetEventReplay(limits: Limits, events: seq<Event>, e: Event)
    requires Accepted(limits, events) && e.body.IsBudget()
    ensures Accepted(limits, events + [e]) <==> Accepts(limits, Loop(limits, events).value, e)
    ensures Accepted(limits, events + [e]) ==>
              && Loop(limits, events + [e]) == Some(Next(limits, Loop(limits, events).value, e))
              && Replay(limits, events + [e]) ==
                 Some(Late(limits, Next(limits, Loop(limits, events).value, e), events))
  {
    hide Accepts, Next, Late;
    var all := events + [e];
    assert all[..|events|] == events && all[|events|] == e;
    assert AttemptOf(e).None?;
    BeforeStep(events, e);
    if Accepts(limits, Loop(limits, events).value, e) {
      LateSkips(limits, Next(limits, Loop(limits, events).value, e), events, e);
    }
  }

  lemma LateSkips(limits: Limits, l: Ledger, events: seq<Event>, e: Event)
    requires e.body.IsBudget()
    ensures Late(limits, l, events + [e]) == Late(limits, l, events)
  {
    var all := events + [e];
    assert all[..|events|] == events && all[|events|] == e;
    assert AttemptOf(e).None?;
    BeforeStep(events, e);
    hide ChargeAll, Before, PastOf;
  }

  lemma StampInOrder(events: seq<Event>, now: int, body: Body)
    requires Ordered(events)
    ensures Ordered(Appended(events, now, body))
    ensures forall e :: e in events ==> e.at <= Stamp(events, now)
  {
    var all := Appended(events, now, body);
    forall i, j | 0 <= i < j < |all| ensures all[i].at <= all[j].at {
      assert i < |events| - 1 ==> events[i].at <= events[|events| - 1].at;
    }
    forall e | e in events ensures e.at <= Stamp(events, now) {
      var i :| 0 <= i < |events| && events[i] == e;
      assert i < |events| - 1 ==> events[i].at <= events[|events| - 1].at;
    }
  }

  /** Appending a budget event under the current token keeps everything but, perhaps, acceptance. */
  lemma AppendKeeps(limits: Limits, w: World, now: int, body: Body)
    requires WorldOk(limits, w) && body.IsBudget() && TokenUpTo(Event(0, body), w.fence)
    requires body.Reserved? ==>
               var r := body.reservation;
               r.op == Op(r.resource.Kind(), CountOps(w.events, r.node, r.attempt, r.resource.Kind()) + 1)
    ensures WorldOk(limits, w.(events := Appended(w.events, now, body))) <==>
            Accepted(limits, Appended(w.events, now, body))
  {
    hide Accepted;
    StampInOrder(w.events, now, body);
    var all := Appended(w.events, now, body);
    forall i | 0 <= i < |all| && all[i].body.Reserved? ensures Numbered(all, i) {
      assert all[..i] == w.events[..i];
      if i < |w.events| { assert Numbered(w.events, i); }
      else { assert all[..i] == w.events; }
    }
  }

  /** The next budget event is in order for the loop. */
  lemma NextInOrder(limits: Limits, w: World, now: int, body: Body)
    requires WorldOk(limits, w)
    ensures InOrder(Loop(limits, w.events).value, Event(Stamp(w.events, now), body))
    ensures Loop(limits, w.events).value.lastToken <= w.fence
  {
    LoopTraces(limits, w.events, w.fence);
    StampInOrder(w.events, now, body);
    var l := Loop(limits, w.events).value;
    if l.lastAt.Some? {
      var e :| e in w.events && e.at == l.lastAt.value;
    }
  }

  // ---------- operation numbers ----------

  lemma {:induction false} CountOpsGrows(events: seq<Event>, i: nat, j: nat, node: NodeId, attempt: nat, kind: Kind)
    requires i <= j <= |events|
    ensures CountOps(events[..i], node, attempt, kind) <= CountOps(events[..j], node, attempt, kind)
  {
    if i < j {
      assert events[..j][..j - 1] == events[..j - 1];
      CountOpsGrows(events, i, j - 1, node, attempt, kind);
    }
  }

  /** Operation numbers never repeat within a node attempt and kind. */
  lemma OperationIdsNeverRepeat(limits: Limits, w: World, i: nat, j: nat)
    requires WorldOk(limits, w) && i < j < |w.events|
    requires w.events[i].body.Reserved? && w.events[j].body.Reserved?
    ensures var r, s := w.events[i].body.reservation, w.events[j].body.reservation;
            r != s && (r.node == s.node && r.attempt == s.attempt && r.resource.Kind() == s.resource.Kind() ==>
                       r.op.Op? && s.op.Op? && r.op.n < s.op.n)
  {
    var r, s := w.events[i].body.reservation, w.events[j].body.reservation;
    hide Accepted, Ordered;
    assert Numbered(w.events, i) && Numbered(w.events, j);
    if r.node == s.node && r.attempt == s.attempt && r.resource.Kind() == s.resource.Kind() {
      CountOpsGrows(w.events, i + 1, j, r.node, r.attempt, r.resource.Kind());
      assert w.events[..i + 1][..i] == w.events[..i];
    }
  }

  lemma EarlierNumber(limits: Limits, w: World, e: Event)
    requires WorldOk(limits, w) && e in w.events && e.body.Reserved?
    ensures var r := e.body.reservation;
            r.op.Op? && r.op.n <= CountOps(w.events, r.node, r.attempt, r.resource.Kind())
  {
    hide Accepted, Ordered;
    var i :| 0 <= i < |w.events| && w.events[i] == e;
    var r := e.body.reservation;
    assert Numbered(w.events, i);
    CountOpsGrows(w.events, i + 1, |w.events|, r.node, r.attempt, r.resource.Kind());
    assert w.events[..i + 1][..i] == w.events[..i] && w.events[..|w.events|] == w.events;
  }

  lemma Readable(limits: Limits, w: World)
    requires WorldOk(limits, w)
    ensures Accepted(limits, w.events) && Loop(limits, w.events).Some?
    ensures Replay(limits, w.events) == Some(Late(limits, Loop(limits, w.events).value, w.events))
  {
  }

  /** A reservation planned now is new to the ledger. */
  lemma PlannedIsNew(limits: Limits, w: World, r: Reservation)
    requires WorldOk(limits, w)
    requires r.op == Op(r.resource.Kind(), CountOps(w.events, r.node, r.attempt, r.resource.Kind()) + 1)
    ensures Loop(limits, w.events).Some?
    ensures r !in Loop(limits, w.events).value.active && r !in Loop(limits, w.events).value.closed
  {
    LoopTraces(limits, w.events, w.fence);
    forall e | e in w.events && e.body.Reserved? ensures e.body.reservation != r { EarlierNumber(limits, w, e); }
  }

  // ---------- requests that write no result ----------

  lemma EstimateIsOk(limits: Limits, r: Reservation, prompt: nat)
    requires r.estimate == Estimate(limits, r.resource, prompt)
    ensures EstimateOk(limits, r)
  {
  }

  lemma BodyAccepted(limits: Limits, w: World, now: int, body: Body)
    requires WorldOk(limits, w) && body.IsBudget() && TokenUpTo(Event(0, body), w.fence)
    requires body.Reserved? ==>
               var r := body.reservation;
               r.op == Op(r.resource.Kind(), CountOps(w.events, r.node, r.attempt, r.resource.Kind()) + 1)
    requires Loop(limits, w.events).Some?
    ensures var e, l := Event(Stamp(w.events, now), body), Loop(limits, w.events).value;
            && (WorldOk(limits, w.(events := Appended(w.events, now, body))) <==> Accepts(limits, l, e))
            && (Accepts(limits, l, e) ==>
                  && Loop(limits, Appended(w.events, now, body)) == Some(Next(limits, l, e))
                  && Replay(limits, Appended(w.events, now, body)) == Some(Late(limits, Next(limits, l, e), w.events)))
  {
    Readable(limits, w);
    AppendKeeps(limits, w, now, body);
    hide WorldOk, Loop, Replay, Accepts, Next;
    BudgetEventReplay(limits, w.events, Event(Stamp(w.events, now), body));
  }

  lemma PlannedFacts(limits: Limits, events: seq<Event>, v: View, resource: Resource, prompt: nat)
    ensures var r := Planned(limits, events, v, resource, prompt);
            && r.limits == limits && r.token == v.token && r.node == v.node && r.attempt == v.attempt
            && r.op == Op(r.resource.Kind(), CountOps(events, r.node, r.attempt, r.resource.Kind()) + 1)
            && EstimateOk(limits, r)
  {
    EstimateIsOk(limits, Planned(limits, events, v, resource, prompt), prompt);
    hide EstimateOk, Estimate, CountOps;
  }

  lemma ReservedAccepted(limits: Limits, w: World, v: View, now: int, resource: Resource, prompt: nat)
    requires WorldOk(limits, w) && v.Valid() && v.token == w.fence
    requires Loop(limits, w.events).Some? && Loop(limits, w.events).value.active == {}
    ensures var r := Planned(limits, w.events, v, resource, prompt);
            WorldOk(limits, w.(events := Appended(w.events, now, Reserved(r))))
  {
    var r := Planned(limits, w.events, v, resource, prompt);
    PlannedFacts(limits, w.events, v, resource, prompt);
    hide WorldOk, Loop, Planned, EstimateOk, CountOps, Stamp;
    PlannedIsNew(limits, w, r);
    NextInOrder(limits, w, now, Reserved(r));
    BodyAccepted(limits, w, now, Reserved(r));
  }

  /** Evidence that no commit reports is accepted exactly when its names are dimensions. */
  lemma NoticeAccepted(limits: Limits, w: World, v: View, now: int, op: OpId, kind: Kind, n: Notice)
    requires WorldOk(limits, w) && v.Valid() && v.token == w.fence && n.names != {}
    ensures WorldOk(limits, w.(events := Appended(w.events, now, Exhausted(Refusal(limits, v, op, kind, n))))) <==>
            n.names <= NamesOf(DIMS)
    ensures WorldOk(limits, w.(events := Appended(w.events, now, Exhausted(Refusal(limits, v, op, kind, n))))) <==>
            Accepted(limits, Appended(w.events, now, Exhausted(Refusal(limits, v, op, kind, n))))
  {
    var body := Exhausted(Refusal(limits, v, op, kind, n));
    Readable(limits, w);
    NextInOrder(limits, w, now, body);
    AppendKeeps(limits, w, now, body);
    hide WorldOk, Loop, Accepted, NamesOf;
    BodyAccepted(limits, w, now, body);
  }

  lemma DenialAccepted(limits: Limits, w: World, v: View, now: int, op: OpId, kind: Kind, d: Denial)
    requires WorldOk(limits, w) && v.Valid() && v.token == w.fence && d.dims != {}
    ensures WorldOk(limits, w.(events := Appended(w.events, now, Exhausted(Refusal(limits, v, op, kind, NoticeOf(d))))))
  {
    var dim :| dim in d.dims;
    NameIn(dim, d.dims);
    NamesOfIsInjective(d.dims, DIMS);
    hide WorldOk, NamesOf, Refusal;
    NoticeAccepted(limits, w, v, now, op, kind, NoticeOf(d));
  }

  // ---------- settling a reservation ----------

  ghost predicate ActiveOk(limits: Limits, l: Ledger, fence: nat) {
    forall r :: r in l.active ==>
      r.limits == limits && EstimateOk(limits, r) && r.token <= fence && Named(r.node, r.attempt, r.token)
  }

  lemma NextActiveOk(limits: Limits, l: Ledger, e: Event)
    requires ActiveOk(limits, l, l.lastToken) && Accepts(limits, l, e)
    ensures ActiveOk(limits, Next(limits, l, e), Next(limits, l, e).lastToken)
  {
    hide EstimateOk, ActualOk, Named, Add, Dispatchable, ReadsOff, OwnTextListed, ItemsOf;
    var n := Next(limits, l, e);
    assert n.lastToken >= l.lastToken;
    assert forall r :: r in n.active ==> r in l.active || e.body == Reserved(r);
  }

  lemma {:induction false} LoopActiveOk(limits: Limits, events: seq<Event>)
    requires Loop(limits, events).Some?
    ensures ActiveOk(limits, Loop(limits, events).value, Loop(limits, events).value.lastToken)
  {
    if events != [] {
      hide Accepts, Next, ActiveOk;
      LoopActiveOk(limits, events[..|events| - 1]);
      NextActiveOk(limits, Loop(limits, events[..|events| - 1]).value, events[|events| - 1]);
    }
  }

  lemma ActiveFacts(limits: Limits, w: World, r: Reservation)
    requires WorldOk(limits, w) && Loop(limits, w.events).Some? && r in Loop(limits, w.events).value.active
    ensures r.limits == limits && EstimateOk(limits, r) && r !in Loop(limits, w.events).value.closed
    ensures Named(r.node, r.attempt, r.token)
    ensures Loop(limits, w.events).value.active == {r}
  {
    LoopActiveOk(limits, w.events);
    LoopKeeps(limits, w.events);
  }

  lemma ReleaseAccepted(limits: Limits, w: World, now: int, r: Reservation)
    requires WorldOk(limits, w) && Loop(limits, w.events).Some? && r in Loop(limits, w.events).value.active
    ensures WorldOk(limits, w.(events := Appended(w.events, now, Released(r, IdentityOf(r)))))
  {
    var body := Released(r, IdentityOf(r));
    ActiveFacts(limits, w, r);
    NextInOrder(limits, w, now, body);
    hide WorldOk, Loop, EstimateOk;
    BodyAccepted(limits, w, now, body);
  }

  lemma ResultIsOk(limits: Limits, q: Request)
    requires q.CommitModel? || q.FailModel? || q.CommitTool?
    requires Settles(q) && ResultOf(limits, q).Some?
    ensures ActualOk(limits, q.handle, ResultOf(limits, q).value)
    ensures ResultOf(limits, q).value.reservation == q.handle
    ensures ResultOf(limits, q).value.identity == IdentityOf(q.handle)
  {
  }

  /** The ledger just after a result is recorded. */
  ghost function Settled(limits: Limits, events: seq<Event>, x: Result): Ledger
    requires Loop(limits, events).Some?
  {
    var l := Loop(limits, events).value;
    Close(Charged(l, x.reservation.node, x.actual).(results := l.results[x.reservation := x]), x.reservation)
  }

  /** A settled result is what the next replay shows, whatever the time stamp. */
  lemma CommittedAccepted(limits: Limits, w: World, now: int, x: Result)
    requires WorldOk(limits, w) && Loop(limits, w.events).Some?
    requires x.reservation in Loop(limits, w.events).value.active
    requires x.identity == IdentityOf(x.reservation) && ActualOk(limits, x.reservation, x)
    ensures WorldOk(limits, w.(events := Appended(w.events, now, Committed(x))))
    ensures Loop(limits, Appended(w.events, now, Committed(x))) ==
            Some(Settled(limits, w.events, x).(lastAt := Some(Stamp(w.events, now)), started := true))
    ensures Replay(limits, Appended(w.events, now, Committed(x))) ==
            Some(Late(limits, Settled(limits, w.events, x).(lastAt := Some(Stamp(w.events, now)), started := true),
              w.events))
  {
    var body := Committed(x);
    ActiveFacts(limits, w, x.reservation);
    NextInOrder(limits, w, now, body);
    hide WorldOk, Loop, EstimateOk, ActualOk, Replay;
    BodyAccepted(limits, w, now, body);
  }
}
