/** The router's fallback loop over its candidates, composed with the durable budget boundary. */
module ModelRouter {
  import opened Common
  import opened BudgetText
  import opened BudgetModel
  import opened BudgetConservation
  import opened BudgetBoundary
  import opened BudgetAgreement
  import opened BudgetBlindSpot
  import opened BudgetCounterexamples
  import opened BudgetBoundaryClass

  /** The usage of a response; a response without an identifier cannot be constructed. */
  type ReportedUsage = u: ModelUsage | u.response != "" witness ModelUsage(0, 0, "id")

  /** How a provider call ends: a response naming its provider, a provider error, or another exception. */
  datatype Outcome = Responded(usage: ReportedUsage, from: string) | ProviderError(retryable: bool) | OtherError

  /** One candidate, with what its provider, the cancellation token and the clocks will do. */
  datatype Candidate = Candidate(
    provider: string, model: string, cancelledBefore: bool, cancelledCreated: bool,
    outcome: Outcome, cancelledAfter: bool, duration: nat, now: int, settledAt: int, later: int)

  datatype Exit =
    | Completed(provider: string)
    | Cancelled
    | CancelledWithResponse
    | NotReserved(answer: Answer)
    | NotSettled(answer: Answer)
    | Raised
    | PermanentError
    | WrongProvider
    | OutOfCandidates

  /** What became of the reservation of a provider call. */
  datatype Ending = Settled(answer: Answer) | Unsettled

  /** The journal after the loop, the provider calls made, and how the loop was left. */
  datatype Route = Route(events: seq<Event>, calls: seq<Ending>, exit: Exit)

  function Settling(c: Candidate, r: Reservation): Request
    requires !c.outcome.OtherError?
  {
    match c.outcome
    case Responded(usage, _) => CommitModel(r, Some(usage), c.duration)
    case ProviderError(_) => FailModel(r, c.duration)
  }

  /** Whether a settled call lets the loop go on to the next candidate. */
  predicate Continues(c: Candidate) {
    c.outcome.ProviderError? && !c.cancelledAfter && c.outcome.retryable
  }

  function Leave(c: Candidate): Exit
    requires !Continues(c) && !c.outcome.OtherError?
  {
    match c.outcome
    case ProviderError(_) => if c.cancelledAfter then Cancelled else PermanentError
    case Responded(_, from) =>
      if c.cancelledAfter then CancelledWithResponse
      else if from != c.provider then WrongProvider
      else Completed(c.provider)
  }

  ghost function Routed(limits: Limits, w: World, v: View, bytes: nat, candidates: seq<Candidate>): Route
    decreases |candidates|
  {
    if candidates == [] then Route(w.events, [], OutOfCandidates)
    else
      var c := candidates[0];
      if c.cancelledBefore || c.cancelledCreated then Route(w.events, [], Cancelled)
      else
        var held := Answered(limits, w, v, c.now, c.now, ReserveModel(c.provider, c.model, bytes));
        if !held.answer.Held? then Route(held.events, [], NotReserved(held.answer))
        else if c.outcome.OtherError? then Route(held.events, [Unsettled], Raised)
        else
          var settled := Answered(limits, w.(events := held.events), v, c.settledAt, c.later,
                                  Settling(c, held.answer.reservation));
          if settled.answer != Done then Route(settled.events, [Settled(settled.answer)], NotSettled(settled.answer))
          else if !Continues(c) then Route(settled.events, [Settled(Done)], Leave(c))
          else
            var rest := Routed(limits, w.(events := settled.events), v, bytes, candidates[1..]);
            rest.(calls := [Settled(Done)] + rest.calls)
  }

  // ---------- the route ----------

  /** Every candidate is listed once, is allowed by the egress policy, and is registered. */
  predicate RouteOk(candidates: seq<string>, allowed: set<string>, registered: set<string>) {
    && (forall i, j :: 0 <= i < j < |candidates| ==> candidates[i] != candidates[j])
    && (forall p :: p in candidates ==> p in allowed && p in registered)
  }

  /** The primary provider, then the fallbacks, all checked before any prompt leaves. */
  method ValidateRoute(primary: string, fallbacks: seq<string>, allowed: set<string>, registered: set<string>)
    returns (route: Option<seq<string>>)
    ensures route == if RouteOk([primary] + fallbacks, allowed, registered) then Some([primary] + fallbacks) else None
  {
    var candidates := [primary] + fallbacks;
    var seen: set<string> := {};
    for i := 0 to |candidates|
      invariant forall p :: p in seen <==> p in candidates[..i]
      invariant forall j, k :: 0 <= j < k < i ==> candidates[j] != candidates[k]
    {
      if candidates[i] in seen {
        var j :| 0 <= j < i && candidates[..i][j] == candidates[i];
        assert candidates[j] == candidates[i];
        return None;
      }
      seen := seen + {candidates[i]};
      assert candidates[..i + 1] == candidates[..i] + [candidates[i]];
    }
    for i := 0 to |candidates|
      invariant forall j :: 0 <= j < i ==> candidates[j] in allowed && candidates[j] in registered
    {
      if candidates[i] !in allowed || candidates[i] !in registered {
        assert candidates[i] in candidates;
        return None;
      }
    }
    route := Some(candidates);
  }

  // ---------- the loop itself ----------

  method CompleteWithFallback(boundary: JournalBudgetBoundary, bytes: nat, candidates: seq<Candidate>)
    returns (calls: seq<Ending>, exit: Exit)
    requires boundary.view.Valid()
    modifies boundary.journal
    ensures boundary.journal.fence == old(boundary.journal.fence)
    ensures Route(boundary.journal.events, calls, exit) ==
            Routed(boundary.limits, old(boundary.journal.Contents()), boundary.view, bytes, candidates)
  {
    hide Answered;
    ghost var limits, v := boundary.limits, boundary.view;
    ghost var start := boundary.journal.Contents();
    calls := [];
    var i := 0;
    while i < |candidates|
      invariant 0 <= i <= |candidates| && boundary.journal.fence == old(boundary.journal.fence)
      invariant Routed(limits, start, v, bytes, candidates) ==
                var rest := Routed(limits, boundary.journal.Contents(), v, bytes, candidates[i..]);
                rest.(calls := calls + rest.calls)
    {
      var c := candidates[i];
      assert candidates[i..][0] == c && candidates[i..][1..] == candidates[i + 1..];
      if c.cancelledBefore { return calls, Cancelled; }
      if c.cancelledCreated { return calls, Cancelled; }
      var held := boundary.Serve(c.now, c.now, ReserveModel(c.provider, c.model, bytes));
      if !held.Held? { return calls, NotReserved(held); }
      match c.outcome {
        case OtherError => return calls + [Unsettled], Raised;
        case ProviderError(retryable) =>
          var answer := boundary.Serve(c.settledAt, c.later, FailModel(held.reservation, c.duration));
          calls := calls + [Settled(answer)];
          if answer != Done { return calls, NotSettled(answer); }
          if c.cancelledAfter { return calls, Cancelled; }
          if !retryable { return calls, PermanentError; }
        case Responded(usage, from) =>
          var answer := boundary.Serve(c.settledAt, c.later, CommitModel(held.reservation, Some(usage), c.duration));
          calls := calls + [Settled(answer)];
          if answer != Done { return calls, NotSettled(answer); }
          if c.cancelledAfter { return calls, CancelledWithResponse; }
          if from != c.provider { return calls, WrongProvider; }
          return calls, Completed(c.provider);
      }
      i := i + 1;
    }
    exit := OutOfCandidates;
  }

  // ---------- which candidates are called ----------

  /**
   * Candidates are called in order, each at most once, and one is followed by the next only after a retryable
   * provider error, without cancellation, whose result was recorded without an overage.
   */
  lemma {:induction false} OnlyRetryableErrorsContinue(
    limits: Limits, w: World, v: View, bytes: nat, candidates: seq<Candidate>, i: nat)
    requires i < |Routed(limits, w, v, bytes, candidates).calls|
    ensures |Routed(limits, w, v, bytes, candidates).calls| <= |candidates|
    ensures !candidates[i].cancelledBefore && !candidates[i].cancelledCreated
    ensures i + 1 < |Routed(limits, w, v, bytes, candidates).calls| ==>
              Continues(candidates[i]) && Routed(limits, w, v, bytes, candidates).calls[i] == Settled(Done)
    ensures Routed(limits, w, v, bytes, candidates).exit.Completed? ==>
              Routed(limits, w, v, bytes, candidates).exit.provider ==
              candidates[|Routed(limits, w, v, bytes, candidates).calls| - 1].provider
    decreases |candidates|
  {
    hide Answered;
    var c := candidates[0];
    var held := Answered(limits, w, v, c.now, c.now, ReserveModel(c.provider, c.model, bytes));
    if !c.outcome.OtherError? {
      var settled := Answered(limits, w.(events := held.events), v, c.settledAt, c.later,
        Settling(c, held.answer.reservation));
      var next, rest := w.(events := settled.events), candidates[1..];
      if settled.answer == Done && Continues(c) && |Routed(limits, next, v, bytes, rest).calls| > 0 {
        OnlyRetryableErrorsContinue(limits, next, v, bytes, rest, if i > 0 then i - 1 else 0);
      }
    }
  }

  /** A call after which the next candidate is due. */
  predicate GoesOn(c: Candidate, e: Ending) {
    e == Settled(Done) && c.outcome == ProviderError(true) && !c.cancelledAfter
  }

  predicate Unstarted(c: Candidate) { c.cancelledBefore || c.cancelledCreated }

  /** How the loop is left after a call that does not go on. */
  ghost predicate LeftAfter(c: Candidate, e: Ending, exit: Exit) {
    match e
    case Unsettled => c.outcome == OtherError && exit == Raised
    case Settled(answer) =>
      && c.outcome != OtherError
      && if answer != Done then exit == NotSettled(answer)
         else
           match c.outcome
           case ProviderError(retryable) =>
             if c.cancelledAfter then exit == Cancelled else !retryable && exit == PermanentError
           case Responded(_, from) =>
             if c.cancelledAfter then exit == CancelledWithResponse
             else if from == c.provider then exit == Completed(c.provider)
             else exit == WrongProvider
           case OtherError => false
  }

  /** How the loop is left once all calls so far went on. */
  ghost predicate LeftBefore(candidates: seq<Candidate>, n: nat, exit: Exit)
    requires n <= |candidates|
  {
    if n == |candidates| then exit == OutOfCandidates
    else if Unstarted(candidates[n]) then exit == Cancelled
    else exit.NotReserved?
  }

  ghost predicate Decided(route: Route, candidates: seq<Candidate>) {
    var n := |route.calls|;
    && n <= |candidates|
    && (forall i :: 0 <= i < n ==> !Unstarted(candidates[i]))
    && (forall i :: 0 <= i < n - 1 ==> GoesOn(candidates[i], route.calls[i]))
    && if n == 0 || GoesOn(candidates[n - 1], route.calls[n - 1])
       then LeftBefore(candidates, n, route.exit)
       else LeftAfter(candidates[n - 1], route.calls[n - 1], route.exit)
  }

  /** The journal after the first call of a route, and the answer that settled it. */
  ghost function FirstCall(limits: Limits, w: World, v: View, bytes: nat, c: Candidate): Option<Reply>
    requires !c.outcome.OtherError?
  {
    var held := Answered(limits, w, v, c.now, c.now, ReserveModel(c.provider, c.model, bytes));
    if held.answer.Held?
    then Some(Answered(limits, w.(events := held.events), v, c.settledAt, c.later,
      Settling(c, held.answer.reservation)))
    else None
  }

  /** The first call is settled, and the next candidate is due. */
  ghost predicate GoesOnFirst(limits: Limits, w: World, v: View, bytes: nat, candidates: seq<Candidate>) {
    && candidates != [] && !Unstarted(candidates[0]) && !candidates[0].outcome.OtherError? && Continues(candidates[0])
    && FirstCall(limits, w, v, bytes, candidates[0]).Some?
    && FirstCall(limits, w, v, bytes, candidates[0]).value.answer == Done
  }

  lemma EndsHere(limits: Limits, w: World, v: View, bytes: nat, candidates: seq<Candidate>)
    requires !GoesOnFirst(limits, w, v, bytes, candidates)
    ensures Decided(Routed(limits, w, v, bytes, candidates), candidates)
  {
    hide Answered, Settling;
  }

  lemma GoesFurther(limits: Limits, w: World, v: View, bytes: nat, candidates: seq<Candidate>)
    requires GoesOnFirst(limits, w, v, bytes, candidates)
    ensures var next := w.(events := FirstCall(limits, w, v, bytes, candidates[0]).value.events);
            var rest := Routed(limits, next, v, bytes, candidates[1..]);
            Routed(limits, w, v, bytes, candidates) == rest.(calls := [Settled(Done)] + rest.calls)
    ensures GoesOn(candidates[0], Settled(Done))
  {
    hide Answered, Settling;
  }

  /** The candidates called and the way the loop is left are decided by how the calls end, and by nothing else. */
  lemma {:induction false} RouteIsDecided(limits: Limits, w: World, v: View, bytes: nat, candidates: seq<Candidate>)
    ensures Decided(Routed(limits, w, v, bytes, candidates), candidates)
    decreases |candidates|
  {
    if GoesOnFirst(limits, w, v, bytes, candidates) {
      GoesFurther(limits, w, v, bytes, candidates);
      var next := w.(events := FirstCall(limits, w, v, bytes, candidates[0]).value.events);
      hide Routed, Decided, FirstCall, GoesOn, Unstarted, Continues;
      RouteIsDecided(limits, next, v, bytes, candidates[1..]);
      DecidedFurther(Routed(limits, next, v, bytes, candidates[1..]), candidates);
    } else {
      EndsHere(limits, w, v, bytes, candidates);
    }
  }

  lemma DecidedFurther(rest: Route, candidates: seq<Candidate>)
    requires candidates != [] && Decided(rest, candidates[1..]) && !Unstarted(candidates[0])
    requires GoesOn(candidates[0], Settled(Done))
    ensures Decided(rest.(calls := [Settled(Done)] + rest.calls), candidates)
  {
    hide LeftAfter, Unstarted, GoesOn;
    var route := rest.(calls := [Settled(Done)] + rest.calls);
    var n := |route.calls|;
    forall i | 0 <= i < n ensures !Unstarted(candidates[i]) {
      if i > 0 { assert candidates[i] == candidates[1..][i - 1]; }
    }
    forall i | 0 <= i < n - 1 ensures GoesOn(candidates[i], route.calls[i]) {
      if i > 0 { assert candidates[i] == candidates[1..][i - 1] && route.calls[i] == rest.calls[i - 1]; }
    }
    if n > 1 { assert candidates[n - 1] == candidates[1..][n - 2] && route.calls[n - 1] == rest.calls[n - 2]; }
  }

  /** The last call of a route, if there is one. */
  ghost predicate Last(route: Route, candidates: seq<Candidate>, c: Candidate, e: Ending) {
    0 < |route.calls| <= |candidates| && c == candidates[|route.calls| - 1] && e == route.calls[|route.calls| - 1]
  }

  /** Which exit the loop takes, exactly. */
  lemma ExitsExactly(limits: Limits, w: World, v: View, bytes: nat, candidates: seq<Candidate>)
    ensures var route := Routed(limits, w, v, bytes, candidates);
            && (route.exit == OutOfCandidates <==>
                  && |route.calls| == |candidates|
                  && forall i :: 0 <= i < |candidates| ==> GoesOn(candidates[i], route.calls[i]))
            && (route.exit == PermanentError <==> exists c ::
                  Last(route, candidates, c, Settled(Done)) && c.outcome == ProviderError(false) && !c.cancelledAfter)
            && (route.exit == WrongProvider <==> exists c ::
                  && Last(route, candidates, c, Settled(Done)) && c.outcome.Responded? && !c.cancelledAfter
                  && c.outcome.from != c.provider)
            && (route.exit.Completed? <==> exists c ::
                  && Last(route, candidates, c, Settled(Done)) && c.outcome.Responded? && !c.cancelledAfter
                  && c.outcome.from == c.provider)
            && (route.exit == CancelledWithResponse <==> exists c ::
                  Last(route, candidates, c, Settled(Done)) && c.outcome.Responded? && c.cancelledAfter)
            && (forall answer :: route.exit == NotSettled(answer) <==>
                  answer != Done && exists c :: Last(route, candidates, c, Settled(answer)))
  {
    RouteIsDecided(limits, w, v, bytes, candidates);
    var route := Routed(limits, w, v, bytes, candidates);
    var n := |route.calls|;
    hide Routed;
    if n > 0 {
      var c, e := candidates[n - 1], route.calls[n - 1];
      assert Last(route, candidates, c, e);
      assert forall x, y :: Last(route, candidates, x, y) ==> x == c && y == e;
      hide Last;
    } else {
      assert forall x, y :: !Last(route, candidates, x, y);
      hide Last;
    }
  }

  // ---------- what the loop leaves behind ----------

  lemma CountsAppend(events: seq<Event>, e: Event)
    ensures CountReserved(events + [e]) == CountReserved(events) + if e.body.Reserved? then 1 else 0
    ensures CountClosing(events + [e]) == CountClosing(events) + if e.body.Committed? || e.body.Released? then 1 else 0
  {
    assert (events + [e])[..|events|] == events;
  }

  lemma DenialCounts(limits: Limits, w: World, v: View, now: int, resource: Resource, bytes: nat)
    ensures var reply := Reserve(limits, w.events, v, now, resource, bytes);
            && CountClosing(reply.events) == CountClosing(w.events)
            && CountReserved(reply.events) == CountReserved(w.events) + if reply.answer.Held? then 1 else 0
  {
    hide Replay, Judged, Estimate, CountOps, CountReserved, CountClosing, Stamp;
    var reply := Reserve(limits, w.events, v, now, resource, bytes);
    if reply.events != w.events { CountsAppend(w.events, reply.events[|w.events|]); }
  }

  /** A granted reservation can be settled at once. */
  lemma HeldIsActive(limits: Limits, w: World, v: View, now: int, resource: Resource, bytes: nat)
    requires WorldOk(limits, w) && v.Valid() && v.token == w.fence
    requires Reserve(limits, w.events, v, now, resource, bytes).answer.Held?
    ensures var reply := Reserve(limits, w.events, v, now, resource, bytes);
            && WorldOk(limits, w.(events := reply.events))
            && reply.answer.reservation == Planned(limits, w.events, v, resource, bytes)
            && Loop(limits, reply.events).Some? && Replay(limits, reply.events).Some?
            && reply.answer.reservation in Replay(limits, reply.events).value.active
  {
    ReserveAgrees(limits, w, v, now, resource, bytes);
    var reply := Reserve(limits, w.events, v, now, resource, bytes);
    HeldShape(limits, w.events, v, now, resource, bytes);
    hide WorldOk, Reserve;
    ReplayActive(limits, w.(events := reply.events));
    hide Loop, Replay, Planned;
    ReservedIsActive(limits, w.events, Event(Stamp(w.events, now), Reserved(reply.answer.reservation)));
  }

  lemma HeldShape(limits: Limits, events: seq<Event>, v: View, now: int, resource: Resource, bytes: nat)
    requires Reserve(limits, events, v, now, resource, bytes).answer.Held?
    ensures var r := Planned(limits, events, v, resource, bytes);
            Reserve(limits, events, v, now, resource, bytes) == Reply(Appended(events, now, Reserved(r)), Held(r))
  {
    hide Replay, Judged, Planned;
  }

  lemma ReservedIsActive(limits: Limits, events: seq<Event>, e: Event)
    requires e.body.Reserved? && Loop(limits, events + [e]).Some?
    ensures e.body.reservation in Loop(limits, events + [e]).value.active
  {
    assert (events + [e])[..|events|] == events;
    hide EstimateOk;
  }

  lemma CommitCounts(limits: Limits, events: seq<Event>, now: int, later: int, x: Result)
    ensures var reply := Commit(limits, events, now, later, x);
            && CountReserved(reply.events) == CountReserved(events)
            && CountClosing(reply.events) == CountClosing(events) + 1
  {
    hide Replay, AnyListed, LocalNames, Snapshot, CountReserved, CountClosing, Stamp, Accepted;
    var reply := Commit(limits, events, now, later, x);
    var once := Appended(events, now, Committed(x));
    CountsAppend(events, once[|events|]);
    if reply.events != once { CountsAppend(once, reply.events[|once|]); }
  }

  /** Settling a held model reservation closes it. */
  lemma SettlingCloses(limits: Limits, w: World, v: View, c: Candidate, r: Reservation)
    requires WorldOk(limits, w) && v.Valid() && v.token == w.fence && !c.outcome.OtherError?
    requires Owns(v, r) && r.resource == ModelCall(c.provider, c.model)
    requires Replay(limits, w.events).Some? && r in Replay(limits, w.events).value.active
    ensures var reply := Answered(limits, w, v, c.settledAt, c.later, Settling(c, r));
            && CountReserved(reply.events) == CountReserved(w.events)
            && CountClosing(reply.events) == CountClosing(w.events) + 1
            && (reply.answer == Done ==> WorldOk(limits, w.(events := reply.events)))
  {
    var q := Settling(c, r);
    WriterReaderAgreement(limits, w, v, c.settledAt, c.later, q);
    EveryOutcomeHasResult(limits, c, r);
    hide WorldOk, Replay, Commit, ResultOf, CountReserved, CountClosing, Owns, Spoils, Settling;
    var x := ResultOf(limits, q).value;
    CommitCounts(limits, w.events, c.settledAt, c.later, x);
    CommitDone(limits, w, c.settledAt, c.later, x);
  }

  lemma EveryOutcomeHasResult(limits: Limits, c: Candidate, r: Reservation)
    requires r.resource.ModelCall? && !c.outcome.OtherError?
    ensures var q := Settling(c, r);
            HasHandle(q) && !q.Release? && q.handle == r && Settles(q) && ResultOf(limits, q).Some?
  {
  }

  lemma CommitDone(limits: Limits, w: World, now: int, later: int, x: Result)
    ensures Commit(limits, w.events, now, later, x).answer == Done ==>
              Accepted(limits, Commit(limits, w.events, now, later, x).events)
  {
    hide Loop, Late, AnyListed, LocalNames;
  }

  /** The last provider called ended in an exception that is no provider error. */
  predicate LastRaised(candidates: seq<Candidate>, called: nat) {
    0 < called <= |candidates| && candidates[called - 1].outcome.OtherError?
  }

  lemma LastRaisedOfRest(candidates: seq<Candidate>, called: nat)
    requires candidates != [] && !candidates[0].outcome.OtherError?
    ensures LastRaised(candidates, called + 1) == LastRaised(candidates[1..], called)
  {
  }

  /** Every provider call was reserved once and closed once, except one that ended in another exception. */
  ghost predicate CallsClosed(w: World, route: Route, candidates: seq<Candidate>) {
    && CountReserved(route.events) == CountReserved(w.events) + |route.calls|
    && CountClosing(route.events) + (if LastRaised(candidates, |route.calls|) then 1 else 0) ==
       CountClosing(w.events) + |route.calls|
    && (route.exit == Raised <==> LastRaised(candidates, |route.calls|))
  }

  lemma {:induction false} CallsAreClosed(limits: Limits, w: World, v: View, bytes: nat, candidates: seq<Candidate>)
    requires WorldOk(limits, w)
    ensures CallsClosed(w, Routed(limits, w, v, bytes, candidates), candidates)
    decreases |candidates|
  {
    if candidates != [] && !candidates[0].cancelledBefore && !candidates[0].cancelledCreated {
      hide WorldOk, Reserve, Settlement, CountReserved, CountClosing, Continues, Leave, Loop, Replay;
      var c := candidates[0];
      var held := Answered(limits, w, v, c.now, c.now, ReserveModel(c.provider, c.model, bytes));
      if v.Valid() && v.token == w.fence {
        DenialCounts(limits, w, v, c.now, ModelCall(c.provider, c.model), bytes);
        if held.answer.Held? && !c.outcome.OtherError? { CallIsClosed(limits, w, v, bytes, candidates, held); }
      }
    }
  }

  /** A provider call is reserved and closed, whatever the recorded result answers. */
  lemma OneCall(limits: Limits, w: World, v: View, bytes: nat, c: Candidate)
    requires WorldOk(limits, w) && v.Valid() && v.token == w.fence && !c.outcome.OtherError?
    requires Answered(limits, w, v, c.now, c.now, ReserveModel(c.provider, c.model, bytes)).answer.Held?
    ensures var held := Answered(limits, w, v, c.now, c.now, ReserveModel(c.provider, c.model, bytes));
            var next := w.(events := held.events);
            var settled := Answered(limits, next, v, c.settledAt, c.later, Settling(c, held.answer.reservation));
            && CountReserved(settled.events) == CountReserved(w.events) + 1
            && CountClosing(settled.events) == CountClosing(w.events) + 1
            && (settled.answer == Done ==> WorldOk(limits, w.(events := settled.events)))
  {
    hide WorldOk, Reserve, Settlement, CountReserved, CountClosing, Loop, Replay, Settling, Owns, Planned;
    HeldIsActive(limits, w, v, c.now, ModelCall(c.provider, c.model), bytes);
    DenialCounts(limits, w, v, c.now, ModelCall(c.provider, c.model), bytes);
    PlannedIsOwn(limits, w.events, v, ModelCall(c.provider, c.model), bytes);
    var held := Answered(limits, w, v, c.now, c.now, ReserveModel(c.provider, c.model, bytes));
    SettlingCloses(limits, w.(events := held.events), v, c, held.answer.reservation);
  }

  lemma CallIsClosed(limits: Limits, w: World, v: View, bytes: nat, candidates: seq<Candidate>, held: Reply)
    requires WorldOk(limits, w) && v.Valid() && v.token == w.fence && candidates != []
    requires !candidates[0].cancelledBefore && !candidates[0].cancelledCreated && !candidates[0].outcome.OtherError?
    requires held == Answered(limits, w, v, candidates[0].now, candidates[0].now,
                              ReserveModel(candidates[0].provider, candidates[0].model, bytes))
    requires held.answer.Held?
    ensures CallsClosed(w, Routed(limits, w, v, bytes, candidates), candidates)
    decreases |candidates|, 0
  {
    hide WorldOk, CountReserved, CountClosing, Continues, Settling, Answered, LastRaised;
    var c := candidates[0];
    OneCall(limits, w, v, bytes, c);
    var settled := Answered(limits, w.(events := held.events), v, c.settledAt, c.later,
      Settling(c, held.answer.reservation));
    if settled.answer == Done && Continues(c) {
      var next := w.(events := settled.events);
      CallsAreClosed(limits, next, v, bytes, candidates[1..]);
      LastRaisedOfRest(candidates, |Routed(limits, next, v, bytes, candidates[1..]).calls|);
    } else {
      LastRaisedOfRest(candidates, 0);
      assert !LastRaised(candidates[1..], 0) by { NoneRaised(candidates[1..]); }
    }
  }

  lemma NoneRaised(candidates: seq<Candidate>)
    ensures !LastRaised(candidates, 0)
  {
  }

  /**
   * On a journal without open reservations, however the loop is left, every provider call was reserved once and
   * recorded once, and the journal, if it can still be read, has an open reservation if and only if the last
   * provider called ended in an exception that is no provider error.
   */
  lemma EveryCallIsSettled(limits: Limits, w: World, v: View, bytes: nat, candidates: seq<Candidate>)
    requires WorldOk(limits, w) && Loop(limits, w.events).Some? && Loop(limits, w.events).value.active == {}
    ensures var route := Routed(limits, w, v, bytes, candidates);
            && CountReserved(route.events) == CountReserved(w.events) + |route.calls|
            && (Accepted(limits, route.events) ==>
                  (Replay(limits, route.events).value.active == {} <==> !LastRaised(candidates, |route.calls|)))
  {
    hide WorldOk, Routed, CountReserved, CountClosing, Loop, LastRaised, Late;
    CallsAreClosed(limits, w, v, bytes, candidates);
    var route := Routed(limits, w, v, bytes, candidates);
    ReservationsBalance(limits, w.events);
    if Accepted(limits, route.events) {
      ReservationsBalance(limits, route.events);
      LateFrame(limits, Loop(limits, route.events).value, route.events);
    }
  }

  // ---------- a provider that raises another exception ----------

  const UNLIMITED := Limits(FREE, FREE, map[], 1, map[], map[])
  const RAISING := Candidate("p", "m", false, false, OtherError, false, 1, 1, 2, 3)

  lemma ModelFits(l: Ledger, v: View, r: Reservation)
    requires r.resource.ModelCall? && l.active == {}
    ensures Judged(UNLIMITED, l, v, r).None?
  {
    hide Exceeded, Pending, NodeTotals;
    var own := set x | x in l.active && x.node == v.node;
    PendingNothing(l.exec, l.active);
    PendingNothing(NodeTotals(l, v.node), own);
    assert UNLIMITED.ForNode(v.node) == FREE;
    UnlimitedNeverExceeds(Usage(Add(l.exec, r.estimate)));
    UnlimitedNeverExceeds(Usage(Add(NodeTotals(l, v.node), r.estimate)));
  }

  lemma RaisingIsGranted()
    ensures Answered(UNLIMITED, FRESH, WORKER, 1, 1, ReserveModel("p", "m", 1)).answer.Held?
  {
    hide Judged, Replay, Estimate, CountOps;
    FreshIsOk(UNLIMITED);
    ModelFits(EMPTY_LEDGER, WORKER, Planned(UNLIMITED, [], WORKER, ModelCall("p", "m"), 1));
  }

  /** Its reservation stays open, and every later reservation is refused as ambiguous. */
  lemma RaisedCallStaysOpen(v: View, now: int, resource: Resource, bytes: nat)
    ensures var route := Routed(UNLIMITED, FRESH, WORKER, 1, [RAISING]);
            && route.exit == Raised && Accepted(UNLIMITED, route.events)
            && Replay(UNLIMITED, route.events).value.active != {}
            && Reserve(UNLIMITED, route.events, v, now, resource, bytes) == Reply(route.events, Failed(Ambiguous))
  {
    hide Answered, Judged, Replay, Loop, WorldOk, CountReserved;
    RaisingIsGranted();
    FreshIsOk(UNLIMITED);
    var route := Routed(UNLIMITED, FRESH, WORKER, 1, [RAISING]);
    assert route.calls == [Unsettled] && route.exit == Raised;
    WriterReaderAgreement(UNLIMITED, FRESH, WORKER, 1, 1, ReserveModel("p", "m", 1));
    EveryCallIsSettled(UNLIMITED, FRESH, WORKER, 1, [RAISING]);
  }

  // ---------- a route that falls back ----------

  /** No reservation is open, and no evidence was recorded. */
  ghost predicate Bare(w: World) {
    && WorldOk(UNLIMITED, w) && Loop(UNLIMITED, w.events).Some?
    && Loop(UNLIMITED, w.events).value.active == {} && Loop(UNLIMITED, w.events).value.evidence == {}
  }

  lemma UnlimitedGrants(w: World, v: View, now: int, provider: string, model: string, bytes: nat)
    requires Bare(w) && v.Valid() && v.token == w.fence
    ensures var r := Planned(UNLIMITED, w.events, v, ModelCall(provider, model), bytes);
            var held := Appended(w.events, now, Reserved(r));
            && Answered(UNLIMITED, w, v, now, now, ReserveModel(provider, model, bytes)) == Reply(held, Held(r))
            && WorldOk(UNLIMITED, w.(events := held)) && Loop(UNLIMITED, held).Some?
            && Loop(UNLIMITED, held).value.active == {r} && Loop(UNLIMITED, held).value.evidence == {}
            && r.node == v.node && r.attempt == v.attempt && r.token == v.token
            && r.resource == ModelCall(provider, model)
  {
    var r := Planned(UNLIMITED, w.events, v, ModelCall(provider, model), bytes);
    var e := Event(Stamp(w.events, now), Reserved(r));
    PlannedFacts(UNLIMITED, w.events, v, ModelCall(provider, model), bytes);
    ReplayActive(UNLIMITED, w);
    ReserveAgrees(UNLIMITED, w, v, now, ModelCall(provider, model), bytes);
    hide WorldOk, Loop, Replay, Judged, Planned, EstimateOk, Accepts, Next, CountOps, Late;
    ModelFits(Replay(UNLIMITED, w.events).value, v, r);
    PlannedKeepsResource(w.events, v, provider, model, bytes);
    BodyAccepted(UNLIMITED, w, now, Reserved(r));
    ReservedLedger(Loop(UNLIMITED, w.events).value, e);
  }

  lemma PlannedKeepsResource(events: seq<Event>, v: View, provider: string, model: string, bytes: nat)
    ensures Planned(UNLIMITED, events, v, ModelCall(provider, model), bytes).resource == ModelCall(provider, model)
  {
  }

  lemma ReservedLedger(l: Ledger, e: Event)
    requires Accepts(UNLIMITED, l, e) && e.body.Reserved? && l.active == {}
    ensures Next(UNLIMITED, l, e).active == {e.body.reservation} && Next(UNLIMITED, l, e).evidence == l.evidence
  {
    hide EstimateOk;
  }

  lemma NothingListed(l: Ledger)
    requires l.evidence == {}
    ensures !AnyListed(UNLIMITED, l)
  {
    forall item: Item ensures !Listed(UNLIMITED, l, item) {
      FreeNever(item.dim);
      if item.OfNode? { assert UNLIMITED.ForNode(item.node) == FREE; }
      hide Exceeds;
    }
  }

  lemma UnlimitedCommits(w: World, now: int, later: int, x: Result)
    requires WorldOk(UNLIMITED, w) && Loop(UNLIMITED, w.events).Some?
    requires Loop(UNLIMITED, w.events).value.active == {x.reservation} && Loop(UNLIMITED, w.events).value.evidence == {}
    requires x.identity == IdentityOf(x.reservation) && ActualOk(UNLIMITED, x.reservation, x)
    ensures Commit(UNLIMITED, w.events, now, later, x) == Reply(Appended(w.events, now, Committed(x)), Done)
    ensures Bare(w.(events := Appended(w.events, now, Committed(x))))
  {
    CommittedAccepted(UNLIMITED, w, now, x);
    hide WorldOk, Loop, Replay, ActualOk, Late, LocalNames, Snapshot, AnyListed;
    var once := Appended(w.events, now, Committed(x));
    SettledLedger(w.events, x);
    LateFrame(UNLIMITED, Loop(UNLIMITED, once).value, w.events);
    NothingListed(Replay(UNLIMITED, once).value);
  }

  lemma SettledLedger(events: seq<Event>, x: Result)
    requires Loop(UNLIMITED, events).Some? && Loop(UNLIMITED, events).value.active == {x.reservation}
    ensures BudgetAgreement.Settled(UNLIMITED, events, x).active == {}
    ensures BudgetAgreement.Settled(UNLIMITED, events, x).evidence ==
            Loop(UNLIMITED, events).value.evidence
  {
    hide Loop, Add;
  }

  /** Without limits every call is granted, and recorded without overage. */
  lemma UnlimitedCall(w: World, v: View, bytes: nat, c: Candidate)
    requires Bare(w) && v.Valid() && v.token == w.fence && !c.outcome.OtherError?
    ensures var held := Answered(UNLIMITED, w, v, c.now, c.now, ReserveModel(c.provider, c.model, bytes));
            && held.answer.Held?
            && var next := w.(events := held.events);
               var settled := Answered(UNLIMITED, next, v, c.settledAt, c.later, Settling(c, held.answer.reservation));
               settled.answer == Done && Bare(w.(events := settled.events))
  {
    var r := Planned(UNLIMITED, w.events, v, ModelCall(c.provider, c.model), bytes);
    var next := w.(events := Appended(w.events, c.now, Reserved(r)));
    var q := Settling(c, r);
    hide Bare, WorldOk, Loop, Replay, Planned, Answered, Commit, ResultOf, ActualOk, Stamp;
    UnlimitedGrants(w, v, c.now, c.provider, c.model, bytes);
    EveryOutcomeHasResult(UNLIMITED, c, r);
    ResultIsOk(UNLIMITED, q);
    UnlimitedCommits(next, c.settledAt, c.later, ResultOf(UNLIMITED, q).value);
    RecordIsCommit(UNLIMITED, next, v, c.settledAt, c.later, q);
  }

  lemma FreshIsBare()
    ensures Bare(FRESH)
  {
    FreshIsOk(UNLIMITED);
    hide WorldOk, Loop;
  }

  const FAILING := Candidate("p", "m", false, false, ProviderError(true), false, 1, 1, 2, 3)

  /** One settled call of a route: it goes on, or it is left. */
  lemma RoutedStep(w: World, v: View, bytes: nat, c: Candidate, rest: seq<Candidate>, next: World)
    requires Bare(w) && v.Valid() && v.token == w.fence && !c.outcome.OtherError? && !Unstarted(c)
    requires var held := Answered(UNLIMITED, w, v, c.now, c.now, ReserveModel(c.provider, c.model, bytes));
             held.answer.Held? ==>
               next == w.(events := Answered(UNLIMITED, w.(events := held.events), v, c.settledAt, c.later,
                                             Settling(c, held.answer.reservation)).events)
    ensures Bare(next) && next.fence == w.fence
    ensures var route := Routed(UNLIMITED, w, v, bytes, [c] + rest);
            if Continues(c)
            then
              var more := Routed(UNLIMITED, next, v, bytes, rest);
              route == more.(calls := [Settled(Done)] + more.calls)
            else route == Route(next.events, [Settled(Done)], Leave(c))
  {
    UnlimitedCall(w, v, bytes, c);
    hide Bare, Answered, Settling;
    assert ([c] + rest)[1..] == rest;
  }

  ghost function After(w: World, v: View, bytes: nat, c: Candidate): World
    requires !c.outcome.OtherError?
  {
    var held := Answered(UNLIMITED, w, v, c.now, c.now, ReserveModel(c.provider, c.model, bytes));
    if !held.answer.Held? then w
    else w.(events := Answered(UNLIMITED, w.(events := held.events), v, c.settledAt, c.later,
                               Settling(c, held.answer.reservation)).events)
  }

  /** After a retryable error of the first provider, the second one is called, and its response is the route's. */
  lemma SecondCandidateAnswers(usage: ReportedUsage)
    ensures var second := Candidate("q", "m", false, false, Responded(usage, "q"), false, 1, 4, 5, 6);
            var route := Routed(UNLIMITED, FRESH, WORKER, 1, [FAILING, second]);
            route.exit == Completed("q") && route.calls == [Settled(Done), Settled(Done)]
  {
    var second := Candidate("q", "m", false, false, Responded(usage, "q"), false, 1, 4, 5, 6);
    FreshIsBare();
    hide Bare, Answered, Routed, Settling;
    var next := After(FRESH, WORKER, 1, FAILING);
    RoutedStep(FRESH, WORKER, 1, FAILING, [second], next);
    assert [FAILING] + [second] == [FAILING, second] && [second] + [] == [second];
    RoutedStep(next, WORKER, 1, second, [], After(next, WORKER, 1, second));
  }

  lemma PlannedIsOwn(limits: Limits, events: seq<Event>, v: View, resource: Resource, bytes: nat)
    ensures var r := Planned(limits, events, v, resource, bytes); Owns(v, r) && r.resource == resource
  {
  }
}
