/** What the router's fallback loop leaves in the journal: one entry for each call held, one for each call ended. */
module RouterJournal {
  import opened Common
  import opened BudgetText
  import opened BudgetModel
  import opened BudgetBoundary
  import opened BudgetAgreement
  import opened BudgetBlindSpot
  import opened BudgetAnswers
  import opened ModelRouter

  /** The reservations and closings of a journal, without their identities and costs. */
  datatype Entry =
    | Asked(resource: Resource, prompt: nat)
    | Told(resource: Resource, ok: bool, prompt: nat, completion: nat, duration: nat, response: Option<string>)
    | Dropped(resource: Resource)

  function EntryOf(e: Event): seq<Entry> {
    match e.body
    case Reserved(r) => [Asked(r.resource, r.estimate.prompt)]
    case Committed(x) =>
      [Told(x.reservation.resource, x.ok, x.actual.prompt, x.actual.completion, x.actual.duration, x.response)]
    case Released(r, _) => [Dropped(r.resource)]
    case _ => []
  }

  function Book(events: seq<Event>): seq<Entry> {
    if events == [] then [] else Book(events[..|events| - 1]) + EntryOf(events[|events| - 1])
  }

  /** What a provider call is to leave: its candidate's name, and its own outcome, usage and duration. */
  function EntriesOf(c: Candidate, bytes: nat): seq<Entry> {
    [Asked(ModelCall(c.provider, c.model), bytes)] +
    match c.outcome
    case Responded(u, _) =>
      [Told(ModelCall(c.provider, c.model), true, u.prompt, u.completion, c.duration, Some(u.response))]
    case ProviderError(_) => [Told(ModelCall(c.provider, c.model), false, 0, 0, c.duration, None)]
    case OtherError => []
  }

  function AllEntries(candidates: seq<Candidate>, bytes: nat): seq<Entry> {
    if candidates == [] then [] else EntriesOf(candidates[0], bytes) + AllEntries(candidates[1..], bytes)
  }

  lemma BookAppends(events: seq<Event>, now: int, body: Body)
    ensures Book(Appended(events, now, body)) == Book(events) + EntryOf(Event(0, body))
  {
    hide Stamp;
    assert Appended(events, now, body)[..|events|] == events;
  }

  lemma ReserveBooks(limits: Limits, w: World, v: View, now: int, resource: Resource, bytes: nat)
    requires resource.ModelCall?
    ensures var reply := Reserve(limits, w.events, v, now, resource, bytes);
            Book(reply.events) == Book(w.events) + if reply.answer.Held? then [Asked(resource, bytes)] else []
  {
    var reply := Reserve(limits, w.events, v, now, resource, bytes);
    ReserveWrites(limits, w.events, v, now, resource, bytes);
    hide Reserve, Book, Stamp, Earlier, IsIdentity, NamesOf, Accepted, Replay;
    if reply.answer.Held? {
      HeldAsks(limits, w.events, v, now, resource, bytes);
      BookAppends(w.events, now, Reserved(reply.answer.reservation));
    } else if reply.answer.Refused? {
      BookAppends(w.events, now, reply.events[|reply.events| - 1].body);
    }
  }

  lemma HeldAsks(limits: Limits, events: seq<Event>, v: View, now: int, resource: Resource, bytes: nat)
    requires resource.ModelCall? && Reserve(limits, events, v, now, resource, bytes).answer.Held?
    ensures var r := Reserve(limits, events, v, now, resource, bytes).answer.reservation;
            r.resource == resource && r.estimate.prompt == bytes
  {
    HeldShape(limits, events, v, now, resource, bytes);
    hide Reserve, CountOps, PriceOf;
  }

  lemma CommitBooks(limits: Limits, events: seq<Event>, now: int, later: int, x: Result)
    ensures Book(Commit(limits, events, now, later, x).events) == Book(events) + EntryOf(Event(0, Committed(x)))
  {
    hide Replay, AnyListed, LocalNames, Snapshot, Stamp, Accepted, Book;
    var reply := Commit(limits, events, now, later, x);
    var once := Appended(events, now, Committed(x));
    BookAppends(events, now, Committed(x));
    if reply.events != once { BookAppends(once, later, reply.events[|once|].body); }
  }

  lemma ResultTells(limits: Limits, c: Candidate, r: Reservation)
    requires r.resource == ModelCall(c.provider, c.model) && !c.outcome.OtherError?
    ensures ResultOf(limits, Settling(c, r)).Some?
    ensures forall bytes ::
              [Asked(r.resource, bytes)] + EntryOf(Event(0, Committed(ResultOf(limits, Settling(c, r)).value))) ==
              EntriesOf(c, bytes)
  {
    hide PriceOf;
  }

  /** A call that is held and settled leaves the entries of its candidate. */
  lemma CallBooks(limits: Limits, w: World, v: View, bytes: nat, c: Candidate)
    requires WorldOk(limits, w) && v.Valid() && v.token == w.fence && !c.outcome.OtherError?
    requires Answered(limits, w, v, c.now, c.now, ReserveModel(c.provider, c.model, bytes)).answer.Held?
    ensures var held := Answered(limits, w, v, c.now, c.now, ReserveModel(c.provider, c.model, bytes));
            var settled := Answered(limits, w.(events := held.events), v, c.settledAt, c.later,
                                    Settling(c, held.answer.reservation));
            Book(settled.events) == Book(w.events) + EntriesOf(c, bytes)
  {
    hide WorldOk, Reserve, Loop, Replay, Settling, Owns, Planned, Book, EntryOf;
    var resource := ModelCall(c.provider, c.model);
    HeldIsActive(limits, w, v, c.now, resource, bytes);
    PlannedIsOwn(limits, w.events, v, resource, bytes);
    ReserveBooks(limits, w, v, c.now, resource, bytes);
    var held := Answered(limits, w, v, c.now, c.now, ReserveModel(c.provider, c.model, bytes));
    var r := held.answer.reservation;
    EveryOutcomeHasResult(limits, c, r);
    ResultTells(limits, c, r);
    hide Commit, ResultOf;
    CommitBooks(limits, held.events, c.settledAt, c.later, ResultOf(limits, Settling(c, r)).value);
  }

  /** A route's journal tells the calls made, in order, after what was told before. */
  ghost predicate Booked(before: seq<Event>, route: Route, candidates: seq<Candidate>, bytes: nat) {
    && |route.calls| <= |candidates|
    && Book(route.events) == Book(before) + AllEntries(candidates[..|route.calls|], bytes)
  }

  /**
   * However the loop is left, the journal tells the calls made, in order: each is asked for under its candidate's own
   * provider and model, and told with its own outcome, usage and duration.
   */
  lemma {:induction false} RouteIsBooked(limits: Limits, w: World, v: View, bytes: nat, candidates: seq<Candidate>)
    requires WorldOk(limits, w)
    ensures Booked(w.events, Routed(limits, w, v, bytes, candidates), candidates, bytes)
    decreases |candidates|
  {
    if GoesOnFirst(limits, w, v, bytes, candidates) {
      var c := candidates[0];
      var next := w.(events := FirstCall(limits, w, v, bytes, c).value.events);
      FirstIsBooked(limits, w, v, bytes, c);
      GoesFurther(limits, w, v, bytes, candidates);
      hide Routed, FirstCall, GoesOn, GoesOnFirst, Unstarted, Continues, WorldOk, Book, EntriesOf, AllEntries, Booked;
      RouteIsBooked(limits, next, v, bytes, candidates[1..]);
      BookedFurther(w.events, next.events, Routed(limits, next, v, bytes, candidates[1..]), candidates, bytes);
    } else {
      LastIsBooked(limits, w, v, bytes, candidates);
    }
  }

  lemma BookedFurther(before: seq<Event>, next: seq<Event>, rest: Route, candidates: seq<Candidate>, bytes: nat)
    requires candidates != [] && Booked(next, rest, candidates[1..], bytes)
    requires Book(next) == Book(before) + EntriesOf(candidates[0], bytes)
    ensures Booked(before, rest.(calls := [Settled(Done)] + rest.calls), candidates, bytes)
  {
    hide Book, EntriesOf;
    assert candidates[..|rest.calls| + 1][1..] == candidates[1..][..|rest.calls|];
  }

  lemma FirstIsBooked(limits: Limits, w: World, v: View, bytes: nat, c: Candidate)
    requires WorldOk(limits, w) && !c.outcome.OtherError? && FirstCall(limits, w, v, bytes, c).Some?
    ensures var settled := FirstCall(limits, w, v, bytes, c).value;
            && Book(settled.events) == Book(w.events) + EntriesOf(c, bytes)
            && (settled.answer == Done ==> WorldOk(limits, w.(events := settled.events)))
  {
    assert v.Valid() && v.token == w.fence by { hide Reserve; }
    hide WorldOk, Answered, Settling, Book, EntriesOf;
    CallBooks(limits, w, v, bytes, c);
    OneCall(limits, w, v, bytes, c);
  }

  lemma LastIsBooked(limits: Limits, w: World, v: View, bytes: nat, candidates: seq<Candidate>)
    requires WorldOk(limits, w) && !GoesOnFirst(limits, w, v, bytes, candidates)
    ensures Booked(w.events, Routed(limits, w, v, bytes, candidates), candidates, bytes)
  {
    if candidates != [] && !Unstarted(candidates[0]) {
      var c := candidates[0];
      var held := Answered(limits, w, v, c.now, c.now, ReserveModel(c.provider, c.model, bytes));
      assert held.answer.Held? ==> candidates[..1] == [c] && AllEntries([c], bytes) == EntriesOf(c, bytes);
      AskIsBooked(limits, w, v, bytes, c);
      hide WorldOk, Answered, Settling, Book;
      if held.answer.Held? && !c.outcome.OtherError? { FirstIsBooked(limits, w, v, bytes, c); }
    }
  }

  lemma AskIsBooked(limits: Limits, w: World, v: View, bytes: nat, c: Candidate)
    ensures var held := Answered(limits, w, v, c.now, c.now, ReserveModel(c.provider, c.model, bytes));
            Book(held.events) ==
            Book(w.events) + if held.answer.Held? then [Asked(ModelCall(c.provider, c.model), bytes)] else []
  {
    hide Answered, Reserve, Book;
    AskAnswers(limits, w, v, c.now, c.provider, c.model, bytes);
    ReserveBooks(limits, w, v, c.now, ModelCall(c.provider, c.model), bytes);
  }

  lemma AskAnswers(limits: Limits, w: World, v: View, now: int, provider: string, model: string, bytes: nat)
    ensures var reply := Answered(limits, w, v, now, now, ReserveModel(provider, model, bytes));
            || reply == Reserve(limits, w.events, v, now, ModelCall(provider, model), bytes)
            || (reply.events == w.events && reply.answer.Failed?)
  {
    hide Reserve, CheckedAttempt, Materialized, Settlement, Owns, Settles;
  }
}
