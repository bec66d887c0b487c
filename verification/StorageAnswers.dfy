/** What each call on the storage answers, in terms of the record and the events that are there. */
module StorageAnswers {
  import opened Common
  import opened JournalModel
  import opened JournalTheorems
  import opened StorageModel
  import opened StorageTheorems
  import opened StorageRuns

  predicate FileFault(r: Result<Value>) {
    r == Refused(InvalidFile) || r == Refused(ManyCandidates) || r == Refused(InvalidCandidate)
  }

  /** What recovery of the record hands to a call. */
  lemma RecordFound(execution: string, s: Slot, life: nat)
    requires |s.temps| <= 1
    ensures var d, seen := RecoverRecord(execution, s, life), SeenRecord(execution, s);
            && (d.result.Ok? ==> d.result.value == if seen.Present? then Some(seen.value) else None)
            && (d.result.Refused? ==> FileFault(Failure(d.result)))
            && (d.result.Refused? <==> seen.Stuck?)
            && (life >= 1 ==> !d.result.Crashed? && d.left >= life - 1)
  {
    RecordRecovers(execution, s, life);
    hide ReadRecord;
  }

  lemma JournalFound(execution: string, s: Slot, life: nat)
    requires |s.temps| <= 1
    ensures var d, seen := RecoverJournal(execution, s, life), SeenEvents(execution, s);
            && (d.result.Ok? ==> seen == Some(d.result.value.1))
            && (d.result.Refused? ==> FileFault(Failure(d.result)))
            && (d.result.Refused? <==> seen.None?)
            && (life >= 1 ==> !d.result.Crashed? && d.left >= life - 1)
  {
    JournalRecovers(execution, s, life);
    hide ReadEvents;
  }

  lemma PublishEnds(s: Slot, content: Text, torn: nat, life: nat)
    ensures Publish(s, content, torn, life).result == if life >= 4 then Ok(()) else Crashed
  {
  }

  /** A creation succeeds exactly where there is no record, and then with revision zero. */
  lemma CreateAnswers(execution: string, store: Store, c: Call)
    requires Sound(execution, store) && c.request.Create? && !Exec(execution, store, c).result.Crashed?
    ensures var q, e := c.request, Exec(execution, store, c);
            var seen := SeenRecord(execution, store.record);
            && (e.result == Refused(RevisionConflict) <==> q.revision != 0)
            && (e.result == Refused(AlreadyExists) <==> q.revision == 0 && seen.Present?)
            && (e.result == Ok(Created) <==> q.revision == 0 && seen.Nothing?)
            && (FileFault(e.result) <==> q.revision == 0 && seen.Stuck?)
            && (e.result == Ok(Created) ==>
                  SeenRecord(execution, e.store.record) ==
                  Present(Record(execution, q.workflow, q.identity, 0, q.updated)))
  {
    var q, found := c.request, RecoverRecord(execution, store.record, c.life);
    RecordFound(execution, store.record, c.life);
    RecordRecovers(execution, store.record, c.life);
    hide RecoverRecord, SeenRecord, ReadRecord, Publish;
    if q.revision == 0 && found.result.Ok? && found.result.value.None? {
      var r := Record(execution, q.workflow, q.identity, 0, q.updated);
      PublishEnds(found.slot, RecordText(r), c.torn, found.left);
      RecordPublish(execution, found.slot, r, c.torn, found.left);
    }
  }

  /** Every other call needs a record, and is refused over a file that recovery refuses. */
  lemma NeedsRecord(execution: string, store: Store, c: Call)
    requires Sound(execution, store) && !c.request.Create? && !Exec(execution, store, c).result.Crashed?
    ensures var e, seen := Exec(execution, store, c), SeenRecord(execution, store.record);
            && (e.result == Refused(NotFound) <==> seen.Nothing?)
            && (seen.Stuck? ==> FileFault(e.result))
  {
    RecordFound(execution, store.record, c.life);
    hide RecoverRecord, RecoverJournal, SeenRecord, Publish, ReplacementFault;
    var found := RecoverRecord(execution, store.record, c.life);
    if found.result.Ok? && found.result.value.Some? {
      ReplacementFaults(found.result.value.value, c);
      if c.request.Append? || c.request.LoadEvents? {
        JournalFound(execution, store.journal, found.left);
      }
    }
  }

  lemma ReplacementFaults(current: Record, c: Call)
    ensures c.request.CompareAndSet? ==>
              ReplacementFault(current, c.request.expected, c.request.replacement) != Some(NotFound)
  {
  }

  /**
   * A compare-and-set on an existing record replaces it if and only if the expected revision is the current one, the
   * next is one more, execution, workflow and identity are the same, and the time does not go back. Otherwise a
   * revision that differs is a conflict, and anything else a mismatch.
   */
  lemma SwapAnswers(execution: string, store: Store, c: Call, r: Record)
    requires Sound(execution, store) && c.request.CompareAndSet? && !Exec(execution, store, c).result.Crashed?
    requires SeenRecord(execution, store.record) == Present(r)
    ensures var e, expected, next := Exec(execution, store, c), c.request.expected, c.request.replacement;
            var inTurn := expected == r.revision && next.revision == r.revision + 1;
            var sameRun := next.execution == r.execution && next.workflow == r.workflow && next.identity == r.identity;
            && (e.result == Ok(Swapped) <==> inTurn && sameRun && next.updated >= r.updated)
            && (e.result == Refused(RevisionConflict) <==> !inTurn)
            && (e.result == Refused(IdentityMismatch) <==> inTurn && !(sameRun && next.updated >= r.updated))
            && (e.result == Ok(Swapped) ==> SeenRecord(execution, e.store.record) == Present(next))
  {
    RecordFound(execution, store.record, c.life);
    SwapAtomic(execution, store, c);
    hide RecoverRecord, RecoverJournal, SeenRecord, SeenEvents, ReadRecord, Publish;
    var found := RecoverRecord(execution, store.record, c.life);
    PublishEnds(found.slot, RecordText(c.request.replacement), c.torn, found.left);
  }

  /** Loading answers the record, and loading the journal its events. */
  lemma LoadAnswers(execution: string, store: Store, c: Call, r: Record)
    requires Sound(execution, store) && !Exec(execution, store, c).result.Crashed?
    requires SeenRecord(execution, store.record) == Present(r)
    ensures c.request.Load? ==> Exec(execution, store, c).result == Ok(Loaded(r))
    ensures c.request.LoadEvents? ==>
              var e, seen := Exec(execution, store, c), SeenEvents(execution, store.journal);
              if seen.Some? then e.result == Ok(Listed(seen.value)) else FileFault(e.result)
  {
    RecordFound(execution, store.record, c.life);
    hide RecoverRecord, RecoverJournal, SeenRecord, SeenEvents;
    JournalFound(execution, store.journal, RecoverRecord(execution, store.record, c.life).left);
  }

  /**
   * An append on a readable journal of the same workflow adds the event behind all others, chained to the last hash,
   * unless its id is taken.
   */
  lemma AppendAnswers(execution: string, store: Store, c: Call, r: Record)
    requires Sound(execution, store) && c.request.Append? && !Exec(execution, store, c).result.Crashed?
    requires SeenRecord(execution, store.record) == Present(r)
    ensures var q, e, seen := c.request, Exec(execution, store, c), SeenEvents(execution, store.journal);
            if q.workflow != r.workflow then e.result == Refused(IdentityMismatch)
            else if seen.None? then FileFault(e.result)
            else if exists x :: x in seen.value && x.id == q.id then e.result == Refused(DuplicateEvent)
            else e.result.Ok? && e.result.value.Appended? && Continues(execution, seen.value, e.result.value.event, q)
  {
    RecordFound(execution, store.record, c.life);
    hide RecoverRecord, RecoverJournal, SeenRecord, SeenEvents, Publish, Line, Persisted;
    var found := RecoverRecord(execution, store.record, c.life);
    JournalFound(execution, store.journal, found.left);
    var read := RecoverJournal(execution, store.journal, found.left);
    if read.result.Ok? { PersistedContinues(execution, read.result.value.1, c.request); }
  }

  /** The next event of a journal: numbered, and chained to the hash of the last one. */
  predicate Continues(execution: string, events: seq<Event>, e: Event, q: Request)
    requires q.Append?
  {
    && e.id == q.id && e.text == q.text && e.execution == execution && e.sequence == |events| + 1
    && (events != [] ==> e.previous == events[|events| - 1].current)
    && (events == [] ==> e.previous == FirstHash)
    && e.current == EventHash(e)
  }

  lemma PersistedContinues(execution: string, events: seq<Event>, q: Request)
    requires q.Append?
    ensures Continues(execution, events, Persisted(execution, events, q.id, q.text), q)
  {
  }

  /** Several candidates beside a missing record refuse every call but a creation under a wrong revision. */
  lemma ManyCandidatesRefuse(execution: string, store: Store, c: Call)
    requires store.record.dest.None? && |store.record.temps| > 1
    requires c.request.Create? ==> c.request.revision == 0
    ensures Exec(execution, store, c) == Effect(store, Refused(ManyCandidates))
  {
  }

  /** Six durable steps are enough for any call to end. */
  lemma SixStepsSuffice(execution: string, store: Store, c: Call)
    requires Sound(execution, store) && c.life >= 6
    ensures !Exec(execution, store, c).result.Crashed?
  {
    RecordFound(execution, store.record, c.life);
    hide RecoverRecord, ReadRecord, Publish, RecordText, ExecOn, SeenRecord;
    var found := RecoverRecord(execution, store.record, c.life);
    match c.request
    case Create(revision, workflow, identity, updated) =>
      PublishEnds(found.slot, RecordText(Record(execution, workflow, identity, revision, updated)), c.torn, found.left);
    case _ =>
      if found.result.Ok? && found.result.value.Some? {
        FiveStepsSuffice(execution, store.(record := found.slot), found.result.value.value, c, found.left);
      }
  }

  lemma FiveStepsSuffice(execution: string, now: Store, current: Record, c: Call, life: nat)
    requires |now.journal.temps| <= 1 && life >= 5
    ensures !ExecOn(execution, now, current, c, life).result.Crashed?
  {
    hide RecoverJournal, ReadEvents, Publish, ReplacementFault, RecordText, AppendOn, SeenEvents;
    match c.request
    case CompareAndSet(_, next) => PublishEnds(now.record, RecordText(next), c.torn, life);
    case Append(id, _, text) =>
      JournalFound(execution, now.journal, life);
      var read := RecoverJournal(execution, now.journal, life);
      if read.result.Ok? {
        var after := now.(journal := read.slot);
        FourStepsSuffice(execution, after, read.result.value.0, read.result.value.1, id, text, c.torn, read.left);
      }
    case LoadEvents => JournalFound(execution, now.journal, life);
    case _ =>
  }

  lemma FourStepsSuffice(execution: string, now: Store, raw: Text, events: seq<Event>, id: string, text: string,
    torn: nat, life: nat)
    requires life >= 4
    ensures !AppendOn(execution, now, raw, events, id, text, torn, life).result.Crashed?
  {
    hide Publish, Line, Persisted;
    PublishEnds(now.journal, raw + Line(Persisted(execution, events, id, text)), torn, life);
  }
}
