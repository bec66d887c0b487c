/** Whole runs of the storage, with a crash possible in every call. */
module StorageRuns {
  import opened Common
  import opened JournalModel
  import opened JournalTheorems
  import opened StorageModel
  import opened StorageTheorems

  /** What one undisturbed call makes of a view. */
  function Applied(execution: string, v: View, q: Request): View {
    match q
    case Create(revision, workflow, identity, updated) =>
      if revision == 0 && v.record.Nothing?
      then v.(record := Present(Record(execution, workflow, identity, 0, updated))) else v
    case CompareAndSet(expected, next) =>
      if v.record.Present? && ReplacementFault(v.record.value, expected, next).None?
      then v.(record := Present(next)) else v
    case Append(id, workflow, text) =>
      if v.record.Present? && workflow == v.record.value.workflow && v.events.Some?
         && (forall e :: e in v.events.value ==> e.id != id)
      then v.(events := Extended(execution, v.events.value, id, text)) else v
    case _ => v
  }

  lemma RecoverSound(execution: string, store: Store, life: nat)
    requires Sound(execution, store)
    ensures var now := store.(record := RecoverRecord(execution, store.record, life).slot);
            Sound(execution, now) && ViewOf(execution, now) == ViewOf(execution, store)
  {
    RecordRecovers(execution, store.record, life);
    var d := RecoverRecord(execution, store.record, life);
    if d.slot.dest.Some? && store.record.dest.None? {
      assert SeenRecord(execution, d.slot) == SeenRecord(execution, store.record);
      PromotedReads(execution, store.record, life);
    }
    hide SeenEvents, SeenRecord, RecoverRecord;
  }

  lemma PromotedReads(execution: string, s: Slot, life: nat)
    requires |s.temps| <= 1 && s.dest.None? && RecoverRecord(execution, s, life).slot.dest.Some?
    ensures ReadRecord(execution, RecoverRecord(execution, s, life).slot.dest.value).Some?
  {
  }

  /** A crash can lose the very first file of a kind to an incomplete candidate, which recovery then refuses. */
  predicate FirstLost(v: View, u: View, q: Request) {
    || (q.Create? && v.record.Nothing? && u == v.(record := Stuck))
    || (q.Append? && v.record.Present? && v.events == Some([]) && u == v.(events := None))
  }

  /** One call of a process that may die in it. */
  ghost predicate Atomic(execution: string, v: View, q: Request, e: Effect) {
    var u := ViewOf(execution, e.store);
    && Sound(execution, e.store)
    && (u == v || u == Applied(execution, v, q) || (e.result.Crashed? && FirstLost(v, u, q)))
    && (e.result.Ok? ==> u == Applied(execution, v, q))
    && (e.result.Refused? ==> u == v)
  }

  lemma CreateAtomic(execution: string, store: Store, c: Call)
    requires Sound(execution, store) && c.request.Create?
    ensures Atomic(execution, ViewOf(execution, store), c.request, Exec(execution, store, c))
  {
    var found := RecoverRecord(execution, store.record, c.life);
    var q := c.request;
    RecoverSound(execution, store, c.life);
    RecordRecovers(execution, store.record, c.life);
    if found.result.Ok? && found.result.value.None? && q.revision == 0 {
      RecordPublish(execution, found.slot, Record(execution, q.workflow, q.identity, 0, q.updated), c.torn, found.left);
      hide SeenEvents, SeenRecord, RecoverRecord, Publish, ReadRecord;
    } else {
      hide SeenEvents, SeenRecord, RecoverRecord, Publish, ReadRecord;
    }
  }

  lemma PresentExecution(execution: string, s: Slot)
    ensures SeenRecord(execution, s).Present? ==> SeenRecord(execution, s).value.execution == execution
  {
  }

  lemma SwapAtomic(execution: string, store: Store, c: Call)
    requires Sound(execution, store) && c.request.CompareAndSet?
    ensures Atomic(execution, ViewOf(execution, store), c.request, Exec(execution, store, c))
    ensures var v, e := ViewOf(execution, store), Exec(execution, store, c);
            e.result.Ok? ==>
              && v.record.Present? && ReplacementFault(v.record.value, c.request.expected, c.request.replacement).None?
              && ViewOf(execution, e.store) == v.(record := Present(c.request.replacement))
    ensures var v, e := ViewOf(execution, store), Exec(execution, store, c);
            if e.result.Ok? then e.result.value == Swapped else ViewOf(execution, e.store).record == v.record
  {
    var found := RecoverRecord(execution, store.record, c.life);
    var q := c.request;
    RecoverSound(execution, store, c.life);
    RecordRecovers(execution, store.record, c.life);
    PresentExecution(execution, store.record);
    hide SeenEvents, SeenRecord, RecoverRecord, Publish, ReadRecord, Incomplete;
    if found.result.Ok? && found.result.value.Some? {
      var current := found.result.value.value;
      if ReplacementFault(current, q.expected, q.replacement).None? {
        FoundInPlace(execution, store.record, c.life);
        RecordPublish(execution, found.slot, q.replacement, c.torn, found.left);
        InPlaceIsComplete(found.slot, RecordText(q.replacement), c.torn, found.left);
        InPlaceStays(execution, found.slot, RecordText(q.replacement), c.torn, found.left);
      }
    }
  }

  lemma FoundInPlace(execution: string, s: Slot, life: nat)
    requires |s.temps| <= 1 && RecoverRecord(execution, s, life).result.Ok?
             && RecoverRecord(execution, s, life).result.value.Some?
    ensures RecoverRecord(execution, s, life).slot.dest.Some?
  {
  }

  lemma InPlaceIsComplete(s: Slot, content: Text, torn: nat, life: nat)
    requires s.dest.Some?
    ensures !Incomplete(s, content, torn, life)
  {
  }

  /** A file in place is seen unchanged until the rename. */
  lemma InPlaceStays(execution: string, s: Slot, content: Text, torn: nat, life: nat)
    requires s.dest.Some?
    ensures var d := Publish(s, content, torn, life);
            !d.result.Ok? ==> SeenRecord(execution, d.slot) == SeenRecord(execution, s)
  {
  }

  lemma AppendAtomic(execution: string, store: Store, c: Call)
    requires Sound(execution, store) && c.request.Append? && Escaped(c.request.text)
    ensures Atomic(execution, ViewOf(execution, store), c.request, Exec(execution, store, c))
  {
    var found := RecoverRecord(execution, store.record, c.life);
    var now, q := store.(record := found.slot), c.request;
    RecoverSound(execution, store, c.life);
    RecordRecovers(execution, store.record, c.life);
    hide SeenEvents, SeenRecord, RecoverRecord, RecoverJournal, ReadRecord, AppendOn, Extended;
    if found.result.Ok? && found.result.value.Some? && q.workflow == found.result.value.value.workflow {
      var read := RecoverJournal(execution, now.journal, found.left);
      JournalRecovers(execution, now.journal, found.left);
      if read.result.Ok? {
        AppendOnAtomic(execution, now.(journal := read.slot), read.result.value.0, read.result.value.1, q.id, q.text,
                       c.torn, read.left) by { RawHolds(execution, now.journal, found.left); }
      }
    }
  }

  lemma RawHolds(execution: string, s: Slot, life: nat)
    requires |s.temps| <= 1 && RecoverJournal(execution, s, life).result.Ok?
    ensures var d := RecoverJournal(execution, s, life); Holds(execution, d.result.value.0, d.result.value.1)
  {
    EmptyHolds(execution);
    hide Holds;
  }

  lemma AppendOnAtomic(
    execution: string, now: Store, raw: Text, events: seq<Event>, id: string, text: string, torn: nat, life: nat)
    requires Sound(execution, now) && now.journal.temps == [] && Escaped(text) && Holds(execution, raw, events)
    requires now.journal.dest == Some(raw) || (now.journal.dest.None? && raw == [] && events == [])
    ensures var e := AppendOn(execution, now, raw, events, id, text, torn, life);
            var seen := SeenEvents(execution, e.store.journal);
            && Sound(execution, e.store) && e.store.record == now.record
            && (if exists x :: x in events && x.id == id then e == Effect(now, Refused(DuplicateEvent))
                else && !e.result.Refused?
                     && (e.result.Ok? ==> seen == Extended(execution, events, id, text))
                     && (seen == Some(events) || seen == Extended(execution, events, id, text) ||
                         (seen == None && events == [] && e.result.Crashed?)))
  {
    hide Holds, SeenEvents, Line, Persisted, Extended, Escaped, Publish;
    if !(exists x :: x in events && x.id == id) {
      JournalPublish(execution, now.journal, raw, events, id, text, torn, life);
      var content := raw + Line(Persisted(execution, events, id, text));
      PublishResult(now.journal, content, torn, life);
      SeparatorExtends(execution, events, id, text);
    }
  }

  lemma PublishResult(s: Slot, content: Text, torn: nat, life: nat)
    ensures !Publish(s, content, torn, life).result.Refused?
  {
  }

  lemma SeparatorExtends(execution: string, events: seq<Event>, id: string, text: string)
    ensures HasSeparator(text) <==> Extended(execution, events, id, text) == None
  {
  }

  lemma LoadAtomic(execution: string, store: Store, c: Call)
    requires Sound(execution, store) && c.request.Load?
    ensures var v, e := ViewOf(execution, store), Exec(execution, store, c);
            && Sound(execution, e.store) && ViewOf(execution, e.store) == v
            && (e.result.Ok? ==> e.result.value.Loaded? && v.record == Present(e.result.value.record))
  {
    hide SeenEvents, SeenRecord, RecoverRecord, RecoverJournal, ReadRecord, Sound;
    RecoverSound(execution, store, c.life);
    RecordRecovers(execution, store.record, c.life) by { SoundTemps(execution, store); }
  }

  lemma SoundTemps(execution: string, store: Store)
    requires Sound(execution, store)
    ensures |store.record.temps| <= 1 && |store.journal.temps| <= 1
  {
  }

  lemma LoadEventsAtomic(execution: string, store: Store, c: Call)
    requires Sound(execution, store) && c.request.LoadEvents?
    ensures var v, e := ViewOf(execution, store), Exec(execution, store, c);
            && Sound(execution, e.store) && ViewOf(execution, e.store) == v
            && (e.result.Ok? ==> e.result.value.Listed? && v.events == Some(e.result.value.events))
  {
    hide SeenEvents, SeenRecord, RecoverRecord, RecoverJournal, ReadRecord;
    var found := RecoverRecord(execution, store.record, c.life);
    var now := store.(record := found.slot);
    RecoverSound(execution, store, c.life);
    RecordRecovers(execution, store.record, c.life);
    if found.result.Ok? && found.result.value.Some? { JournalRecovers(execution, now.journal, found.left); }
  }

  /**
   * Every call, wherever it dies, leaves the state it found or the state it was to make; the one exception is a
   * crash while the first file of a kind is written, which leaves a candidate that recovery refuses.
   */
  lemma CrashAtomicity(execution: string, store: Store, c: Call)
    requires Sound(execution, store) && (c.request.Append? ==> Escaped(c.request.text))
    ensures Atomic(execution, ViewOf(execution, store), c.request, Exec(execution, store, c))
  {
    hide Exec, ViewOf, Sound, Escaped, Applied, Atomic, FirstLost;
    match c.request
    case Create(_, _, _, _) => CreateAtomic(execution, store, c);
    case CompareAndSet(_, _) => SwapAtomic(execution, store, c);
    case Append(_, _, _) => AppendAtomic(execution, store, c);
    case _ => ReadOnlyAtomic(execution, store, c);
  }

  lemma ReadOnlyAtomic(execution: string, store: Store, c: Call)
    requires Sound(execution, store) && (c.request.Load? || c.request.LoadEvents?)
    ensures Atomic(execution, ViewOf(execution, store), c.request, Exec(execution, store, c))
  {
    if c.request.Load? { LoadAtomic(execution, store, c); } else { LoadEventsAtomic(execution, store, c); }
    hide Exec, ViewOf, Sound;
  }

  // ---------- the history of a run ----------

  predicate AllEscapedCalls(calls: seq<Call>) {
    forall c :: c in calls && c.request.Append? ==> Escaped(c.request.text)
  }

  /** The call is a compare-and-set that succeeds. */
  ghost predicate Swaps(execution: string, store: Store, c: Call) { Exec(execution, store, c).result == Ok(Swapped) }

  /** The number of successful compare-and-set calls of a run. */
  ghost function SwapCount(execution: string, store: Store, calls: seq<Call>): nat {
    if calls == [] then 0
    else
      var init := calls[..|calls| - 1];
      SwapCount(execution, store, init) +
      if Swaps(execution, Run(execution, store, init), calls[|calls| - 1]) then 1 else 0
  }

  predicate SameIdentity(r: Record, s: Record) {
    s.execution == r.execution && s.workflow == r.workflow && s.identity == r.identity && s.updated >= r.updated
  }

  /** What one step does to the view. */
  ghost predicate Follows(v: View, u: View, swapped: bool) {
    && (v.record.Present? ==>
          && u.record.Present?
          && if swapped
             then u.record.value.revision == v.record.value.revision + 1 && SameIdentity(v.record.value, u.record.value)
             else u.record == v.record)
    && (!v.record.Present? ==> !swapped && (u.record.Present? ==> u.record.value.revision == 0))
    && (v.events.Some? && u.events.Some? ==> v.events.value <= u.events.value)
    && (v.events.None? ==> u.events.None?)
  }

  /** A request that is no compare-and-set swaps nothing and leaves an existing record. */
  lemma OthersSwapNothing(execution: string, store: Store, c: Call)
    requires !c.request.CompareAndSet?
    ensures !Swaps(execution, store, c)
    ensures var v := ViewOf(execution, store);
            v.record.Present? ==> Applied(execution, v, c.request).record == v.record
  {
    hide RecoverRecord, RecoverJournal, Publish, ReplacementFault, Extended, SeenRecord, SeenEvents;
  }

  lemma AtomicFollows(execution: string, v: View, q: Request, e: Effect)
    requires Atomic(execution, v, q, e) && !q.CompareAndSet?
    requires v.record.Present? ==> Applied(execution, v, q).record == v.record
    ensures Follows(v, ViewOf(execution, e.store), false)
  {
    hide ViewOf, Sound, ReplacementFault;
  }

  lemma SwapFollows(execution: string, store: Store, c: Call)
    requires Sound(execution, store) && c.request.CompareAndSet?
    ensures Follows(ViewOf(execution, store), ViewOf(execution, Exec(execution, store, c).store),
            Swaps(execution, store, c))
  {
    CrashAtomicity(execution, store, c);
    SwapAtomic(execution, store, c);
    hide Exec, ViewOf, Sound;
  }

  lemma StepFollows(execution: string, store: Store, c: Call)
    requires Sound(execution, store) && (c.request.Append? ==> Escaped(c.request.text))
    ensures var e := Exec(execution, store, c);
            && Sound(execution, e.store)
            && Follows(ViewOf(execution, store), ViewOf(execution, e.store), Swaps(execution, store, c))
  {
    CrashAtomicity(execution, store, c);
    if c.request.CompareAndSet? {
      SwapFollows(execution, store, c);
      hide Exec, ViewOf, Sound, Escaped, Follows, Swaps;
    } else {
      OthersSwapNothing(execution, store, c);
      hide Exec, ViewOf, Sound, Escaped, Follows, Swaps, Applied;
      AtomicFollows(execution, ViewOf(execution, store), c.request, Exec(execution, store, c));
    }
  }

  /** The record of an existing execution changes exactly when a compare-and-set succeeds, and then by one revision. */
  lemma ChangedExactlyBySwap(execution: string, store: Store, c: Call)
    requires Sound(execution, store) && (c.request.Append? ==> Escaped(c.request.text))
    requires ViewOf(execution, store).record.Present?
    ensures var v, u := ViewOf(execution, store), ViewOf(execution, Exec(execution, store, c).store);
            u.record != v.record <==> Exec(execution, store, c).result == Ok(Swapped)
  {
    hide Exec, ViewOf, Sound, Escaped;
    StepFollows(execution, store, c);
  }

  /**
   * Over any run: an existing record keeps its identity, its timestamp never goes back, the revision of a record is
   * the one the run started from, or zero, plus the number of successful compare-and-set calls, and the readable
   * journal only ever grows at its end.
   */
  lemma {:induction false} LinearHistory(execution: string, store: Store, calls: seq<Call>)
    requires Sound(execution, store) && AllEscapedCalls(calls)
    ensures Sound(execution, Run(execution, store, calls))
    ensures var v, u := ViewOf(execution, store), ViewOf(execution, Run(execution, store, calls));
            var swaps := SwapCount(execution, store, calls);
            && (v.record.Present? ==>
                  && u.record.Present? && SameIdentity(v.record.value, u.record.value)
                  && u.record.value.revision == v.record.value.revision + swaps)
            && (!v.record.Present? ==>
                  if u.record.Present? then u.record.value.revision == swaps else swaps == 0)
            && (u.events.Some? ==> v.events.Some? && v.events.value <= u.events.value)
  {
    if calls != [] {
      var init, c := calls[..|calls| - 1], calls[|calls| - 1];
      assert c in calls && forall x :: x in init ==> x in calls;
      LinearHistory(execution, store, init);
      hide Exec, ViewOf, Sound, Escaped, Swaps;
      StepFollows(execution, Run(execution, store, init), c);
    }
  }

  /** From nothing, the stored revision is the number of compare-and-set calls that have succeeded. */
  lemma RevisionCountsSwaps(execution: string, calls: seq<Call>)
    requires AllEscapedCalls(calls)
    ensures var u := ViewOf(execution, Run(execution, FRESH, calls));
            u.record.Present? ==> u.record.value.revision == SwapCount(execution, FRESH, calls)
  {
    assert Sound(execution, FRESH) && ViewOf(execution, FRESH).record.Nothing?;
    hide Run, ViewOf, Sound, SwapCount, AllEscapedCalls;
    LinearHistory(execution, FRESH, calls);
  }

  /** Of two compare-and-set calls with the same expected revision, in any run, at most one can succeed. */
  lemma OnlyOneWins(execution: string, store: Store, calls: seq<Call>, i: nat, j: nat)
    requires Sound(execution, store) && AllEscapedCalls(calls) && i < j < |calls|
    requires calls[i].request.CompareAndSet? && calls[j].request.CompareAndSet?
    requires calls[i].request.expected == calls[j].request.expected
    requires Exec(execution, Run(execution, store, calls[..i]), calls[i]).result.Ok?
    ensures !Exec(execution, Run(execution, store, calls[..j]), calls[j]).result.Ok?
  {
    hide Exec, ViewOf, Sound, Escaped, Run, AllEscapedCalls, SwapCount;
    var s, t := Run(execution, store, calls[..i]), Run(execution, store, calls[..j]);
    PartsEscaped(calls, 0, i);
    PartsEscaped(calls, 0, j);
    PartsEscaped(calls, i + 1, j);
    LinearHistory(execution, store, calls[..i]);
    LinearHistory(execution, store, calls[..j]);
    SwapAtomic(execution, s, calls[i]);
    SwapAtomic(execution, t, calls[j]);
    var after := Exec(execution, s, calls[i]).store;
    RunBetween(execution, store, calls, i, j);
    LinearHistory(execution, after, calls[i + 1..j]);
  }

  lemma PartsEscaped(calls: seq<Call>, i: nat, j: nat)
    requires AllEscapedCalls(calls) && i <= j <= |calls|
    ensures AllEscapedCalls(calls[i..j])
  {
    hide Escaped;
    assert forall c :: c in calls[i..j] ==> c in calls;
  }

  lemma RunBetween(execution: string, store: Store, calls: seq<Call>, i: nat, j: nat)
    requires i < j <= |calls|
    ensures Run(execution, store, calls[..j]) ==
            Run(execution, Exec(execution, Run(execution, store, calls[..i]), calls[i]).store, calls[i + 1..j])
  {
    hide Exec;
    assert calls[..i + 1][..i] == calls[..i];
    RunSplits(execution, store, calls[..j], i + 1);
    assert calls[..j][..i + 1] == calls[..i + 1] && calls[..j][i + 1..] == calls[i + 1..j];
  }

  lemma {:induction false} RunSplits(execution: string, store: Store, calls: seq<Call>, k: nat)
    requires k <= |calls|
    ensures Run(execution, store, calls) == Run(execution, Run(execution, store, calls[..k]), calls[k..])
    decreases |calls|
  {
    hide Exec;
    if k == |calls| {
      assert calls[..k] == calls && calls[k..] == [];
    } else {
      var init := calls[..|calls| - 1];
      RunSplits(execution, store, init, k);
      assert init[..k] == calls[..k] && calls[k..][..|calls| - k - 1] == init[k..];
    }
  }
}
