/** Crash atomicity and the linear history of the stored execution. */
module StorageTheorems {
  import opened Common
  import opened JournalModel
  import opened JournalTheorems
  import opened StorageModel

  // ---------- what the next call will find ----------

  datatype Seen<T> = Nothing | Present(value: T) | Stuck

  /** The record that recovery will find, or that it will refuse. */
  function SeenRecord(execution: string, s: Slot): Seen<Record> {
    if s.dest.None? && s.temps == [] then Nothing
    else if s.dest.None? && |s.temps| > 1 then Stuck
    else
      match ReadRecord(execution, if s.dest.Some? then s.dest.value else s.temps[0])
      case None => Stuck
      case Some(r) => Present(r)
  }

  /** The events that recovery will find, if it will not refuse. */
  ghost function SeenEvents(execution: string, s: Slot): Option<seq<Event>> {
    if s.dest.None? && s.temps == [] then Some([])
    else if s.dest.None? && |s.temps| > 1 then None
    else ReadEvents(execution, if s.dest.Some? then s.dest.value else s.temps[0])
  }

  datatype View = View(record: Seen<Record>, events: Option<seq<Event>>)

  ghost function ViewOf(execution: string, store: Store): View {
    View(SeenRecord(execution, store.record), SeenEvents(execution, store.journal))
  }

  /** At most one candidate per file, and a record file in place is always good. */
  predicate Sound(execution: string, store: Store) {
    && |store.record.temps| <= 1 && |store.journal.temps| <= 1
    && (store.record.dest.Some? ==> ReadRecord(execution, store.record.dest.value).Some?)
  }

  // ---------- recovery changes nothing that can be seen ----------

  lemma RecordRecovers(execution: string, s: Slot, life: nat)
    requires |s.temps| <= 1
    ensures var d, seen := RecoverRecord(execution, s, life), SeenRecord(execution, s);
            && SeenRecord(execution, d.slot) == seen && |d.slot.temps| <= 1
            && (d.result.Ok? ==>
                  && d.slot.temps == []
                  && seen == match d.result.value case None => Nothing case Some(r) => Present(r))
            && (d.result.Refused? <==> seen.Stuck?)
            && (d.result.Crashed? ==> life == 0)
            && (d.slot.dest.Some? ==> d.slot.dest == s.dest || (s.dest.None? && s.temps == [d.slot.dest.value]))
            && (s.dest.Some? ==> d.slot.dest == s.dest) && (seen.Nothing? ==> d.slot == s)
  {
    hide ReadRecord;
  }

  lemma JournalRecovers(execution: string, s: Slot, life: nat)
    requires |s.temps| <= 1
    ensures var d, seen := RecoverJournal(execution, s, life), SeenEvents(execution, s);
            && SeenEvents(execution, d.slot) == seen && |d.slot.temps| <= 1
            && (d.result.Ok? ==> d.slot.temps == [] && seen == Some(d.result.value.1))
            && (d.result.Ok? ==>
                  d.slot.dest == Some(d.result.value.0) || (d.slot.dest.None? && d.result.value == ([], [])))
            && (d.result.Refused? <==> seen.None?)
            && (d.result.Crashed? ==> life == 0)
  {
    hide ReadEvents;
  }

  // ---------- publishing is atomic, but for the first file ----------

  /** A candidate that a crash left incomplete, with no older file to fall back on. */
  predicate Incomplete(s: Slot, content: Text, torn: nat, life: nat) {
    s.dest.None? && (life == 1 || (life == 2 && torn < |content|))
  }

  lemma PublishCut(s: Slot, content: Text, torn: nat, life: nat)
    requires s.temps == []
    ensures var d := Publish(s, content, torn, life);
            && |d.slot.temps| <= 1 && (d.result.Ok? <==> life >= 4)
            && (s.dest.Some? ==> d.slot.dest == if life >= 4 then Some(content) else s.dest)
            && (s.dest.None? ==>
                  if life == 0 then d.slot == s
                  else if life >= 4 then d.slot == Slot(Some(content), [])
                  else if Incomplete(s, content, torn, life)
                       then exists k ::
                              && 0 <= k < |content| + 1 && d.slot == Slot(None, [content[..k]])
                              && (k == |content| ==> content == [])
                  else d.slot == Slot(None, [content]))
  {
    var d := Publish(s, content, torn, life);
    if s.dest.None? && life == 1 { assert content[..0] == [] && d.slot == Slot(None, [content[..0]]); }
    if s.dest.None? && life == 2 && torn < |content| { assert d.slot == Slot(None, [content[..torn]]); }
    if s.dest.None? && life == 2 && torn == |content| { assert content[..torn] == content; }
  }

  lemma RecordTextReads(r: Record)
    ensures ReadRecord(r.execution, RecordText(r)) == Some(r)
    ensures forall k :: 0 <= k < 2 ==> ReadRecord(r.execution, RecordText(r)[..k]).None?
  {
  }

  /** A new record is there or not; only a first one can be left incomplete, and exactly then it is refused. */
  lemma RecordPublish(execution: string, s: Slot, r: Record, torn: nat, life: nat)
    requires s.temps == [] && r.execution == execution
    requires s.dest.Some? ==> ReadRecord(execution, s.dest.value).Some?
    ensures var d := Publish(s, RecordText(r), torn, life);
            var seen := SeenRecord(execution, d.slot);
            && |d.slot.temps| <= 1 && (d.slot.dest.Some? ==> ReadRecord(execution, d.slot.dest.value).Some?)
            && (seen == SeenRecord(execution, s) || seen == Present(r) || seen == Stuck)
            && (seen == Stuck <==> Incomplete(s, RecordText(r), torn, life))
            && (d.result.Ok? ==> seen == Present(r))
  {
    RecordTextReads(r);
    PublishCut(s, RecordText(r), torn, life);
  }

  lemma EventsRead(execution: string, t: Text, events: seq<Event>)
    requires Holds(execution, t, events)
    ensures ReadEvents(execution, t) == Some(events)
  {
    hide Holds;
    var other :| ReadEvents(execution, t) == Some(other) && Holds(execution, t, other);
    ReadingIsUnique(execution, t, events, other);
  }

  lemma NothingReads(execution: string, t: Text)
    requires forall events :: !Holds(execution, t, events)
    ensures ReadEvents(execution, t) == None
  {
    hide Holds;
  }

  lemma EmptyReads(execution: string)
    ensures ReadEvents(execution, []) == Some([])
  {
    EmptyHolds(execution);
    EventsRead(execution, [], []);
  }

  /** Part of a line cannot be read as a journal. */
  lemma PartOfLineUnreadable(execution: string, e: Event, k: nat)
    requires Escaped(e.text) && 0 < k < |Line(e)|
    ensures ReadEvents(execution, Line(e)[..k]) == None
  {
    var part := Line(e)[..k];
    if k > 1 { EscapedAt(e.text, k - 2); }
    assert part[|part| - 1] != LF;
    forall events ensures !Holds(execution, part, events) { BadEnd(execution, part, events); }
    NothingReads(execution, part);
  }

  /** The events after an append, unless its text makes the journal unreadable. */
  function Extended(execution: string, events: seq<Event>, id: string, text: string): Option<seq<Event>> {
    if HasSeparator(text) then None else Some(events + [Persisted(execution, events, id, text)])
  }

  lemma AppendedReads(execution: string, raw: Text, events: seq<Event>, id: string, text: string)
    requires Holds(execution, raw, events) && Escaped(text) && forall e :: e in events ==> e.id != id
    ensures ReadEvents(execution, raw + Line(Persisted(execution, events, id, text))) ==
            Extended(execution, events, id, text)
  {
    hide Holds, Line, Persisted, Escaped, HasSeparator, ReadEvents;
    AppendReadsBack(execution, raw, events, id, text);
    var p := Persisted(execution, events, id, text);
    if HasSeparator(text) {
      NothingReads(execution, raw + Line(p));
    } else {
      EventsRead(execution, raw + Line(p), events + [p]);
    }
  }

  /** An appended event is there or not; only a first one can be left incomplete. */
  lemma JournalPublish(
    execution: string, s: Slot, raw: Text, events: seq<Event>, id: string, text: string, torn: nat, life: nat)
    requires s.temps == [] && (s.dest == Some(raw) || (s.dest.None? && raw == [] && events == []))
    requires Holds(execution, raw, events) && Escaped(text) && forall e :: e in events ==> e.id != id
    ensures var content := raw + Line(Persisted(execution, events, id, text));
            var d := Publish(s, content, torn, life);
            var seen := SeenEvents(execution, d.slot);
            && |d.slot.temps| <= 1
            && (seen == Some(events) || seen == Extended(execution, events, id, text) || seen == None)
            && (d.result.Ok? ==> seen == Extended(execution, events, id, text))
            && (!HasSeparator(text) ==> (seen == None <==> s.dest.None? && life == 2 && 0 < torn < |content|))
  {
    var p := Persisted(execution, events, id, text);
    var content := raw + Line(p);
    AppendedReads(execution, raw, events, id, text);
    EventsRead(execution, raw, events);
    EmptyReads(execution);
    PublishCut(s, content, torn, life);
    var d := Publish(s, content, torn, life);
    hide Holds, Line, Persisted, Publish, HasSeparator, Escaped, ReadEvents;
    if Incomplete(s, content, torn, life) {
      assert content == Line(p);
      IncompleteParts(s, content, torn, life);
      if life == 2 && torn > 0 {
        PartOfLineUnreadable(execution, p, torn) by { PersistedText(execution, events, id, text); }
      }
    }
  }

  lemma IncompleteParts(s: Slot, content: Text, torn: nat, life: nat)
    requires s.temps == [] && Incomplete(s, content, torn, life)
    ensures Publish(s, content, torn, life).slot == Slot(None, [if life == 1 then [] else content[..torn]])
    ensures content[..0] == []
  {
  }

  lemma PersistedText(execution: string, events: seq<Event>, id: string, text: string)
    ensures Persisted(execution, events, id, text).text == text
  {
  }
}
