/** The storage as the object that writes the files, step by step. `life` is the number of durable steps left. */
module StateStorageClass {
  import opened Common
  import opened JournalModel
  import opened JournalTheorems
  import opened StorageModel
  import opened StorageTheorems

  class AtomicFileStateStorage {
    const execution: string
    var recordFile: Option<Text>
    var recordTemps: seq<Text>
    var journalFile: Option<Text>
    var journalTemps: seq<Text>
    var life: nat
    var torn: nat

    ghost function RecordSlot(): Slot
      reads this
    {
      Slot(recordFile, recordTemps)
    }

    ghost function JournalSlot(): Slot
      reads this
    {
      Slot(journalFile, journalTemps)
    }

    ghost function Contents(): Store
      reads this
    {
      Store(RecordSlot(), JournalSlot())
    }

    constructor (execution: string)
      ensures this.execution == execution && Contents() == FRESH
    {
      this.execution := execution;
      recordFile, recordTemps, journalFile, journalTemps, life, torn := None, [], None, [], 0, 0;
    }

    /** Replace the record file: make, write, flush and rename a temporary file. */
    method PublishRecord(content: Text) returns (done: bool)
      modifies `recordFile, `recordTemps, `life
      ensures Done(RecordSlot(), life, if done then Ok(()) else Crashed) ==
              Publish(old(RecordSlot()), content, torn, old(life))
    {
      if life == 0 { return false; }
      var others := recordTemps;
      recordTemps, life := others + [[]], life - 1;
      if life == 0 { return false; }
      recordTemps, life := others + [if torn <= |content| then content[..torn] else content], life - 1;
      if life == 0 { return false; }
      recordTemps, life := others + [content], life - 1;
      if life == 0 { return false; }
      recordFile, recordTemps, life := Some(content), others, life - 1;
      done := true;
    }

    method PublishJournal(content: Text) returns (done: bool)
      modifies `journalFile, `journalTemps, `life
      ensures Done(JournalSlot(), life, if done then Ok(()) else Crashed) ==
              Publish(old(JournalSlot()), content, torn, old(life))
    {
      if life == 0 { return false; }
      var others := journalTemps;
      journalTemps, life := others + [[]], life - 1;
      if life == 0 { return false; }
      journalTemps, life := others + [if torn <= |content| then content[..torn] else content], life - 1;
      if life == 0 { return false; }
      journalTemps, life := others + [content], life - 1;
      if life == 0 { return false; }
      journalFile, journalTemps, life := Some(content), others, life - 1;
      done := true;
    }

    /** Remove abandoned candidates one at a time. */
    method RemoveRecordTemps() returns (done: bool)
      modifies `recordTemps, `life
      ensures Done(RecordSlot(), life, if done then Ok(()) else Crashed) == Sweep(old(RecordSlot()), old(life))
    {
      ghost var before, i := recordTemps, 0;
      while recordTemps != []
        invariant i <= old(life) && life == old(life) - i && i <= |before| && recordTemps == before[i..]
        decreases |recordTemps|
      {
        if life == 0 { return false; }
        recordTemps, life := recordTemps[1..], life - 1;
        i := i + 1;
      }
      done := true;
    }

    method RemoveJournalTemps() returns (done: bool)
      modifies `journalTemps, `life
      ensures Done(JournalSlot(), life, if done then Ok(()) else Crashed) == Sweep(old(JournalSlot()), old(life))
    {
      ghost var before, i := journalTemps, 0;
      while journalTemps != []
        invariant i <= old(life) && life == old(life) - i && i <= |before| && journalTemps == before[i..]
        decreases |journalTemps|
      {
        if life == 0 { return false; }
        journalTemps, life := journalTemps[1..], life - 1;
        i := i + 1;
      }
      done := true;
    }

    method RecoverRecordFile() returns (r: Result<Option<Record>>)
      modifies `recordFile, `recordTemps, `life
      ensures Done(RecordSlot(), life, r) == RecoverRecord(execution, old(RecordSlot()), old(life))
    {
      hide ReadRecord;
      if recordFile.Some? {
        var read := ReadRecord(execution, recordFile.value);
        if read.None? { return Refused(InvalidFile); }
        var done := RemoveRecordTemps();
        return if done then Ok(read) else Crashed;
      }
      if |recordTemps| > 1 { return Refused(ManyCandidates); }
      if |recordTemps| == 0 { return Ok(None); }
      var read := ReadRecord(execution, recordTemps[0]);
      if read.None? { return Refused(InvalidCandidate); }
      if life == 0 { return Crashed; }
      recordFile, recordTemps, life := Some(recordTemps[0]), [], life - 1;
      r := Ok(read);
    }

    method RecoverJournalFile() returns (r: Result<(Text, seq<Event>)>)
      modifies `journalFile, `journalTemps, `life
      ensures Done(JournalSlot(), life, r) == RecoverJournal(execution, old(JournalSlot()), old(life))
    {
      hide Holds;
      if journalFile.Some? {
        var read := LoadJournal(execution, journalFile.value);
        LoadedReads(execution, journalFile.value, read);
        if read.None? { return Refused(InvalidFile); }
        var done := RemoveJournalTemps();
        return if done then Ok((journalFile.value, read.value)) else Crashed;
      }
      if |journalTemps| > 1 { return Refused(ManyCandidates); }
      if |journalTemps| == 0 { return Ok(([], [])); }
      var raw := journalTemps[0];
      var read := LoadJournal(execution, raw);
      LoadedReads(execution, raw, read);
      if read.None? { return Refused(InvalidCandidate); }
      if life == 0 { return Crashed; }
      journalFile, journalTemps, life := Some(raw), [], life - 1;
      r := Ok((raw, read.value));
    }

    method CreateExecution(workflow: string, identity: string, revision: nat, updated: int) returns (r: Result<Value>)
      modifies this
      ensures Effect(Contents(), r) ==
              Exec(execution, old(Contents()),
                Call(Create(revision, workflow, identity, updated), old(life), old(torn)))
    {
      hide RecoverRecord, Publish;
      if revision != 0 { return Refused(RevisionConflict); }
      var found := RecoverRecordFile();
      if !found.Ok? { return Failure(found); }
      if found.value.Some? { return Refused(AlreadyExists); }
      var done := PublishRecord(RecordText(Record(execution, workflow, identity, revision, updated)));
      r := if done then Ok(Created) else Crashed;
    }

    method CompareAndSetExecution(expected: nat, replacement: Record) returns (r: Result<Value>)
      modifies this
      ensures Effect(Contents(), r) ==
              Exec(execution, old(Contents()), Call(CompareAndSet(expected, replacement), old(life), old(torn)))
    {
      hide RecoverRecord, Publish;
      var found := RecoverRecordFile();
      if !found.Ok? { return Failure(found); }
      if found.value.None? { return Refused(NotFound); }
      var current := found.value.value;
      if current.revision != expected { return Refused(RevisionConflict); }
      if replacement.revision != expected + 1 { return Refused(RevisionConflict); }
      if replacement.execution != current.execution || replacement.workflow != current.workflow ||
         replacement.identity != current.identity { return Refused(IdentityMismatch); }
      if replacement.updated < current.updated { return Refused(IdentityMismatch); }
      var done := PublishRecord(RecordText(replacement));
      r := if done then Ok(Swapped) else Crashed;
    }

    method AppendEvent(id: string, workflow: string, text: string) returns (r: Result<Value>)
      modifies this
      ensures Effect(Contents(), r) ==
              Exec(execution, old(Contents()), Call(Append(id, workflow, text), old(life), old(torn)))
    {
      hide RecoverRecord, RecoverJournal, Publish;
      var found := RecoverRecordFile();
      if !found.Ok? { return Failure(found); }
      if found.value.None? { return Refused(NotFound); }
      if workflow != found.value.value.workflow { return Refused(IdentityMismatch); }
      var read := RecoverJournalFile();
      if !read.Ok? { return Failure(read); }
      var raw, events := read.value.0, read.value.1;
      if exists e :: e in events && e.id == id { return Refused(DuplicateEvent); }
      var previous := if events == [] then FirstHash else events[|events| - 1].current;
      var unhashed := Event(id, execution, |events| + 1, previous, FirstHash, text);
      var persisted := unhashed.(current := EventHash(unhashed));
      assert persisted == Persisted(execution, events, id, text);
      var done := PublishJournal(raw + Line(persisted));
      r := if done then Ok(Appended(persisted)) else Crashed;
    }

    method LoadAllEvents() returns (r: Result<Value>)
      modifies this
      ensures Effect(Contents(), r) == Exec(execution, old(Contents()), Call(LoadEvents, old(life), old(torn)))
    {
      hide RecoverRecord, RecoverJournal;
      var found := RecoverRecordFile();
      if !found.Ok? { return Failure(found); }
      if found.value.None? { return Refused(NotFound); }
      var read := RecoverJournalFile();
      r := if read.Ok? then Ok(Listed(read.value.1)) else Failure(read);
    }

    method LoadExecution() returns (r: Result<Value>)
      modifies this
      ensures Effect(Contents(), r) == Exec(execution, old(Contents()), Call(Load, old(life), old(torn)))
    {
      hide RecoverRecord;
      var found := RecoverRecordFile();
      if !found.Ok? { return Failure(found); }
      if found.value.None? { return Refused(NotFound); }
      r := Ok(Loaded(found.value.value));
    }
  }

  /** What the loader returns is what the specification reads. */
  lemma LoadedReads(execution: string, t: Text, r: Option<seq<Event>>)
    requires r.Some? ==> Holds(execution, t, r.value)
    requires r.None? ==> forall events :: !Holds(execution, t, events)
    ensures ReadEvents(execution, t) == r
  {
    if r.Some? { EventsRead(execution, t, r.value); } else { NothingReads(execution, t); }
  }
}
