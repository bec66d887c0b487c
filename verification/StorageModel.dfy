/**
 * Atomic state storage of one execution: two files, each published through a temporary file, and a process that
 * may die after any durable step.  Every call holds the execution's lock.
 */
module StorageModel {
  import opened Common
  import opened JournalModel
  import opened JournalTheorems

  /** A file and the temporary candidates that crashes have left beside it. */
  datatype Slot = Slot(dest: Option<Text>, temps: seq<Text>)

  datatype Store = Store(record: Slot, journal: Slot)

  const FRESH := Store(Slot(None, []), Slot(None, []))

  datatype Fault = NotFound | AlreadyExists | RevisionConflict | IdentityMismatch | DuplicateEvent
                 | InvalidFile | ManyCandidates | InvalidCandidate

  datatype Result<T> = Ok(value: T) | Crashed | Refused(fault: Fault)

  /** A file operation: the slot it leaves, the durable steps still to be survived, and what it returns. */
  datatype Done<T> = Done(slot: Slot, left: nat, result: Result<T>)

  // ---------- publishing ----------

  /**
   * Write a temporary file, then put it in place.  Dying after the file is made leaves it empty, dying while it is
   * written leaves some of it (`torn` symbols), dying before the rename leaves all of it.
   */
  function Publish(s: Slot, content: Text, torn: nat, life: nat): Done<()> {
    var part := if torn <= |content| then content[..torn] else content;
    if life == 0 then Done(s, 0, Crashed)
    else if life == 1 then Done(s.(temps := s.temps + [[]]), 0, Crashed)
    else if life == 2 then Done(s.(temps := s.temps + [part]), 0, Crashed)
    else if life == 3 then Done(s.(temps := s.temps + [content]), 0, Crashed)
    else Done(s.(dest := Some(content)), life - 4, Ok(()))
  }

  // ---------- recovery ----------

  /** Remove the candidates beside a good file, one durable step each. */
  function Sweep(s: Slot, life: nat): Done<()> {
    if life < |s.temps| then Done(s.(temps := s.temps[life..]), 0, Crashed)
    else Done(s.(temps := []), life - |s.temps|, Ok(()))
  }

  /** Put the only candidate in place of a missing file. */
  function Promote(s: Slot, life: nat): Done<()>
    requires |s.temps| == 1
  {
    if life == 0 then Done(s, 0, Crashed) else Done(Slot(Some(s.temps[0]), []), life - 1, Ok(()))
  }

  function And<T>(d: Done<()>, value: T): Done<T> {
    Done(d.slot, d.left, if d.result.Ok? then Ok(value) else Crashed)
  }

  function RecordText(r: Record): Text { [Body(r), LF] }

  function ReadRecord(execution: string, t: Text): Option<Record> {
    if |t| == 2 && t[0].Body? && t[1] == LF && t[0].record.execution == execution then Some(t[0].record) else None
  }

  /** The events a journal file holds, if it holds any reading. */
  ghost function ReadEvents(execution: string, t: Text): Option<seq<Event>> {
    if exists events :: Holds(execution, t, events) then
      var events :| Holds(execution, t, events);
      Some(events)
    else None
  }

  function RecoverRecord(execution: string, s: Slot, life: nat): Done<Option<Record>> {
    if s.dest.Some? then
      match ReadRecord(execution, s.dest.value)
      case None => Done(s, life, Refused(InvalidFile))
      case Some(r) => And(Sweep(s, life), Some(r))
    else if |s.temps| > 1 then Done(s, life, Refused(ManyCandidates))
    else if s.temps == [] then Done(s, life, Ok(None))
    else
      match ReadRecord(execution, s.temps[0])
      case None => Done(s, life, Refused(InvalidCandidate))
      case Some(r) => And(Promote(s, life), Some(r))
  }

  ghost function RecoverJournal(execution: string, s: Slot, life: nat): Done<(Text, seq<Event>)> {
    if s.dest.Some? then
      match ReadEvents(execution, s.dest.value)
      case None => Done(s, life, Refused(InvalidFile))
      case Some(events) => And(Sweep(s, life), (s.dest.value, events))
    else if |s.temps| > 1 then Done(s, life, Refused(ManyCandidates))
    else if s.temps == [] then Done(s, life, Ok(([], [])))
    else
      match ReadEvents(execution, s.temps[0])
      case None => Done(s, life, Refused(InvalidCandidate))
      case Some(events) => And(Promote(s, life), (s.temps[0], events))
  }

  // ---------- the operations ----------

  datatype Request =
    | Create(revision: nat, workflow: string, identity: string, updated: int)
    | Load
    | CompareAndSet(expected: nat, replacement: Record)
    | Append(id: string, workflow: string, text: string)
    | LoadEvents

  datatype Value = Created | Loaded(record: Record) | Swapped | Appended(event: Event) | Listed(events: seq<Event>)

  /** One call: the durable steps it survives, and how much of a dying write reaches the disk. */
  datatype Call = Call(request: Request, life: nat, torn: nat)

  datatype Effect = Effect(store: Store, result: Result<Value>)

  /** Why a replacement may not follow the current record, if it may not. */
  function ReplacementFault(current: Record, expected: nat, next: Record): Option<Fault> {
    if current.revision != expected || next.revision != expected + 1 then Some(RevisionConflict)
    else if next.execution != current.execution || next.workflow != current.workflow
      || next.identity != current.identity
    then Some(IdentityMismatch)
    else if next.updated < current.updated then Some(IdentityMismatch)
    else None
  }

  function Failure<T>(r: Result<T>): Result<Value>
    requires !r.Ok?
  {
    match r case Crashed => Crashed case Refused(f) => Refused(f)
  }

  function Finish(store: Store, d: Done<()>, value: Value): Effect {
    Effect(store.(record := d.slot), if d.result.Ok? then Ok(value) else Crashed)
  }

  ghost function Exec(execution: string, store: Store, c: Call): Effect {
    var found := RecoverRecord(execution, store.record, c.life);
    var now := store.(record := found.slot);
    match c.request
    case Create(revision, workflow, identity, updated) =>
      var record := Record(execution, workflow, identity, revision, updated);
      if revision != 0 then Effect(store, Refused(RevisionConflict))
      else if !found.result.Ok? then Effect(now, Failure(found.result))
      else if found.result.value.Some? then Effect(now, Refused(AlreadyExists))
      else Finish(now, Publish(now.record, RecordText(record), c.torn, found.left), Created)
    case _ =>
      if !found.result.Ok? then Effect(now, Failure(found.result))
      else
        match found.result.value
        case None => Effect(now, Refused(NotFound))
        case Some(current) => ExecOn(execution, now, current, c, found.left)
  }

  /** The operations on an execution that exists. */
  ghost function ExecOn(execution: string, now: Store, current: Record, c: Call, life: nat): Effect {
    match c.request
    case CompareAndSet(expected, next) =>
      var fault := ReplacementFault(current, expected, next);
      if fault.Some? then Effect(now, Refused(fault.value))
      else Finish(now, Publish(now.record, RecordText(next), c.torn, life), Swapped)
    case Append(id, workflow, text) =>
      if workflow != current.workflow then Effect(now, Refused(IdentityMismatch))
      else
        var read := RecoverJournal(execution, now.journal, life);
        var after := now.(journal := read.slot);
        if !read.result.Ok? then Effect(after, Failure(read.result))
        else AppendOn(execution, after, read.result.value.0, read.result.value.1, id, text, c.torn, read.left)
    case LoadEvents =>
      var read := RecoverJournal(execution, now.journal, life);
      var after := now.(journal := read.slot);
      if read.result.Ok? then Effect(after, Ok(Listed(read.result.value.1))) else Effect(after, Failure(read.result))
    case _ => Effect(now, Ok(Loaded(current)))
  }

  function AppendOn(
    execution: string, now: Store, raw: Text, events: seq<Event>, id: string, text: string,
    torn: nat, life: nat): Effect
  {
    if exists e :: e in events && e.id == id then Effect(now, Refused(DuplicateEvent))
    else
      var p := Persisted(execution, events, id, text);
      var d := Publish(now.journal, raw + Line(p), torn, life);
      Effect(now.(journal := d.slot), if d.result.Ok? then Ok(Appended(p)) else Crashed)
  }

  ghost function Run(execution: string, store: Store, calls: seq<Call>): Store {
    if calls == [] then store
    else Exec(execution, Run(execution, store, calls[..|calls| - 1]), calls[|calls| - 1]).store
  }
}
