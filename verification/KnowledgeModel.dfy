/** The durable state of the knowledge store and the exact list of atomic writes each
    critical section performs on it.  A crash is a plan cut short after some prefix. */
module KnowledgeModel {
  import opened Common

  type TxId = string
  type KiId = string
  type Sha = string

  datatype Ki = Ki(id: KiId, body: string)
  datatype Index = Index(commit: Sha, items: map<KiId, Ki>)

  /** Canonical JSON followed by SHA-256, taken to be injective. */
  datatype Digest = Sha256(of: Index)

  datatype Tx = Tx(id: TxId, commit: Sha, digest: Digest, previous: Option<TxId>, activeKi: KiId)
  datatype TxState = Prepared | Committed | Aborted
  datatype Record = Record(tx: Tx, state: TxState, token: nat)
  datatype Pointer = Pointer(tx: Tx, token: nat)

  /** What survives a crash: the journal file, the two directories, current.json and the fence. */
  datatype Disk = Disk(
    journal: seq<Record>,
    staging: map<TxId, Index>,
    snapshots: map<TxId, Index>,
    current: Option<Pointer>,
    fence: nat)

  const EMPTY_DISK := Disk([], map[], map[], None, 0)

  /** One atomic durable effect. */
  datatype Write =
    | AdvanceFence
    | Stage(id: TxId, index: Index)
    | Append(record: Record)
    | Promote(id: TxId)
    | SwapPointer(pointer: Pointer)
    | Unlink(id: TxId)

  datatype Error =
    | CommitMissing | StaleFence | JournalInvalid | PointerInvalid | IndexInvalid
    | ManyUnresolved | BothFilesExist | SnapshotMissing | PointerDiverges
    | TxConflict | SnapshotConflict | RetryDiffers | PredecessorMoved | PublishFailed

  datatype Outcome =
    | Crashed
    | Clean
    | Recovered(id: TxId)
    | AbortedTx(id: TxId)
    | Done
    | Removed(ids: seq<TxId>)
    | Refused(error: Error)
  {
    predicate Ok() { !Crashed? && !Refused? }
  }

  datatype Plan = Plan(writes: seq<Write>, outcome: Outcome)

  function Apply(d: Disk, w: Write): Disk {
    match w
    case AdvanceFence => d.(fence := d.fence + 1)
    case Stage(id, index) => d.(staging := d.staging[id := index])
    case Append(r) => d.(journal := d.journal + [r])
    case Promote(id) =>
      if id in d.staging
      then d.(snapshots := d.snapshots[id := d.staging[id]], staging := d.staging - {id})
      else d
    case SwapPointer(p) => d.(current := Some(p))
    case Unlink(id) => d.(snapshots := d.snapshots - {id})
  }

  function ApplyAll(d: Disk, ws: seq<Write>): Disk {
    if ws == [] then d else Apply(ApplyAll(d, ws[..|ws| - 1]), ws[|ws| - 1])
  }

  /** The disk and the caller's view when the process survives `life` durable writes. */
  function Survive(d: Disk, p: Plan, life: nat): (Disk, Outcome) {
    if life < |p.writes| then (ApplyAll(d, p.writes[..life]), Crashed)
    else (ApplyAll(d, p.writes), p.outcome)
  }

  // ---------- reading the journal ----------

  ghost predicate PreparedIn(j: seq<Record>, id: TxId) {
    exists i :: 0 <= i < |j| && j[i].tx.id == id && j[i].state.Prepared?
  }

  ghost predicate ClosedIn(j: seq<Record>, id: TxId) {
    exists i :: 0 <= i < |j| && j[i].tx.id == id && !j[i].state.Prepared?
  }

  ghost predicate AbortedIn(j: seq<Record>, id: TxId) {
    exists i :: 0 <= i < |j| && j[i].tx.id == id && j[i].state.Aborted?
  }

  ghost predicate Mentions(j: seq<Record>, id: TxId) {
    exists i :: 0 <= i < |j| && j[i].tx.id == id
  }

  /** Each transaction is prepared at most once and closed at most once, in that order. */
  ghost predicate HistoryOk(j: seq<Record>) {
    forall i :: 0 <= i < |j| ==> HistoryOkAt(j, i)
  }

  ghost predicate HistoryOkAt(j: seq<Record>, i: nat)
    requires i < |j|
  {
    if j[i].state.Prepared? then !Mentions(j[..i], j[i].tx.id)
    else PreparedIn(j[..i], j[i].tx.id) && !ClosedIn(j[..i], j[i].tx.id)
  }

  /** The PREPARED records of a journal, in journal order. */
  ghost function PreparedRecords(j: seq<Record>): seq<Record> {
    if j == [] then []
    else
      var last := j[|j| - 1];
      PreparedRecords(j[..|j| - 1]) + if last.state.Prepared? then [last] else []
  }

  ghost function StillOpen(ps: seq<Record>, j: seq<Record>): seq<Record> {
    if ps == [] then []
    else
      var last := ps[|ps| - 1];
      StillOpen(ps[..|ps| - 1], j) + if ClosedIn(j, last.tx.id) then [] else [last]
  }

  /** PREPARED records without a terminal record, in journal order. */
  ghost function Unresolved(j: seq<Record>): seq<Record> {
    StillOpen(PreparedRecords(j), j)
  }

  /** The last record written for a transaction. */
  function LatestOf(j: seq<Record>, id: TxId): Option<Record> {
    if j == [] then None
    else if j[|j| - 1].tx.id == id then Some(j[|j| - 1])
    else LatestOf(j[..|j| - 1], id)
  }

  function CommittedIds(j: seq<Record>): seq<TxId> {
    if j == [] then []
    else
      var last := j[|j| - 1];
      CommittedIds(j[..|j| - 1]) + if last.state.Committed? then [last.tx.id] else []
  }

  // ---------- reading index files and the pointer ----------

  predicate WellKeyed(items: map<KiId, Ki>) {
    forall k :: k in items ==> items[k].id == k
  }

  predicate IndexLoads(files: map<TxId, Index>, tx: Tx) {
    && tx.id in files
    && files[tx.id].commit == tx.commit
    && files[tx.id].items != map[]
    && WellKeyed(files[tx.id].items)
    && Sha256(files[tx.id]) == tx.digest
  }

  /** Why loading current.json is refused, if it is. */
  function PointerError(d: Disk, git: set<Sha>): Option<Error> {
    match d.current
    case None => None
    case Some(p) =>
      if p.tx.previous == Some(p.tx.id) then Some(PointerInvalid)
      else if p.tx.commit !in git then Some(CommitMissing)
      else if p.token < 1 then Some(PointerInvalid)
      else if !IndexLoads(d.snapshots, p.tx) then Some(IndexInvalid)
      else if p.tx.activeKi !in d.snapshots[p.tx.id].items then Some(PointerInvalid)
      else None
  }

  function CurrentId(d: Disk): Option<TxId> {
    match d.current case None => None case Some(p) => Some(p.tx.id)
  }

  /** The knowledge items a reader sees. */
  function Visible(d: Disk): map<KiId, Ki> {
    match d.current
    case None => map[]
    case Some(p) => if p.tx.id in d.snapshots then d.snapshots[p.tx.id].items else map[]
  }

  // ---------- the critical sections ----------

  function AbortPlan(tx: Tx, token: nat): Plan {
    Plan([Append(Record(tx, Aborted, token))], AbortedTx(tx.id))
  }

  /** Branches of recovery for the one unresolved transaction `tx`. */
  function ResolvePlan(d: Disk, git: set<Sha>, token: nat, tx: Tx): Plan {
    var atPointer := CurrentId(d) == Some(tx.id);
    var staged := tx.id in d.staging;
    var promoted := tx.id in d.snapshots;
    var close := Append(Record(tx, Committed, token));
    var swap := SwapPointer(Pointer(tx, token));
    if PointerError(d, git).Some? then Plan([], Refused(PointerError(d, git).value))
    else if tx.commit !in git then
      if atPointer then Plan([], Refused(CommitMissing)) else AbortPlan(tx, token)
    else if staged && promoted then Plan([], Refused(BothFilesExist))
    else if !staged && !promoted then
      if atPointer then Plan([], Refused(SnapshotMissing)) else AbortPlan(tx, token)
    else if !IndexLoads(if promoted then d.snapshots else d.staging, tx) then
      if atPointer then Plan([], Refused(IndexInvalid)) else AbortPlan(tx, token)
    else if tx.activeKi !in (if promoted then d.snapshots else d.staging)[tx.id].items then
      if atPointer then Plan([], Refused(PointerInvalid)) else AbortPlan(tx, token)
    else if atPointer then
      if d.current.value.tx != tx then Plan([], Refused(PointerDiverges))
      else Plan([close], Recovered(tx.id))
    else if CurrentId(d) != tx.previous then AbortPlan(tx, token)
    else if staged then Plan([Promote(tx.id), swap, close], Recovered(tx.id))
    else Plan([swap, close], Recovered(tx.id))
  }

  ghost function RecoverPlan(d: Disk, git: set<Sha>, token: nat): Plan {
    if token != d.fence then Plan([], Refused(StaleFence))
    else if !HistoryOk(d.journal) then Plan([], Refused(JournalInvalid))
    else
      var open := Unresolved(d.journal);
      if open == [] then
        if PointerError(d, git).Some? then Plan([], Refused(PointerError(d, git).value))
        else Plan([], Clean)
      else if |open| != 1 then Plan([], Refused(ManyUnresolved))
      else ResolvePlan(d, git, token, open[0].tx)
  }

  function RetryOutcome(d: Disk, tx: Tx, ki: Ki, sha: Sha): Outcome {
    if tx.commit != sha then Refused(RetryDiffers)
    else if !IndexLoads(d.snapshots, tx) then Refused(IndexInvalid)
    else
      var items := d.snapshots[tx.id].items;
      if ki.id in items && items[ki.id] == ki then Done else Refused(RetryDiffers)
  }

  /** The index that publishing `ki` on top of the visible items produces. */
  function NextIndex(d: Disk, ki: Ki, sha: Sha): Index {
    Index(sha, Visible(d)[ki.id := ki])
  }

  function NextTx(d: Disk, id: TxId, ki: Ki, sha: Sha): Tx {
    Tx(id, sha, Sha256(NextIndex(d, ki, sha)), CurrentId(d), ki.id)
  }

  ghost function ExecutePlan(d: Disk, git: set<Sha>, token: nat, id: TxId, ki: Ki, sha: Sha): Plan {
    if token != d.fence then Plan([], Refused(StaleFence))
    else if !HistoryOk(d.journal) then Plan([], Refused(JournalInvalid))
    else if LatestOf(d.journal, id).Some? then
      var r := LatestOf(d.journal, id).value;
      Plan([], if r.state.Committed? then RetryOutcome(d, r.tx, ki, sha) else Refused(TxConflict))
    else if PointerError(d, git).Some? then Plan([], Refused(PointerError(d, git).value))
    else if id in d.snapshots then Plan([], Refused(SnapshotConflict))
    else if id in d.staging && d.staging[id] != NextIndex(d, ki, sha) then Plan([], Refused(IndexInvalid))
    else
      var tx := NextTx(d, id, ki, sha);
      Plan((if id in d.staging then [] else [Stage(id, NextIndex(d, ki, sha))]) +
           [Append(Record(tx, Prepared, token)), Promote(id), SwapPointer(Pointer(tx, token)),
            Append(Record(tx, Committed, token))],
           Done)
  }

  predicate Removable(d: Disk, limit: nat, id: TxId) {
    var committed := CommittedIds(d.journal);
    var kept := if |committed| <= limit then committed else committed[|committed| - limit..];
    && id in d.snapshots
    && id in committed
    && id !in kept
    && CurrentId(d) != Some(id)
  }

  /** The files removed when the directory lists its entries in the order `listing`. */
  function Stale(d: Disk, limit: nat, listing: seq<TxId>): seq<TxId> {
    if listing == [] then []
    else
      var last := listing[|listing| - 1];
      var before := Stale(d, limit, listing[..|listing| - 1]);
      before + if Removable(d, limit, last) && last !in before then [last] else []
  }

  function Unlinks(ids: seq<TxId>): seq<Write> {
    seq(|ids|, i requires 0 <= i < |ids| => Unlink(ids[i]))
  }

  ghost function CleanupPlan(d: Disk, git: set<Sha>, limit: nat, listing: seq<TxId>): Plan {
    if PointerError(d, git).Some? then Plan([], Refused(PointerError(d, git).value))
    else if !HistoryOk(d.journal) then Plan([], Refused(JournalInvalid))
    else Plan(Unlinks(Stale(d, limit, listing)), Removed(Stale(d, limit, listing)))
  }

  // ---------- public operations ----------

  datatype Request =
    | Execute(id: TxId, ki: Ki, sha: Sha)
    | Recover
    | Cleanup(limit: nat, listing: seq<TxId>)

  /** One call: `git` is the set of commits Git can show during it, `life` its durable writes. */
  datatype Call = Call(request: Request, git: set<Sha>, life: nat)

  /** A plan followed by a second one computed on the disk the first leaves behind. */
  function Then(first: Plan, second: Plan): Plan {
    if first.outcome.Ok() then Plan(first.writes + second.writes, second.outcome) else first
  }

  ghost function Body(d: Disk, git: set<Sha>, token: nat, r: Request): Plan {
    match r
    case Execute(id, ki, sha) => ExecutePlan(d, git, token, id, ki, sha)
    case Recover => Plan([], Clean)
    case Cleanup(limit, listing) => CleanupPlan(d, git, limit, listing)
  }

  /** Recovery, then the operation's own writes, under the lock whose token is `token`. */
  ghost function LockedPlan(d: Disk, git: set<Sha>, token: nat, r: Request): Plan {
    var first := RecoverPlan(d, git, token);
    if r.Recover? then first else Then(first, Body(ApplyAll(d, first.writes), git, token, r))
  }

  ghost function CallPlan(d: Disk, git: set<Sha>, r: Request): Plan {
    if r.Execute? && r.sha !in git then Plan([], Refused(CommitMissing))
    else
      var p := LockedPlan(Apply(d, AdvanceFence), git, d.fence + 1, r);
      Plan([AdvanceFence] + p.writes, p.outcome)
  }

  ghost function Step(d: Disk, c: Call): Disk {
    Survive(d, CallPlan(d, c.git, c.request), c.life).0
  }

  ghost function Run(d: Disk, calls: seq<Call>): Disk {
    if calls == [] then d
    else Step(Run(d, calls[..|calls| - 1]), calls[|calls| - 1])
  }
}
