# Verified model of the durable-state kernel

This Dafny project models the parts of the AI engineering harness that must stay correct across crashes,
concurrent processes and long journals, and proves what they promise. Each part has a specification (functions and
state machines), proofs about whole runs of it, and, where the program updates objects or files step by step,
methods that are proved to carry the specification out.

* **Knowledge transactions** (`Knowledge*.dfy`). Each public operation is a plan of durable writes (stage, PREPARED,
  snapshot rename, pointer swap, COMMITTED); a crash keeps a prefix of the plan. `KnowledgeModel` defines the plans,
  `KnowledgeInvariant` and `KnowledgeTheorems` the invariant of every reachable disk, `KnowledgeRuns` the refinement
  to a plain map and the resumption of interrupted recoveries, `KnowledgeRetries` and `KnowledgeAnswers` the exact
  conditions of retries, new ids, retention and answers, and `KnowledgeStore` the manager as a class with its loops
  and re-checks. Which commits Git can show is a parameter of every call.
* **Budget** (`Budget*.dfy`, `ModelRouter.dfy`, `RouterJournal.dfy`). `BudgetModel` is the strict replay of a journal,
  `BudgetBoundary` the writer. `BudgetConservation`, `BudgetAgreement`, `BudgetBlindSpot`, `BudgetRuns` and
  `BudgetCapacity` hold the theorems over runs, `BudgetCounterexamples` the runs on which a promise fails.
  `BudgetLimits` says when a request fits, `BudgetCharges` what every event costs, `BudgetReader` which events are
  accepted and `BudgetAnswers` what is written and answered, each in plain numbers and in terms of the journal alone.
  `BudgetLedgerClass` and `BudgetBoundaryClass` are the objects, `BudgetEvidence` the manifest's second fold,
  `BudgetText` the texts exceeded dimensions travel as, `ModelRouter` and `RouterJournal` the fallback loop on top.
  Money is counted in scaled units, and a reservation stands for its own injective digest.
* **Cancellation** (`Cancellation*.dfy`). Every file operation of every launcher, requester and waiter is one atomic
  step of a state machine; all interleavings are covered, and a crashed process is one that takes no further step.
  `CancellationAlone` says what each party achieves undisturbed, and `CancellationController` holds the controller's
  methods without interference.
* **State storage** (`Journal*.dfy`, `Storage*.dfy`, `StateStorageClass.dfy`). The hash-chained journal down to the
  lines of its file, publication through temporary files, recovery, and compare-and-set, with a crash in any step;
  `StorageAnswers` says what each call answers.
* **Locks** (`Lock*.dfy`). Many managers with in-memory tables, exclusive file locks and durable fencing tokens;
  `LockAlone` says what an acquisition and a release achieve undisturbed.
* **Contract compatibility** (`Contract*.dfy`), **graph topology** (`Graph*.dfy`), **canonical artifacts**
  (`CanonicalOrder.dfy`, `Artifact*.dfy`), **tool permissions** (`ToolPolicy.dfy`) and the **context score**
  (`ContextScore.dfy`).

Digests are injective: a SHA-256 value is the constructor of what it is taken over.

## Where the code does less than it promises

Each of these is proved as an exact condition, with a concrete case where one is not obvious.

* A publication that dies after staging blocks its transaction id for any other content
  (`KnowledgeRetries.NewIdAcceptedExactly`, `BlockedIdReachable`). A retry of a committed id compares only the offered
  item with the retained snapshot, and fails once the snapshot was cleaned up (`RetryExact`,
  `RetentionDefeatsRetry`).
* A commit judges limits with attempts, verification time and usage from before the first budget event included, the
  reader's loop without them, so evidence written by a commit can make the journal unreadable for good
  (`BudgetBlindSpot.CommitAgreement`, `BudgetRuns.RunsAgreeExactly`,
  `BudgetCounterexamples.VerificationTimeBreaksTheJournal`, `PastUsageBreaksTheJournal`).
* Evidence names dimensions by splitting texts at colons. A node whose id has a colon, or a node while an id that
  begins with its own and a colon is listed, writes names that are no dimensions, and the journal is unreadable for
  good (`BudgetBlindSpot.CommitAgreement`, `MaterializeAgrees`, `BudgetCounterexamples.ColonBreaksTheJournal`,
  `NestedNodeBreaksTheJournal`, `BudgetText.NameSurvives`).
* When only other nodes are exceeded, a commit fails after its result was recorded
  (`BudgetBlindSpot.CommitAnswers`, `BudgetCounterexamples.OtherNodeFailsTheCommit`). A provider that raises anything
  but a provider error leaves its reservation open, which refuses every later one
  (`ModelRouter.EveryCallIsSettled`, `RaisedCallStaysOpen`).
* `wait_for_quiescence` can report that a command disappeared without outcome although it published one
  (`CancellationTheorems.DisappearedIsAlwaysFalseAlarm`, `FalseAlarmHappens`).
* The journal loader breaks lines where Python's `splitlines` does, so an event text with U+0085, U+2028 or U+2029 is
  accepted by append and makes the journal unreadable (`JournalTheorems.AppendReadsBack`). A crash while the first
  record or the first journal line is written leaves a candidate that recovery refuses from then on
  (`StorageTheorems.RecordPublish`, `JournalPublish`).
* A handle still validates between the release of its file lock and the clearing of the tables
  (`LockTheorems.StaleHandleValidates`); the fence check is what rejects it.
* `validate_compatibility` accepts some open outputs that produce values the input refuses
  (`ContractTheorems.VerdictIsSoundExactly`, `UndeclaredPropertyIsUnsound`, `EmptyAdditionalIsUnsound`).

## Model

| member | source | states |
|---|---|---|
| `KnowledgeTheorems.ReachableInv` | src/ai_engineering_harness/knowledge/transaction.py:195-515 | After any sequence of execute, recover and cleanup calls, each dying after any number of durable writes, the disk satisfies `Inv`: an alternating journal with at most one unresolved PREPARED, its predecessor the last committed transaction, never both its staging file and its snapshot, and a current pointer that names a snapshot with its digest |
| `KnowledgeRuns.StoreIsMap` | src/ai_engineering_harness/knowledge/transaction.py:346-467 | As long as Git loses no commit (it may gain some between calls), however earlier calls crashed, one undisturbed recovery succeeds, aborts nothing, and what readers see is the plain map obtained by overlaying, in call order, the item of every call whose PREPARED record became durable |
| `KnowledgeRuns.VisibleIsFold` | src/ai_engineering_harness/knowledge/transaction.py:270-467 | A call that is not refused leaves the visible items equal to the fold of the journal's surviving transactions, nothing unresolved, and a journal that passes its own history check |
| `KnowledgeRuns.JournalIsCallLog` | src/ai_engineering_harness/knowledge/transaction.py:270-344 | The PREPARED records of a reachable journal are exactly the durable publications, each once, in call order |
| `KnowledgeRuns.ItemsAreFold` | src/ai_engineering_harness/knowledge/transaction.py:270-344 | In a journal with nothing unresolved the last committed index equals the fold of the transactions that were not aborted |
| `KnowledgeRuns.StepAppends` | src/ai_engineering_harness/knowledge/transaction.py:270-467 | Whatever happens in a call, it appends to the journal a prefix of one closing record and one PREPARED/COMMITTED pair |
| `KnowledgeRuns.SteadyRunAbortsNothing` | src/ai_engineering_harness/knowledge/transaction.py:469-488 | As long as Git loses no commit, no run ever aborts a transaction |
| `KnowledgeRuns.RollsForward` | src/ai_engineering_harness/knowledge/transaction.py:346-467 | Recovery of a consistent disk whose commits exist ends clean or recovered: it never refuses and never aborts |
| `KnowledgeRuns.RecoveryStepsDown` | src/ai_engineering_harness/knowledge/transaction.py:346-467 | After the first durable write of a recovery, the recovery of the resulting disk consists of exactly the remaining writes |
| `KnowledgeRuns.RecoveryIgnoresToken` | src/ai_engineering_harness/knowledge/transaction.py:346-488 | A newer fencing token changes neither the number of recovery writes nor the disk they end on |
| `KnowledgeRuns.InterruptedRecoveryResumes` | src/ai_engineering_harness/knowledge/transaction.py:346-488 | A recovery that dies after k writes and is repeated needs only the writes that were left, and ends on the disk of the undisturbed recovery up to fencing tokens |
| `KnowledgeTheorems.RecoveryCases` | src/ai_engineering_harness/knowledge/transaction.py:346-467 | On a consistent disk, recovery is exactly one of: nothing to do, roll forward from staging, from the snapshot or from the pointer, or abort when the commit is gone |
| `KnowledgeTheorems.RecoverySafe` | src/ai_engineering_harness/knowledge/transaction.py:346-488 | Every prefix of the writes of a recovery keeps the disk consistent, and all of them resolve the pending transaction |
| `KnowledgeTheorems.ExecuteSafe` | src/ai_engineering_harness/knowledge/transaction.py:270-344 | Every prefix of the writes of a publication keeps the disk consistent |
| `KnowledgeTheorems.CleanupSafe` | src/ai_engineering_harness/knowledge/transaction.py:230-268 | Every prefix of the writes of a cleanup keeps the disk consistent and what readers see unchanged |
| `KnowledgeInvariant.AlternatingIsHistory` | src/ai_engineering_harness/knowledge/transaction.py:671-693 | An alternating journal passes the history check |
| `KnowledgeInvariant.UnresolvedIsLast` | src/ai_engineering_harness/knowledge/transaction.py:695-710 | In such a journal the unresolved transactions are none, or just the one the last record prepared |
| `KnowledgeInvariant.PointerLoads` | src/ai_engineering_harness/knowledge/transaction.py:712-780 | On a consistent disk the current pointer is accepted exactly when Git shows its commit |
| `KnowledgeRetries.CallIsRecoveryThenBody` | src/ai_engineering_harness/knowledge/transaction.py:195-219 | Every call is a complete recovery followed by its own writes on the recovered disk |
| `KnowledgeRetries.KnownIdOnlyRecovers` | src/ai_engineering_harness/knowledge/transaction.py:279-293 | A call whose transaction id already has history changes the disk exactly as a recovery does |
| `KnowledgeRetries.RetryExact` | src/ai_engineering_harness/knowledge/transaction.py:490-515 | A retry of a committed id succeeds if and only if it names the same commit, the snapshot is still retained, and that snapshot holds the offered item |
| `KnowledgeRetries.UnpreparedLeavesNoTrace` | src/ai_engineering_harness/knowledge/transaction.py:306-327 | A publication that dies before its PREPARED record leaves the disk of a recovery, or that disk with its own staging file |
| `KnowledgeRetries.NewIdAcceptedExactly` | src/ai_engineering_harness/knowledge/transaction.py:306-318 | A new transaction id is accepted if and only if no different index was left staged under it |
| `KnowledgeRetries.BlockedIdReachable` | src/ai_engineering_harness/knowledge/transaction.py:306-318 | A concrete run reaches a blocked id: one call dies after staging, the next, with other content, is refused |
| `KnowledgeRetries.RetentionDefeatsRetry` | src/ai_engineering_harness/knowledge/transaction.py:230-268 | A concrete run: two publications and a cleanup that keeps one snapshot, after which a retry of the first publication, fine before, is refused |
| `KnowledgeRetries.CleanupExact` | src/ai_engineering_harness/knowledge/transaction.py:230-268 | Cleanup removes exactly the listed snapshots of committed transactions beyond the retention limit, and readers see the same items |
| `KnowledgeRetries.RemovableExactly` | src/ai_engineering_harness/knowledge/transaction.py:233-266 | Retention takes exactly the snapshots of transactions with at least the limit of later commits, except the one readers see |
| `KnowledgeAnswers.DoneIsPublished` | src/ai_engineering_harness/knowledge/transaction.py:270-344 | After any run, a publication that answers Done leaves the id's last record COMMITTED for the named commit, and its retained index holds the item under its own id |
| `KnowledgeAnswers.KnownIdIsAnswered` | src/ai_engineering_harness/knowledge/transaction.py:279-293 | A call on an id with history is answered by its last record on the recovered disk: a conflict unless it is COMMITTED, a difference for another commit or item, an invalid index without its snapshot, and Done otherwise |
| `KnowledgeAnswers.RefusedFirst` | src/ai_engineering_harness/knowledge/transaction.py:195-219 | A commit that Git does not show is refused before anything is written, and a refused recovery refuses the publication |
| `KnowledgeAnswers.AbortedIdConflicts` | src/ai_engineering_harness/knowledge/transaction.py:291-293 | A concrete run: a publication that died prepared and was aborted is answered with a conflict when it is tried again |
| `KnowledgeStoreModule.KnowledgeStore.ValidateHistory` | src/ai_engineering_harness/knowledge/transaction.py:671-693 | The loop over running transaction states accepts exactly the journals of the specification |
| `KnowledgeStoreModule.KnowledgeStore.LatestRecords` | src/ai_engineering_harness/knowledge/transaction.py:695-705 | The scan keeps, for every transaction in first-seen order, its PREPARED record while it is open |
| `KnowledgeStoreModule.KnowledgeStore.UnresolvedPrepared` | src/ai_engineering_harness/knowledge/transaction.py:695-710 | The scan returns the specification's unresolved records in order |
| `KnowledgeStoreModule.KnowledgeStore.Resolve` | src/ai_engineering_harness/knowledge/transaction.py:346-467 | The branches of recovery, write by write with every re-check, carry out the specified plan as far as the process lives |
| `KnowledgeStoreModule.KnowledgeStore.ExecuteLocked` | src/ai_engineering_harness/knowledge/transaction.py:270-344 | The publication, write by write with every re-check, carries out the specified plan as far as the process lives |
| `KnowledgeStoreModule.KnowledgeStore.CleanupLocked` | src/ai_engineering_harness/knowledge/transaction.py:233-266 | The retention loop carries out the specified unlinks as far as the process lives |
| `KnowledgeStoreModule.KnowledgeStore.Serve` | src/ai_engineering_harness/knowledge/transaction.py:195-268 | A whole call leaves the files in exactly the state of the specified step, however many durable writes it survives |
| `BudgetConservation.UsageIsConserved` | src/ai_engineering_harness/governance/budget.py:862-864 | On every accepted journal, execution usage equals the sum of all node usages in every component, whichever added it: the loop, attempts, verification durations or usage from before the first budget event |
| `BudgetConservation.ReservationsBalance` | src/ai_engineering_harness/governance/budget.py:1037-1041 | On every accepted journal, reservations equal closings plus active ones, and at most one is active |
| `BudgetConservation.UsageIsMonotone` | src/ai_engineering_harness/governance/budget.py:706-711 | Appending an accepted event never lowers any component of any usage, historical usage included, nor drops evidence or closed reservations |
| `BudgetConservation.HistoryGrows` | src/ai_engineering_harness/governance/budget.py:1127-1232 | Historical usage of a journal extends that of every shorter one, and stays the same from the first budget event on |
| `BudgetConservation.ToolCallsAreCovered` | src/ai_engineering_harness/governance/budget.py:789-819 | After the first budget event every accepted tool call runs under an active reservation for that tool |
| `BudgetConservation.ToolCallsAreDistinct` | src/ai_engineering_harness/governance/budget.py:813-819 | No two accepted tool calls run under the same reservation |
| `BudgetAgreement.OperationIdsNeverRepeat` | src/ai_engineering_harness/governance/budget.py:682-698 | Within one node, attempt and kind, the numbers of reserved operations strictly increase, so reservations never repeat |
| `BudgetAgreement.ReservedAccepted` | src/ai_engineering_harness/governance/budget.py:736-751 | A reservation written by the boundary is accepted by the strict replay |
| `BudgetAgreement.CommittedAccepted` | src/ai_engineering_harness/governance/budget.py:752-758 | A result written for an active reservation is accepted, and the next replay shows exactly its charge |
| `BudgetAgreement.NoticeAccepted` | src/ai_engineering_harness/governance/budget.py:966-979 | Evidence that no commit reports is accepted if and only if the names it lists are dimensions |
| `BudgetBlindSpot.ListedLate` | src/ai_engineering_harness/governance/budget.py:862-864 | The passes after the loop add an entry exactly where late usage alone takes a balance beyond a limit, in any dimension, and remove one only where a cost beyond its cap loses its price |
| `BudgetBlindSpot.SameVerdict` | src/ai_engineering_harness/governance/budget.py:995-1011 | The scope and the dimensions the writer's snapshot and the reader's loop list agree if and only if late usage neither takes the execution or the node beyond a limit the reader does not see exceeded nor hides a cost it does see |
| `BudgetBlindSpot.BlindIsLate` | src/ai_engineering_harness/governance/budget.py:995-1011 | They can differ only if late usage alone takes the execution or the node beyond a limit |
| `BudgetBlindSpot.SameText` | src/ai_engineering_harness/governance/budget.py:995-1011 | Where no listed id with a colon is taken for the node's own, the names and the scope that writer and reader read off the texts agree under exactly that condition |
| `BudgetBlindSpot.CommitAgreement` | src/ai_engineering_harness/governance/budget.py:1600-1647 | A commit leaves a journal the reader accepts if and only if no late usage is blind to it in this sense and no listed text of an id with a colon is taken for the node's own |
| `BudgetBlindSpot.CommitAnswers` | src/ai_engineering_harness/governance/budget.py:1621-1647 | Exactly when a commit reports no excess, fails because nothing it takes for its own is exceeded, or makes the journal unreadable |
| `BudgetBlindSpot.MaterializeAgrees` | src/ai_engineering_harness/governance/budget.py:1342-1381 | Evidence for external usage keeps the journal readable, unless it is appended while an id that begins with the node's own and a colon is listed, and exactly then not |
| `BudgetBlindSpot.WriterReaderAgreement` | src/ai_engineering_harness/governance/budget.py:1383-1665 | Every request of a boundary keeps the journal accepted and ordered, except exactly the commits and the evidence for external usage that spoil it in one of these ways |
| `BudgetRuns.RunsAgreeExactly` | src/ai_engineering_harness/governance/budget.py:713-864 | After any run of boundaries, locks and other writers, whose events are in time order, no budget events, and do not break a readable journal themselves, the journal is accepted if and only if no request of the run has spoiled it |
| `BudgetRuns.AgreementOverRuns` | src/ai_engineering_harness/governance/budget.py:713-864 | Any such run leaves an accepted journal, as long as started attempts stay within their caps, no verification gate is recorded, no node, plan or tool ends before the first budget event, and no boundary's node id has a colon or begins, with a colon behind it, the id of a named node |
| `BudgetRuns.ReplayAbout` | src/ai_engineering_harness/governance/budget.py:704-711 | Every node an accepted journal charges or reports is named by one of its events |
| `BudgetCounterexamples.VerificationTimeBreaksTheJournal` | src/ai_engineering_harness/governance/budget.py:1070-1125 | A concrete run on which writer and reader part: sixty milliseconds of verification, then a tool call of fifty under a limit of one hundred |
| `BudgetCounterexamples.PastUsageBreaksTheJournal` | src/ai_engineering_harness/governance/budget.py:1127-1149 | The same with a node that ran for sixty milliseconds before the first reservation |
| `BudgetCounterexamples.ColonBreaksTheJournal` | src/ai_engineering_harness/governance/budget.py:966-977 | Node a:b on an empty journal, without late usage: its tool call of fifty milliseconds under a cap of ten leaves evidence the reader refuses |
| `BudgetCounterexamples.NestedNodeBreaksTheJournal` | src/ai_engineering_harness/governance/budget.py:1359-1380 | Node a, whose id has no colon, asks for evidence while a:b is beyond its cap: the evidence names b:duration_ms and the journal is unreadable |
| `BudgetCounterexamples.OtherNodeFailsTheCommit` | src/ai_engineering_harness/governance/budget.py:1621-1645 | A concrete run on which a commit is recorded and then fails, because only another node is beyond a limit |
| `BudgetCapacity.GrantFits` | src/ai_engineering_harness/governance/budget.py:636-672 | A reservation is granted only if its estimate on top of all usage - attempts, verification durations and historical usage included - fits every cap of the execution and of the node, those on duration and attempts too |
| `BudgetCapacity.RunsAreGranted` | src/ai_engineering_harness/governance/budget.py:1391-1476 | In every run, every reservation ever written fitted every cap of its balances, on all usage the replay then showed, when it was written |
| `BudgetCapacity.OvershootIsOneOperation` | src/ai_engineering_harness/governance/budget.py:1600-1647 | On every such journal the replayed balance stays within each cap on tokens, tool calls and cost, or passes it by at most what one operation took beyond its own estimate; a balance that historical usage alone put beyond the cap never gains anything |
| `BudgetCapacity.LateAmount` | src/ai_engineering_harness/governance/budget.py:862-864 | In every dimension but duration and attempts a replayed balance is what the loop added up plus the historical usage |
| `BudgetCapacity.ToolCallsStayWithinCap` | src/ai_engineering_harness/governance/budget.py:1527-1542 | Tool calls of the replayed ledger never pass the cap, of the execution or of any node; where more were made before the first budget event, none is added |
| `BudgetCapacity.ExceededIsClosed` | src/ai_engineering_harness/governance/budget.py:636-672 | Once usage exceeds a balance in any dimension, no later reservation in it is granted |
| `BudgetLimits.NodeLimits` | src/ai_engineering_harness/governance/budget.py:178-185 | Each of a node's seven limits is its own override where it has one, and the default where it does not |
| `BudgetLimits.ListedExactly` | src/ai_engineering_harness/governance/budget.py:608-634 | A snapshot lists recorded evidence and exactly the balances that are beyond a cap, compared number by number; a cost cap needs every operation priced |
| `BudgetLimits.ReserveExactly` | src/ai_engineering_harness/governance/budget.py:636-672 | On a readable journal without open reservation a request is granted if and only if its usage, at the prices of the limits, fits every cap of the execution and of the node; otherwise the denial names exactly the dimensions beyond their caps, or the missing price |
| `BudgetLimits.AttemptExactly` | src/ai_engineering_harness/governance/budget.py:674-680 | An attempt is available if and only if one attempt and one millisecond fit every cap |
| `BudgetLimits.OwnToolCapBinds` | src/ai_engineering_harness/governance/budget.py:292-293 | A node's own cap on tool calls binds its reservations, whatever the default is |
| `BudgetLimits.HeldSetsAside` | src/ai_engineering_harness/governance/budget.py:1391-1476 | A granted reservation records the view and sets aside the prompt, all completion tokens and their price, or one tool call and its price |
| `BudgetCharges.EventSpends` | src/ai_engineering_harness/governance/budget.py:713-864 | Every accepted event adds exactly what it spends, in plain numbers, to the execution and to one node, and nothing to any other |
| `BudgetCharges.ReplayIsSum` | src/ai_engineering_harness/governance/budget.py:553-576 | Every balance of an accepted journal, of the execution and of each node, is the sum of what its events spent: results at the prices of the limits, starts, durations since the start, and historical usage |
| `BudgetCharges.CommitIsCharged` | src/ai_engineering_harness/governance/budget.py:1478-1542 | A request that records a result charges its tokens, tool call, time and price - prompt and completion each at its own - to the execution and to the node, or one operation without a price |
| `BudgetReader.AcceptsExactly` | src/ai_engineering_harness/governance/budget.py:731-784 | The strict loop accepts a reservation, a result, a release or evidence if and only if it is in time and token order, under the limits, names an open reservation or none is open, repeats its identity, and is estimated or recorded at its worth; evidence must also agree with the snapshot |
| `BudgetReader.EstimateIsStrict` | src/ai_engineering_harness/governance/budget.py:866-904 | The reader accepts an estimate if and only if it is what the request asks for |
| `BudgetReader.ActualIsStrict` | src/ai_engineering_harness/governance/budget.py:906-959 | The reader accepts a result if and only if it is recorded at its worth, with a response exactly for a model call that succeeded |
| `BudgetReader.ToolOutcomeIsRecorded` | src/ai_engineering_harness/governance/budget.py:820-860 | An accepted tool outcome ends a call of the same tool under the same key, and repeats the outcome, the duration and the cost recorded for its reservation |
| `BudgetReader.ReplayAcceptsExactly` | src/ai_engineering_harness/governance/budget.py:1043-1232 | The whole replay accepts the next event if and only if the loop does, a start is the first of its kind, gates are started and recorded in turn, and usage before the first budget event is well-formed and reported once |
| `BudgetReader.SnapshotRemembers` | src/ai_engineering_harness/governance/budget.py:781-788 | The evidence a replay remembers is exactly what the evidence events reported, in their scope |
| `BudgetAnswers.StampExactly` | src/ai_engineering_harness/governance/budget.py:1697-1727 | A budget event is stamped with the present, or just after the last event if that is later |
| `BudgetAnswers.ReserveWrites` | src/ai_engineering_harness/governance/budget.py:1560-1598 | A request for a reservation writes it under the next number of its node, attempt and kind, or evidence of the denial under that number, or nothing |
| `BudgetAnswers.AttemptWrites` | src/ai_engineering_harness/governance/budget.py:1383-1389 | A denied attempt leaves evidence under its own operation id; an available one writes nothing |
| `BudgetAnswers.TurnedAwayExactly` | src/ai_engineering_harness/governance/budget.py:1667-1695 | An invalid view, a foreign handle, a stale lock, an unreadable journal or a malformed response is answered as such, in this order, and writes nothing |
| `BudgetAnswers.SettlementWrites` | src/ai_engineering_harness/governance/budget.py:1478-1558 | Any other settlement first writes the release or the result of its handle, with its identity, outcome and response |
| `BudgetAnswers.MaterializeWrites` | src/ai_engineering_harness/governance/budget.py:1342-1381 | Evidence for external usage is written if and only if something is exceeded, this node attempt has not told so under the id, and there is something to name |
| `BudgetEvidence.BudgetEvidence` | src/ai_engineering_harness/observability/evidence.py:463-529 | The manifest's loop computes the totals of all committed results |
| `BudgetEvidence.FoldsAgree` | src/ai_engineering_harness/observability/evidence.py:463-529 | On every accepted journal with a commit, the ledger shows the manifest's tokens, tool calls, unpriced operations and cost plus exactly the usage from before the first budget event, and never less duration or attempts than the manifest |
| `BudgetText.NameSurvives` | src/ai_engineering_harness/governance/budget.py:1002-1006 | A node's dimension survives its textual form if and only if the node id has no colon |
| `BudgetText.OwnTextsOnly` | src/ai_engineering_harness/governance/budget.py:1624-1631 | A node takes the texts of its own id and of the ids that begin with its own and a colon, and no others |
| `BudgetText.TextIsStructure` | src/ai_engineering_harness/governance/budget.py:1624-1633 | A node whose id has no colon reads off the texts exactly its own and the execution's dimensions, whatever other ids are listed, and nothing else if and only if no listed id begins with its own and a colon |
| `BudgetText.PlainNames` | src/ai_engineering_harness/governance/budget.py:1002-1006 | Unless an entry of an id with a colon is taken, the names read are exactly those of the node's and the execution's dimensions |
| `BudgetText.GarbledNames` | src/ai_engineering_harness/governance/budget.py:966-977 | If one is, some name read is no dimension |
| `BudgetLedgerClass.BudgetLedger.ObserveToolCalled` | src/ai_engineering_harness/governance/budget.py:789-819 | The tool call branch accepts exactly what the specification accepts and records the same dispatch |
| `BudgetLedgerClass.BudgetLedger.ObserveExhausted` | src/ai_engineering_harness/governance/budget.py:763-780 | The evidence branch, which reads scope and names off the texts of its own snapshot, accepts exactly what the specification accepts |
| `BudgetLedgerClass.BudgetLedger.ReplayVerification` | src/ai_engineering_harness/governance/budget.py:1070-1125 | The gate pass accepts and charges exactly as specified |
| `BudgetLedgerClass.BudgetLedger.ReplayHistoricalUsage` | src/ai_engineering_harness/governance/budget.py:1127-1181 | The historical pass accepts and charges exactly as specified: node durations, model calls and tool calls, each once |
| `BudgetLedgerClass.BudgetLedger.AddHistoricalModel` | src/ai_engineering_harness/governance/budget.py:1183-1232 | A historical model call is charged its tokens and price, unless it is malformed or its response was seen |
| `BudgetLedgerClass.BudgetLedger.ReplayAll` | src/ai_engineering_harness/governance/budget.py:713-864 | The replay loop and the three passes after it accept exactly the specified journals and end with the specified balances |
| `BudgetLedgerClass.BudgetLedger.ExceededItems` | src/ai_engineering_harness/governance/budget.py:608-634 | The loop over the balances finds exactly the exceeded entries and those recorded as evidence |
| `BudgetLedgerClass.BudgetLedger.SnapshotTexts` | src/ai_engineering_harness/governance/budget.py:608-634 | The snapshot lists exactly the texts of these entries |
| `BudgetLedgerClass.BudgetLedger.EnsureIncrement` | src/ai_engineering_harness/governance/budget.py:636-672 | The capacity check, with active estimates added in any order, gives the specified denial |
| `BudgetBoundaryClass.JournalBudgetBoundary.ReserveFor` | src/ai_engineering_harness/governance/budget.py:1391-1476 | A reservation request appends and answers exactly as specified |
| `BudgetBoundaryClass.JournalBudgetBoundary.CommitResult` | src/ai_engineering_harness/governance/budget.py:1600-1647 | A commit appends the result and, when the texts of the next snapshot say so, evidence with the names read off them, exactly as specified |
| `BudgetBoundaryClass.JournalBudgetBoundary.MaterializeExceeded` | src/ai_engineering_harness/governance/budget.py:1342-1381 | Evidence for external usage is appended once, with the texts of the node without their prefix or else those of the execution, exactly as specified |
| `BudgetBoundaryClass.JournalBudgetBoundary.Serve` | src/ai_engineering_harness/governance/budget.py:1383-1686 | Any request takes the journal exactly to the specified step and gives the specified answer |
| `ModelRouter.ValidateRoute` | src/ai_engineering_harness/models/router.py:173-194 | The route is the primary followed by the fallbacks exactly when no provider is listed twice and each is allowed and registered |
| `ModelRouter.CompleteWithFallback` | src/ai_engineering_harness/models/router.py:196-241 | The fallback loop leaves the journal, the provider calls with the answers that settled them, and the exit of the specified route |
| `ModelRouter.OnlyRetryableErrorsContinue` | src/ai_engineering_harness/models/router.py:206-241 | Candidates are called in order, each at most once, and one is followed by the next only after a retryable provider error without cancellation whose result was recorded without overage |
| `ModelRouter.RouteIsDecided` | src/ai_engineering_harness/models/router.py:206-241 | The loop goes on exactly after a retryable provider error, recorded as Done and not cancelled: then the next candidate is called, unless it is cancelled or its reservation is not granted; otherwise the exit is the one of the last call |
| `ModelRouter.ExitsExactly` | src/ai_engineering_harness/models/router.py:206-241 | Each exit occurs if and only if the last call ended so: a permanent error, a foreign or the own provider's response, a cancellation with the response, a settlement not Done; and candidates run out if and only if all were called and all went on |
| `ModelRouter.SecondCandidateAnswers` | src/ai_engineering_harness/models/router.py:217-223 | A concrete route: after a retryable error of the first provider the response of the second is returned |
| `RouterJournal.RouteIsBooked` | src/ai_engineering_harness/models/router.py:206-241 | However the loop is left, the journal gains, in order and for exactly the calls made, a reservation for the candidate's own provider, model and prompt, and a result with its own outcome, usage, response and duration; only the result is missing where the call raised another exception |
| `ModelRouter.EveryCallIsSettled` | src/ai_engineering_harness/models/router.py:206-241 | On a journal without open reservations, however the loop is left, every provider call was reserved once, and the final journal, if it can be read, has an open reservation if and only if the last provider called raised an exception that is no provider error |
| `ModelRouter.CallsAreClosed` | src/ai_engineering_harness/models/router.py:421-453 | Every provider call is closed by exactly one result, but for that last one |
| `ModelRouter.RaisedCallStaysOpen` | src/ai_engineering_harness/models/router.py:211-217 | A concrete route that ends in such an exception: its reservation stays open and every later one is refused as ambiguous |
| `CancellationTheorems.ReachableInv` | src/ai_engineering_harness/runtime/cancellation.py:156-319 | Every interleaving of launchers, requesters and waiters keeps the slot, decision, visibility and waiting invariants |
| `CancellationTheorems.RequestSeesStartedCommand` | src/ai_engineering_harness/runtime/cancellation.py:238-276 | If a command was ever started, a completed request either saw it in the slot or read the slot only after the command had published its outcome |
| `CancellationTheorems.RequestStopsStarts` | src/ai_engineering_harness/runtime/cancellation.py:269-275 | Once the request file exists, no step starts another command |
| `CancellationTheorems.OneCommandAtATime` | src/ai_engineering_harness/runtime/cancellation.py:263-268 | Two commands in possession of the slot are the same command |
| `CancellationTheorems.OneDecision` | src/ai_engineering_harness/runtime/cancellation.py:156-236 | All completed requests carry the one decision of the policy file |
| `CancellationTheorems.QuiescentIsTrue` | src/ai_engineering_harness/runtime/cancellation.py:345-365 | A quiescent verdict names the outcome the awaited command published, and that command has released its slot |
| `CancellationTheorems.DisappearedIsAlwaysFalseAlarm` | src/ai_engineering_harness/runtime/cancellation.py:366-373 | A verdict that the command disappeared without outcome is never right: the awaited command always published one and released its slot |
| `CancellationTheorems.FalseAlarmHappens` | src/ai_engineering_harness/runtime/cancellation.py:346-373 | Such a verdict is reachable with a single command, by reading the outcome just before it is published and the slot just after it is released |
| `CancellationAlone.RequestAlone` | src/ai_engineering_harness/runtime/cancellation.py:156-236 | An undisturbed request binds its decision, leaves its request and answers the command in the slot, also when it is made again; a foreign or half-written file fails it |
| `CancellationAlone.StartAlone` | src/ai_engineering_harness/runtime/cancellation.py:238-276 | An undisturbed start takes a free slot unless there is a request; otherwise it leaves all files as they are |
| `CancellationAlone.SpawnAlone` | src/ai_engineering_harness/runtime/cancellation.py:278-285 | A held command is marked running, in its own slot only |
| `CancellationAlone.FinishAlone` | src/ai_engineering_harness/runtime/cancellation.py:287-319 | A command that finishes reports its outcome and frees its own slot; one that is not in the slot does neither |
| `CancellationAlone.RoundAlone` | src/ai_engineering_harness/runtime/cancellation.py:345-383 | One undisturbed round of a wait finds the outcome, the empty slot, the half-written slot, the end of the time, or nothing yet |
| `CancellationAlone.LateLauncherDoesNothing` | src/ai_engineering_harness/runtime/cancellation.py:238-262 | A launcher that has not looked when the request file exists never takes the slot, starts a command or reports an outcome |
| `CancellationControllerModule.CancellationController.RequestCancellation` | src/ai_engineering_harness/runtime/cancellation.py:156-200 | Decision, request and slot are written and read in this order; a foreign or half-written file refuses |
| `CancellationControllerModule.CancellationController.CommandStarted` | src/ai_engineering_harness/runtime/cancellation.py:238-276 | The slot is taken only if no request exists at either look; a request seen at the second look leaves an outcome and a free slot |
| `CancellationControllerModule.CancellationController.CommandFinished` | src/ai_engineering_harness/runtime/cancellation.py:287-319 | Only the command in the slot publishes an outcome, and it releases the slot |
| `CancellationControllerModule.WaitForQuiescence` | src/ai_engineering_harness/runtime/cancellation.py:321-383 | The polling loop returns the verdict of the first round that decides, and a quiescent verdict was read in some round |
| `JournalTheorems.LoadJournal` | src/ai_engineering_harness/persistence/atomic_file.py:755-826 | The loader returns the events whose canonical lines the file is, or nothing exactly when no valid chain of readable events renders to it |
| `JournalTheorems.AppendReadsBack` | src/ai_engineering_harness/persistence/atomic_file.py:306-329 | An appended event is read back after exactly the events before it if and only if its text holds none of U+0085, U+2028 and U+2029; otherwise nothing can be read any more |
| `JournalTheorems.LastHashDetermines` | src/ai_engineering_harness/persistence/atomic_file.py:808-825 | Two valid journals with the same last hash are identical |
| `JournalTheorems.LastHashDeterminesFile` | src/ai_engineering_harness/persistence/atomic_file.py:1321-1343 | ... and so are their files |
| `JournalTheorems.ReadingIsUnique` | src/ai_engineering_harness/persistence/atomic_file.py:780-826 | A file is read in at most one way |
| `StorageTheorems.RecordRecovers` | src/ai_engineering_harness/persistence/atomic_file.py:652-689 | Recovery of the record file changes nothing that can be seen, succeeds exactly on what is not stuck, and removes every candidate |
| `StorageTheorems.JournalRecovers` | src/ai_engineering_harness/persistence/atomic_file.py:691-725 | The same for the journal file |
| `StorageTheorems.RecordPublish` | src/ai_engineering_harness/persistence/atomic_file.py:1346-1368 | A crash anywhere in a publish leaves the old record or the new one, or, exactly when a first candidate was left incomplete, one that recovery refuses |
| `StorageTheorems.JournalPublish` | src/ai_engineering_harness/persistence/atomic_file.py:1346-1368 | A crash anywhere in an append leaves the old events or the new ones; exactly a partly written first candidate is refused |
| `StorageRuns.CrashAtomicity` | src/ai_engineering_harness/persistence/atomic_file.py:146-346 | Every call, wherever it dies, leaves the state it found or the state it was to make, with at most one candidate per file; only the first file of a kind can be lost |
| `StorageRuns.LinearHistory` | src/ai_engineering_harness/persistence/atomic_file.py:205-256 | Over any run with crashes the identity never changes, updated_at never goes back, the revision is the one the run started from, or zero for a record it creates, plus the number of successful compare-and-set calls, and the journal only grows at its end |
| `StorageRuns.ChangedExactlyBySwap` | src/ai_engineering_harness/persistence/atomic_file.py:205-256 | The record of an existing execution changes if and only if the call is a compare-and-set that succeeds |
| `StorageRuns.RevisionCountsSwaps` | src/ai_engineering_harness/persistence/atomic_file.py:205-256 | From nothing, the stored revision is the number of compare-and-set calls that succeeded, whatever crashed |
| `StorageRuns.OnlyOneWins` | src/ai_engineering_harness/persistence/atomic_file.py:231-256 | Of two compare-and-set calls of a run with the same expected revision at most one succeeds |
| `StorageAnswers.SwapAnswers` | src/ai_engineering_harness/persistence/atomic_file.py:205-256 | A compare-and-set on an existing record answers Swapped if and only if the expected revision is the current one, the next is one more, execution, workflow and identity are equal and the time does not go back; a differing revision is a conflict, anything else a mismatch |
| `StorageAnswers.CreateAnswers` | src/ai_engineering_harness/persistence/atomic_file.py:146-186 | A creation succeeds exactly where there is no record and for revision zero, and leaves that record |
| `StorageAnswers.NeedsRecord` | src/ai_engineering_harness/persistence/atomic_file.py:188-223 | Every other call answers that nothing was found exactly where there is no record, and is refused over a file that recovery refuses |
| `StorageAnswers.LoadAnswers` | src/ai_engineering_harness/persistence/atomic_file.py:188-203 | Loading answers the record, and loading the journal its events |
| `StorageAnswers.AppendAnswers` | src/ai_engineering_harness/persistence/atomic_file.py:258-329 | An append adds the next numbered event, chained to the last hash, unless the workflow differs, the journal cannot be read or the id is taken |
| `StorageAnswers.SixStepsSuffice` | src/ai_engineering_harness/persistence/atomic_file.py:1346-1368 | A call that survives six durable steps ends |
| `StorageAnswers.ManyCandidatesRefuse` | src/ai_engineering_harness/persistence/atomic_file.py:652-689 | Several candidates beside a missing record refuse the call and stay |
| `StateStorageClass.AtomicFileStateStorage.PublishRecord` | src/ai_engineering_harness/persistence/atomic_file.py:1346-1368 | Writing through a temporary file, step by step, is the specified publish cut where the process dies |
| `StateStorageClass.AtomicFileStateStorage.RecoverRecordFile` | src/ai_engineering_harness/persistence/atomic_file.py:652-689 | Recovery of the record, step by step, is the specified one |
| `StateStorageClass.AtomicFileStateStorage.RecoverJournalFile` | src/ai_engineering_harness/persistence/atomic_file.py:691-725 | Recovery of the journal, with its loading loop, is the specified one |
| `StateStorageClass.AtomicFileStateStorage.CreateExecution` | src/ai_engineering_harness/persistence/atomic_file.py:146-186 | Creation has the specified effect and result |
| `StateStorageClass.AtomicFileStateStorage.CompareAndSetExecution` | src/ai_engineering_harness/persistence/atomic_file.py:205-256 | Compare-and-set has the specified effect and result |
| `StateStorageClass.AtomicFileStateStorage.AppendEvent` | src/ai_engineering_harness/persistence/atomic_file.py:258-329 | Append has the specified effect and result |
| `StateStorageClass.AtomicFileStateStorage.LoadAllEvents` | src/ai_engineering_harness/persistence/atomic_file.py:331-346 | Loading the journal has the specified effect and result |
| `LockTheorems.ReachableInv` | src/ai_engineering_harness/persistence/locks.py:95-190 | Every interleaving of acquisitions and releases of many managers, with crashes, keeps the file lock, token and table invariants |
| `LockTheorems.TokensIncrease` | src/ai_engineering_harness/persistence/locks.py:246-281 | The fencing tokens published for one execution strictly increase, whatever crashed in between |
| `LockTheorems.FileHoldsGreatest` | src/ai_engineering_harness/persistence/locks.py:246-281 | The token file holds the greatest token ever published for its execution |
| `LockTheorems.TablesAreInverse` | src/ai_engineering_harness/persistence/locks.py:135-139 | The handle and execution tables of every live manager are inverses of each other, disjoint from what is pending |
| `LockTheorems.MutualExclusion` | src/ai_engineering_harness/persistence/locks.py:283-318 | Among all processes at most one acquisition of an execution has its file lock |
| `LockTheorems.FenceAdmitsNewestOnly` | src/ai_engineering_harness/knowledge/transaction.py:1001-1020 | The knowledge store's check admits at most one handle, exactly the validated one that was issued the newest token, and always a handle that is still held |
| `LockTheorems.StaleHandleValidates` | src/ai_engineering_harness/persistence/locks.py:169-185 | Between the release of the file lock and the clearing of the tables another manager can acquire: both handles then validate, and only the token file tells them apart |
| `LockAlone.AcquireAlone` | src/ai_engineering_harness/persistence/locks.py:95-146 | An undisturbed acquisition of a free execution ends with a handle under the next token, in the lock file, the token file and both tables |
| `LockAlone.WaitAlone` | src/ai_engineering_harness/persistence/locks.py:283-318 | While another holds the file lock it waits, registered and without effect |
| `LockAlone.ReleaseAlone` | src/ai_engineering_harness/persistence/locks.py:169-190 | An undisturbed release drops the file lock and leaves both tables; the token stays |
| `LockAlone.GiveUpAlone` | src/ai_engineering_harness/persistence/locks.py:136-146 | A failed acquisition is no longer pending and holds no file lock, and publishes no token |
| `LockManagerModule.CrossProcessLockManager.Acquire` | src/ai_engineering_harness/persistence/locks.py:95-146 | Acquisition publishes the next token and enters both tables; it is refused exactly when the execution is held or pending, times out exactly when its file lock stays taken or no try is left, and then leaves everything as it was |
| `LockManagerModule.CrossProcessLockManager.Release` | src/ai_engineering_harness/persistence/locks.py:169-190 | Release drops the file lock and leaves both tables; an unknown handle changes nothing |
| `ContractTheorems.VerdictIsSound` | src/ai_engineering_harness/contracts/registry.py:259-316 | A compatible verdict is true when the output is closed, or declares every input property and does not meet constrained additional properties with `{}` |
| `ContractTheorems.VerdictIsSoundExactly` | src/ai_engineering_harness/contracts/registry.py:259-316 | For schemas whose fields are only typed, a compatible verdict is true if and only if the two are the same, or the output is closed, or the input covers whatever the output may add |
| `ContractTheorems.TrueIsCompatible` | src/ai_engineering_harness/contracts/registry.py:259-316 | Between schemas whose fields are all typed, a true relationship is refused only where an open output meets constrained additional properties |
| `ContractTheorems.SameIsCompatible` | src/ai_engineering_harness/contracts/registry.py:270-271 | A contract is compatible with itself, whatever it is |
| `ContractTheorems.UndeclaredPropertyIsUnsound` | src/ai_engineering_harness/contracts/registry.py:289-295 | A concrete verdict that is false: an open output against an input property it does not declare |
| `ContractTheorems.EmptyAdditionalIsUnsound` | src/ai_engineering_harness/contracts/registry.py:304-315 | A concrete verdict that is false: additional properties `{}` against constrained ones |
| `GraphTopology.ReachableNodes` | src/ai_engineering_harness/contracts/graph.py:216-226 | The worklist computes exactly the nodes that some walk reaches from the start |
| `GraphTopology.CanReach` | src/ai_engineering_harness/contracts/graph.py:228-240 | The worklist answers exactly whether some walk leads to the destination |
| `GraphTopology.ValidateTopology` | src/ai_engineering_harness/contracts/graph.py:165-214 | Validation succeeds exactly on valid topologies, and otherwise names a rule that is broken |
| `GraphTopology.HasUngovernedCycle` | src/ai_engineering_harness/contracts/graph.py:201-213 | The cycle check finds a node without retry policy on a cycle exactly when there is one |
| `GraphTopology.TwiceIsCycle` | src/ai_engineering_harness/contracts/graph.py:201-205 | A node that occurs twice on a walk is on a cycle |
| `GraphTopology.WalksAreBounded` | src/ai_engineering_harness/contracts/graph.py:201-213 | In a valid graph ungoverned nodes occur at most once on any walk, and a walk within the iteration limits is no longer than all limits together |
| `CanonicalOrder.SortIgnoresOrder` | src/ai_engineering_harness/contracts/graph.py:311-335 | Stable sorting by key gives one result for every order of the same elements when keys identify them |
| `CanonicalOrder.SortIsIdempotent` | src/ai_engineering_harness/contracts/graph.py:311-335 | Sorting twice is sorting once, whatever repeats |
| `CanonicalOrder.LessExactly` | src/ai_engineering_harness/contracts/graph.py:311-335 | Strings are ordered by their first differing character, and a beginning comes before the whole |
| `CanonicalOrder.SortAscends` | src/ai_engineering_harness/contracts/graph.py:311-335 | What is sorted ascends from every element to every later one |
| `ArtifactTheorems.GraphIgnoresOrder` | src/ai_engineering_harness/contracts/graph.py:311-324 | Graphs that differ in order only have the same canonical form |
| `ArtifactTheorems.PoliciesIgnoreOrder` | src/ai_engineering_harness/contracts/graph.py:338-364 | Policies with distinct references that differ in order only, nodes of the tool policy with distinct ids included, have the same canonical form |
| `ArtifactTheorems.BuildIgnoresOrder` | src/ai_engineering_harness/contracts/graph.py:436-464 | Inputs that differ in order only build the same artifact, digests included, or are both refused, for graphs with distinct node and terminal ids; colliding contracts, policies or sources are refused in every order |
| `ArtifactTheorems.BuildSucceedsExactly` | src/ai_engineering_harness/contracts/graph.py:480-564 | An artifact is built if and only if, in whatever order, versions match, references and sources do not repeat, contracts and policies are exactly those referred to, and exactly one source is the graph |
| `ArtifactTheorems.BuildSays` | src/ai_engineering_harness/contracts/graph.py:436-464 | The artifact indexes every contract once with its name and digest, and its capabilities are exactly the tools the tool policy allows some node |
| `ArtifactTheorems.RebuildIsIdentity` | src/ai_engineering_harness/contracts/graph.py:480-564 | Corollary of BuildIsIdempotent: an artifact that was built is rebuilt unchanged from its own fields |
| `ArtifactTheorems.BuildIsIdempotent` | src/ai_engineering_harness/contracts/graph.py:436-464 | What is assembled is canonical: assembling it again gives it back |
| `ToolPolicy.ResolveNodeTools` | src/ai_engineering_harness/contracts/policy_registry.py:351-394 | The loop succeeds exactly on grantable permissions, and then allows and denies exactly the named tools |
| `ToolPolicy.AllowedAndDeniedAreDisjoint` | src/ai_engineering_harness/contracts/policy_registry.py:363-386 | No tool is both allowed to a node and denied to it |
| `ToolPolicy.OrderIsIrrelevant` | src/ai_engineering_harness/contracts/policy_registry.py:364-386 | Neither success nor the decision depends on the order of permissions |
| `ToolPolicy.ResolveGraph` | src/ai_engineering_harness/contracts/policy_registry.py:134-138 | All nodes are decided exactly when each of them is grantable |
| `ToolPolicy.RequiredCapabilities` | src/ai_engineering_harness/contracts/graph.py:380-407 | The loop collects exactly the tools some node of the payload is allowed |
| `ToolPolicy.CapabilitiesAreWitnessed` | src/ai_engineering_harness/contracts/policy_registry.py:396-418 | A tool is a required capability if and only if some node asks for it, its role and role policy allow it and the policy does not forbid it |
| `ContextScore.ConfidenceInRange` | src/ai_engineering_harness/governance/evaluation.py:214-221 | The confidence lies between zero and one |
| `ContextScore.WeightOf` | src/ai_engineering_harness/governance/evaluation.py:208-221 | A dimension that alone is full contributes 0.25, 0.20, 0.15, 0.15, 0.15 or 0.10, and the confidence is the weighted sum up to rounding |
| `ContextScore.RoundingExactly` | src/ai_engineering_harness/governance/evaluation.py:26-27 | Rounding takes the nearest millionth, and the even one of two |
| `ContextScore.ArtifactShares` | src/ai_engineering_harness/governance/evaluation.py:105-115 | Each artifact dimension is the share of its own list that is present |
| `ContextScore.CoverageExactly` | src/ai_engineering_harness/governance/evaluation.py:102-116 | Coverage is the share of query tokens that some symbol has |
| `ContextScore.RelevanceExactly` | src/ai_engineering_harness/governance/evaluation.py:118-122 | Relevance is the greatest Jaccard similarity of a symbol that shares a token with the query, and zero if none does |
| `ContextScore.ReportExactly` | src/ai_engineering_harness/governance/evaluation.py:222-250 | Which gaps a report lists, when it is sufficient, and which action it recommends |
| `ContextScore.ConfidenceIsMonotone` | src/ai_engineering_harness/governance/evaluation.py:214-221 | Raising any dimension never lowers the confidence |
| `ContextScore.RelevanceBelowCoverage` | src/ai_engineering_harness/governance/evaluation.py:116-122 | Symbol relevance never exceeds structural coverage |
| `ContextScore.SufficientExactlyWithoutGaps` | src/ai_engineering_harness/governance/evaluation.py:222-250 | A report is sufficient exactly when it lists no gap, and exactly then recommends to proceed |
| `ContextScore.GateLeavesCoverageAndRelevance` | src/ai_engineering_harness/governance/evaluation.py:214-228 | Once the discrete gate holds, the confidence is the rounded 0.70 + 0.15 (coverage + relevance), and alone decides |
| `ContextScore.GateThreshold` | src/ai_engineering_harness/governance/evaluation.py:221-228 | That confidence reaches 0.72 if and only if coverage and relevance together reach 0.13333 |
| `ContextScore.RatioOrder` | src/ai_engineering_harness/governance/evaluation.py:26-33 | Rounded quotients are monotone in the numerator and antitone in the denominator |

## Left out

- Legacy 1.x knowledge pointers and journal records: they follow weaker rules than the transactions modelled here.
- Timestamps, abort reasons and the JSON text of knowledge journal records, and the temporary files of its atomic writes: each such write is one durable step.
- Tampering, failing file systems and partial renames: faults are crashes; an operating system error that the program survives is not modelled.
- Foreign execution ids, malformed payload types and the classes of budget errors: a rejected journal is just rejected.
- Decimal rounding of prices to 28 digits: money is exact in scaled units.
- BudgetRuns.AgreementOverRuns: states agreement for runs in which neither late usage nor the text of a node id can matter; RunsAgreeExactly is the exact condition for every run.
- Operation ids: a free text chosen by a caller is taken to differ from the numbered ids, and an empty one is a malformed payload.
- The parallel prompt, tool and structured-output variants of the fallback loop: they repeat the modelled one; the legacy in-memory budget tracker is not modelled.
- ModelRouter.EveryCallIsSettled: no other writer appends between the reservation and the result of one call, since both happen under one lock.
- CancellationTheorems: processes are steps of a state machine rather than threads; the methods of CancellationController state what a call does when nothing interferes, and a wait is given what it reads.
- Removal of a file whose exclusive creation failed half way: a creator that fails there counts as crashed.
- The execution bundle, payload and evidence manifest files of the storage: they make no compare-and-set promise across files.
- Canonical JSON of events and records: the identifying fields are one symbol followed by the remaining text, in which JSON has escaped every control character; UTF-8 decoding is not modelled.
- LockTheorems: a retry loop appears as repeated steps of a waiting acquisition, and each handle is released at most once; the catalog lock is not modelled.
- Release errors of the operating system lock: unlocking always succeeds.
- Contract resolution, aliases and schema composition keywords: schemas use type, properties, required and additionalProperties only, and `["object"]` is not told from `"object"`.
- Pydantic field validation, path confinement, Git subprocesses, network transport and command line front ends.
- The payload of policies other than the tool policy, integrity of contract digests, and version strings other than the graph's and the policies': they are compared, not computed.
- The 28-digit division that precedes six-place rounding in the context score: quotients are exact before they are rounded.
- CancellationControllerModule.CancellationController.CommandStarted: whether a request appears between the two looks is a parameter.
