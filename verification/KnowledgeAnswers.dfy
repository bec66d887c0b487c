/** What a publication answers, said of the journal and the files it leaves behind. */
module KnowledgeAnswers {
  import opened Common
  import opened KnowledgeModel
  import opened KnowledgeInvariant
  import opened KnowledgeTheorems
  import opened KnowledgeRuns
  import opened KnowledgeRetries

  /** The last record of `id` is COMMITTED for `sha`, and its retained index holds `ki` under its own id. */
  ghost predicate Holds(d: Disk, id: TxId, ki: Ki, sha: Sha) {
    && LatestOf(d.journal, id).Some? && LatestOf(d.journal, id).value.state == Committed
    && var tx := LatestOf(d.journal, id).value.tx;
       && tx.id == id && tx.commit == sha && id in d.snapshots && d.snapshots[id] == tx.digest.of
       && d.snapshots[id].commit == sha && ki.id in d.snapshots[id].items && d.snapshots[id].items[ki.id] == ki
  }

  // ---------- an id with history ----------

  /** What a call answers for an id whose last record is `r`. */
  function KnownAnswer(d: Disk, r: Record, ki: Ki, sha: Sha): Outcome {
    if r.state != Committed then Refused(TxConflict)
    else if r.tx.commit != sha then Refused(RetryDiffers)
    else if r.tx.id !in d.snapshots then Refused(IndexInvalid)
    else if ki.id in r.tx.digest.of.items && r.tx.digest.of.items[ki.id] == ki then Done
    else Refused(RetryDiffers)
  }

  lemma KnownPlan(d: Disk, git: set<Sha>, id: TxId, ki: Ki, sha: Sha)
    requires Inv(d) && !Open(d.journal) && LatestOf(d.journal, id).Some?
    ensures ExecutePlan(d, git, d.fence, id, ki, sha) ==
            Plan([], KnownAnswer(d, LatestOf(d.journal, id).value, ki, sha))
    ensures KnownAnswer(d, LatestOf(d.journal, id).value, ki, sha) == Done ==> Holds(d, id, ki, sha)
  {
    AlternatingIsHistory(d.journal);
    LatestRecord(d.journal, id);
    var i :| 0 <= i < |d.journal| && d.journal[i] == LatestOf(d.journal, id).value && d.journal[i].tx.id == id;
    RecordIsChained(d.journal, i);
  }

  // ---------- a new id ----------

  lemma PublishedHolds(d: Disk, id: TxId, ki: Ki, sha: Sha)
    ensures Holds(Published(d, id, ki, sha), id, ki, sha)
  {
    var tx := NextTx(d, id, ki, sha);
    LatestPair(d.journal, Record(tx, Prepared, d.fence), Record(tx, Committed, d.fence), id);
    hide LatestOf;
  }

  lemma NewPlan(d: Disk, git: set<Sha>, id: TxId, ki: Ki, sha: Sha)
    requires Inv(d) && !Open(d.journal) && PointerKnown(d, git) && LatestOf(d.journal, id).None? && d.fence >= 1
    ensures var p := ExecutePlan(d, git, d.fence, id, ki, sha);
            p.outcome == Done ==> Holds(ApplyAll(d, p.writes), id, ki, sha)
  {
    hide Inv, Open, PointerKnown, Published, ApplyAll, ExecutePlan, Holds, NextTx, NextIndex;
    LatestMentions(d.journal, id);
    ExecuteCases(d, git, id, ki, sha);
    ExecuteSafe(d, git, id, ki, sha);
    PublishedHolds(d, id, ki, sha);
  }

  // ---------- whole calls ----------

  lemma BodyHolds(d: Disk, git: set<Sha>, id: TxId, ki: Ki, sha: Sha)
    requires Inv(d) && !Open(d.journal) && PointerKnown(d, git) && d.fence >= 1
    ensures var p := ExecutePlan(d, git, d.fence, id, ki, sha);
            p.outcome == Done ==> Holds(ApplyAll(d, p.writes), id, ki, sha)
  {
    hide Inv, ExecutePlan, Holds, KnownAnswer, Open, PointerKnown;
    if LatestOf(d.journal, id).Some? {
      KnownPlan(d, git, id, ki, sha);
      AppliesNothing(d);
    } else {
      NewPlan(d, git, id, ki, sha);
    }
  }

  /** A call on any consistent disk that answers Done leaves the item committed and readable under its id. */
  lemma DoneHolds(d: Disk, git: set<Sha>, id: TxId, ki: Ki, sha: Sha, life: nat)
    requires Inv(d)
    ensures var left := Survive(d, CallPlan(d, git, Execute(id, ki, sha)), life);
            left.1 == Done ==> Holds(left.0, id, ki, sha)
  {
    if sha in git {
      hide Inv, Holds, RecoverPlan, ExecutePlan, CallPlan, ApplyAll, Open, PointerKnown;
      FenceKeeps(d);
      var d1 := Apply(d, AdvanceFence);
      RecoverySafe(d1, git);
      CallShape(d, git, Execute(id, ki, sha));
      var first := RecoverPlan(d1, git, d1.fence);
      var d2 := ApplyAll(d1, first.writes);
      if first.outcome.Ok() { BodyHolds(d2, git, id, ki, sha); } else { NotDone(d1, git); }
    }
  }

  lemma NotDone(d: Disk, git: set<Sha>)
    ensures RecoverPlan(d, git, d.fence).outcome != Done
  {
    hide HistoryOk, Unresolved, PointerError;
  }

  /** After any run: a publication answers Done only when it is durably committed with its item. */
  lemma DoneIsPublished(calls: seq<Call>, git: set<Sha>, id: TxId, ki: Ki, sha: Sha, life: nat)
    ensures var d := Run(EMPTY_DISK, calls);
            var left := Survive(d, CallPlan(d, git, Execute(id, ki, sha)), life);
            left.1 == Done ==> Holds(left.0, id, ki, sha)
  {
    hide Run, Inv, Holds, CallPlan;
    ReachableInv(calls);
    DoneHolds(Run(EMPTY_DISK, calls), git, id, ki, sha, life);
  }

  /** A call on an id that has history is answered by its last record on the recovered disk, exactly. */
  lemma KnownIdIsAnswered(calls: seq<Call>, git: set<Sha>, id: TxId, ki: Ki, sha: Sha)
    requires sha in git && CallPlan(Run(EMPTY_DISK, calls), git, Recover).outcome.Ok()
    ensures var d := Run(EMPTY_DISK, calls);
            var recovered := ApplyAll(d, CallPlan(d, git, Recover).writes);
            LatestOf(recovered.journal, id).Some? ==>
              CallPlan(d, git, Execute(id, ki, sha)).outcome ==
              KnownAnswer(recovered, LatestOf(recovered.journal, id).value, ki, sha)
  {
    ReachableInv(calls);
    var d := Run(EMPTY_DISK, calls);
    hide Run, Inv, RecoverPlan, ExecutePlan, CallPlan, ApplyAll, KnownAnswer, Open, PointerKnown;
    FenceKeeps(d);
    var d1 := Apply(d, AdvanceFence);
    RecoverySafe(d1, git);
    CallShape(d, git, Recover);
    CallShape(d, git, Execute(id, ki, sha));
    var d2 := ApplyAll(d1, RecoverPlan(d1, git, d1.fence).writes);
    AppliesNothing(d2);
    if LatestOf(d2.journal, id).Some? { KnownPlan(d2, git, id, ki, sha); }
  }

  /** ... and a commit that Git does not show, or that recovery refuses, is answered so. */
  lemma RefusedFirst(d: Disk, git: set<Sha>, id: TxId, ki: Ki, sha: Sha)
    requires Inv(d)
    ensures sha !in git ==> CallPlan(d, git, Execute(id, ki, sha)) == Plan([], Refused(CommitMissing))
    ensures sha in git && !CallPlan(d, git, Recover).outcome.Ok() ==>
              CallPlan(d, git, Execute(id, ki, sha)).outcome == CallPlan(d, git, Recover).outcome
  {
    if sha in git {
      hide Inv, RecoverPlan, ExecutePlan, ApplyAll;
      CallShape(d, git, Recover);
      CallShape(d, git, Execute(id, ki, sha));
    }
  }

  // ---------- an aborted id stays refused ----------

  /** The first three writes of a publication on an empty disk. */
  lemma FirstWrites(id: TxId, ki: Ki, sha: Sha)
    ensures var d1 := Apply(EMPTY_DISK, AdvanceFence);
            var ws := CallPlan(EMPTY_DISK, {sha}, Execute(id, ki, sha)).writes;
            && |ws| >= 3
            && ws[..3] == [AdvanceFence, Stage(id, NextIndex(d1, ki, sha)),
                           Append(Record(NextTx(d1, id, ki, sha), Prepared, 1))]
  {
    var d1 := Apply(EMPTY_DISK, AdvanceFence);
    assert Inv(EMPTY_DISK);
    FenceKeeps(EMPTY_DISK);
    EmptyIsQuiet({sha});
    hide RecoverPlan, ExecutePlan, Inv, ApplyAll, NextTx, NextIndex;
    NothingToResolve(d1, {sha});
    AppliesNothing(d1);
    ExecuteCases(d1, {sha}, id, ki, sha);
    CallShape(EMPTY_DISK, {sha}, Execute(id, ki, sha));
  }

  lemma ThreeWrites(d: Disk, a: Write, b: Write, c: Write)
    ensures ApplyAll(d, [a, b, c]) == Apply(Apply(Apply(d, a), b), c)
  {
    hide ApplyAll, Apply;
    assert [a, b, c] == [a] + [b] + [c];
    ApplySplit(d, [a] + [b], [c]);
    ApplySplit(d, [a], [b]);
    OneWrite(d, a);
    OneWrite(Apply(d, a), b);
    OneWrite(Apply(Apply(d, a), b), c);
  }

  /** The disk after a first call died just after its PREPARED record. */
  lemma DiesPrepared(id: TxId, ki: Ki, sha: Sha)
    ensures var d := Run(EMPTY_DISK, [Call(Execute(id, ki, sha), {sha}, 3)]);
            && Inv(d) && d.fence == 1 && d.current == None && |d.journal| == 1
            && d.journal[0].tx.id == id && d.journal[0].state == Prepared && d.journal[0].tx.commit == sha
  {
    var c := Call(Execute(id, ki, sha), {sha}, 3);
    assert [c][..0] == [] && Run(EMPTY_DISK, []) == EMPTY_DISK;
    assert Run(EMPTY_DISK, [c]) == Step(EMPTY_DISK, c);
    hide CallPlan, Inv, ApplyAll, NextIndex, Step, Run;
    ReachableInv([c]);
    FirstWrites(id, ki, sha);
    StepIs(EMPTY_DISK, c);
    var d1 := Apply(EMPTY_DISK, AdvanceFence);
    var stage := Stage(id, NextIndex(d1, ki, sha));
    ThreeWrites(EMPTY_DISK, AdvanceFence, stage, Append(Record(NextTx(d1, id, ki, sha), Prepared, 1)));
  }

  lemma AbortIsPlanned(d: Disk)
    requires Inv(d) && d.current == None && |d.journal| == 1
    ensures RecoverPlan(d, {}, d.fence) == AbortPlan(d.journal[0].tx, d.fence)
  {
    RecoveryCases(d, {});
    hide RecoverPlan, Inv;
  }

  lemma TwoWrites(d: Disk, a: Write, b: Write)
    ensures ApplyAll(d, [a, b]) == Apply(Apply(d, a), b)
  {
    hide ApplyAll, Apply;
    assert [a, b] == [a] + [b];
    ApplySplit(d, [a], [b]);
    OneWrite(d, a);
    OneWrite(Apply(d, a), b);
  }

  /** Recovery without the commit aborts it. */
  lemma Aborts(d: Disk)
    requires Inv(d) && d.current == None && |d.journal| == 1
    ensures var e := Step(d, Call(Recover, {}, 2));
            && Inv(e) && |e.journal| == 2 && e.current == None
            && e.journal[1] == Record(d.journal[0].tx, Aborted, d.fence + 1)
  {
    var d1, abort := Apply(d, AdvanceFence), Append(Record(d.journal[0].tx, Aborted, d.fence + 1));
    hide RecoverPlan, Inv, ApplyAll, Step;
    StepKeeps(d, Call(Recover, {}, 2));
    FenceKeeps(d);
    AbortIsPlanned(d1);
    StepIs(d, Call(Recover, {}, 2));
    assert CallPlan(d, {}, Recover).writes == [AdvanceFence, abort];
    assert [AdvanceFence, abort][..2] == [AdvanceFence, abort];
    TwoWrites(d, AdvanceFence, abort);
  }

  /** A publication that died prepared and was aborted is refused when it is tried again. */
  lemma AbortedIdConflicts(id: TxId, ki: Ki, sha: Sha)
    ensures var calls := [Call(Execute(id, ki, sha), {sha}, 3), Call(Recover, {}, 2)];
            CallPlan(Run(EMPTY_DISK, calls), {sha}, Execute(id, ki, sha)).outcome == Refused(TxConflict)
  {
    var first, second := Call(Execute(id, ki, sha), {sha}, 3), Call(Recover, {}, 2);
    var d := Run(EMPTY_DISK, [first]);
    DiesPrepared(id, ki, sha);
    Aborts(d);
    assert [first, second][..1] == [first];
    var e := Step(d, second);
    assert Run(EMPTY_DISK, [first, second]) == e;
    hide Run, Step, Inv, KnownAnswer;
    QuietRecovery(e, {sha});
    var f := ApplyAll(e, CallPlan(e, {sha}, Recover).writes);
    KnownIdIsAnswered([first, second], {sha}, id, ki, sha);
    assert LatestOf(f.journal, id) == Some(e.journal[1]);
    assert KnownAnswer(f, e.journal[1], ki, sha) == Refused(TxConflict)
           by { OtherIsConflict(f, e.journal[1], ki, sha); }
  }

  lemma OtherIsConflict(d: Disk, r: Record, ki: Ki, sha: Sha)
    requires r.state != Committed
    ensures KnownAnswer(d, r, ki, sha) == Refused(TxConflict)
  {
  }

  lemma QuietRecovery(d: Disk, git: set<Sha>)
    requires Inv(d) && |d.journal| == 2 && PointerKnown(d, git)
    ensures CallPlan(d, git, Recover).outcome == Clean
    ensures ApplyAll(d, CallPlan(d, git, Recover).writes).journal == d.journal
  {
    var d1 := Apply(d, AdvanceFence);
    FenceKeeps(d);
    assert !Open(d1.journal);
    NothingToResolve(d1, git);
    hide RecoverPlan, Inv, ApplyAll;
    OneWrite(d, AdvanceFence);
    assert [AdvanceFence] + [] == [AdvanceFence];
  }
}
