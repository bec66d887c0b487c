/** Repeated, lost and blocked calls, and what retention may remove. */
module KnowledgeRetries {
  import opened Common
  import opened KnowledgeModel
  import opened KnowledgeInvariant
  import opened KnowledgeTheorems
  import opened KnowledgeRuns

  ghost function BodyOf(d: Disk, git: set<Sha>, r: Request): Plan { Body(d, git, d.fence, r) }

  /** Every call is a recovery followed by its own body on the recovered disk. */
  lemma CallIsRecoveryThenBody(d: Disk, git: set<Sha>, r: Request)
    requires Inv(d) && (r.Execute? ==> r.sha in git)
    ensures var head := CallPlan(d, git, Recover); var d2 := ApplyAll(d, head.writes);
            && CallPlan(d, git, r).writes ==
               head.writes + (if head.outcome.Ok() then BodyOf(d2, git, r).writes else [])
            && Inv(d2) && d.journal <= d2.journal
            && (head.outcome.Ok() ==> !Open(d2.journal) && PointerKnown(d2, git))
  {
    hide Inv, RecoverPlan, ExecutePlan, CleanupPlan, ApplyAll, Safe, Open, PointerKnown;
    CallShape(d, git, Recover);
    CallShape(d, git, r);
    FenceKeeps(d);
    var d1 := Apply(d, AdvanceFence);
    RecoverySafe(d1, git);
    var first := RecoverPlan(d1, git, d1.fence);
    JournalOfWrites(d1, first.writes);
    var d2 := ApplyAll(d1, first.writes);
    AppliesNothing(d2);
    assert CallPlan(d, git, Recover).writes == [AdvanceFence] + first.writes
           by { assert first.writes + [] == first.writes; }
    if first.outcome.Ok() {
      assert [AdvanceFence] + (first.writes + BodyOf(d2, git, r).writes) ==
             [AdvanceFence] + first.writes + BodyOf(d2, git, r).writes;
    } else {
      assert [AdvanceFence] + first.writes + [] == [AdvanceFence] + first.writes;
    }
  }

  function Cut(life: nat, n: nat): nat { if life < n then life else n }

  lemma StepIs(d: Disk, c: Call)
    ensures var ws := CallPlan(d, c.git, c.request).writes;
            Step(d, c) == ApplyAll(d, ws[..Cut(c.life, |ws|)])
  {
    var ws := CallPlan(d, c.git, c.request).writes;
    assert ws[..|ws|] == ws;
  }

  lemma MentionsGrow(j: seq<Record>, k: seq<Record>, id: TxId)
    requires Mentions(j, id) && j <= k
    ensures Mentions(k, id)
  {
    var i :| 0 <= i < |j| && j[i].tx.id == id;
    assert k[i] == j[i];
  }

  /** A call whose transaction already has history does nothing but recover. */
  lemma KnownIdOnlyRecovers(d: Disk, c: Call)
    requires Inv(d) && c.request.Execute? && Mentions(d.journal, c.request.id) && c.request.sha in c.git
    ensures Step(d, c) == Step(d, Call(Recover, c.git, c.life))
  {
    hide Inv, CallPlan, ApplyAll, Open, PointerKnown, ExecutePlan;
    var r := c.request;
    CallIsRecoveryThenBody(d, c.git, r);
    var head := CallPlan(d, c.git, Recover);
    var d2 := ApplyAll(d, head.writes);
    MentionsGrow(d.journal, d2.journal, r.id);
    if head.outcome.Ok() { ExecuteCases(d2, c.git, r.id, r.ki, r.sha); }
    assert head.writes + [] == head.writes;
  }

  lemma {:induction false} LatestRecord(j: seq<Record>, id: TxId)
    requires LatestOf(j, id).Some?
    ensures exists i :: 0 <= i < |j| && j[i] == LatestOf(j, id).value && j[i].tx.id == id
  {
    if j[|j| - 1].tx.id != id {
      LatestRecord(j[..|j| - 1], id);
      var i :| 0 <= i < |j| - 1 && j[..|j| - 1][i] == LatestOf(j, id).value;
      assert j[i] == LatestOf(j, id).value;
    }
  }

  lemma {:induction false} RecordIsChained(j: seq<Record>, i: nat)
    requires JournalOk(j) && i < |j|
    ensures WellKeyed(j[i].tx.digest.of.items) && j[i].tx.digest.of.items != map[]
    ensures j[i].tx.digest.of.commit == j[i].tx.commit
  {
    PrefixOk(j, i + 1);
    if i % 2 == 1 { PrefixOk(j, i); }
  }

  /** A retry of a committed transaction succeeds exactly when it names the same commit, the
      snapshot is still retained, and that snapshot holds the offered item. */
  lemma RetryExact(d: Disk, git: set<Sha>, id: TxId, ki: Ki, sha: Sha)
    requires Inv(d) && !Open(d.journal)
    requires LatestOf(d.journal, id).Some? && LatestOf(d.journal, id).value.state.Committed?
    ensures var p := ExecutePlan(d, git, d.fence, id, ki, sha);
            var tx := LatestOf(d.journal, id).value.tx;
            && p.writes == []
            && (p.outcome == Done <==>
                tx.commit == sha && id in d.snapshots
                && ki.id in tx.digest.of.items && tx.digest.of.items[ki.id] == ki)
  {
    AlternatingIsHistory(d.journal);
    LatestRecord(d.journal, id);
    var i :| 0 <= i < |d.journal| && d.journal[i] == LatestOf(d.journal, id).value && d.journal[i].tx.id == id;
    RecordIsChained(d.journal, i);
  }

  /** A publication that crashed before its PREPARED record leaves at most its own staging file. */
  lemma UnpreparedLeavesNoTrace(d: Disk, c: Call)
    requires Inv(d) && c.request.Execute? && c.request.sha in c.git
    requires !Mentions(Step(d, c).journal, c.request.id)
    ensures var f := Step(d, Call(Recover, c.git, c.life));
            Step(d, c) == f || (exists index :: Step(d, c) == Apply(f, Stage(c.request.id, index)))
  {
    hide Inv, CallPlan, ApplyAll, Open, PointerKnown, Body, Mentions, Step;
    var r := c.request;
    CallIsRecoveryThenBody(d, c.git, r);
    StepIs(d, c);
    StepIs(d, Call(Recover, c.git, c.life));
    var head := CallPlan(d, c.git, Recover);
    var d2 := ApplyAll(d, head.writes);
    var body := if head.outcome.Ok() then BodyOf(d2, c.git, r).writes else [];
    var ws := CallPlan(d, c.git, r).writes;
    if c.life <= |head.writes| || body == [] {
      assert ws[..Cut(c.life, |ws|)] == head.writes[..Cut(c.life, |head.writes|)];
    } else {
      var n := Cut(c.life, |ws|) - |head.writes|;
      assert ws[..|head.writes| + n] == head.writes + body[..n];
      assert head.writes[..|head.writes|] == head.writes;
      ApplySplit(d, head.writes, body[..n]);
      OnlyStaged(d2, c.git, r, n);
    }
  }

  /** Before PREPARED the only write is the staging file. */
  lemma OnlyStaged(d: Disk, git: set<Sha>, r: Request, n: nat)
    requires Inv(d) && !Open(d.journal) && PointerKnown(d, git) && r.Execute?
    requires n <= |BodyOf(d, git, r).writes|
    requires !Mentions(ApplyAll(d, BodyOf(d, git, r).writes[..n]).journal, r.id)
    ensures var e := ApplyAll(d, BodyOf(d, git, r).writes[..n]);
            e == d || (exists index :: e == Apply(d, Stage(r.id, index)))
  {
    var ws := BodyOf(d, git, r).writes;
    ExecuteCases(d, git, r.id, r.ki, r.sha);
    hide Inv, ExecutePlan;
    JournalOfWrites(d, ws[..n]);
    if Fresh(d, r.id, r.ki, r.sha) {
      var tx := NextTx(d, r.id, r.ki, r.sha);
      var skip := if r.id in d.staging then 0 else 1;
      var prepared := Record(tx, Prepared, d.fence);
      assert ws[skip] == Append(prepared);
      if n > skip {
        AppendedHas(ws[..n], skip);
        InMentions(d.journal, Appended(ws[..n]), prepared);
      } else if n == 1 {
        assert ws[..1] == [Stage(r.id, NextIndex(d, r.ki, r.sha))];
        OneWrite(d, ws[0]);
      } else { AppliesNothing(d); }
    } else { AppliesNothing(d); }
  }

  lemma InMentions(j: seq<Record>, rs: seq<Record>, r: Record)
    requires r in rs
    ensures Mentions(j + rs, r.tx.id)
  {
    var i :| 0 <= i < |rs| && rs[i] == r;
    assert (j + rs)[|j| + i] == r;
  }

  lemma {:induction false} AppendedHas(ws: seq<Write>, i: nat)
    requires i < |ws| && ws[i].Append?
    ensures ws[i].record in Appended(ws)
  {
    if i < |ws| - 1 { AppendedHas(ws[..|ws| - 1], i); }
  }

  /** A new transaction id is accepted exactly when no different index was left staged under it:
      a leftover from a call that crashed before PREPARED blocks the id until it matches again. */
  lemma NewIdAcceptedExactly(d: Disk, git: set<Sha>, id: TxId, ki: Ki, sha: Sha)
    requires Inv(d) && !Open(d.journal) && PointerKnown(d, git) && !Mentions(d.journal, id)
    ensures var p := ExecutePlan(d, git, d.fence, id, ki, sha);
            if id in d.staging && d.staging[id] != NextIndex(d, ki, sha)
            then p == Plan([], Refused(IndexInvalid)) else p.outcome == Done
  {
    ExecuteCases(d, git, id, ki, sha);
  }

  /** Such a blocked id is reachable: one call dies after staging, the next one is refused. */
  lemma BlockedIdReachable(a: Ki, b: Ki, id: TxId, sha: Sha)
    requires a.id == b.id && a != b
    ensures var first := Call(Execute(id, a, sha), {sha}, 2);
            var d := Run(EMPTY_DISK, [first]);
            CallPlan(d, {sha}, Execute(id, b, sha)).outcome == Refused(IndexInvalid)
  {
    var first := Call(Execute(id, a, sha), {sha}, 2);
    var git := {sha};
    var d1 := Apply(EMPTY_DISK, AdvanceFence);
    assert Inv(EMPTY_DISK);
    FenceKeeps(EMPTY_DISK);
    NothingToResolve(d1, git);
    AppliesNothing(d1);
    ExecuteCases(d1, git, id, a, sha);
    assert NextIndex(d1, a, sha) == Index(sha, map[a.id := a]);
    var stage := Stage(id, NextIndex(d1, a, sha));
    var ws := CallPlan(EMPTY_DISK, git, first.request).writes;
    assert ws[..2] == [AdvanceFence] + [stage];
    ApplySplit(EMPTY_DISK, [AdvanceFence], [stage]);
    OneWrite(EMPTY_DISK, AdvanceFence);
    OneWrite(d1, stage);
    var d := Apply(d1, stage);
    assert [first][..0] == [];
    assert Run(EMPTY_DISK, []) == EMPTY_DISK;
    assert Run(EMPTY_DISK, [first]) == d;
    StageKeeps(d1, id, stage.index);
    FenceKeeps(d);
    var e := Apply(d, AdvanceFence);
    hide RecoverPlan, ExecutePlan, Inv;
    NothingToResolve(e, git);
    AppliesNothing(e);
    ExecuteCases(e, git, id, b, sha);
    assert NextIndex(e, b, sha) == Index(sha, map[b.id := b]);
    assert map[a.id := a][a.id] != map[b.id := b][a.id];
  }

  /** Retention removes exactly the listed snapshots of committed transactions older than the
      last `limit`; what readers see, and the pointer's own snapshot, stay. */
  lemma CleanupExact(d: Disk, git: set<Sha>, limit: nat, listing: seq<TxId>)
    requires Inv(d) && !Open(d.journal) && PointerKnown(d, git)
    ensures var e := ApplyAll(d, CleanupPlan(d, git, limit, listing).writes);
            && e == d.(snapshots := e.snapshots)
            && (forall id :: id in e.snapshots <==> id in d.snapshots && !(id in listing && Removable(d, limit, id)))
            && (forall id :: id in e.snapshots ==> e.snapshots[id] == d.snapshots[id])
            && Visible(e) == Visible(d)
  {
    CleanupSafe(d, git, limit, listing);
    StaleAreRemovable(d, limit, listing);
    StaleAreListed(d, limit, listing);
    PointerLoads(d, git);
  }

  lemma {:induction false} StaleAreListed(d: Disk, limit: nat, listing: seq<TxId>)
    ensures forall id :: id in Stale(d, limit, listing) ==> id in listing
  {
    if listing != [] { StaleAreListed(d, limit, listing[..|listing| - 1]); }
  }

  function Commits(j: seq<Record>): nat {
    if j == [] then 0 else Commits(j[..|j| - 1]) + if j[|j| - 1].state == Committed then 1 else 0
  }

  /** The transaction was committed, and at least `limit` others after it. */
  ghost predicate Outdated(j: seq<Record>, id: TxId, limit: nat) {
    exists k :: 0 <= k < |j| && j[k].tx.id == id && j[k].state == Committed && Commits(j) - Commits(j[..k + 1]) >= limit
  }

  lemma {:induction false} CommitPosition(j: seq<Record>, k: nat)
    requires k < |j| && j[k].state == Committed
    ensures |CommittedIds(j)| == Commits(j) && Commits(j[..k]) < Commits(j)
            && Commits(j[..k + 1]) == Commits(j[..k]) + 1
    ensures CommittedIds(j)[Commits(j[..k])] == j[k].tx.id
  {
    var init := j[..|j| - 1];
    CommitsCount(init);
    assert j[..k + 1][..k] == j[..k];
    if k < |j| - 1 {
      CommitPosition(init, k);
      assert init[..k] == j[..k];
    } else {
      assert j[..k] == init && j[..k + 1] == j;
    }
  }

  lemma {:induction false} CommitsCount(j: seq<Record>)
    ensures |CommittedIds(j)| == Commits(j)
  {
    if j != [] { CommitsCount(j[..|j| - 1]); }
  }

  lemma {:induction false} CommitAt(j: seq<Record>, p: nat) returns (k: nat)
    requires p < |CommittedIds(j)|
    ensures k < |j| && j[k].state == Committed && j[k].tx.id == CommittedIds(j)[p] && Commits(j[..k]) == p
  {
    var init := j[..|j| - 1];
    CommitsCount(init);
    if p < |CommittedIds(init)| {
      k := CommitAt(init, p);
      assert init[..k] == j[..k];
    } else {
      k := |j| - 1;
    }
  }

  /** In a journal that passes the history check, a transaction is committed once. */
  lemma CommittedOnce(j: seq<Record>, k: nat, m: nat)
    requires HistoryOk(j) && k < m < |j| && j[k].state == Committed && j[m].state == Committed
    ensures j[k].tx.id != j[m].tx.id
  {
    assert HistoryOkAt(j, m);
    assert j[..m][k] == j[k];
  }

  /** Retention takes the snapshots of transactions with `limit` later commits, except the one readers see. */
  lemma RemovableExactly(d: Disk, limit: nat, id: TxId)
    requires Inv(d)
    ensures Removable(d, limit, id) <==> id in d.snapshots && CurrentId(d) != Some(id) && Outdated(d.journal, id, limit)
  {
    AlternatingIsHistory(d.journal);
    hide Inv, HistoryOk, JournalOk;
    var j := d.journal;
    var ids := CommittedIds(j);
    CommitsCount(j);
    var kept := if |ids| <= limit then ids else ids[|ids| - limit..];
    if id in ids && id !in kept {
      var p :| 0 <= p < |ids| && ids[p] == id;
      var k := CommitAt(j, p);
      CommitPosition(j, k);
      assert |ids| > limit;
      forall q | |ids| - limit <= q < |ids| ensures ids[q] in kept { assert kept[q - (|ids| - limit)] == ids[q]; }
      assert p < |ids| - limit;
      assert Outdated(j, id, limit);
    }
    if Outdated(j, id, limit) {
      var k :| 0 <= k < |j| && j[k].tx.id == id && j[k].state == Committed && Commits(j) - Commits(j[..k + 1]) >= limit;
      CommitPosition(j, k);
      OldIsNotKept(j, k, limit);
    }
  }

  lemma OldIsNotKept(j: seq<Record>, k: nat, limit: nat)
    requires HistoryOk(j) && k < |j| && j[k].state == Committed && Commits(j) - Commits(j[..k + 1]) >= limit
    ensures |CommittedIds(j)| > limit && j[k].tx.id in CommittedIds(j)
    ensures j[k].tx.id !in CommittedIds(j)[|CommittedIds(j)| - limit..]
  {
    hide HistoryOk;
    var ids := CommittedIds(j);
    CommitPosition(j, k);
    forall q | |ids| - limit <= q < |ids| ensures ids[q] != j[k].tx.id {
      var m := CommitAt(j, q);
      if m < k { CommittedOnce(j, m, k); } else if m > k { CommittedOnce(j, k, m); }
    }
  }

  // ---------- a run in which retention defeats a retry ----------

  /** A call that survives, on a disk with nothing to recover, is its own writes under the next token. */
  lemma WholeCall(d: Disk, git: set<Sha>, r: Request, life: nat)
    requires Inv(d) && !Open(d.journal) && PointerKnown(d, git) && !r.Recover? && (r.Execute? ==> r.sha in git)
    ensures var body := BodyOf(Apply(d, AdvanceFence), git, r);
            && CallPlan(d, git, r).outcome == body.outcome
            && (life > |body.writes| ==> Step(d, Call(r, git, life)) == ApplyAll(Apply(d, AdvanceFence), body.writes))
  {
    hide Inv, RecoverPlan, ExecutePlan, CleanupPlan, ApplyAll, PointerKnown, Open;
    var d1 := Apply(d, AdvanceFence);
    FenceKeeps(d);
    assert PointerKnown(d1, git) by { PointerStays(d, git); }
    NothingToResolve(d1, git);
    AppliesNothing(d1);
    CallShape(d, git, r);
    StepIs(d, Call(r, git, life));
    var ws := CallPlan(d, git, r).writes;
    assert ws[..|ws|] == ws;
  }

  lemma PointerStays(d: Disk, git: set<Sha>)
    requires PointerKnown(d, git)
    ensures PointerKnown(Apply(d, AdvanceFence), git)
  {
  }

  /** A publication of a new id that survives. */
  lemma WholePublication(d: Disk, git: set<Sha>, id: TxId, ki: Ki, sha: Sha)
    requires Inv(d) && !Open(d.journal) && PointerKnown(d, git) && sha in git
    requires !Mentions(d.journal, id) && id !in d.staging
    ensures var e := Step(d, Call(Execute(id, ki, sha), git, 6));
            && e == Published(Apply(d, AdvanceFence), id, ki, sha)
            && Inv(e) && !Open(e.journal) && PointerKnown(e, git)
  {
    var d1, c := Apply(d, AdvanceFence), Call(Execute(id, ki, sha), git, 6);
    FenceKeeps(d);
    StepKeeps(d, c);
    hide Inv, ApplyAll, ExecutePlan, Step, Mentions;
    WholeCall(d, git, c.request, 6);
    ExecuteSafe(d1, git, id, ki, sha);
    ExecuteCases(d1, git, id, ki, sha);
  }

  lemma LatestPair(j: seq<Record>, p: Record, c: Record, id: TxId)
    requires p.tx.id == c.tx.id
    ensures LatestOf(j + [p] + [c], id) == if c.tx.id == id then Some(c) else LatestOf(j, id)
  {
    assert (j + [p] + [c])[..|j + [p]|] == j + [p] && (j + [p])[..|j|] == j;
  }

  lemma CommittedPair(j: seq<Record>, p: Record, c: Record)
    requires p.state.Prepared? && c.state.Committed?
    ensures CommittedIds(j + [p] + [c]) == CommittedIds(j) + [c.tx.id]
  {
    assert (j + [p] + [c])[..|j + [p]|] == j + [p] && (j + [p])[..|j|] == j;
  }

  /** Committed transactions and, of the first of them, what its record says. */
  ghost predicate FirstOf(d: Disk, a: Ki, id1: TxId, sha: Sha, ids: seq<TxId>) {
    && Inv(d) && !Open(d.journal) && PointerKnown(d, {sha})
    && CommittedIds(d.journal) == ids
    && LatestOf(d.journal, id1).Some? && LatestOf(d.journal, id1).value.state.Committed?
    && var tx := LatestOf(d.journal, id1).value.tx;
       tx.id == id1 && tx.commit == sha && tx.digest.of.items == map[a.id := a]
  }

  /** Two transactions: what the second publication leaves. */
  ghost predicate TwoPublished(d: Disk, a: Ki, id1: TxId, id2: TxId, sha: Sha) {
    FirstOf(d, a, id1, sha, [id1, id2]) && CurrentId(d) == Some(id2)
  }

  lemma PublishedOnce(a: Ki, id1: TxId, sha: Sha)
    ensures var d := Step(EMPTY_DISK, Call(Execute(id1, a, sha), {sha}, 6));
            && FirstOf(d, a, id1, sha, [id1]) && id1 in d.snapshots && d.staging == map[]
            && forall i :: 0 <= i < |d.journal| ==> d.journal[i].tx.id == id1
  {
    assert Inv(EMPTY_DISK);
    hide Inv, Step, PointerKnown, Open, LatestOf, CommittedIds;
    EmptyIsQuiet({sha});
    WholePublication(EMPTY_DISK, {sha}, id1, a, sha);
    var d := Step(EMPTY_DISK, Call(Execute(id1, a, sha), {sha}, 6));
    assert d.journal == [] + [d.journal[0]] + [d.journal[1]];
    LatestPair([], d.journal[0], d.journal[1], id1);
    CommittedPair([], d.journal[0], d.journal[1]);
    NothingCommitted();
  }

  lemma PublishedNext(d: Disk, a: Ki, b: Ki, id1: TxId, id2: TxId, sha: Sha)
    requires FirstOf(d, a, id1, sha, [id1]) && id1 != id2 && id1 in d.snapshots && d.staging == map[]
    requires forall i :: 0 <= i < |d.journal| ==> d.journal[i].tx.id == id1
    ensures var e := Step(d, Call(Execute(id2, b, sha), {sha}, 6));
            TwoPublished(e, a, id1, id2, sha) && id1 in e.snapshots
  {
    hide Inv, Step, PointerKnown, Open, LatestOf, CommittedIds;
    OnlyFirst(d.journal, id1, id2);
    WholePublication(d, {sha}, id2, b, sha);
    var tx := NextTx(Apply(d, AdvanceFence), id2, b, sha);
    LatestPair(d.journal, Record(tx, Prepared, d.fence + 1), Record(tx, Committed, d.fence + 1), id1);
    CommittedPair(d.journal, Record(tx, Prepared, d.fence + 1), Record(tx, Committed, d.fence + 1));
  }

  lemma PublishedTwice(a: Ki, b: Ki, id1: TxId, id2: TxId, sha: Sha)
    requires id1 != id2
    ensures var d := Run(EMPTY_DISK, [Call(Execute(id1, a, sha), {sha}, 6), Call(Execute(id2, b, sha), {sha}, 6)]);
            TwoPublished(d, a, id1, id2, sha) && id1 in d.snapshots
  {
    var first, second := Call(Execute(id1, a, sha), {sha}, 6), Call(Execute(id2, b, sha), {sha}, 6);
    hide Step, FirstOf, TwoPublished;
    assert [first, second][..1] == [first] && [first][..0] == [];
    assert Run(EMPTY_DISK, []) == EMPTY_DISK;
    assert Run(EMPTY_DISK, [first]) == Step(EMPTY_DISK, first);
    PublishedOnce(a, id1, sha);
    PublishedNext(Step(EMPTY_DISK, first), a, b, id1, id2, sha);
  }

  lemma NothingCommitted()
    ensures CommittedIds([]) == []
  {
  }

  lemma EmptyIsQuiet(git: set<Sha>)
    ensures !Open(EMPTY_DISK.journal) && PointerKnown(EMPTY_DISK, git)
  {
  }

  lemma OnlyFirst(j: seq<Record>, id1: TxId, id2: TxId)
    requires id1 != id2 && forall i :: 0 <= i < |j| ==> j[i].tx.id == id1
    ensures !Mentions(j, id2)
  {
  }

  /** What a retry of the first transaction answers. */
  lemma RetryAnswers(d: Disk, a: Ki, id1: TxId, id2: TxId, sha: Sha)
    requires TwoPublished(d, a, id1, id2, sha)
    ensures CallPlan(d, {sha}, Execute(id1, a, sha)).outcome ==
            if id1 in d.snapshots then Done else Refused(IndexInvalid)
  {
    var d1 := Apply(d, AdvanceFence);
    FenceKeeps(d);
    AlternatingIsHistory(d.journal);
    WholeCall(d, {sha}, Execute(id1, a, sha), 1);
    hide Inv, HistoryOk, Step, CallPlan, LatestOf;
    RetryExact(d1, {sha}, id1, a, sha);
  }

  lemma FirstIsStale(d: Disk, a: Ki, id1: TxId, id2: TxId, sha: Sha)
    requires id1 != id2 && TwoPublished(d, a, id1, id2, sha) && id1 in d.snapshots
    ensures Stale(d, 1, [id1]) == [id1]
  {
    hide Inv, LatestOf, CommittedIds;
    assert [id1, id2][1..] == [id2];
    assert [id1][..0] == [];
    assert Stale(d, 1, []) == [];
  }

  lemma CleanupDrops(d: Disk, a: Ki, id1: TxId, id2: TxId, sha: Sha)
    requires id1 != id2 && TwoPublished(d, a, id1, id2, sha) && id1 in d.snapshots
    ensures var e := Step(d, Call(Cleanup(1, [id1]), {sha}, 2));
            TwoPublished(e, a, id1, id2, sha) && id1 !in e.snapshots
  {
    var d1, c := Apply(d, AdvanceFence), Call(Cleanup(1, [id1]), {sha}, 2);
    FenceKeeps(d);
    StepKeeps(d, c);
    FirstIsStale(d1, a, id1, id2, sha);
    hide Inv, Step, ApplyAll, Stale, LatestOf, CommittedIds, HistoryOk;
    WholeCall(d, {sha}, c.request, 2);
    CleanupSafe(d1, {sha}, 1, [id1]);
    CleanupWrites(d1, {sha}, [id1]);
  }

  lemma CleanupWrites(d: Disk, git: set<Sha>, listing: seq<TxId>)
    requires Inv(d) && !Open(d.journal) && PointerKnown(d, git)
    ensures |CleanupPlan(d, git, 1, listing).writes| == |Stale(d, 1, listing)|
  {
    PointerLoads(d, git);
    AlternatingIsHistory(d.journal);
  }

  /**
   * Two publications, then a cleanup that keeps one snapshot: the retry of the first publication, which
   * succeeds before the cleanup, is refused after it.
   */
  lemma RetentionDefeatsRetry(a: Ki, b: Ki, id1: TxId, id2: TxId, sha: Sha)
    requires id1 != id2
    ensures var published := [Call(Execute(id1, a, sha), {sha}, 6), Call(Execute(id2, b, sha), {sha}, 6)];
            var before := Run(EMPTY_DISK, published);
            var after := Run(EMPTY_DISK, published + [Call(Cleanup(1, [id1]), {sha}, 2)]);
            && CallPlan(before, {sha}, Execute(id1, a, sha)).outcome == Done
            && CallPlan(after, {sha}, Execute(id1, a, sha)).outcome == Refused(IndexInvalid)
  {
    hide TwoPublished, Step, CallPlan;
    var published := [Call(Execute(id1, a, sha), {sha}, 6), Call(Execute(id2, b, sha), {sha}, 6)];
    var cleanup := Call(Cleanup(1, [id1]), {sha}, 2);
    assert (published + [cleanup])[..2] == published;
    PublishedTwice(a, b, id1, id2, sha);
    var before := Run(EMPTY_DISK, published);
    assert Run(EMPTY_DISK, published + [cleanup]) == Step(before, cleanup);
    hide Run;
    RetryAnswers(before, a, id1, id2, sha);
    CleanupDrops(before, a, id1, id2, sha);
    RetryAnswers(Step(before, cleanup), a, id1, id2, sha);
  }
}
