/** The knowledge transaction manager, step by step over its files, with every re-check the
    code makes.  `life` is the number of durable writes the running process still survives. */
module KnowledgeStoreModule {
  import opened Common
  import opened KnowledgeModel
  import opened KnowledgeInvariant
  import opened KnowledgeTheorems

  /** The effect of one attempted durable write. */
  datatype Attempt = Written | Died | Failed(error: Error)

  /** What the caller learns when a durable write did not happen. */
  function Stopped(a: Attempt): Outcome {
    match a
    case Failed(e) => Refused(e)
    case _ => Crashed
  }

  ghost function LifeAfter(p: Plan, life: nat): nat {
    if life < |p.writes| then 0 else life - |p.writes|
  }

  // ---------- facts about short plans ----------

  lemma Prefixes(d: Disk, ws: seq<Write>)
    ensures ApplyAll(d, ws[..0]) == d
    ensures |ws| >= 1 ==> ApplyAll(d, ws[..1]) == Apply(d, ws[0])
    ensures |ws| >= 2 ==> ApplyAll(d, ws[..2]) == Apply(Apply(d, ws[0]), ws[1])
    ensures |ws| >= 3 ==> ApplyAll(d, ws[..3]) == Apply(Apply(Apply(d, ws[0]), ws[1]), ws[2])
    ensures ws[..|ws|] == ws
  {
    assert ws[..0] == [];
    assert |ws| >= 1 ==> ws[..1][..0] == ws[..0];
    assert |ws| >= 2 ==> ws[..2][..1] == ws[..1];
    assert |ws| >= 3 ==> ws[..3][..2] == ws[..2];
  }

  lemma LongPrefixes(d: Disk, ws: seq<Write>)
    requires |ws| >= 4
    ensures ApplyAll(d, ws[..4]) == Apply(ApplyAll(d, ws[..3]), ws[3])
    ensures |ws| >= 5 ==> ApplyAll(d, ws[..5]) == Apply(ApplyAll(d, ws[..4]), ws[4])
  {
    assert ws[..4][..3] == ws[..3];
    assert |ws| >= 5 ==> ws[..5][..4] == ws[..4];
  }

  lemma HistoryAppend(j: seq<Record>, r: Record)
    requires HistoryOk(j) && r.state.Prepared? && !Mentions(j, r.tx.id)
    ensures HistoryOk(j + [r])
  {
    var k := j + [r];
    forall i | 0 <= i < |k| ensures HistoryOkAt(k, i) {
      assert k[..i] == j[..i];
      if i < |j| { assert HistoryOkAt(j, i); }
      else { assert j[..i] == j; }
    }
  }

  /** What the scan knows about the transaction `id` opened by the PREPARED record `p`. */
  ghost predicate LatestFor(j: seq<Record>, p: Record, id: TxId, latest: map<TxId, Record>) {
    && id == p.tx.id && id in latest
    && (latest[id].state.Prepared? <==> !ClosedIn(j, id))
    && (latest[id].state.Prepared? ==> latest[id] == p)
  }

  lemma StalePrefix(d: Disk, limit: nat, listing: seq<TxId>, i: nat)
    requires i <= |listing|
    ensures Stale(d, limit, listing[..i]) <= Stale(d, limit, listing)
  {
    if i == |listing| { assert listing[..i] == listing; }
    else {
      StalePrefix(d, limit, listing[..|listing| - 1], i);
      assert listing[..|listing| - 1][..i] == listing[..i];
    }
  }

  class KnowledgeStore {
    var journal: seq<Record>
    var staging: map<TxId, Index>
    var snapshots: map<TxId, Index>
    var current: Option<Pointer>
    var fence: nat
    var life: nat

    ghost function Contents(): Disk
      reads this
    {
      Disk(journal, staging, snapshots, current, fence)
    }

    /** The disk after `w` if the process had life left, the unchanged disk otherwise. */
    ghost predicate Wrote(before: Disk, left: nat, w: Write, written: bool)
      reads this
    {
      && written == (left > 0)
      && Contents() == (if written then Apply(before, w) else before)
      && life == (if written then left - 1 else 0)
    }

    /** The object carried out `p`, unless it died on the way. */
    ghost predicate CarriedOut(before: Disk, left: nat, p: Plan, o: Outcome)
      reads this
    {
      && (Contents(), o) == Survive(before, p, left)
      && life == LifeAfter(p, left)
    }

    constructor ()
      ensures Contents() == EMPTY_DISK
    {
      journal, staging, snapshots, current, fence, life := [], map[], map[], None, 0, 0;
    }

    // ---------- reading ----------

    /** One pass over the journal with the running state of every transaction. */
    method ValidateHistory() returns (ok: bool)
      ensures ok <==> HistoryOk(journal)
    {
      var states: map<TxId, TxState> := map[];
      var i := 0;
      while i < |journal|
        invariant 0 <= i <= |journal|
        invariant forall k :: 0 <= k < i ==> HistoryOkAt(journal, k)
        invariant forall id :: id in states <==> Mentions(journal[..i], id)
        invariant forall id :: id in states ==>
                    (states[id].Prepared? <==> PreparedIn(journal[..i], id) && !ClosedIn(journal[..i], id))
      {
        var r := journal[i];
        if r.state.Prepared? {
          if r.tx.id in states {
            assert !HistoryOkAt(journal, i);
            return false;
          }
        } else if r.tx.id !in states || !states[r.tx.id].Prepared? {
          assert !HistoryOkAt(journal, i) by {
            if PreparedIn(journal[..i], r.tx.id) {
              var k :| 0 <= k < i && journal[..i][k].tx.id == r.tx.id && journal[..i][k].state.Prepared?;
              assert Mentions(journal[..i], r.tx.id);
            }
          }
          return false;
        }
        SeenNext(journal, i);
        states := states[r.tx.id := r.state];
        i := i + 1;
      }
      return true;
    }

    /** The latest record of every transaction, and the transactions in first-seen order. */
    method LatestRecords() returns (latest: map<TxId, Record>, order: seq<TxId>)
      requires HistoryOk(journal)
      ensures |order| == |PreparedRecords(journal)|
      ensures forall k :: 0 <= k < |order| ==> LatestFor(journal, PreparedRecords(journal)[k], order[k], latest)
    {
      latest, order := map[], [];
      var i := 0;
      while i < |journal|
        invariant 0 <= i <= |journal|
        invariant forall id :: id in latest <==> Mentions(journal[..i], id)
        invariant |order| == |PreparedRecords(journal[..i])|
        invariant forall k :: 0 <= k < |order| ==>
                    LatestFor(journal[..i], PreparedRecords(journal[..i])[k], order[k], latest)
      {
        var r := journal[i];
        assert HistoryOkAt(journal, i);
        SeenNext(journal, i);
        assert journal[..i + 1][..i] == journal[..i];
        if !r.state.Prepared? { PreparedMentions(journal[..i], r.tx.id); }
        hide Mentions, PreparedIn, ClosedIn, HistoryOk;
        if r.tx.id !in latest { order := order + [r.tx.id]; }
        latest := latest[r.tx.id := r];
        i := i + 1;
      }
      assert journal[..i] == journal;
    }

    /** Those transactions whose latest record is still PREPARED. */
    method UnresolvedPrepared() returns (open: seq<Record>)
      requires HistoryOk(journal)
      ensures open == Unresolved(journal)
    {
      var latest, order := LatestRecords();
      hide HistoryOk, PreparedRecords;
      open := [];
      ghost var ps := PreparedRecords(journal);
      var i := 0;
      while i < |order|
        invariant 0 <= i <= |order|
        invariant open == StillOpen(ps[..i], journal)
      {
        assert ps[..i + 1][..i] == ps[..i];
        assert LatestFor(journal, ps[i], order[i], latest);
        if latest[order[i]].state.Prepared? { open := open + [latest[order[i]]]; }
        i := i + 1;
      }
      assert ps[..i] == ps;
    }

    // ---------- the durable writes ----------

    method AdvanceFenceFile() returns (written: bool)
      modifies this
      ensures Wrote(old(Contents()), old(life), AdvanceFence, written)
    {
      if life == 0 { return false; }
      fence, life := fence + 1, life - 1;
      return true;
    }

    method PublishStaging(id: TxId, index: Index) returns (written: bool)
      modifies this
      ensures Wrote(old(Contents()), old(life), Stage(id, index), written)
    {
      if life == 0 { return false; }
      staging, life := staging[id := index], life - 1;
      return true;
    }

    /** Rereads and validates the journal, then republishes it with one more record. */
    method AppendRecord(r: Record) returns (a: Attempt)
      modifies this
      ensures if HistoryOk(old(journal))
              then !a.Failed? && Wrote(old(Contents()), old(life), Append(r), a.Written?)
              else a == Failed(JournalInvalid) && Contents() == old(Contents()) && life == old(life)
    {
      var ok := ValidateHistory();
      if !ok { return Failed(JournalInvalid); }
      if life == 0 { return Died; }
      journal, life := journal + [r], life - 1;
      return Written;
    }

    method PublishSnapshot(id: TxId) returns (a: Attempt)
      modifies this
      ensures if id in old(staging) && id !in old(snapshots)
              then !a.Failed? && Wrote(old(Contents()), old(life), Promote(id), a.Written?)
              else a.Failed? && Contents() == old(Contents()) && life == old(life)
    {
      if id in snapshots { return Failed(SnapshotConflict); }
      if id !in staging { return Failed(PublishFailed); }
      if life == 0 { return Died; }
      snapshots, staging, life := snapshots[id := staging[id]], staging - {id}, life - 1;
      return Written;
    }

    method PublishCurrent(tx: Tx, token: nat, git: set<Sha>) returns (a: Attempt)
      modifies this
      ensures if PointerError(old(Contents()), git).None? && CurrentId(old(Contents())) == tx.previous
              then !a.Failed? && Wrote(old(Contents()), old(life), SwapPointer(Pointer(tx, token)), a.Written?)
              else a.Failed? && Contents() == old(Contents()) && life == old(life)
    {
      var loaded := PointerError(Disk(journal, staging, snapshots, current, fence), git);
      if loaded.Some? { return Failed(loaded.value); }
      var observed := match current case None => None case Some(p) => Some(p.tx.id);
      if observed != tx.previous { return Failed(PredecessorMoved); }
      if life == 0 { return Died; }
      current, life := Some(Pointer(tx, token)), life - 1;
      return Written;
    }

    method RemoveSnapshot(id: TxId) returns (written: bool)
      modifies this
      ensures Wrote(old(Contents()), old(life), Unlink(id), written)
    {
      if life == 0 { return false; }
      snapshots, life := snapshots - {id}, life - 1;
      return true;
    }

    // ---------- the critical sections ----------

    method AbortRecovery(tx: Tx, token: nat) returns (o: Outcome)
      requires HistoryOk(journal)
      modifies this
      ensures CarriedOut(old(Contents()), old(life), AbortPlan(tx, token), o)
    {
      ghost var d := Contents();
      Prefixes(d, AbortPlan(tx, token).writes);
      var a := AppendRecord(Record(tx, Aborted, token));
      o := if a.Written? then AbortedTx(tx.id) else Crashed;
    }

    /** Roll the one unresolved transaction forward, or abort it when it cannot be. */
    method Resolve(git: set<Sha>, token: nat, tx: Tx) returns (o: Outcome)
      requires HistoryOk(journal) && token == fence
      modifies this
      ensures CarriedOut(old(Contents()), old(life), ResolvePlan(old(Contents()), git, token, tx), o)
    {
      ghost var d, left := Contents(), life;
      ghost var p := ResolvePlan(d, git, token, tx);
      Prefixes(d, p.writes);
      var loaded := PointerError(Disk(journal, staging, snapshots, current, fence), git);
      if loaded.Some? { return Refused(loaded.value); }
      var atPointer := current.Some? && current.value.tx.id == tx.id;
      if tx.commit !in git {
        if atPointer { return Refused(CommitMissing); }
        o := AbortRecovery(tx, token);
        return;
      }
      var staged, promoted := tx.id in staging, tx.id in snapshots;
      if staged && promoted { return Refused(BothFilesExist); }
      if !staged && !promoted {
        if atPointer { return Refused(SnapshotMissing); }
        o := AbortRecovery(tx, token);
        return;
      }
      var source := if promoted then snapshots else staging;
      if !IndexLoads(source, tx) {
        if atPointer { return Refused(IndexInvalid); }
        o := AbortRecovery(tx, token);
        return;
      }
      if tx.activeKi !in source[tx.id].items {
        if atPointer { return Refused(PointerInvalid); }
        o := AbortRecovery(tx, token);
        return;
      }
      if atPointer {
        if current.value.tx != tx { return Refused(PointerDiverges); }
      } else {
        var observed := match current case None => None case Some(q) => Some(q.tx.id);
        if observed != tx.previous {
          o := AbortRecovery(tx, token);
          return;
        }
        if token != fence { return Refused(StaleFence); }
        if staged {
          var moved := PublishSnapshot(tx.id);
          if !moved.Written? { return Stopped(moved); }
        }
        if !IndexLoads(snapshots, tx) { return Refused(IndexInvalid); }
        if token != fence { return Refused(StaleFence); }
        var swapped := PublishCurrent(tx, token, git);
        if !swapped.Written? { return Stopped(swapped); }
      }
      if token != fence { return Refused(StaleFence); }
      var closed := AppendRecord(Record(tx, Committed, token));
      if !closed.Written? { return Stopped(closed); }
      return Recovered(tx.id);
    }

    method RecoverLocked(git: set<Sha>, token: nat) returns (o: Outcome)
      modifies this
      ensures CarriedOut(old(Contents()), old(life), RecoverPlan(old(Contents()), git, token), o)
    {
      Prefixes(Contents(), []);
      if token != fence { return Refused(StaleFence); }
      var ok := ValidateHistory();
      if !ok { return Refused(JournalInvalid); }
      var open := UnresolvedPrepared();
      if open == [] {
        var loaded := PointerError(Disk(journal, staging, snapshots, current, fence), git);
        return if loaded.Some? then Refused(loaded.value) else Clean;
      }
      if |open| != 1 { return Refused(ManyUnresolved); }
      o := Resolve(git, token, open[0].tx);
    }

    method ValidateCommittedRetry(tx: Tx, ki: Ki, sha: Sha) returns (o: Outcome)
      ensures o == RetryOutcome(Contents(), tx, ki, sha)
    {
      if tx.commit != sha { return Refused(RetryDiffers); }
      if !IndexLoads(snapshots, tx) { return Refused(IndexInvalid); }
      var items := snapshots[tx.id].items;
      if ki.id !in items || items[ki.id] != ki { return Refused(RetryDiffers); }
      return Done;
    }

    /** From a verified staging file to COMMITTED: PREPARED, snapshot, pointer, terminal record. */
    method Publish(git: set<Sha>, token: nat, tx: Tx) returns (o: Outcome)
      requires token == fence && HistoryOk(journal) && !Mentions(journal, tx.id)
      requires tx.id !in snapshots && IndexLoads(staging, tx)
      requires PointerError(Contents(), git).None? && CurrentId(Contents()) == tx.previous
      modifies this
      ensures CarriedOut(old(Contents()), old(life), PublishPlan(tx, token), o)
    {
      ghost var d, p := Contents(), PublishPlan(tx, token);
      Prefixes(d, p.writes);
      LongPrefixes(d, p.writes);
      HistoryAppend(journal, Record(tx, Prepared, token));
      hide HistoryOk, ApplyAll;
      var prepared := AppendRecord(Record(tx, Prepared, token));
      if !prepared.Written? { return Stopped(prepared); }
      if token != fence { return Refused(StaleFence); }
      var moved := PublishSnapshot(tx.id);
      if !moved.Written? { return Stopped(moved); }
      if !IndexLoads(snapshots, tx) { return Refused(IndexInvalid); }
      if token != fence { return Refused(StaleFence); }
      var swapped := PublishCurrent(tx, token, git);
      if !swapped.Written? { return Stopped(swapped); }
      if token != fence { return Refused(StaleFence); }
      var closed := AppendRecord(Record(tx, Committed, token));
      if !closed.Written? { return Stopped(closed); }
      return Done;
    }

    /** Write-ahead publication of one item on top of the current snapshot. */
    method ExecuteLocked(git: set<Sha>, token: nat, id: TxId, ki: Ki, sha: Sha) returns (o: Outcome)
      modifies this
      ensures CarriedOut(old(Contents()), old(life), ExecutePlan(old(Contents()), git, token, id, ki, sha), o)
    {
      ghost var d := Contents();
      Prefixes(d, []);
      if token != fence { return Refused(StaleFence); }
      var ok := ValidateHistory();
      if !ok { return Refused(JournalInvalid); }
      var latest := LatestOf(journal, id);
      LatestMentions(journal, id);
      if latest.Some? {
        if !latest.value.state.Committed? { return Refused(TxConflict); }
        o := ValidateCommittedRetry(latest.value.tx, ki, sha);
        return;
      }
      var loaded := PointerError(Disk(journal, staging, snapshots, current, fence), git);
      if loaded.Some? { return Refused(loaded.value); }
      var items := match current case None => map[] case Some(q) => snapshots[q.tx.id].items;
      var index := Index(sha, items[ki.id := ki]);
      var previous := match current case None => None case Some(q) => Some(q.tx.id);
      var tx := Tx(id, sha, Sha256(index), previous, ki.id);
      if id in snapshots { return Refused(SnapshotConflict); }
      assert tx == NextTx(d, id, ki, sha) && index == NextIndex(d, ki, sha);
      assert WellKeyed(index.items) && ki.id in index.items;
      StagedThenPublished(d, git, token, id, ki, sha);
      hide HistoryOk, ApplyAll, ExecutePlan, LatestOf;
      o := StageAndPublish(git, token, tx, index);
    }

    /** Stages the index unless a staging file is already there, verifies it, and publishes. */
    method StageAndPublish(git: set<Sha>, token: nat, tx: Tx, index: Index) returns (o: Outcome)
      requires token == fence && HistoryOk(journal) && !Mentions(journal, tx.id) && tx.id !in snapshots
      requires tx.digest == Sha256(index) && tx.commit == index.commit
      requires WellKeyed(index.items) && tx.activeKi in index.items
      requires PointerError(Contents(), git).None? && CurrentId(Contents()) == tx.previous
      modifies this
      ensures CarriedOut(old(Contents()), old(life), StagePlan(old(Contents()), tx, index, token), o)
    {
      hide HistoryOk, ApplyAll, Mentions;
      ghost var d, left := Contents(), life;
      Prefixes(d, []);
      if tx.id !in staging {
        Prefixes(d, [Stage(tx.id, index)]);
        Sequenced(d, [Stage(tx.id, index)], PublishPlan(tx, token), left);
        var written := PublishStaging(tx.id, index);
        if !written { return Crashed; }
      }
      if !IndexLoads(staging, tx) { return Refused(IndexInvalid); }
      o := Publish(git, token, tx);
    }

    /** Unlinks one listed snapshot if it exists, is committed, and is neither kept nor current. */
    method UnlinkIfStale(id: TxId, committed: seq<TxId>, keep: seq<TxId>,
                         ghost d: Disk, ghost limit: nat, ghost removed: seq<TxId>)
      returns (gone: bool, written: bool)
      requires Contents() == d.(snapshots := d.snapshots - AsSet(removed))
      requires committed == CommittedIds(journal)
      requires keep == if |committed| <= limit then committed else committed[|committed| - limit..]
      modifies this
      ensures gone <==> Removable(d, limit, id) && id !in removed
      ensures if gone then Wrote(old(Contents()), old(life), Unlink(id), written)
              else written && Contents() == old(Contents()) && life == old(life)
    {
      gone := id in snapshots && id in committed && id !in keep && (current.None? || current.value.tx.id != id);
      written := true;
      if gone { written := RemoveSnapshot(id); }
    }

    /** Unlinks, in listing order, the listed snapshots that retention no longer keeps. */
    method UnlinkStale(limit: nat, listing: seq<TxId>, committed: seq<TxId>, keep: seq<TxId>) returns (o: Outcome)
      requires committed == CommittedIds(journal)
      requires keep == if |committed| <= limit then committed else committed[|committed| - limit..]
      modifies this
      ensures var gone := Stale(old(Contents()), limit, listing);
              CarriedOut(old(Contents()), old(life), Plan(Unlinks(gone), Removed(gone)), o)
    {
      hide CommittedIds, ApplyAll, Stale, Unlinks, Removable, AsSet;
      ghost var d, left := Contents(), life;
      var removed: seq<TxId> := [];
      var i := 0;
      NothingStale(d, limit, listing);
      while i < |listing|
        invariant 0 <= i <= |listing|
        invariant removed == Stale(d, limit, listing[..i])
        invariant Contents() == d.(snapshots := d.snapshots - AsSet(removed))
        invariant |removed| <= left && life == left - |removed|
      {
        var id := listing[i];
        StaleStep(d, limit, listing, i);
        var gone, written := UnlinkIfStale(id, committed, keep, d, limit, removed);
        if gone {
          UnlinksCut(d, removed, id, Stale(d, limit, listing));
          if !written { return Crashed; }
          RemovedMore(d, removed, id);
          removed := removed + [id];
        }
        i := i + 1;
      }
      assert listing[..i] == listing;
      UnlinksApply(d, removed);
      return Removed(removed);
    }

    method CleanupLocked(git: set<Sha>, limit: nat, listing: seq<TxId>) returns (o: Outcome)
      modifies this
      ensures CarriedOut(old(Contents()), old(life), CleanupPlan(old(Contents()), git, limit, listing), o)
    {
      Prefixes(Contents(), []);
      var loaded := PointerError(Disk(journal, staging, snapshots, current, fence), git);
      if loaded.Some? { return Refused(loaded.value); }
      var ok := ValidateHistory();
      if !ok { return Refused(JournalInvalid); }
      var committed := CommittedIds(journal);
      var keep := if |committed| <= limit then committed else committed[|committed| - limit..];
      o := UnlinkStale(limit, listing, committed, keep);
    }

    method ServeBody(git: set<Sha>, token: nat, r: Request) returns (o: Outcome)
      modifies this
      ensures CarriedOut(old(Contents()), old(life), Body(old(Contents()), git, token, r), o)
    {
      match r
      case Execute(id, ki, sha) => o := ExecuteLocked(git, token, id, ki, sha);
      case Recover =>
        Prefixes(Contents(), []);
        o := Clean;
      case Cleanup(limit, listing) => o := CleanupLocked(git, limit, listing);
    }

    /** One public call by a process that survives `c.life` durable writes: the commit check,
        the lock with its advanced fence, recovery, then the operation itself. */
    method Serve(c: Call) returns (o: Outcome)
      modifies this
      ensures Contents() == Step(old(Contents()), c)
      ensures o == Survive(old(Contents()), CallPlan(old(Contents()), c.git, c.request), c.life).1
    {
      ghost var d := Contents();
      life := c.life;
      Prefixes(d, CallPlan(d, c.git, c.request).writes);
      if c.request.Execute? && c.request.sha !in c.git { return Refused(CommitMissing); }
      var locked := AdvanceFenceFile();
      if !locked { return Crashed; }
      CallParts(d, c);
      hide RecoverPlan, Body, CallPlan, ApplyAll;
      var token := fence;
      o := RecoverLocked(c.git, token);
      if o.Ok() && !c.request.Recover? { o := ServeBody(c.git, token, c.request); }
    }
  }

  function PublishPlan(tx: Tx, token: nat): Plan {
    Plan([Append(Record(tx, Prepared, token)), Promote(tx.id), SwapPointer(Pointer(tx, token)),
          Append(Record(tx, Committed, token))], Done)
  }

  /** An optional staging write and the publication. */
  function StagePlan(d: Disk, tx: Tx, index: Index, token: nat): Plan {
    var q := PublishPlan(tx, token);
    if tx.id !in d.staging then Plan([Stage(tx.id, index)] + q.writes, q.outcome)
    else if d.staging[tx.id] == index then q
    else Plan([], Refused(IndexInvalid))
  }

  lemma StagedThenPublished(d: Disk, git: set<Sha>, token: nat, id: TxId, ki: Ki, sha: Sha)
    requires token == d.fence && HistoryOk(d.journal) && LatestOf(d.journal, id).None?
    requires PointerError(d, git).None? && id !in d.snapshots
    ensures ExecutePlan(d, git, token, id, ki, sha) ==
            StagePlan(d, NextTx(d, id, ki, sha), NextIndex(d, ki, sha), token)
  {
  }

  lemma UnlinksApply(d: Disk, ids: seq<TxId>)
    ensures |Unlinks(ids)| == |ids|
    ensures ApplyAll(d, Unlinks(ids)) == d.(snapshots := d.snapshots - AsSet(ids))
  {
    if ids == [] { assert d.snapshots - AsSet(ids) == d.snapshots; }
    else {
      var init, last := ids[..|ids| - 1], ids[|ids| - 1];
      UnlinksApply(d, init);
      assert Unlinks(ids)[..|ids| - 1] == Unlinks(init);
      assert ids == init + [last];
      assert d.snapshots - AsSet(init) - {last} == d.snapshots - AsSet(ids);
    }
  }

  lemma StaleStep(d: Disk, limit: nat, listing: seq<TxId>, i: nat)
    requires i < |listing|
    ensures var before := Stale(d, limit, listing[..i]); var id := listing[i];
            var after := Stale(d, limit, listing[..i + 1]);
            && after == before + (if Removable(d, limit, id) && id !in before then [id] else [])
            && after <= Stale(d, limit, listing)
  {
    assert listing[..i + 1][..i] == listing[..i];
    StalePrefix(d, limit, listing, i + 1);
  }

  lemma NothingStale(d: Disk, limit: nat, listing: seq<TxId>)
    ensures Stale(d, limit, listing[..0]) == []
    ensures d.(snapshots := d.snapshots - AsSet([])) == d
  {
    assert d.snapshots - AsSet([]) == d.snapshots;
  }

  lemma RemovedMore(d: Disk, removed: seq<TxId>, id: TxId)
    ensures d.snapshots - AsSet(removed) - {id} == d.snapshots - AsSet(removed + [id])
  {
  }

  /** Dying right before unlinking `id` leaves the disk after the files removed so far. */
  lemma UnlinksCut(d: Disk, removed: seq<TxId>, id: TxId, all: seq<TxId>)
    requires removed + [id] <= all
    ensures |removed| < |Unlinks(all)|
    ensures ApplyAll(d, Unlinks(all)[..|removed|]) == d.(snapshots := d.snapshots - AsSet(removed))
  {
    assert Unlinks(all)[..|removed|] == Unlinks(removed);
    UnlinksApply(d, removed);
  }

  /** Surviving `life` writes of a sequence is surviving its first part and then its second. */
  lemma Sequenced(d: Disk, xs: seq<Write>, second: Plan, life: nat)
    ensures life < |xs| ==>
              Survive(d, Plan(xs + second.writes, second.outcome), life) == (ApplyAll(d, xs[..life]), Crashed)
    ensures life >= |xs| ==>
              Survive(d, Plan(xs + second.writes, second.outcome), life) ==
                Survive(ApplyAll(d, xs), second, life - |xs|)
  {
    var ws := xs + second.writes;
    if life < |xs| { assert ws[..life] == xs[..life]; }
    else {
      var n := if life < |ws| then life - |xs| else |second.writes|;
      ApplySplit(d, xs, second.writes[..n]);
      assert ws[..|xs| + n] == xs + second.writes[..n];
      assert second.writes[..|second.writes|] == second.writes && ws[..|ws|] == ws;
    }
  }

  /** The shape of a call plan as three consecutive parts. */
  lemma CallParts(d: Disk, c: Call)
    requires c.life >= 1 && (c.request.Execute? ==> c.request.sha in c.git)
    ensures var d1 := Apply(d, AdvanceFence);
            var first := RecoverPlan(d1, c.git, d1.fence);
            var d2 := ApplyAll(d1, first.writes);
            var whole := Survive(d, CallPlan(d, c.git, c.request), c.life);
            if c.life - 1 < |first.writes| then whole == (ApplyAll(d1, first.writes[..c.life - 1]), Crashed)
            else if c.request.Recover? || !first.outcome.Ok() then whole == (d2, first.outcome)
            else whole == Survive(d2, Body(d2, c.git, d1.fence, c.request), c.life - 1 - |first.writes|)
  {
    var d1 := Apply(d, AdvanceFence);
    var first := RecoverPlan(d1, c.git, d1.fence);
    var d2 := ApplyAll(d1, first.writes);
    var stop := c.request.Recover? || !first.outcome.Ok();
    var second := if stop then Plan([], first.outcome) else Body(d2, c.git, d1.fence, c.request);
    var locked := LockedPlan(d1, c.git, d1.fence, c.request);
    assert first.writes + [] == first.writes;
    assert locked == Plan(first.writes + second.writes, second.outcome);
    assert CallPlan(d, c.git, c.request) == Plan([AdvanceFence] + locked.writes, locked.outcome);
    hide RecoverPlan, Body, CallPlan, LockedPlan, ApplyAll;
    Prefixes(d, [AdvanceFence]);
    Sequenced(d, [AdvanceFence], locked, c.life);
    Sequenced(d1, first.writes, second, c.life - 1);
    Prefixes(d2, []);
  }

  lemma PreparedMentions(j: seq<Record>, id: TxId)
    requires PreparedIn(j, id)
    ensures Mentions(j, id)
  {
    var i :| 0 <= i < |j| && j[i].tx.id == id && j[i].state.Prepared?;
    assert j[i].tx.id == id;
  }

  lemma SeenNextFor(j: seq<Record>, i: nat, id: TxId)
    requires i < |j|
    ensures PreparedIn(j[..i + 1], id) <==> PreparedIn(j[..i], id) || (j[i].tx.id == id && j[i].state.Prepared?)
    ensures ClosedIn(j[..i + 1], id) <==> ClosedIn(j[..i], id) || (j[i].tx.id == id && !j[i].state.Prepared?)
    ensures Mentions(j[..i + 1], id) <==> Mentions(j[..i], id) || j[i].tx.id == id
  {
    var p, q := j[..i], j[..i + 1];
    assert q[i] == j[i];
    if PreparedIn(p, id) {
      var k :| 0 <= k < i && p[k].tx.id == id && p[k].state.Prepared?;
      assert q[k] == p[k];
    }
    if ClosedIn(p, id) {
      var k :| 0 <= k < i && p[k].tx.id == id && !p[k].state.Prepared?;
      assert q[k] == p[k];
    }
    if Mentions(p, id) {
      var k :| 0 <= k < i && p[k].tx.id == id;
      assert q[k] == p[k];
    }
  }

  /** How the three reading predicates change when one more record is read. */
  lemma SeenNext(j: seq<Record>, i: nat)
    requires i < |j|
    ensures forall id :: Mentions(j[..i + 1], id) <==> Mentions(j[..i], id) || j[i].tx.id == id
    ensures forall id :: PreparedIn(j[..i + 1], id) <==>
              PreparedIn(j[..i], id) || (j[i].tx.id == id && j[i].state.Prepared?)
    ensures forall id :: ClosedIn(j[..i + 1], id) <==>
              ClosedIn(j[..i], id) || (j[i].tx.id == id && !j[i].state.Prepared?)
  {
    forall id { SeenNextFor(j, i, id); }
  }
}
