/** What every reachable disk of the knowledge store satisfies, and why each durable write keeps it. */
module KnowledgeInvariant {
  import opened Common
  import opened KnowledgeModel

  function LastCommitted(j: seq<Record>): Option<Tx> {
    if j == [] then None
    else if j[|j| - 1].state.Committed? then Some(j[|j| - 1].tx)
    else LastCommitted(j[..|j| - 1])
  }

  function IdOf(o: Option<Tx>): Option<TxId> {
    match o case None => None case Some(t) => Some(t.id)
  }

  /** The items published by the committed transactions of a journal. */
  function Items(j: seq<Record>): map<KiId, Ki> {
    match LastCommitted(j) case None => map[] case Some(t) => t.digest.of.items
  }

  /** `tx` adds exactly its active item to what was committed before it. */
  ghost predicate Chained(before: seq<Record>, tx: Tx) {
    var index := tx.digest.of;
    && !Mentions(before, tx.id)
    && tx.previous == IdOf(LastCommitted(before))
    && index.commit == tx.commit
    && WellKeyed(index.items)
    && tx.activeKi in index.items
    && index.items == Items(before)[tx.activeKi := index.items[tx.activeKi]]
  }

  /** PREPARED and terminal records alternate; each pair belongs to one fresh, chained transaction. */
  ghost predicate JournalOk(j: seq<Record>) {
    j == [] ||
    var last, rest := j[|j| - 1], j[..|j| - 1];
    && JournalOk(rest)
    && if |j| % 2 == 1
       then last.state.Prepared? && Chained(rest, last.tx)
       else !last.state.Prepared? && last.tx == rest[|rest| - 1].tx
  }

  ghost predicate PointsAt(d: Disk, target: Option<Tx>) {
    match target
    case None => d.current == None
    case Some(t) => d.current.Some? && d.current.value.tx == t && t.id in d.snapshots
  }

  /** Where the one unresolved transaction stands. */
  ghost predicate Staged(d: Disk, tx: Tx) {
    && tx.id in d.staging && d.staging[tx.id] == tx.digest.of
    && tx.id !in d.snapshots
    && PointsAt(d, LastCommitted(d.journal))
  }

  ghost predicate Promoted(d: Disk, tx: Tx) {
    && tx.id !in d.staging
    && tx.id in d.snapshots
    && (PointsAt(d, LastCommitted(d.journal)) || PointsAt(d, Some(tx)))
  }

  ghost predicate SnapshotsOk(d: Disk) {
    && (forall id :: id in d.snapshots ==> Mentions(d.journal, id))
    && (forall i :: 0 <= i < |d.journal| && d.journal[i].tx.id in d.snapshots ==>
          d.snapshots[d.journal[i].tx.id] == d.journal[i].tx.digest.of)
  }

  ghost predicate TokensOk(d: Disk) {
    && (forall i :: 0 <= i < |d.journal| ==> 1 <= d.journal[i].token <= d.fence)
    && (d.current.Some? ==> 1 <= d.current.value.token <= d.fence)
  }

  ghost predicate Open(j: seq<Record>) { |j| % 2 == 1 }

  ghost predicate Inv(d: Disk) {
    && JournalOk(d.journal)
    && SnapshotsOk(d)
    && TokensOk(d)
    && if Open(d.journal)
       then var tx := d.journal[|d.journal| - 1].tx; Staged(d, tx) || Promoted(d, tx)
       else PointsAt(d, LastCommitted(d.journal))
  }

  // ---------- consequences for the journal ----------

  lemma AppendInit<T>(j: seq<T>, r: T)
    ensures (j + [r])[..|j + [r]| - 1] == j
  {
  }

  lemma {:induction false} CommittedIsChained(j: seq<Record>)
    requires JournalOk(j) && LastCommitted(j).Some?
    ensures exists before :: Chained(before, LastCommitted(j).value)
    ensures Mentions(j, LastCommitted(j).value.id)
    ensures LastCommitted(j).value.previous != Some(LastCommitted(j).value.id)
  {
    var n := |j|;
    if j[n - 1].state.Committed? {
      var rest := j[..n - 1];
      assert Chained(rest[..n - 2], rest[n - 2].tx);
      if LastCommitted(rest[..n - 2]).Some? { CommittedIsChained(rest[..n - 2]); }
    } else {
      CommittedIsChained(j[..n - 1]);
      var i :| 0 <= i < n - 1 && j[..n - 1][i].tx.id == LastCommitted(j).value.id;
      assert j[i].tx.id == LastCommitted(j).value.id;
    }
  }

  lemma {:induction false} PrefixOk(j: seq<Record>, k: nat)
    requires JournalOk(j) && k <= |j|
    ensures JournalOk(j[..k])
  {
    if k == |j| { assert j[..k] == j; }
    else {
      PrefixOk(j[..|j| - 1], k);
      assert j[..|j| - 1][..k] == j[..k];
    }
  }

  lemma {:induction false} AlternatingIsHistory(j: seq<Record>)
    requires JournalOk(j)
    ensures HistoryOk(j)
  {
    forall i | 0 <= i < |j| ensures HistoryOkAt(j, i) {
      PrefixOk(j, i + 1);
      var p := j[..i + 1];
      assert p[..i] == j[..i];
      if i % 2 == 1 {
        PrefixOk(j, i);
        var q := j[..i];
        assert q[i - 1].tx.id == j[i].tx.id && q[i - 1].state.Prepared?;
        assert forall k :: 0 <= k < i - 1 ==> q[..i - 1][k] == q[k];
      }
    }
  }

  lemma {:induction false} MentionsAppend(j: seq<Record>, r: Record, id: TxId)
    ensures Mentions(j + [r], id) <==> Mentions(j, id) || r.tx.id == id
  {
    assert (j + [r])[|j|] == r;
    if Mentions(j, id) {
      var i :| 0 <= i < |j| && j[i].tx.id == id;
      assert (j + [r])[i].tx.id == id;
    }
  }

  lemma {:induction false} LatestMentions(j: seq<Record>, id: TxId)
    ensures LatestOf(j, id).Some? <==> Mentions(j, id)
  {
    if j != [] {
      LatestMentions(j[..|j| - 1], id);
      assert j == j[..|j| - 1] + [j[|j| - 1]];
      MentionsAppend(j[..|j| - 1], j[|j| - 1], id);
    }
  }

  lemma {:induction false} ClosedAppend(ps: seq<Record>, j: seq<Record>, r: Record)
    requires forall i :: 0 <= i < |ps| ==> ps[i].tx.id != r.tx.id || ClosedIn(j, r.tx.id)
    ensures StillOpen(ps, j + [r]) == StillOpen(ps, j)
  {
    if ps != [] {
      var id := ps[|ps| - 1].tx.id;
      ClosedAppend(ps[..|ps| - 1], j, r);
      if ClosedIn(j, id) {
        var i :| 0 <= i < |j| && j[i].tx.id == id && !j[i].state.Prepared?;
        assert (j + [r])[i] == j[i];
        assert ClosedIn(j + [r], id);
      }
    }
  }

  lemma {:induction false} PreparedAreMentioned(j: seq<Record>)
    ensures forall i :: 0 <= i < |PreparedRecords(j)| ==> Mentions(j, PreparedRecords(j)[i].tx.id)
  {
    if j != [] {
      var rest, last := j[..|j| - 1], j[|j| - 1];
      PreparedAreMentioned(rest);
      assert j == rest + [last];
      forall i | 0 <= i < |PreparedRecords(j)| ensures Mentions(j, PreparedRecords(j)[i].tx.id) {
        MentionsAppend(rest, last, PreparedRecords(j)[i].tx.id);
      }
    }
  }

  lemma PreparedStaysOpen(base: seq<Record>, p: Record)
    requires JournalOk(base + [p]) && p.state.Prepared? && Unresolved(base) == []
    ensures PreparedRecords(base + [p]) == PreparedRecords(base) + [p]
    ensures Unresolved(base + [p]) == [p]
  {
    var j, ps := base + [p], PreparedRecords(base);
    AppendInit(base, p);
    PreparedAreMentioned(base);
    ClosedAppend(ps, base, p);
    AppendInit(ps, p);
    assert forall i :: 0 <= i < |base| ==> base[i] == j[i];
  }

  lemma ClosingResolves(base: seq<Record>, p: Record, c: Record)
    requires PreparedRecords(base + [p]) == PreparedRecords(base) + [p]
    requires Unresolved(base + [p]) == [p] && Unresolved(base) == [] && !ClosedIn(base, p.tx.id)
    requires !Mentions(base, p.tx.id) && !c.state.Prepared? && c.tx == p.tx
    ensures Unresolved(base + [p] + [c]) == []
  {
    var ps, j := PreparedRecords(base), base + [p] + [c];
    AppendInit(base + [p], c);
    assert PreparedRecords(j) == ps + [p];
    PreparedAreMentioned(base);
    ClosedAppend(ps, base, p);
    ClosedAppend(ps, base + [p], c);
    AppendInit(ps, p);
    assert j[|j| - 1] == c;
    assert ClosedIn(j, p.tx.id);
  }

  /** At most one transaction is unresolved, and it is the last thing the journal says. */
  lemma {:induction false} UnresolvedIsLast(j: seq<Record>)
    requires JournalOk(j)
    ensures Unresolved(j) == if Open(j) then [j[|j| - 1]] else []
  {
    if j != [] {
      var n := |j|;
      var rest := j[..n - 1];
      assert j == rest + [j[n - 1]];
      if Open(j) {
        UnresolvedIsLast(rest);
        PreparedStaysOpen(rest, j[n - 1]);
      } else {
        var base, p := rest[..n - 2], rest[n - 2];
        assert rest == base + [p];
        UnresolvedIsLast(base);
        PreparedStaysOpen(base, p);
        ClosingResolves(base, p, j[n - 1]);
      }
    }
  }

  /** A reachable pointer loads exactly when Git still has its commit. */
  lemma PointerLoads(d: Disk, git: set<Sha>)
    requires Inv(d)
    ensures PointerError(d, git) ==
            if d.current.None? || d.current.value.tx.commit in git then None else Some(CommitMissing)
    ensures d.current.Some? ==>
              && d.current.value.tx.id in d.snapshots
              && d.snapshots[d.current.value.tx.id] == d.current.value.tx.digest.of
              && WellKeyed(Visible(d))
  {
    if d.current.Some? {
      var tx := d.current.value.tx;
      var j := d.journal;
      if LastCommitted(j) == Some(tx) {
        CommittedIsChained(j);
        var i :| 0 <= i < |j| && j[i].tx.id == tx.id;
        CommittedRecord(j);
      } else {
        assert Open(j) && j[|j| - 1].tx == tx;
        var rest := j[..|j| - 1];
        assert Chained(rest, tx);
        if LastCommitted(rest).Some? { CommittedIsChained(rest); }
      }
    }
  }

  lemma {:induction false} CommittedRecord(j: seq<Record>)
    requires LastCommitted(j).Some?
    ensures exists i :: 0 <= i < |j| && j[i].tx == LastCommitted(j).value
  {
    if !j[|j| - 1].state.Committed? {
      CommittedRecord(j[..|j| - 1]);
      var i :| 0 <= i < |j| - 1 && j[..|j| - 1][i].tx == LastCommitted(j).value;
      assert j[i].tx == LastCommitted(j).value;
    }
  }

  // ---------- one lemma per durable write ----------

  lemma FenceKeeps(d: Disk)
    requires Inv(d)
    ensures Inv(Apply(d, AdvanceFence))
  {
  }

  lemma StageKeeps(d: Disk, id: TxId, index: Index)
    requires Inv(d) && !Mentions(d.journal, id)
    ensures Inv(Apply(d, Stage(id, index)))
  {
    if Open(d.journal) { assert Mentions(d.journal, d.journal[|d.journal| - 1].tx.id); }
  }

  lemma AppendKeepsSnapshots(d: Disk, r: Record)
    requires SnapshotsOk(d)
    requires r.tx.id in d.snapshots ==> d.snapshots[r.tx.id] == r.tx.digest.of
    ensures SnapshotsOk(Apply(d, Append(r)))
  {
    forall id | id in d.snapshots ensures Mentions(d.journal + [r], id) {
      MentionsAppend(d.journal, r, id);
    }
  }

  lemma ClosedJournal(j: seq<Record>, r: Record)
    requires JournalOk(j) && Open(j) && r.tx == j[|j| - 1].tx && !r.state.Prepared?
    ensures JournalOk(j + [r]) && !Open(j + [r])
    ensures LastCommitted(j + [r]) == if r.state.Committed? then Some(r.tx) else LastCommitted(j)
  {
    AppendInit(j, r);
  }

  lemma PrepareKeeps(d: Disk, tx: Tx, token: nat)
    requires Inv(d) && !Open(d.journal) && 1 <= token <= d.fence
    requires Chained(d.journal, tx) && tx.id in d.staging && d.staging[tx.id] == tx.digest.of
    ensures Inv(Apply(d, Append(Record(tx, Prepared, token))))
  {
    var r := Record(tx, Prepared, token);
    AppendInit(d.journal, r);
    AppendKeepsSnapshots(d, r);
  }

  lemma PendingIsFresh(j: seq<Record>)
    requires JournalOk(j) && Open(j)
    ensures Chained(j[..|j| - 1], j[|j| - 1].tx)
  {
  }

  lemma PromoteKeeps(d: Disk)
    requires Inv(d) && Open(d.journal) && Staged(d, d.journal[|d.journal| - 1].tx)
    ensures var tx := d.journal[|d.journal| - 1].tx; var e := Apply(d, Promote(tx.id));
            Inv(e) && Promoted(e, tx) && PointsAt(e, LastCommitted(e.journal))
  {
    PendingIsFresh(d.journal);
    hide JournalOk;
    var j := d.journal;
    var tx := j[|j| - 1].tx;
    var rest := j[..|j| - 1];
    assert forall i :: 0 <= i < |j| - 1 ==> rest[i] == j[i];
  }

  lemma SwapKeeps(d: Disk, token: nat)
    requires Inv(d) && Open(d.journal) && Promoted(d, d.journal[|d.journal| - 1].tx) && 1 <= token <= d.fence
    ensures var tx := d.journal[|d.journal| - 1].tx;
            var e := Apply(d, SwapPointer(Pointer(tx, token))); Inv(e) && PointsAt(e, Some(tx))
  {
  }

  lemma PendingContent(d: Disk)
    requires Inv(d) && Open(d.journal) && d.journal[|d.journal| - 1].tx.id in d.snapshots
    ensures d.snapshots[d.journal[|d.journal| - 1].tx.id] == d.journal[|d.journal| - 1].tx.digest.of
  {
  }

  lemma ClosingKeeps(d: Disk, r: Record)
    requires Inv(d) && Open(d.journal) && r.tx == d.journal[|d.journal| - 1].tx && 1 <= r.token <= d.fence
    requires !r.state.Prepared?
    requires PointsAt(d, if r.state.Committed? then Some(r.tx) else LastCommitted(d.journal))
    ensures Inv(Apply(d, Append(r)))
  {
    ClosedJournal(d.journal, r);
    if r.tx.id in d.snapshots { PendingContent(d); }
    AppendKeepsSnapshots(d, r);
    hide JournalOk, SnapshotsOk, LastCommitted;
  }

  lemma CommitKeeps(d: Disk, token: nat)
    requires Inv(d) && Open(d.journal) && PointsAt(d, Some(d.journal[|d.journal| - 1].tx)) && 1 <= token <= d.fence
    ensures Inv(Apply(d, Append(Record(d.journal[|d.journal| - 1].tx, Committed, token))))
  {
    ClosingKeeps(d, Record(d.journal[|d.journal| - 1].tx, Committed, token));
  }

  lemma AbortKeeps(d: Disk, token: nat)
    requires Inv(d) && Open(d.journal) && PointsAt(d, LastCommitted(d.journal)) && 1 <= token <= d.fence
    ensures Inv(Apply(d, Append(Record(d.journal[|d.journal| - 1].tx, Aborted, token))))
  {
    ClosingKeeps(d, Record(d.journal[|d.journal| - 1].tx, Aborted, token));
  }

  lemma UnlinkKeeps(d: Disk, id: TxId)
    requires Inv(d) && !Open(d.journal) && CurrentId(d) != Some(id)
    ensures Inv(Apply(d, Unlink(id)))
  {
  }
}
