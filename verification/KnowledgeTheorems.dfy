/** Whole-run theorems: crash safety, roll-forward recovery, refinement to a plain map. */
module KnowledgeTheorems {
  import opened Common
  import opened KnowledgeModel
  import opened KnowledgeInvariant

  // ---------- every prefix of a plan is safe ----------

  ghost predicate Safe(d: Disk, ws: seq<Write>) {
    forall k :: 0 <= k <= |ws| ==> Inv(ApplyAll(d, ws[..k]))
  }

  lemma {:induction false} ApplySplit(d: Disk, xs: seq<Write>, ys: seq<Write>)
    ensures ApplyAll(d, xs + ys) == ApplyAll(ApplyAll(d, xs), ys)
  {
    if ys == [] { assert xs + ys == xs; }
    else {
      ApplySplit(d, xs, ys[..|ys| - 1]);
      assert (xs + ys)[..|xs + ys| - 1] == xs + ys[..|ys| - 1];
    }
  }

  lemma SafeThen(d: Disk, xs: seq<Write>, ys: seq<Write>)
    requires Safe(d, xs) && Safe(ApplyAll(d, xs), ys)
    ensures Safe(d, xs + ys)
  {
    forall k | 0 <= k <= |xs + ys| ensures Inv(ApplyAll(d, (xs + ys)[..k])) {
      if k <= |xs| { assert (xs + ys)[..k] == xs[..k]; }
      else {
        assert (xs + ys)[..k] == xs + ys[..k - |xs|];
        ApplySplit(d, xs, ys[..k - |xs|]);
      }
    }
  }

  lemma SafeEnd(d: Disk, ws: seq<Write>)
    requires Safe(d, ws)
    ensures Inv(ApplyAll(d, ws))
  {
    assert ws[..|ws|] == ws;
  }

  lemma SafeNone(d: Disk)
    requires Inv(d)
    ensures Safe(d, [])
  {
  }

  lemma SafeOne(d: Disk, w: Write)
    requires Inv(d) && Inv(Apply(d, w))
    ensures Safe(d, [w]) && ApplyAll(d, [w]) == Apply(d, w)
  {
    assert [w][..0] == [] && [w][..1] == [w];
    assert ApplyAll(d, [w]) == Apply(d, w);
  }

  lemma SafeCons(d: Disk, w: Write, ws: seq<Write>)
    requires Inv(d) && Safe(Apply(d, w), ws)
    ensures Safe(d, [w] + ws) && ApplyAll(d, [w] + ws) == ApplyAll(Apply(d, w), ws)
  {
    assert ws[..0] == [];
    SafeOne(d, w);
    SafeThen(d, [w], ws);
    ApplySplit(d, [w], ws);
  }

  // ---------- recovery ----------

  ghost function LastTx(d: Disk): Tx
    requires d.journal != []
  {
    d.journal[|d.journal| - 1].tx
  }

  ghost predicate PointerKnown(d: Disk, git: set<Sha>) {
    d.current.Some? ==> d.current.value.tx.commit in git
  }

  /** The unresolved transaction of a reachable disk decides everything recovery does. */
  lemma RecoveryCases(d: Disk, git: set<Sha>)
    requires Inv(d) && PointerKnown(d, git)
    ensures var p := RecoverPlan(d, git, d.fence);
            if !Open(d.journal) then p == Plan([], Clean)
            else
              var tx := LastTx(d);
              var close, swap := Append(Record(tx, Committed, d.fence)), SwapPointer(Pointer(tx, d.fence));
              if tx.commit !in git then
                p == AbortPlan(tx, d.fence) && PointsAt(d, LastCommitted(d.journal))
              else if Staged(d, tx) then p == Plan([Promote(tx.id), swap, close], Recovered(tx.id))
              else if CurrentId(d) == Some(tx.id) then p == Plan([close], Recovered(tx.id))
              else p == Plan([swap, close], Recovered(tx.id))
  {
    AlternatingIsHistory(d.journal);
    UnresolvedIsLast(d.journal);
    PointerLoads(d, git);
    if Open(d.journal) {
      var j, tx := d.journal, LastTx(d);
      var rest := j[..|j| - 1];
      assert Chained(rest, tx);
      assert LastCommitted(j) == LastCommitted(rest);
      if LastCommitted(rest).Some? { CommittedIsChained(rest); }
      assert PointsAt(d, LastCommitted(j)) ==> CurrentId(d) == tx.previous && CurrentId(d) != Some(tx.id);
      assert tx.id in d.snapshots ==> d.snapshots[tx.id] == tx.digest.of by { assert j[|j| - 1].tx == tx; }
    }
  }

  /** The disk a finished recovery leaves, whatever step the crash interrupted. */
  ghost function Resolved(d: Disk, git: set<Sha>): Disk
    requires Open(d.journal)
  {
    var tx := LastTx(d);
    if tx.commit !in git then d.(journal := d.journal + [Record(tx, Aborted, d.fence)])
    else
      Disk(d.journal + [Record(tx, Committed, d.fence)],
           d.staging - {tx.id},
           d.snapshots[tx.id := tx.digest.of],
           Some(if CurrentId(d) == Some(tx.id) then d.current.value else Pointer(tx, d.fence)),
           d.fence)
  }

  ghost predicate Resolves(d: Disk, git: set<Sha>, ws: seq<Write>)
    requires Open(d.journal)
  {
    Safe(d, ws) && ApplyAll(d, ws) == Resolved(d, git)
  }

  lemma PromotionKeepsResult(d: Disk, git: set<Sha>)
    requires Inv(d) && Open(d.journal) && Staged(d, LastTx(d)) && LastTx(d).commit in git
    ensures Resolved(Apply(d, Promote(LastTx(d).id)), git) == Resolved(d, git)
  {
    var id := LastTx(d).id;
    assert d.staging - {id} - {id} == d.staging - {id};
    assert Apply(d, Promote(id)).snapshots[id := LastTx(d).digest.of] == d.snapshots[id := LastTx(d).digest.of];
  }

  ghost function SwapAndClose(tx: Tx, token: nat): seq<Write> {
    [SwapPointer(Pointer(tx, token)), Append(Record(tx, Committed, token))]
  }

  lemma ResolveStaged(d: Disk, git: set<Sha>, tail: seq<Write>)
    requires Inv(d) && d.fence >= 1 && Open(d.journal) && Staged(d, LastTx(d)) && LastTx(d).commit in git
    requires tail == SwapAndClose(LastTx(d), d.fence)
    ensures Resolves(d, git, [Promote(LastTx(d).id)] + tail)
  {
    var tx, token := LastTx(d), d.fence;
    PromoteKeeps(d);
    var d1 := Apply(d, Promote(tx.id));
    assert Open(d1.journal) && LastTx(d1) == tx;
    ResolvePromoted(d1, git, tail);
    SafeCons(d, Promote(tx.id), tail);
    PromotionKeepsResult(d, git);
  }

  lemma PendingIsNotCurrent(d: Disk)
    requires Inv(d) && Open(d.journal) && PointsAt(d, LastCommitted(d.journal))
    ensures CurrentId(d) == LastTx(d).previous && CurrentId(d) != Some(LastTx(d).id)
  {
    var rest := d.journal[..|d.journal| - 1];
    assert Chained(rest, LastTx(d));
    assert LastCommitted(d.journal) == LastCommitted(rest);
    if LastCommitted(rest).Some? { CommittedIsChained(rest); }
  }

  lemma PromotedContent(d: Disk)
    requires Inv(d) && Open(d.journal) && LastTx(d).id in d.snapshots
    ensures d.snapshots[LastTx(d).id] == LastTx(d).digest.of
    ensures d.snapshots == d.snapshots[LastTx(d).id := LastTx(d).digest.of]
  {
    assert d.journal[|d.journal| - 1].tx == LastTx(d);
  }

  lemma ResolvePromoted(d: Disk, git: set<Sha>, tail: seq<Write>)
    requires Inv(d) && d.fence >= 1 && Open(d.journal) && Promoted(d, LastTx(d)) && LastTx(d).commit in git
    requires PointsAt(d, LastCommitted(d.journal)) && tail == SwapAndClose(LastTx(d), d.fence)
    ensures Resolves(d, git, tail)
  {
    var tx, token := LastTx(d), d.fence;
    PendingIsNotCurrent(d);
    PromotedContent(d);
    SwapKeeps(d, token);
    var d2 := Apply(d, SwapPointer(Pointer(tx, token)));
    ResolvePointed(d2, git);
    SafeCons(d, SwapPointer(Pointer(tx, token)), [Append(Record(tx, Committed, token))]);
    assert tail == [SwapPointer(Pointer(tx, token))] + [Append(Record(tx, Committed, token))];
  }

  lemma ResolvePointed(d: Disk, git: set<Sha>)
    requires Inv(d) && d.fence >= 1 && Open(d.journal) && Promoted(d, LastTx(d)) && LastTx(d).commit in git
    requires PointsAt(d, Some(LastTx(d)))
    ensures Resolves(d, git, [Append(Record(LastTx(d), Committed, d.fence))])
  {
    PromotedContent(d);
    CommitKeeps(d, d.fence);
    SafeOne(d, Append(Record(LastTx(d), Committed, d.fence)));
    assert d.staging == d.staging - {LastTx(d).id};
  }

  lemma ResolutionSafe(d: Disk, git: set<Sha>)
    requires Inv(d) && d.fence >= 1 && PointerKnown(d, git) && Open(d.journal)
    ensures Resolves(d, git, RecoverPlan(d, git, d.fence).writes)
  {
    hide RecoverPlan, JournalOk, SnapshotsOk, Safe;
    RecoveryCases(d, git);
    var tx, token := LastTx(d), d.fence;
    if tx.commit !in git {
      AbortKeeps(d, token);
      SafeOne(d, Append(Record(tx, Aborted, token)));
    } else if Staged(d, tx) {
      var tail := SwapAndClose(tx, token);
      ResolveStaged(d, git, tail);
      assert [Promote(tx.id)] + tail == RecoverPlan(d, git, token).writes;
    } else if PointsAt(d, LastCommitted(d.journal)) {
      PendingIsNotCurrent(d);
      ResolvePromoted(d, git, SwapAndClose(tx, token));
    } else {
      ResolvePointed(d, git);
    }
  }

  lemma NothingToResolve(d: Disk, git: set<Sha>)
    requires Inv(d) && (!Open(d.journal) || !PointerKnown(d, git))
    ensures RecoverPlan(d, git, d.fence) == Plan([], if PointerKnown(d, git) then Clean else Refused(CommitMissing))
  {
    PointerLoads(d, git);
    AlternatingIsHistory(d.journal);
    UnresolvedIsLast(d.journal);
  }

  /** Recovery is safe at every step, is refused only when Git lost the visible commit,
      and otherwise leaves nothing unresolved. */
  lemma RecoverySafe(d: Disk, git: set<Sha>)
    requires Inv(d) && d.fence >= 1
    ensures var p := RecoverPlan(d, git, d.fence);
            Safe(d, p.writes) && (p.outcome.Ok() <==> PointerKnown(d, git)) && !p.outcome.Crashed?
    ensures var p := RecoverPlan(d, git, d.fence); var e := ApplyAll(d, p.writes);
            e.fence == d.fence && (p.outcome.Ok() ==> !Open(e.journal) && PointerKnown(e, git))
  {
    hide Inv, Safe, RecoverPlan;
    if PointerKnown(d, git) && Open(d.journal) {
      RecoveryCases(d, git);
      ResolutionSafe(d, git);
    } else {
      NothingToResolve(d, git);
      SafeNone(d);
    }
  }

  // ---------- publishing one item ----------

  lemma VisibleIsItems(d: Disk)
    requires Inv(d) && PointsAt(d, LastCommitted(d.journal))
    ensures Visible(d) == Items(d.journal) && WellKeyed(Visible(d)) && CurrentId(d) == IdOf(LastCommitted(d.journal))
  {
    PointerLoads(d, {});
  }

  ghost predicate Fresh(d: Disk, id: TxId, ki: Ki, sha: Sha) {
    && !Mentions(d.journal, id)
    && (id in d.staging ==> d.staging[id] == NextIndex(d, ki, sha))
  }

  ghost function Published(d: Disk, id: TxId, ki: Ki, sha: Sha): Disk {
    var tx := NextTx(d, id, ki, sha);
    Disk(d.journal + [Record(tx, Prepared, d.fence)] + [Record(tx, Committed, d.fence)],
         d.staging - {id},
         d.snapshots[id := NextIndex(d, ki, sha)],
         Some(Pointer(tx, d.fence)),
         d.fence)
  }

  lemma ExecuteCases(d: Disk, git: set<Sha>, id: TxId, ki: Ki, sha: Sha)
    requires Inv(d) && !Open(d.journal) && PointerKnown(d, git)
    ensures var p := ExecutePlan(d, git, d.fence, id, ki, sha);
            var tx := NextTx(d, id, ki, sha);
            if Fresh(d, id, ki, sha) then
              p == Plan((if id in d.staging then [] else [Stage(id, NextIndex(d, ki, sha))]) +
                        [Append(Record(tx, Prepared, d.fence))] + ([Promote(id)] + SwapAndClose(tx, d.fence)), Done)
            else if Mentions(d.journal, id) then p.writes == [] && !p.outcome.Crashed?
            else p == Plan([], Refused(IndexInvalid))
  {
    AlternatingIsHistory(d.journal);
    LatestMentions(d.journal, id);
    PointerLoads(d, git);
    var tx := NextTx(d, id, ki, sha);
    assert [Append(Record(tx, Prepared, d.fence)), Promote(id), SwapPointer(Pointer(tx, d.fence)),
            Append(Record(tx, Committed, d.fence))]
        == [Append(Record(tx, Prepared, d.fence))] + ([Promote(id)] + SwapAndClose(tx, d.fence));
  }

  lemma NextIsChained(d: Disk, id: TxId, ki: Ki, sha: Sha)
    requires Inv(d) && !Open(d.journal) && !Mentions(d.journal, id)
    ensures Chained(d.journal, NextTx(d, id, ki, sha))
  {
    VisibleIsItems(d);
  }

  lemma PublishFromStaged(d: Disk, id: TxId, ki: Ki, sha: Sha, ws: seq<Write>)
    requires Inv(d) && !Open(d.journal) && d.fence >= 1 && !Mentions(d.journal, id)
    requires id in d.staging && d.staging[id] == NextIndex(d, ki, sha)
    requires var tx := NextTx(d, id, ki, sha);
             ws == [Append(Record(tx, Prepared, d.fence))] + ([Promote(id)] + SwapAndClose(tx, d.fence))
    ensures Safe(d, ws) && ApplyAll(d, ws) == Published(d, id, ki, sha)
  {
    var tx := NextTx(d, id, ki, sha);
    var rec := Record(tx, Prepared, d.fence);
    NextIsChained(d, id, ki, sha);
    PrepareKeeps(d, tx, d.fence);
    var e := Apply(d, Append(rec));
    AppendInit(d.journal, rec);
    assert Open(e.journal) && LastTx(e) == tx;
    var tail := SwapAndClose(tx, d.fence);
    ResolveStaged(e, {sha}, tail);
    SafeCons(d, Append(rec), [Promote(id)] + tail);
    PublishedIsResolved(d, id, ki, sha);
  }

  lemma PublishedIsResolved(d: Disk, id: TxId, ki: Ki, sha: Sha)
    requires Inv(d) && !Open(d.journal) && !Mentions(d.journal, id)
    ensures var e := Apply(d, Append(Record(NextTx(d, id, ki, sha), Prepared, d.fence)));
            Open(e.journal) && Resolved(e, {sha}) == Published(d, id, ki, sha)
  {
    VisibleIsItems(d);
    if LastCommitted(d.journal).Some? { CommittedIsChained(d.journal); }
  }

  lemma PublishFresh(d: Disk, id: TxId, ki: Ki, sha: Sha, ws: seq<Write>)
    requires Inv(d) && !Open(d.journal) && d.fence >= 1 && !Mentions(d.journal, id) && id !in d.staging
    requires var tx := NextTx(d, id, ki, sha);
             ws == [Append(Record(tx, Prepared, d.fence))] + ([Promote(id)] + SwapAndClose(tx, d.fence))
    ensures var stage := Stage(id, NextIndex(d, ki, sha));
            Safe(d, [stage] + ws) && ApplyAll(d, [stage] + ws) == Published(d, id, ki, sha)
  {
    var stage := Stage(id, NextIndex(d, ki, sha));
    StageKeeps(d, id, NextIndex(d, ki, sha));
    var e := Apply(d, stage);
    PublishFromStaged(e, id, ki, sha, ws);
    SafeCons(d, stage, ws);
    assert e.staging - {id} == d.staging - {id};
  }

  lemma ExecuteSafe(d: Disk, git: set<Sha>, id: TxId, ki: Ki, sha: Sha)
    requires Inv(d) && !Open(d.journal) && PointerKnown(d, git) && d.fence >= 1
    ensures var p := ExecutePlan(d, git, d.fence, id, ki, sha);
            Safe(d, p.writes) && !p.outcome.Crashed?
    ensures var p := ExecutePlan(d, git, d.fence, id, ki, sha);
            ApplyAll(d, p.writes) == if Fresh(d, id, ki, sha) then Published(d, id, ki, sha) else d
  {
    hide Inv, Open, PointerKnown, Safe, Published, NextTx, NextIndex;
    ExecuteCases(d, git, id, ki, sha);
    var p := ExecutePlan(d, git, d.fence, id, ki, sha);
    if Fresh(d, id, ki, sha) {
      hide ApplyAll;
      var tx := NextTx(d, id, ki, sha);
      var first := Append(Record(tx, Prepared, d.fence));
      var rest := [Promote(id)] + SwapAndClose(tx, d.fence);
      var ws := [first] + rest;
      if id in d.staging {
        PublishFromStaged(d, id, ki, sha, ws);
        assert p.writes == ws;
      } else {
        PublishFresh(d, id, ki, sha, ws);
        assert p.writes == [Stage(id, NextIndex(d, ki, sha))] + ws;
      }
    } else {
      SafeNone(d);
    }
  }

  // ---------- retention ----------

  function AsSet(ids: seq<TxId>): set<TxId> { set id | id in ids }

  lemma {:induction false} UnlinksSafe(d: Disk, ids: seq<TxId>)
    requires Inv(d) && !Open(d.journal)
    requires forall id :: id in ids ==> CurrentId(d) != Some(id)
    ensures Safe(d, Unlinks(ids))
    ensures ApplyAll(d, Unlinks(ids)) == d.(snapshots := d.snapshots - AsSet(ids))
  {
    if ids == [] {
      SafeNone(d);
      assert d.snapshots - AsSet(ids) == d.snapshots;
    } else {
      var init, last := ids[..|ids| - 1], ids[|ids| - 1];
      assert ids == init + [last];
      UnlinksSafe(d, init);
      assert Unlinks(ids) == Unlinks(init) + [Unlink(last)];
      UnlinkOneMore(d, Unlinks(init), AsSet(init), last);
      assert AsSet(ids) == AsSet(init) + {last};
    }
  }

  lemma UnlinkOneMore(d: Disk, ws: seq<Write>, gone: set<TxId>, last: TxId)
    requires Inv(d) && !Open(d.journal) && CurrentId(d) != Some(last)
    requires Safe(d, ws) && ApplyAll(d, ws) == d.(snapshots := d.snapshots - gone)
    ensures Safe(d, ws + [Unlink(last)])
    ensures ApplyAll(d, ws + [Unlink(last)]) == d.(snapshots := d.snapshots - (gone + {last}))
  {
    hide Inv, Safe;
    SafeEnd(d, ws);
    var e := d.(snapshots := d.snapshots - gone);
    UnlinkKeeps(e, last);
    SafeOne(e, Unlink(last));
    SafeThen(d, ws, [Unlink(last)]);
    ApplySplit(d, ws, [Unlink(last)]);
    assert ApplyAll(d, ws + [Unlink(last)]) == Apply(e, Unlink(last));
    assert Apply(e, Unlink(last)).snapshots == d.snapshots - (gone + {last});
  }

  lemma {:induction false} StaleAreRemovable(d: Disk, limit: nat, listing: seq<TxId>)
    ensures forall i :: 0 <= i < |Stale(d, limit, listing)| ==> Removable(d, limit, Stale(d, limit, listing)[i])
    ensures forall id :: Removable(d, limit, id) && id in listing ==> id in Stale(d, limit, listing)
  {
    if listing != [] {
      StaleAreRemovable(d, limit, listing[..|listing| - 1]);
      forall id | id in listing ensures id == listing[|listing| - 1] || id in listing[..|listing| - 1] {
        var i :| 0 <= i < |listing| && listing[i] == id;
      }
    }
  }

  lemma CleanupSafe(d: Disk, git: set<Sha>, limit: nat, listing: seq<TxId>)
    requires Inv(d) && !Open(d.journal) && PointerKnown(d, git)
    ensures var p := CleanupPlan(d, git, limit, listing);
            Safe(d, p.writes) && p.outcome == Removed(Stale(d, limit, listing))
    ensures var p := CleanupPlan(d, git, limit, listing);
            ApplyAll(d, p.writes) ==
            d.(snapshots := d.snapshots - AsSet(Stale(d, limit, listing)))
  {
    PointerLoads(d, git);
    AlternatingIsHistory(d.journal);
    StaleAreRemovable(d, limit, listing);
    UnlinksSafe(d, Stale(d, limit, listing));
  }

  // ---------- one call, any crash ----------

  lemma BodySafe(d: Disk, git: set<Sha>, r: Request)
    requires Inv(d) && !Open(d.journal) && PointerKnown(d, git) && d.fence >= 1
    ensures var p := Body(d, git, d.fence, r);
            Safe(d, p.writes) && !p.outcome.Crashed? && !Open(ApplyAll(d, p.writes).journal)
  {
    match r
    case Execute(id, ki, sha) =>
      ExecuteSafe(d, git, id, ki, sha);
      PublishedIsClosed(d, id, ki, sha);
    case Recover => SafeNone(d);
    case Cleanup(limit, listing) => CleanupSafe(d, git, limit, listing);
  }

  /** Opening, recovering and then running the body, in one decomposition. */
  lemma CallShape(d: Disk, git: set<Sha>, r: Request)
    requires Inv(d) && (r.Execute? ==> r.sha in git)
    ensures var d1 := Apply(d, AdvanceFence);
            var first := RecoverPlan(d1, git, d1.fence);
            var d2 := ApplyAll(d1, first.writes);
            var second := if first.outcome.Ok() then Body(d2, git, d1.fence, r) else Plan([], first.outcome);
            && Safe(d, [AdvanceFence] + (first.writes + second.writes))
            && CallPlan(d, git, r).writes == [AdvanceFence] + (first.writes + second.writes)
            && (CallPlan(d, git, r).outcome ==
                if first.outcome.Ok() && !r.Recover? then second.outcome else first.outcome)
            && ApplyAll(d, CallPlan(d, git, r).writes) == ApplyAll(d2, second.writes)
            && Inv(d2) && d2.fence == d1.fence
  {
    hide Inv, Safe, RecoverPlan, ExecutePlan, CleanupPlan, ApplyAll;
    FenceKeeps(d);
    var d1 := Apply(d, AdvanceFence);
    RecoverySafe(d1, git);
    var first := RecoverPlan(d1, git, d1.fence);
    var d2 := ApplyAll(d1, first.writes);
    SafeEnd(d1, first.writes);
    var second := if first.outcome.Ok() then Body(d2, git, d1.fence, r) else Plan([], first.outcome);
    if first.outcome.Ok() { BodySafe(d2, git, r); } else { SafeNone(d2); }
    SafeThen(d1, first.writes, second.writes);
    ApplySplit(d1, first.writes, second.writes);
    SafeCons(d, AdvanceFence, first.writes + second.writes);
    assert first.writes + [] == first.writes;
  }

  lemma CallSafe(d: Disk, git: set<Sha>, r: Request)
    requires Inv(d)
    ensures Safe(d, CallPlan(d, git, r).writes) && !CallPlan(d, git, r).outcome.Crashed?
    ensures var p := CallPlan(d, git, r); p.outcome.Ok() ==> !Open(ApplyAll(d, p.writes).journal)
  {
    if r.Execute? && r.sha !in git { SafeNone(d); }
    else {
      CallShape(d, git, r);
      FenceKeeps(d);
      var d1 := Apply(d, AdvanceFence);
      RecoverySafe(d1, git);
      var first := RecoverPlan(d1, git, d1.fence);
      if first.outcome.Ok() { BodySafe(ApplyAll(d1, first.writes), git, r); }
    }
  }

  lemma PublishedIsClosed(d: Disk, id: TxId, ki: Ki, sha: Sha)
    requires !Open(d.journal)
    ensures !Open(Published(d, id, ki, sha).journal)
  {
    assert |Published(d, id, ki, sha).journal| == |d.journal| + 2;
  }

  lemma StepKeeps(d: Disk, c: Call)
    requires Inv(d)
    ensures Inv(Step(d, c))
  {
    CallSafe(d, c.git, c.request);
    var ws := CallPlan(d, c.git, c.request).writes;
    assert ws[..|ws|] == ws;
  }

  /** Every disk reachable by any sequence of calls, each crashing anywhere, is consistent. */
  lemma {:induction false} ReachableInv(calls: seq<Call>)
    ensures Inv(Run(EMPTY_DISK, calls))
  {
    if calls != [] {
      ReachableInv(calls[..|calls| - 1]);
      StepKeeps(Run(EMPTY_DISK, calls[..|calls| - 1]), calls[|calls| - 1]);
    }
  }
}
