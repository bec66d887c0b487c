/** What callers can rely on over whole runs: the visible items are the fold of the durable
    transactions, interrupted recoveries resume, retries and lost calls leave no trace. */
module KnowledgeRuns {
  import opened Common
  import opened KnowledgeModel
  import opened KnowledgeInvariant
  import opened KnowledgeTheorems

  // ---------- the plain map the store refines ----------

  /** The item a prepared transaction contributes. */
  function Effect(tx: Tx): Ki {
    if tx.activeKi in tx.digest.of.items then tx.digest.of.items[tx.activeKi] else Ki(tx.activeKi, "")
  }

  function Overlay(kis: seq<Ki>): map<KiId, Ki> {
    if kis == [] then map[]
    else Overlay(kis[..|kis| - 1])[kis[|kis| - 1].id := kis[|kis| - 1]]
  }

  /** Effects, in order, of the PREPARED records of `j` that `whole` does not abort. */
  ghost function Survivors(j: seq<Record>, whole: seq<Record>): seq<Ki> {
    if j == [] then []
    else
      var last := j[|j| - 1];
      Survivors(j[..|j| - 1], whole) +
      if last.state.Prepared? && !AbortedIn(whole, last.tx.id) then [Effect(last.tx)] else []
  }

  ghost function Fold(j: seq<Record>): map<KiId, Ki> { Overlay(Survivors(j, j)) }

  lemma {:induction false} SurvivorsLocal(j: seq<Record>, whole: seq<Record>, other: seq<Record>)
    requires forall i :: 0 <= i < |j| ==> (AbortedIn(whole, j[i].tx.id) <==> AbortedIn(other, j[i].tx.id))
    ensures Survivors(j, whole) == Survivors(j, other)
  {
    if j != [] { SurvivorsLocal(j[..|j| - 1], whole, other); }
  }

  lemma AbortedAppend(j: seq<Record>, r: Record, id: TxId)
    ensures AbortedIn(j + [r], id) <==> AbortedIn(j, id) || (r.tx.id == id && r.state.Aborted?)
  {
    assert (j + [r])[|j|] == r;
    if AbortedIn(j, id) {
      var i :| 0 <= i < |j| && j[i].tx.id == id && j[i].state.Aborted?;
      assert (j + [r])[i] == j[i];
    }
  }

  /** Adding a closed pair for a fresh transaction adds its effect unless it was aborted. */
  lemma PairSurvives(base: seq<Record>, p: Record, c: Record)
    requires !Mentions(base, p.tx.id) && p.state.Prepared? && !c.state.Prepared? && c.tx == p.tx
    ensures var j := base + [p] + [c];
            Survivors(j, j) == Survivors(base, base) + if c.state.Aborted? then [] else [Effect(p.tx)]
  {
    var j := base + [p] + [c];
    AppendInit(base, p);
    AppendInit(base + [p], c);
    forall id ensures AbortedIn(j, id) <==> AbortedIn(base, id) || (p.tx.id == id && c.state.Aborted?) {
      AbortedAppend(base, p, id);
      AbortedAppend(base + [p], c, id);
    }
    SurvivorsLocal(base, j, base);
    assert !AbortedIn(base, p.tx.id);
    assert Survivors(j, j) == Survivors(base + [p], j);
  }

  /** Once nothing is unresolved, the committed items are the fold of the journal. */
  lemma {:induction false} ItemsAreFold(j: seq<Record>)
    requires JournalOk(j) && !Open(j)
    ensures Items(j) == Fold(j)
  {
    if j != [] {
      var base, p, c := j[..|j| - 2], j[|j| - 2], j[|j| - 1];
      var rest := j[..|j| - 1];
      assert rest == base + [p] && j == base + [p] + [c];
      assert JournalOk(rest) && c.tx == p.tx && !c.state.Prepared?;
      PendingIsFresh(rest);
      assert rest[..|rest| - 1] == base;
      PrefixOk(rest, |base|);
      assert rest[..|base|] == base;
      ItemsAreFold(base);
      hide JournalOk;
      PairFolds(base, p, c);
    }
  }

  lemma PairFolds(base: seq<Record>, p: Record, c: Record)
    requires Items(base) == Fold(base) && Chained(base, p.tx)
    requires p.state.Prepared? && !c.state.Prepared? && c.tx == p.tx
    ensures Items(base + [p] + [c]) == Fold(base + [p] + [c])
  {
    PairSurvives(base, p, c);
    AppendInit(base, p);
    AppendInit(base + [p], c);
    assert LastCommitted(base + [p]) == LastCommitted(base);
    if c.state.Committed? {
      AppendInit(Survivors(base, base), Effect(p.tx));
    } else {
      assert Survivors(base, base) + [] == Survivors(base, base);
    }
  }

  /** A call that returns without being refused shows exactly the fold of the journal. */
  lemma VisibleIsFold(calls: seq<Call>, c: Call)
    requires var d := Run(EMPTY_DISK, calls); Survive(d, CallPlan(d, c.git, c.request), c.life).1.Ok()
    ensures var e := Run(EMPTY_DISK, calls + [c]);
            Visible(e) == Fold(e.journal) && Unresolved(e.journal) == [] && HistoryOk(e.journal)
  {
    var d := Run(EMPTY_DISK, calls);
    var e := Run(EMPTY_DISK, calls + [c]);
    ReachableInv(calls);
    ReachableInv(calls + [c]);
    assert (calls + [c])[..|calls + [c]| - 1] == calls;
    CallSafe(d, c.git, c.request);
    assert e == Step(d, c);
    hide CallPlan, ApplyAll;
    AlternatingIsHistory(e.journal);
    UnresolvedIsLast(e.journal);
    VisibleIsItems(e);
    ItemsAreFold(e.journal);
  }

  // ---------- which calls became durable ----------

  /** Items whose PREPARED record a call made durable, in call order. */
  ghost function DurableKis(calls: seq<Call>): seq<Ki> {
    if calls == [] then []
    else
      var init, c := calls[..|calls| - 1], calls[|calls| - 1];
      DurableKis(init) + NewKis(Run(EMPTY_DISK, init), c)
  }

  ghost function NewKis(d: Disk, c: Call): seq<Ki> {
    if c.request.Execute? && !Mentions(d.journal, c.request.id) && Mentions(Step(d, c).journal, c.request.id)
    then [c.request.ki] else []
  }

  function Effects(ps: seq<Record>): seq<Ki> {
    seq(|ps|, i requires 0 <= i < |ps| => Effect(ps[i].tx))
  }

  ghost predicate Grows(j: seq<Record>, k: seq<Record>, kis: seq<Ki>) {
    && j <= k
    && Effects(PreparedRecords(k)) == Effects(PreparedRecords(j)) + kis
  }

  lemma GrowsBy(j: seq<Record>, r: Record)
    ensures Grows(j, j + [r], if r.state.Prepared? then [Effect(r.tx)] else [])
  {
    AppendInit(j, r);
    var ps := PreparedRecords(j);
    assert Effects(ps + [r]) == Effects(ps) + [Effect(r.tx)];
    assert Effects(ps) + [] == Effects(ps);
  }

  lemma GrowsThen(i: seq<Record>, j: seq<Record>, k: seq<Record>, xs: seq<Ki>, ys: seq<Ki>)
    requires Grows(i, j, xs) && Grows(j, k, ys)
    ensures Grows(i, k, xs + ys)
  {
    assert i == k[..|i|];
    var e := Effects(PreparedRecords(i));
    assert e + xs + ys == e + (xs + ys);
  }

  /** The records a list of writes appends. */
  function Appended(ws: seq<Write>): seq<Record> {
    if ws == [] then []
    else
      var last := ws[|ws| - 1];
      Appended(ws[..|ws| - 1]) + if last.Append? then [last.record] else []
  }

  lemma {:induction false} JournalOfWrites(d: Disk, ws: seq<Write>)
    ensures ApplyAll(d, ws).journal == d.journal + Appended(ws)
  {
    if ws != [] { JournalOfWrites(d, ws[..|ws| - 1]); }
  }

  lemma {:induction false} AppendedConcat(xs: seq<Write>, ys: seq<Write>)
    ensures Appended(xs + ys) == Appended(xs) + Appended(ys)
  {
    if ys == [] { assert xs + ys == xs; }
    else {
      AppendedConcat(xs, ys[..|ys| - 1]);
      assert (xs + ys)[..|xs + ys| - 1] == xs + ys[..|ys| - 1];
    }
  }

  lemma AppendedPrefix(ws: seq<Write>, k: nat)
    requires k <= |ws|
    ensures Appended(ws[..k]) <= Appended(ws)
  {
    assert ws == ws[..k] + ws[k..];
    AppendedConcat(ws[..k], ws[k..]);
  }

  lemma AppendedIs(d: Disk, ws: seq<Write>, rs: seq<Record>)
    requires ApplyAll(d, ws).journal == d.journal + rs
    ensures Appended(ws) == rs
  {
    JournalOfWrites(d, ws);
    assert (d.journal + rs)[|d.journal|..] == rs;
    assert (d.journal + Appended(ws))[|d.journal|..] == Appended(ws);
  }

  /** The terminal record recovery appends for the unresolved transaction. */
  ghost predicate Closing(d: Disk, git: set<Sha>, rs: seq<Record>) {
    rs == [] ||
    (|rs| == 1 && Open(d.journal) && rs[0].tx == LastTx(d)
     && rs[0].state == if LastTx(d).commit in git then Committed else Aborted)
  }

  /** The two records of a successful publication of a transaction new to `j`. */
  ghost predicate FreshPair(j: seq<Record>, git: set<Sha>, r: Request, rs: seq<Record>) {
    rs == [] ||
    (|rs| == 2 && r.Execute? && rs[0].state.Prepared? && rs[1].state.Committed? && rs[1].tx == rs[0].tx
     && rs[0].tx.id == r.id && rs[0].tx.commit in git && Effect(rs[0].tx) == r.ki && !Mentions(j, r.id))
  }

  lemma RecoveryAppends(d: Disk, git: set<Sha>)
    requires Inv(d) && d.fence >= 1
    ensures var ws := RecoverPlan(d, git, d.fence).writes;
            Closing(d, git, Appended(ws)) && ApplyAll(d, ws).journal == d.journal + Appended(ws)
  {
    var ws := RecoverPlan(d, git, d.fence).writes;
    JournalOfWrites(d, ws);
    if PointerKnown(d, git) && Open(d.journal) {
      ResolutionSafe(d, git);
      hide Inv, RecoverPlan, ApplyAll, Appended, Safe;
      AppendedIs(d, ws, [Record(LastTx(d), if LastTx(d).commit in git then Committed else Aborted, d.fence)]);
    } else {
      NothingToResolve(d, git);
    }
  }

  lemma BodyAppends(d: Disk, git: set<Sha>, r: Request)
    requires Inv(d) && !Open(d.journal) && PointerKnown(d, git) && d.fence >= 1
    requires r.Execute? ==> r.sha in git
    ensures var ws := Body(d, git, d.fence, r).writes;
            FreshPair(d.journal, git, r, Appended(ws)) && ApplyAll(d, ws).journal == d.journal + Appended(ws)
  {
    var ws := Body(d, git, d.fence, r).writes;
    JournalOfWrites(d, ws);
    hide Inv, ExecutePlan, CleanupPlan, Appended, Safe;
    match r
    case Execute(id, ki, sha) =>
      ExecuteSafe(d, git, id, ki, sha);
      ExecuteCases(d, git, id, ki, sha);
      var tx := NextTx(d, id, ki, sha);
      var p, c := Record(tx, Prepared, d.fence), Record(tx, Committed, d.fence);
      AppendedIs(d, ws, if Fresh(d, id, ki, sha) then [p] + [c] else []);
    case Recover => AppendedIs(d, ws, []);
    case Cleanup(limit, listing) =>
      CleanupSafe(d, git, limit, listing);
      AppendedIs(d, ws, []);
  }

  lemma LiveCallAppends(d: Disk, git: set<Sha>, r: Request) returns (closing: seq<Record>, pair: seq<Record>)
    requires Inv(d) && (r.Execute? ==> r.sha in git)
    ensures Closing(d, git, closing) && FreshPair(d.journal + closing, git, r, pair)
    ensures ApplyAll(d, CallPlan(d, git, r).writes).journal == d.journal + closing + pair
  {
    hide Inv, RecoverPlan, CallPlan, ApplyAll, Appended, Body, Safe, FreshPair, Mentions;
    CallShape(d, git, r);
    FenceKeeps(d);
    var d1 := Apply(d, AdvanceFence);
    var first := RecoverPlan(d1, git, d1.fence);
    var d2 := ApplyAll(d1, first.writes);
    RecoveryAppends(d1, git);
    RecoverySafe(d1, git);
    closing := Appended(first.writes);
    if first.outcome.Ok() {
      BodyAppends(d2, git, r);
      pair := Appended(Body(d2, git, d1.fence, r).writes);
    } else {
      AppliesNothing(d2);
      pair := [];
      NoPair(d.journal + closing, git, r);
    }
  }

  lemma NoPair(j: seq<Record>, git: set<Sha>, r: Request)
    ensures FreshPair(j, git, r, [])
  {
  }

  lemma UnknownCommitAppends(d: Disk, git: set<Sha>, r: Request)
    requires r.Execute? && r.sha !in git
    ensures Appended(CallPlan(d, git, r).writes) == [] + [] && Closing(d, git, [])
  {
  }

  lemma CallAppends(d: Disk, git: set<Sha>, r: Request) returns (closing: seq<Record>, pair: seq<Record>)
    requires Inv(d)
    ensures Closing(d, git, closing) && FreshPair(d.journal + closing, git, r, pair)
    ensures Appended(CallPlan(d, git, r).writes) == closing + pair
  {
    hide Inv, CallPlan, ApplyAll, Appended, FreshPair, Closing;
    if r.Execute? && r.sha !in git {
      closing, pair := [], [];
      NoPair(d.journal + closing, git, r);
      UnknownCommitAppends(d, git, r);
    } else {
      closing, pair := LiveCallAppends(d, git, r);
      assert d.journal + closing + pair == d.journal + (closing + pair);
      AppendedIs(d, CallPlan(d, git, r).writes, closing + pair);
    }
  }

  lemma AppliesNothing(d: Disk)
    ensures ApplyAll(d, []) == d
  {
  }

  /** The journal of one call, crashed or not, is the old journal and a prefix of closing + pair. */
  lemma StepAppends(d: Disk, c: Call) returns (closing: seq<Record>, pair: seq<Record>, n: nat)
    requires Inv(d)
    ensures Closing(d, c.git, closing) && FreshPair(d.journal + closing, c.git, c.request, pair)
    ensures n <= |closing + pair| && Step(d, c).journal == d.journal + (closing + pair)[..n]
  {
    closing, pair := CallAppends(d, c.git, c.request);
    var ws := CallPlan(d, c.git, c.request).writes;
    var k := if c.life < |ws| then c.life else |ws|;
    assert ws[..|ws|] == ws;
    AppendedPrefix(ws, k);
    JournalOfWrites(d, ws[..k]);
    n := |Appended(ws[..k])|;
  }

  lemma MentionsMore(j: seq<Record>, rs: seq<Record>, id: TxId)
    ensures Mentions(j + rs, id) <==> Mentions(j, id) || Mentions(rs, id)
  {
    if Mentions(j, id) {
      var i :| 0 <= i < |j| && j[i].tx.id == id;
      assert (j + rs)[i] == j[i];
    }
    if Mentions(rs, id) {
      var i :| 0 <= i < |rs| && rs[i].tx.id == id;
      assert (j + rs)[|j| + i] == rs[i];
    }
  }

  lemma GrowsWithoutPair(d: Disk, git: set<Sha>, closing: seq<Record>, n: nat, id: TxId)
    requires Closing(d, git, closing) && n <= |closing|
    ensures Grows(d.journal, d.journal + closing[..n], [])
    ensures Mentions(d.journal + closing[..n], id) ==> Mentions(d.journal, id)
  {
    GrowsClosing(d, git, closing, n);
    MentionsMore(d.journal, closing[..n], id);
    ClosingMentions(d, git, closing, n, id);
  }

  lemma GrowsWithPair(d: Disk, git: set<Sha>, closing: seq<Record>, pair: seq<Record>, m: nat, r: Request)
    requires Closing(d, git, closing) && FreshPair(d.journal + closing, git, r, pair) && 1 <= m <= |pair|
    ensures Grows(d.journal, d.journal + closing + pair[..m], [r.ki])
    ensures Mentions(d.journal + closing + pair[..m], r.id) && !Mentions(d.journal, r.id)
  {
    var j1 := d.journal + closing;
    GrowsClosing(d, git, closing, |closing|);
    assert closing[..|closing|] == closing;
    MentionsMore(d.journal, closing, r.id);
    MentionsMore(j1, pair[..m], r.id);
    assert pair[..m][0].tx.id == r.id;
    GrowsPair(j1, pair, m);
    GrowsThen(d.journal, j1, j1 + pair[..m], [], [r.ki]);
    assert [] + [r.ki] == [r.ki];
  }

  /** A call adds at most one transaction, its own, with the caller's item, and only once. */
  lemma StepGrows(d: Disk, c: Call)
    requires Inv(d)
    ensures Grows(d.journal, Step(d, c).journal, NewKis(d, c))
  {
    var closing, pair, n := StepAppends(d, c);
    hide Inv, Step, Grows;
    if n <= |closing| {
      assert (closing + pair)[..n] == closing[..n];
      GrowsWithoutPair(d, c.git, closing, n, if c.request.Execute? then c.request.id else "");
    } else {
      var m := n - |closing|;
      assert d.journal + (closing + pair)[..n] == d.journal + closing + pair[..m];
      GrowsWithPair(d, c.git, closing, pair, m, c.request);
    }
  }

  lemma GrowsNone(j: seq<Record>)
    ensures Grows(j, j, [])
  {
    assert Effects(PreparedRecords(j)) + [] == Effects(PreparedRecords(j));
  }

  lemma GrowsClosing(d: Disk, git: set<Sha>, closing: seq<Record>, n: nat)
    requires Closing(d, git, closing) && n <= |closing|
    ensures Grows(d.journal, d.journal + closing[..n], [])
  {
    if n == 0 {
      GrowsNone(d.journal);
      assert d.journal + closing[..n] == d.journal;
    } else {
      GrowsBy(d.journal, closing[0]);
      assert closing[..n] == [closing[0]];
    }
  }

  lemma ClosingMentions(d: Disk, git: set<Sha>, closing: seq<Record>, n: nat, id: TxId)
    requires Closing(d, git, closing) && n <= |closing|
    ensures Mentions(closing[..n], id) ==> Mentions(d.journal, id)
  {
    if n > 0 && closing[0].tx.id == id { assert d.journal[|d.journal| - 1].tx.id == id; }
  }

  lemma GrowsPair(j: seq<Record>, pair: seq<Record>, m: nat)
    requires |pair| == 2 && pair[0].state.Prepared? && !pair[1].state.Prepared? && 1 <= m <= 2
    ensures Grows(j, j + pair[..m], [Effect(pair[0].tx)])
  {
    GrowsBy(j, pair[0]);
    if m == 1 { assert pair[..m] == [pair[0]]; }
    else {
      GrowsBy(j + [pair[0]], pair[1]);
      GrowsThen(j, j + [pair[0]], j + [pair[0]] + [pair[1]], [Effect(pair[0].tx)], []);
      assert j + pair[..m] == j + [pair[0]] + [pair[1]];
      assert [Effect(pair[0].tx)] + [] == [Effect(pair[0].tx)];
    }
  }

  /** The PREPARED records of a reachable journal are exactly the durable calls, in call order. */
  lemma {:induction false} JournalIsCallLog(calls: seq<Call>)
    ensures Effects(PreparedRecords(Run(EMPTY_DISK, calls).journal)) == DurableKis(calls)
  {
    if calls != [] {
      var init, c := calls[..|calls| - 1], calls[|calls| - 1];
      JournalIsCallLog(init);
      ReachableInv(init);
      StepGrows(Run(EMPTY_DISK, init), c);
    }
  }

  // ---------- with Git intact: the store is a map, and recovery always rolls forward ----------

  /** Git never loses a commit: what a call can see, every later one and `git` can see too. */
  ghost predicate NothingLost(calls: seq<Call>, git: set<Sha>) {
    && (forall i :: 0 <= i < |calls| ==> calls[i].git <= git)
    && (forall i, j :: 0 <= i < j < |calls| ==> calls[i].git <= calls[j].git)
  }

  ghost predicate NothingAborted(j: seq<Record>, git: set<Sha>) {
    forall i :: 0 <= i < |j| ==> j[i].tx.commit in git && !j[i].state.Aborted?
  }

  lemma {:induction false} SteadyRunAbortsNothing(calls: seq<Call>, git: set<Sha>)
    requires NothingLost(calls, git)
    ensures NothingAborted(Run(EMPTY_DISK, calls).journal, git)
  {
    if calls != [] {
      var init, c := calls[..|calls| - 1], calls[|calls| - 1];
      SteadyRunAbortsNothing(init, c.git);
      ReachableInv(init);
      StepAbortsNothing(Run(EMPTY_DISK, init), c);
    }
  }

  lemma StepAbortsNothing(d: Disk, c: Call)
    requires Inv(d) && NothingAborted(d.journal, c.git)
    ensures NothingAborted(Step(d, c).journal, c.git)
  {
    var closing, pair, n := StepAppends(d, c);
    hide Inv, Step, Mentions;
    ClosingAbortsNothing(d, c.git, closing);
    PairAbortsNothing(d.journal + closing, c.git, c.request, pair);
    hide Closing, FreshPair;
    assert NothingAborted(closing + pair, c.git);
  }

  lemma ClosingAbortsNothing(d: Disk, git: set<Sha>, closing: seq<Record>)
    requires NothingAborted(d.journal, git) && Closing(d, git, closing)
    ensures NothingAborted(closing, git)
  {
    if closing != [] { assert d.journal[|d.journal| - 1].tx == LastTx(d); }
  }

  lemma PairAbortsNothing(j: seq<Record>, git: set<Sha>, r: Request, pair: seq<Record>)
    requires FreshPair(j, git, r, pair)
    ensures NothingAborted(pair, git)
  {
  }

  lemma {:induction false} AllSurvive(j: seq<Record>, whole: seq<Record>, git: set<Sha>)
    requires NothingAborted(whole, git)
    ensures Survivors(j, whole) == Effects(PreparedRecords(j))
  {
    if j != [] {
      AllSurvive(j[..|j| - 1], whole, git);
      var ps, last := PreparedRecords(j[..|j| - 1]), j[|j| - 1];
      assert Effects(ps + [last]) == Effects(ps) + [Effect(last.tx)];
      assert ps + [] == ps;
    }
  }

  lemma VisiblePointerKnown(calls: seq<Call>, git: set<Sha>)
    requires NothingLost(calls, git)
    ensures PointerKnown(Run(EMPTY_DISK, calls), git)
  {
    ReachableInv(calls);
    SteadyRunAbortsNothing(calls, git);
    var d := Run(EMPTY_DISK, calls);
    if d.current.Some? {
      var tx := d.current.value.tx;
      if LastCommitted(d.journal) == Some(tx) { CommittedRecord(d.journal); }
      else { assert d.journal[|d.journal| - 1].tx == tx; }
    }
  }

  /** However calls crashed before, a recovery that is not itself interrupted succeeds,
      aborts nothing, and shows every durable item exactly once, in call order. */
  lemma StoreIsMap(calls: seq<Call>, git: set<Sha>, life: nat)
    requires NothingLost(calls, git)
    requires life >= |CallPlan(Run(EMPTY_DISK, calls), git, Recover).writes|
    ensures var c := Call(Recover, git, life); var d := Run(EMPTY_DISK, calls);
            && (CallPlan(d, git, Recover).outcome.Clean? || CallPlan(d, git, Recover).outcome.Recovered?)
            && Visible(Run(EMPTY_DISK, calls + [c])) == Overlay(DurableKis(calls))
  {
    hide Run, CallPlan, Inv, DurableKis, Fold, NothingAborted, PointerKnown;
    var d, c := Run(EMPTY_DISK, calls), Call(Recover, git, life);
    var all := calls + [c];
    assert NothingLost(all, git);
    VisiblePointerKnown(calls, git);
    ReachableInv(calls);
    SteadyRunAbortsNothing(calls, git);
    RollsForward(d, git);
    VisibleIsFold(calls, c);
    SteadyRunAbortsNothing(all, git);
    FoldIsLog(all, git);
    RecoverAddsNothing(calls, c);
  }

  lemma FoldIsLog(calls: seq<Call>, git: set<Sha>)
    requires NothingAborted(Run(EMPTY_DISK, calls).journal, git)
    ensures Fold(Run(EMPTY_DISK, calls).journal) == Overlay(DurableKis(calls))
  {
    var j := Run(EMPTY_DISK, calls).journal;
    AllSurvive(j, j, git);
    JournalIsCallLog(calls);
  }

  lemma RecoverAddsNothing(calls: seq<Call>, c: Call)
    requires !c.request.Execute?
    ensures DurableKis(calls + [c]) == DurableKis(calls)
  {
    AppendInit(calls, c);
  }

  lemma RollsForward(d: Disk, git: set<Sha>)
    requires Inv(d) && PointerKnown(d, git) && NothingAborted(d.journal, git)
    ensures CallPlan(d, git, Recover).outcome.Clean? || CallPlan(d, git, Recover).outcome.Recovered?
  {
    FenceKeeps(d);
    var d1 := Apply(d, AdvanceFence);
    RecoveryCases(d1, git);
    hide Inv, RecoverPlan;
    if Open(d.journal) { assert d.journal[|d.journal| - 1].tx == LastTx(d1); }
  }

  // ---------- interrupted recovery resumes where it stopped ----------

  /** A disk with every fencing token forgotten. */
  function Forget(d: Disk): Disk {
    Disk(seq(|d.journal|, i requires 0 <= i < |d.journal| => d.journal[i].(token := 0)),
         d.staging, d.snapshots,
         match d.current case None => None case Some(p) => Some(p.(token := 0)),
         0)
  }

  lemma ClosedDown(d: Disk, git: set<Sha>, r: Record)
    requires Inv(d) && PointerKnown(d, git) && Open(d.journal) && !r.state.Prepared? && r.tx == LastTx(d)
    requires Inv(Apply(d, Append(r)))
    ensures RecoverPlan(Apply(d, Append(r)), git, d.fence) == Plan([], Clean)
  {
    hide Inv, RecoverPlan;
    assert !Open(Apply(d, Append(r)).journal);
    NothingToResolve(Apply(d, Append(r)), git);
  }

  lemma PromotedDown(d: Disk, git: set<Sha>)
    requires Inv(d) && PointerKnown(d, git) && Open(d.journal) && Staged(d, LastTx(d)) && LastTx(d).commit in git
    ensures var e := Apply(d, Promote(LastTx(d).id));
            Inv(e) && PointerKnown(e, git) && RecoverPlan(e, git, d.fence).writes == SwapAndClose(LastTx(d), d.fence)
  {
    PromoteKeeps(d);
    var e := Apply(d, Promote(LastTx(d).id));
    hide Inv, RecoverPlan;
    PendingIsNotCurrent(e);
    RecoveryCases(e, git);
  }

  lemma SwappedDown(d: Disk, git: set<Sha>)
    requires Inv(d) && PointerKnown(d, git) && Open(d.journal) && Promoted(d, LastTx(d)) && LastTx(d).commit in git
    requires d.fence >= 1
    ensures var e := Apply(d, SwapPointer(Pointer(LastTx(d), d.fence)));
            Inv(e) && PointerKnown(e, git)
            && RecoverPlan(e, git, d.fence).writes == [Append(Record(LastTx(d), Committed, d.fence))]
  {
    hide Inv, RecoverPlan;
    SwapKeeps(d, d.fence);
    var e := Apply(d, SwapPointer(Pointer(LastTx(d), d.fence)));
    RecoveryCases(e, git);
  }

  /** After its first write, recovery has exactly its remaining writes left to do. */
  lemma RecoveryStepsDown(d: Disk, git: set<Sha>)
    requires Inv(d) && PointerKnown(d, git) && d.fence >= 1
    requires RecoverPlan(d, git, d.fence).writes != []
    ensures var ws := RecoverPlan(d, git, d.fence).writes; var e := Apply(d, ws[0]);
            Inv(e) && PointerKnown(e, git) && e.fence == d.fence
            && RecoverPlan(e, git, e.fence).writes == ws[1..]
  {
    hide Inv, RecoverPlan, PointsAt, Staged, Promoted;
    RecoveryCases(d, git);
    PendingPhase(d);
    var tx, token := LastTx(d), d.fence;
    if tx.commit !in git {
      AbortKeeps(d, token);
      ClosedDown(d, git, Record(tx, Aborted, token));
    } else if Staged(d, tx) {
      PromotedDown(d, git);
    } else if PointsAt(d, LastCommitted(d.journal)) {
      PendingIsNotCurrent(d);
      SwappedDown(d, git);
    } else {
      CommitKeeps(d, token);
      ClosedDown(d, git, Record(tx, Committed, token));
    }
  }

  lemma PendingPhase(d: Disk)
    requires Inv(d)
    ensures Open(d.journal) && !Staged(d, LastTx(d)) ==> Promoted(d, LastTx(d))
    ensures Open(d.journal) && !PointsAt(d, LastCommitted(d.journal)) ==>
              PointsAt(d, Some(LastTx(d))) && CurrentId(d) == Some(LastTx(d).id)
  {
  }

  lemma {:induction false} RecoveryRemainder(d: Disk, git: set<Sha>, k: nat)
    requires Inv(d) && PointerKnown(d, git) && d.fence >= 1
    requires k <= |RecoverPlan(d, git, d.fence).writes|
    ensures var ws := RecoverPlan(d, git, d.fence).writes; var e := ApplyAll(d, ws[..k]);
            Inv(e) && PointerKnown(e, git) && e.fence == d.fence
            && RecoverPlan(e, git, e.fence).writes == ws[k..]
  {
    var ws := RecoverPlan(d, git, d.fence).writes;
    if k > 0 {
      RecoveryRemainder(d, git, k - 1);
      hide Inv, RecoverPlan, PointerKnown;
      assert ws[..k][..k - 1] == ws[..k - 1];
      RecoveryStepsDown(ApplyAll(d, ws[..k - 1]), git);
      assert ws[k - 1..][1..] == ws[k..];
    }
  }

  lemma SamePlanShape(d: Disk, git: set<Sha>)
    requires Inv(d) && PointerKnown(d, git)
    ensures var e := Apply(d, AdvanceFence);
            var p, q := RecoverPlan(d, git, d.fence), RecoverPlan(e, git, e.fence);
            |p.writes| == |q.writes| && p.outcome == q.outcome && Inv(e) && (p.writes == [] <==> !Open(d.journal))
  {
    FenceKeeps(d);
    hide Inv, RecoverPlan;
    RecoveryCases(d, git);
    RecoveryCases(Apply(d, AdvanceFence), git);
  }

  lemma ResolvedIgnoresToken(d: Disk, git: set<Sha>)
    requires Open(d.journal)
    ensures Forget(Resolved(d, git)) == Forget(Resolved(Apply(d, AdvanceFence), git))
  {
  }

  /** A newer fencing token changes neither how many writes recovery needs nor where it ends. */
  lemma RecoveryIgnoresToken(d: Disk, git: set<Sha>)
    requires Inv(d) && PointerKnown(d, git) && d.fence >= 1
    ensures var e := Apply(d, AdvanceFence);
            var p, q := RecoverPlan(d, git, d.fence), RecoverPlan(e, git, e.fence);
            |p.writes| == |q.writes| && p.outcome == q.outcome
            && Forget(ApplyAll(d, p.writes)) == Forget(ApplyAll(e, q.writes))
  {
    hide Inv, RecoverPlan, Safe, Resolved;
    var e := Apply(d, AdvanceFence);
    SamePlanShape(d, git);
    if Open(d.journal) {
      ResolutionSafe(d, git);
      ResolutionSafe(e, git);
      ResolvedIgnoresToken(d, git);
    } else {
      AppliesNothing(d);
      AppliesNothing(e);
    }
  }

  lemma RecoverCallSplits(d: Disk, git: set<Sha>, k: nat)
    requires 1 <= k <= |CallPlan(d, git, Recover).writes|
    ensures var d1 := Apply(d, AdvanceFence); var ws := RecoverPlan(d1, git, d1.fence).writes;
            var p := CallPlan(d, git, Recover);
            && p.writes == [AdvanceFence] + ws
            && Survive(d, p, k).0 == ApplyAll(d1, ws[..k - 1])
            && ApplyAll(d, p.writes) == ApplyAll(d1, ws)
  {
    var d1 := Apply(d, AdvanceFence);
    var ws := RecoverPlan(d1, git, d1.fence).writes;
    var p := CallPlan(d, git, Recover);
    assert p.writes == [AdvanceFence] + ws;
    hide RecoverPlan, CallPlan, ApplyAll;
    ApplySplit(d, [AdvanceFence], ws[..k - 1]);
    ApplySplit(d, [AdvanceFence], ws);
    OneWrite(d, AdvanceFence);
    assert p.writes[..k] == [AdvanceFence] + ws[..k - 1];
    assert k == |p.writes| ==> p.writes[..k] == p.writes;
  }

  /** Crashing a recovery after `k` of its durable writes and recovering again needs only the
      writes that were left, and ends on the same disk up to fencing tokens. */
  lemma InterruptedRecoveryResumes(d: Disk, git: set<Sha>, k: nat)
    requires Inv(d) && PointerKnown(d, git)
    requires 1 <= k <= |CallPlan(d, git, Recover).writes|
    ensures var p := CallPlan(d, git, Recover);
            var m := Survive(d, p, k).0;
            var q := CallPlan(m, git, Recover);
            |q.writes| == |p.writes| - k + 1
            && Forget(ApplyAll(m, q.writes)) == Forget(ApplyAll(d, p.writes))
  {
    FenceKeeps(d);
    hide Inv, RecoverPlan, PointerKnown, Forget, Survive, ApplyAll;
    var d1 := Apply(d, AdvanceFence);
    KnownAfterFence(d, git);
    RecoverCallSplits(d, git, k);
    var ws := RecoverPlan(d1, git, d1.fence).writes;
    RecoveryRemainder(d1, git, k - 1);
    var m := ApplyAll(d1, ws[..k - 1]);
    ApplySplit(d1, ws[..k - 1], ws[k - 1..]);
    assert ws == ws[..k - 1] + ws[k - 1..];
    RecoveryIgnoresToken(m, git);
    RecoverCallSplits(m, git, 1);
  }

  lemma KnownAfterFence(d: Disk, git: set<Sha>)
    requires PointerKnown(d, git)
    ensures PointerKnown(Apply(d, AdvanceFence), git)
  {
  }

  lemma OneWrite(d: Disk, w: Write)
    ensures ApplyAll(d, [w]) == Apply(d, w)
  {
    AppliesNothing(d);
    assert [w][..0] == [];
  }
}
