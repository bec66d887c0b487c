/** What every interleaving and every crash keeps of the locks. */
module LockTheorems {
  import opened LockModel

  type Acquisitions = map<Id, Acquisition>

  predicate HasFile(g: Stage) { g.Locked? || g.Fencing? || g.Fenced? || g.Dropping? || g.Held? }
  predicate IsPending(g: Stage) { g.Waiting? || g.Locked? || g.Fencing? || g.Fenced? }
  predicate IsTabled(g: Stage) { g.Held? || g.Unlocked? }

  predicate Live(xs: Acquisitions, live: set<Id>, a: Id) { a in xs && xs[a].manager in live }

  // ---------- the file locks ----------

  /** A file lock is taken exactly by the live acquisition that has it. */
  ghost predicate FilesInv(files: map<string, Id>, xs: Acquisitions, live: set<Id>) {
    && (forall a :: Live(xs, live, a) ==>
          (HasFile(xs[a].stage) <==> xs[a].execution in files && files[xs[a].execution] == a))
    && (forall e :: e in files ==> Live(xs, live, files[e]) && xs[files[e]].execution == e)
  }

  lemma FilesStay(files: map<string, Id>, xs: Acquisitions, live: set<Id>, a: Id, g: Stage)
    requires FilesInv(files, xs, live) && Live(xs, live, a) && HasFile(g) == HasFile(xs[a].stage)
    ensures FilesInv(files, xs[a := xs[a].(stage := g)], live)
  {
  }

  lemma FilesTaken(files: map<string, Id>, xs: Acquisitions, live: set<Id>, a: Id, g: Stage)
    requires FilesInv(files, xs, live) && Live(xs, live, a) && xs[a].execution !in files && HasFile(g)
    ensures FilesInv(files[xs[a].execution := a], xs[a := xs[a].(stage := g)], live)
  {
  }

  lemma FilesDropped(files: map<string, Id>, xs: Acquisitions, live: set<Id>, a: Id, g: Stage)
    requires FilesInv(files, xs, live) && Live(xs, live, a) && HasFile(xs[a].stage) && !HasFile(g)
    ensures FilesInv(files - {xs[a].execution}, xs[a := xs[a].(stage := g)], live)
  {
  }

  lemma FilesBegun(files: map<string, Id>, xs: Acquisitions, live: set<Id>, a: Id, x: Acquisition)
    requires FilesInv(files, xs, live) && a !in xs && !HasFile(x.stage)
    ensures FilesInv(files, xs[a := x], live)
  {
  }

  lemma OneHolder(files: map<string, Id>, xs: Acquisitions, live: set<Id>, a: Id, b: Id)
    requires FilesInv(files, xs, live) && Live(xs, live, a) && Live(xs, live, b)
    requires HasFile(xs[a].stage) && HasFile(xs[b].stage) && xs[a].execution == xs[b].execution
    ensures a == b
  {
  }

  // ---------- the tokens ----------

  predicate IssuedOk(fence: map<string, nat>, issued: seq<Issue>) {
    && (forall i :: 0 <= i < |issued| ==>
          issued[i].execution in fence && 1 <= issued[i].token <= fence[issued[i].execution])
    && (forall i, j :: 0 <= i < j < |issued| && issued[i].execution == issued[j].execution ==>
          issued[i].token < issued[j].token)
    && (forall i, j :: 0 <= i < j < |issued| ==> issued[i].acquisition != issued[j].acquisition)
    && (forall e :: e in fence ==> LastIssue(fence, issued, e))
  }

  predicate Unissued(issued: seq<Issue>, a: Id) { forall i :: 0 <= i < |issued| ==> issued[i].acquisition != a }

  predicate LastIssue(fence: map<string, nat>, issued: seq<Issue>, e: string)
    requires e in fence
  {
    exists i :: 0 <= i < |issued| && issued[i].execution == e && issued[i].token == fence[e]
  }

  function Current(fence: map<string, nat>, e: string): nat { if e in fence then fence[e] else 0 }

  /** While the file lock is held nothing else can be published; a handle's token was issued to it. */
  predicate TokenOk(fence: map<string, nat>, issued: seq<Issue>, a: Id, x: Acquisition) {
    match x.stage
    case Waiting => Unissued(issued, a)
    case Locked => Unissued(issued, a)
    case Fencing(n) => n == Current(fence, x.execution) && Unissued(issued, a)
    case Fenced(n) => n == Current(fence, x.execution) && Issue(x.execution, n, a) in issued
    case Held(n) => n == Current(fence, x.execution) && Issue(x.execution, n, a) in issued
    case Unlocked(n) => Issue(x.execution, n, a) in issued
    case _ => true
  }

  ghost predicate TokensInv(fence: map<string, nat>, issued: seq<Issue>, xs: Acquisitions, live: set<Id>) {
    && IssuedOk(fence, issued) && (forall a :: Live(xs, live, a) ==> TokenOk(fence, issued, a, xs[a]))
    && (forall i :: 0 <= i < |issued| ==> issued[i].acquisition in xs)
  }

  lemma NextIssue(fence: map<string, nat>, issued: seq<Issue>, e: string, a: Id)
    requires IssuedOk(fence, issued) && Unissued(issued, a)
    ensures var n := Current(fence, e) + 1; IssuedOk(fence[e := n], issued + [Issue(e, n, a)])
  {
    var n := Current(fence, e) + 1;
    var f2, i2 := fence[e := n], issued + [Issue(e, n, a)];
    forall f | f in f2 ensures LastIssue(f2, i2, f) {
      if f == e {
        assert i2[|issued|].execution == f;
      } else {
        assert LastIssue(fence, issued, f);
        var i :| 0 <= i < |issued| && issued[i].execution == f && issued[i].token == fence[f];
        assert i2[i] == issued[i];
      }
    }
  }

  lemma TokensStay(fence: map<string, nat>, issued: seq<Issue>, xs: Acquisitions, live: set<Id>, a: Id, x: Acquisition)
    requires TokensInv(fence, issued, xs, live) && TokenOk(fence, issued, a, x)
    ensures TokensInv(fence, issued, xs[a := x], live)
  {
    hide IssuedOk, TokenOk;
  }

  lemma TokensPublished(
    files: map<string, Id>, fence: map<string, nat>, issued: seq<Issue>, xs: Acquisitions, live: set<Id>, a: Id)
    requires TokensInv(fence, issued, xs, live) && FilesInv(files, xs, live) && Live(xs, live, a)
    requires xs[a].stage == Fencing(Current(fence, xs[a].execution))
    ensures var n := Current(fence, xs[a].execution) + 1;
            TokensInv(fence[xs[a].execution := n], issued + [Issue(xs[a].execution, n, a)],
                      xs[a := xs[a].(stage := Fenced(n))], live)
  {
    var e := xs[a].execution;
    var n := Current(fence, e) + 1;
    assert TokenOk(fence, issued, a, xs[a]);
    NextIssue(fence, issued, e, a);
    var f2, i2, ys := fence[e := n], issued + [Issue(e, n, a)], xs[a := xs[a].(stage := Fenced(n))];
    hide IssuedOk;
    forall b | Live(ys, live, b) ensures TokenOk(f2, i2, b, ys[b]) {
      if b != a {
        assert TokenOk(fence, issued, b, xs[b]);
        if HasFile(xs[b].stage) && xs[b].execution == e { OneHolder(files, xs, live, a, b); }
      }
    }
  }

  // ---------- the tables ----------

  /** The tables of a manager are inverses of each other and disjoint from what is pending. */
  predicate TablesOk(t: Tables) {
    && (forall a :: a in t.active ==> t.active[a] in t.byExecution && t.byExecution[t.active[a]] == a)
    && (forall e :: e in t.byExecution ==> t.byExecution[e] in t.active && t.active[t.byExecution[e]] == e)
    && t.byExecution.Keys !! t.pending
  }

  /** An acquisition is in the tables of its manager just as its stage says. */
  predicate EntryOk(t: Tables, a: Id, x: Acquisition) {
    && (IsPending(x.stage) ==> x.execution in t.pending)
    && (IsTabled(x.stage) <==> a in t.active)
    && (a in t.active ==> t.active[a] == x.execution)
  }

  /** The acquisitions of one manager, and its tables. */
  ghost predicate ManagerOk(t: Tables, xs: Acquisitions, m: Id) {
    && TablesOk(t)
    && (forall a :: a in xs && xs[a].manager == m ==> EntryOk(t, a, xs[a]))
    && (forall a :: a in t.active ==> a in xs && xs[a].manager == m)
    && (forall a, b :: OfOneManager(xs, m, a, b) && IsPending(xs[a].stage) && IsPending(xs[b].stage) ==> a == b)
  }

  predicate OfOneManager(xs: Acquisitions, m: Id, a: Id, b: Id) {
    a in xs && b in xs && xs[a].manager == m && xs[b].manager == m && xs[a].execution == xs[b].execution
  }

  ghost predicate ManagersInv(managers: map<Id, Tables>, xs: Acquisitions) {
    forall m :: m in managers ==> ManagerOk(managers[m], xs, m)
  }

  /** A change of one acquisition concerns its own manager only. */
  lemma OtherManagers(managers: map<Id, Tables>, xs: Acquisitions, a: Id, x: Acquisition, t: Tables)
    requires ManagersInv(managers, xs) && (a in xs ==> xs[a].manager == x.manager)
    requires ManagerOk(t, xs[a := x], x.manager)
    ensures ManagersInv(managers[x.manager := t], xs[a := x])
  {
    var ys := xs[a := x];
    forall m | m in managers && m != x.manager ensures ManagerOk(managers[m], ys, m) {
      assert ManagerOk(managers[m], xs, m);
      hide TablesOk, EntryOk, IsPending;
      forall b, c | OfOneManager(ys, m, b, c) && IsPending(ys[b].stage) && IsPending(ys[c].stage) ensures b == c {
        assert OfOneManager(xs, m, b, c);
      }
    }
  }

  lemma EntryMoves(t: Tables, xs: Acquisitions, m: Id, a: Id, g: Stage)
    requires ManagerOk(t, xs, m) && a in xs && xs[a].manager == m
    requires IsPending(g) == IsPending(xs[a].stage) && IsTabled(g) == IsTabled(xs[a].stage)
    ensures ManagerOk(t, xs[a := xs[a].(stage := g)], m)
  {
    var ys := xs[a := xs[a].(stage := g)];
    hide TablesOk;
    forall b | b in ys && ys[b].manager == m ensures EntryOk(t, b, ys[b]) { assert EntryOk(t, b, xs[b]); }
    forall b, c | OfOneManager(ys, m, b, c) && IsPending(ys[b].stage) && IsPending(ys[c].stage) ensures b == c {
      assert OfOneManager(xs, m, b, c);
    }
  }

  lemma EntryBegins(t: Tables, xs: Acquisitions, m: Id, a: Id, e: string)
    requires ManagerOk(t, xs, m) && a !in xs && e !in t.byExecution && e !in t.pending
    ensures ManagerOk(t.(pending := t.pending + {e}), xs[a := Acquisition(m, e, Waiting)], m)
  {
    var u, ys := t.(pending := t.pending + {e}), xs[a := Acquisition(m, e, Waiting)];
    forall b | b in ys && ys[b].manager == m ensures EntryOk(u, b, ys[b]) {
      if b != a { assert EntryOk(t, b, xs[b]); }
    }
    forall o | o in xs && xs[o].manager == m && IsPending(xs[o].stage) ensures xs[o].execution != e {
      assert EntryOk(t, o, xs[o]);
    }
    forall b, c | OfOneManager(ys, m, b, c) && IsPending(ys[b].stage) && IsPending(ys[c].stage) ensures b == c {
      if b != a && c != a { assert OfOneManager(xs, m, b, c); }
    }
  }

  /** The only pending acquisition of an execution leaves the pending set. */
  lemma PendingLeaves(t: Tables, xs: Acquisitions, m: Id, a: Id, b: Id)
    requires ManagerOk(t, xs, m) && a in xs && b in xs && xs[a].manager == m && xs[b].manager == m && a != b
    requires IsPending(xs[a].stage) && IsPending(xs[b].stage)
    ensures xs[b].execution in t.pending - {xs[a].execution}
  {
    assert EntryOk(t, b, xs[b]);
    assert !OfOneManager(xs, m, a, b);
  }

  lemma EntryEnters(t: Tables, xs: Acquisitions, m: Id, a: Id, g: Stage)
    requires ManagerOk(t, xs, m) && a in xs && xs[a].manager == m && IsPending(xs[a].stage) && IsTabled(g)
             && !IsPending(g)
    ensures var e := xs[a].execution;
            ManagerOk(Tables(t.active[a := e], t.byExecution[e := a], t.pending - {e}), xs[a := xs[a].(stage := g)], m)
  {
    var e := xs[a].execution;
    var u, ys := Tables(t.active[a := e], t.byExecution[e := a], t.pending - {e}), xs[a := xs[a].(stage := g)];
    assert EntryOk(t, a, xs[a]);
    assert TablesOk(u);
    hide TablesOk;
    forall b | b in ys && ys[b].manager == m ensures EntryOk(u, b, ys[b]) {
      assert EntryOk(t, b, xs[b]);
      if b != a && IsPending(xs[b].stage) { PendingLeaves(t, xs, m, a, b); }
    }
    forall b, c | OfOneManager(ys, m, b, c) && IsPending(ys[b].stage) && IsPending(ys[c].stage) ensures b == c {
      assert OfOneManager(xs, m, b, c);
    }
  }

  lemma EntryGivesUp(t: Tables, xs: Acquisitions, m: Id, a: Id, g: Stage)
    requires ManagerOk(t, xs, m) && a in xs && xs[a].manager == m && IsPending(xs[a].stage) && !IsTabled(g)
             && !IsPending(g)
    ensures ManagerOk(t.(pending := t.pending - {xs[a].execution}), xs[a := xs[a].(stage := g)], m)
  {
    var u, ys := t.(pending := t.pending - {xs[a].execution}), xs[a := xs[a].(stage := g)];
    assert TablesOk(u);
    hide TablesOk;
    forall b | b in ys && ys[b].manager == m ensures EntryOk(u, b, ys[b]) {
      assert EntryOk(t, b, xs[b]);
      if b != a && IsPending(xs[b].stage) { PendingLeaves(t, xs, m, a, b); }
    }
    forall b, c | OfOneManager(ys, m, b, c) && IsPending(ys[b].stage) && IsPending(ys[c].stage) ensures b == c {
      assert OfOneManager(xs, m, b, c);
    }
  }

  lemma EntryLeaves(t: Tables, xs: Acquisitions, m: Id, a: Id, g: Stage)
    requires ManagerOk(t, xs, m) && a in xs && xs[a].manager == m && IsTabled(xs[a].stage) && !IsTabled(g)
             && !IsPending(g)
    ensures ManagerOk(t.(active := t.active - {a}, byExecution := t.byExecution - {xs[a].execution}),
                      xs[a := xs[a].(stage := g)], m)
  {
    var e := xs[a].execution;
    var u, ys := t.(active := t.active - {a}, byExecution := t.byExecution - {e}), xs[a := xs[a].(stage := g)];
    assert EntryOk(t, a, xs[a]);
    assert TablesOk(u);
    hide TablesOk;
    forall b | b in ys && ys[b].manager == m ensures EntryOk(u, b, ys[b]) { assert EntryOk(t, b, xs[b]); }
    forall b, c | OfOneManager(ys, m, b, c) && IsPending(ys[b].stage) && IsPending(ys[c].stage) ensures b == c {
      assert OfOneManager(xs, m, b, c);
    }
  }

  // ---------- every step ----------

  ghost predicate Inv(s: State) {
    && FilesInv(s.files, s.acquisitions, s.managers.Keys)
    && TokensInv(s.fence, s.issued, s.acquisitions, s.managers.Keys)
    && ManagersInv(s.managers, s.acquisitions)
  }

  lemma AtManager(s: State, a: Id)
    requires Inv(s) && Running(s, a)
    ensures ManagerOk(s.managers[s.acquisitions[a].manager], s.acquisitions, s.acquisitions[a].manager)
    ensures TokenOk(s.fence, s.issued, a, s.acquisitions[a]) && Live(s.acquisitions, s.managers.Keys, a)
    ensures s.managers[s.acquisitions[a].manager := s.managers[s.acquisitions[a].manager]] == s.managers
    ensures FilesInv(s.files, s.acquisitions, s.managers.Keys)
    ensures TokensInv(s.fence, s.issued, s.acquisitions, s.managers.Keys)
  {
    hide ManagerOk, TokenOk, IssuedOk;
  }

  /** The invariant of a state that differs in one acquisition, its manager's tables, and perhaps the files. */
  lemma Moved(
    s: State, a: Id, g: Stage, files: map<string, Id>, fence: map<string, nat>, issued: seq<Issue>, t: Tables)
    requires Inv(s) && Running(s, a)
    requires var x, live := s.acquisitions[a], s.managers.Keys;
             var ys := s.acquisitions[a := x.(stage := g)];
             FilesInv(files, ys, live) && TokensInv(fence, issued, ys, live) && ManagerOk(t, ys, x.manager)
    ensures var x := s.acquisitions[a];
            Inv(State(files, fence, s.managers[x.manager := t], s.acquisitions[a := x.(stage := g)], issued))
  {
    var x := s.acquisitions[a];
    assert s.managers[x.manager := t].Keys == s.managers.Keys;
    hide FilesInv, TokensInv, ManagerOk;
    OtherManagers(s.managers, s.acquisitions, a, x.(stage := g), t);
  }

  /** A step within one stage group changes nothing but the stage. */
  lemma QuietKeeps(s: State, a: Id, g: Stage)
    requires Inv(s) && Running(s, a) && TokenOk(s.fence, s.issued, a, s.acquisitions[a].(stage := g))
    requires var h := s.acquisitions[a].stage;
             HasFile(g) == HasFile(h) && IsPending(g) == IsPending(h) && IsTabled(g) == IsTabled(h)
    ensures Inv(At(s, a, s.acquisitions[a], g))
  {
    AtManager(s, a);
    var x, xs, live := s.acquisitions[a], s.acquisitions, s.managers.Keys;
    hide Inv, FilesInv, TokensInv, ManagersInv, ManagerOk, TokenOk;
    FilesStay(s.files, xs, live, a, g);
    TokensStay(s.fence, s.issued, xs, live, a, x.(stage := g));
    EntryMoves(s.managers[x.manager], xs, x.manager, a, g);
    Moved(s, a, g, s.files, s.fence, s.issued, s.managers[x.manager]);
  }

  lemma OverIsOk(s: State, a: Id)
    requires Running(s, a)
    ensures TokenOk(s.fence, s.issued, a, s.acquisitions[a].(stage := Over))
  {
  }

  lemma ReadKeeps(s: State, a: Id)
    requires Inv(s) && Running(s, a) && s.acquisitions[a].stage.Locked?
    ensures Inv(At(s, a, s.acquisitions[a], Fencing(TokenOf(s, s.acquisitions[a].execution))))
  {
    AtManager(s, a);
    hide Inv;
    QuietKeeps(s, a, Fencing(TokenOf(s, s.acquisitions[a].execution)));
  }

  lemma TakeKeeps(s: State, a: Id)
    requires Inv(s) && Running(s, a) && s.acquisitions[a].stage.Waiting?
    ensures var x := s.acquisitions[a];
            x.execution !in s.files ==> Inv(At(s.(files := s.files[x.execution := a]), a, x, Locked))
  {
    var x, xs, live := s.acquisitions[a], s.acquisitions, s.managers.Keys;
    AtManager(s, a);
    hide Inv, FilesInv, TokensInv, ManagersInv, ManagerOk;
    if x.execution !in s.files {
      FilesTaken(s.files, xs, live, a, Locked);
      TokensStay(s.fence, s.issued, xs, live, a, x.(stage := Locked));
      EntryMoves(s.managers[x.manager], xs, x.manager, a, Locked);
      Moved(s, a, Locked, s.files[x.execution := a], s.fence, s.issued, s.managers[x.manager]);
    }
  }

  lemma FencingIsCurrent(s: State, a: Id)
    requires Inv(s) && Running(s, a) && s.acquisitions[a].stage.Fencing?
    ensures s.acquisitions[a].stage == Fencing(Current(s.fence, s.acquisitions[a].execution))
  {
    AtManager(s, a);
    hide Inv;
  }

  lemma UnlockedIsOk(s: State, a: Id)
    requires Inv(s) && Running(s, a) && s.acquisitions[a].stage.Held?
    ensures TokenOk(s.fence, s.issued, a, s.acquisitions[a].(stage := Unlocked(s.acquisitions[a].stage.token)))
  {
    AtManager(s, a);
    hide Inv;
  }

  lemma PublishParts(s: State, a: Id, x: Acquisition, n: nat, ys: Acquisitions)
    requires Inv(s) && Running(s, a) && x == s.acquisitions[a] && x.stage.Fencing? && n == x.stage.read + 1
    requires ys == s.acquisitions[a := x.(stage := Fenced(n))]
    ensures FilesInv(s.files, ys, s.managers.Keys) && ManagerOk(s.managers[x.manager], ys, x.manager)
    ensures TokensInv(s.fence[x.execution := n], s.issued + [Issue(x.execution, n, a)], ys, s.managers.Keys)
  {
    hide FilesInv, TokensInv, ManagersInv, ManagerOk, TokenOk, Inv;
    AtManager(s, a);
    FencingIsCurrent(s, a);
    FilesStay(s.files, s.acquisitions, s.managers.Keys, a, Fenced(n));
    TokensPublished(s.files, s.fence, s.issued, s.acquisitions, s.managers.Keys, a);
    EntryMoves(s.managers[x.manager], s.acquisitions, x.manager, a, Fenced(n));
  }

  lemma PublishKeeps(s: State, a: Id, x: Acquisition, n: nat)
    requires Inv(s) && Running(s, a) && x == s.acquisitions[a] && x.stage.Fencing? && n == x.stage.read + 1
    ensures Inv(State(s.files, s.fence[x.execution := n], s.managers[x.manager := s.managers[x.manager]],
                      s.acquisitions[a := x.(stage := Fenced(n))], s.issued + [Issue(x.execution, n, a)]))
  {
    hide FilesInv, TokensInv, ManagersInv, ManagerOk, TokenOk, Inv;
    PublishParts(s, a, x, n, s.acquisitions[a := x.(stage := Fenced(n))]);
    Moved(s, a, Fenced(n), s.files, s.fence[x.execution := n], s.issued + [Issue(x.execution, n, a)],
      s.managers[x.manager]);
  }

  lemma EnterKeeps(s: State, a: Id)
    requires Inv(s) && Running(s, a) && s.acquisitions[a].stage.Fenced?
    ensures var x := s.acquisitions[a];
            var t, e := s.managers[x.manager], x.execution;
            Inv(At(WithTables(s, x.manager, Tables(t.active[a := e], t.byExecution[e := a], t.pending - {e})), a, x,
                   Held(x.stage.token)))
  {
    var x, xs, live := s.acquisitions[a], s.acquisitions, s.managers.Keys;
    var t, e, g := s.managers[x.manager], x.execution, Held(x.stage.token);
    var u := Tables(t.active[a := e], t.byExecution[e := a], t.pending - {e});
    AtManager(s, a);
    assert s.managers[x.manager := u].Keys == live;
    hide Inv, FilesInv, TokensInv, ManagersInv, ManagerOk;
    FilesStay(s.files, xs, live, a, g);
    TokensStay(s.fence, s.issued, xs, live, a, x.(stage := g));
    EntryEnters(t, xs, x.manager, a, g);
    Moved(s, a, g, s.files, s.fence, s.issued, u);
  }

  lemma DropKeeps(s: State, a: Id)
    requires Inv(s) && Running(s, a) && s.acquisitions[a].stage.Dropping?
    ensures var x := s.acquisitions[a]; Inv(At(s.(files := s.files - {x.execution}), a, x, Over))
  {
    var x, xs, live := s.acquisitions[a], s.acquisitions, s.managers.Keys;
    AtManager(s, a);
    hide Inv, FilesInv, TokensInv, ManagersInv, ManagerOk;
    FilesDropped(s.files, xs, live, a, Over);
    TokensStay(s.fence, s.issued, xs, live, a, x.(stage := Over));
    EntryMoves(s.managers[x.manager], xs, x.manager, a, Over);
    Moved(s, a, Over, s.files - {x.execution}, s.fence, s.issued, s.managers[x.manager]);
  }

  lemma LeaveKeeps(s: State, a: Id)
    requires Inv(s) && Running(s, a) && s.acquisitions[a].stage.Unlocked?
    ensures var x := s.acquisitions[a];
            var t := s.managers[x.manager];
            Inv(At(WithTables(s, x.manager,
              t.(active := t.active - {a}, byExecution := t.byExecution - {x.execution})), a, x,
                   Over))
  {
    var x, xs, live := s.acquisitions[a], s.acquisitions, s.managers.Keys;
    var t := s.managers[x.manager];
    var u := t.(active := t.active - {a}, byExecution := t.byExecution - {x.execution});
    AtManager(s, a);
    assert s.managers[x.manager := u].Keys == live;
    hide Inv, FilesInv, TokensInv, ManagersInv, ManagerOk, TokenOk;
    FilesStay(s.files, xs, live, a, Over);
    TokensStay(s.fence, s.issued, xs, live, a, x.(stage := Over)) by { OverIsOk(s, a); }
    EntryLeaves(t, xs, x.manager, a, Over);
    Moved(s, a, Over, s.files, s.fence, s.issued, u);
  }

  lemma MoveKeeps(s: State, a: Id)
    requires Inv(s) && Running(s, a)
    ensures Inv(Move(s, a, s.acquisitions[a]))
  {
    hide Inv, FilesInv, TokensInv, ManagerOk, TokenOk;
    match s.acquisitions[a].stage
    case Waiting => TakeKeeps(s, a);
    case Locked => ReadKeeps(s, a);
    case Fencing(n) =>
      AtManager(s, a);
      PublishKeeps(s, a, s.acquisitions[a], n + 1);
    case Fenced(_) => EnterKeeps(s, a);
    case Dropping => DropKeeps(s, a);
    case Unlocked(_) => LeaveKeeps(s, a);
    case _ =>
  }

  lemma AbandonKeeps(s: State, a: Id, x: Acquisition, g: Stage)
    requires Inv(s) && Running(s, a) && x == s.acquisitions[a] && IsPending(x.stage)
    requires g == if x.stage.Waiting? then Over else Dropping
    ensures var t := s.managers[x.manager];
            Inv(State(s.files, s.fence, s.managers[x.manager := t.(pending := t.pending - {x.execution})],
                      s.acquisitions[a := x.(stage := g)], s.issued))
  {
    AtManager(s, a);
    assert TokenOk(s.fence, s.issued, a, x.(stage := g));
    hide Inv, FilesInv, TokensInv, ManagersInv, ManagerOk, TokenOk;
    var t := s.managers[x.manager];
    FilesStay(s.files, s.acquisitions, s.managers.Keys, a, g);
    TokensStay(s.fence, s.issued, s.acquisitions, s.managers.Keys, a, x.(stage := g));
    EntryGivesUp(t, s.acquisitions, x.manager, a, g);
    Moved(s, a, g, s.files, s.fence, s.issued, t.(pending := t.pending - {x.execution}));
  }

  lemma ReleaseParts(s: State, a: Id, x: Acquisition, g: Stage, ys: Acquisitions)
    requires Inv(s) && Running(s, a) && x == s.acquisitions[a] && x.stage.Held? && g == Unlocked(x.stage.token)
    requires ys == s.acquisitions[a := x.(stage := g)]
    ensures FilesInv(s.files - {x.execution}, ys, s.managers.Keys) && ManagerOk(s.managers[x.manager], ys, x.manager)
    ensures TokensInv(s.fence, s.issued, ys, s.managers.Keys)
  {
    hide Inv, FilesInv, TokensInv, ManagersInv, ManagerOk, TokenOk;
    AtManager(s, a);
    UnlockedIsOk(s, a);
    FilesDropped(s.files, s.acquisitions, s.managers.Keys, a, g);
    TokensStay(s.fence, s.issued, s.acquisitions, s.managers.Keys, a, x.(stage := g));
    EntryMoves(s.managers[x.manager], s.acquisitions, x.manager, a, g);
  }

  lemma ReleaseKeeps(s: State, a: Id, x: Acquisition, g: Stage)
    requires Inv(s) && Running(s, a) && x == s.acquisitions[a] && x.stage.Held? && g == Unlocked(x.stage.token)
    ensures Inv(State(s.files - {x.execution}, s.fence, s.managers[x.manager := s.managers[x.manager]],
                      s.acquisitions[a := x.(stage := g)], s.issued))
  {
    hide Inv, FilesInv, TokensInv, ManagersInv, ManagerOk, TokenOk;
    ReleaseParts(s, a, x, g, s.acquisitions[a := x.(stage := g)]);
    Moved(s, a, g, s.files - {x.execution}, s.fence, s.issued, s.managers[x.manager]);
  }

  lemma NewIsUnissued(s: State, a: Id)
    requires Inv(s) && a !in s.acquisitions
    ensures Unissued(s.issued, a)
  {
  }

  lemma BeginKeeps(s: State, a: Id, m: Id, e: string)
    requires Inv(s) && a !in s.acquisitions && m in s.managers
    requires e !in s.managers[m].byExecution && e !in s.managers[m].pending
    ensures Inv(Step(s, Begin(a, m, e)))
  {
    var x, xs, live, t := Acquisition(m, e, Waiting), s.acquisitions, s.managers.Keys, s.managers[m];
    var u := Step(s, Begin(a, m, e));
    assert ManagerOk(t, xs, m) && u.managers.Keys == live;
    hide FilesInv, TokensInv, ManagersInv, ManagerOk;
    FilesBegun(s.files, xs, live, a, x);
    NewIsUnissued(s, a);
    TokensStay(s.fence, s.issued, xs, live, a, x);
    EntryBegins(t, xs, m, a, e);
    OtherManagers(s.managers, xs, a, x, u.managers[m]);
  }

  lemma CrashFiles(s: State, m: Id)
    requires FilesInv(s.files, s.acquisitions, s.managers.Keys) && m in s.managers
    ensures var t := Step(s, Crash(m)); FilesInv(t.files, t.acquisitions, t.managers.Keys)
  {
  }

  lemma CrashKeeps(s: State, m: Id)
    requires Inv(s) && m in s.managers
    ensures Inv(Step(s, Crash(m)))
  {
    var t := Step(s, Crash(m));
    CrashFiles(s, m);
    hide FilesInv, IssuedOk, TokenOk, ManagerOk;
    forall a | Live(t.acquisitions, t.managers.Keys, a) ensures Live(s.acquisitions, s.managers.Keys, a) {}
  }

  /** More live managers without acquisitions change nothing. */
  lemma LiveGrows(files: map<string, Id>, fence: map<string, nat>, issued: seq<Issue>, xs: Acquisitions, live: set<Id>,
      more: set<Id>)
    requires FilesInv(files, xs, live) && TokensInv(fence, issued, xs, live)
    requires forall a :: Live(xs, more, a) <==> Live(xs, live, a)
    ensures FilesInv(files, xs, more) && TokensInv(fence, issued, xs, more)
  {
    hide IssuedOk, TokenOk, HasFile, Live;
  }

  lemma OpenTables(managers: map<Id, Tables>, xs: Acquisitions, m: Id)
    requires ManagersInv(managers, xs) && m !in managers && forall a :: a in xs ==> xs[a].manager != m
    ensures ManagersInv(managers[m := Tables(map[], map[], {})], xs)
  {
    hide IsPending;
  }

  lemma OpenKeeps(s: State, m: Id)
    requires Inv(s) && m !in s.managers && forall a :: a in s.acquisitions ==> s.acquisitions[a].manager != m
    ensures Inv(Step(s, Open(m)))
  {
    var t := Step(s, Open(m));
    hide FilesInv, TokensInv, ManagersInv;
    assert forall a :: Live(s.acquisitions, t.managers.Keys, a) <==> Live(s.acquisitions, s.managers.Keys, a);
    LiveGrows(s.files, s.fence, s.issued, s.acquisitions, s.managers.Keys, t.managers.Keys);
    OpenTables(s.managers, s.acquisitions, m);
  }

  /** A manager object is made once; acquisitions name managers that were opened before. */
  ghost predicate Opened(s: State, m: Id) {
    m in s.managers || exists a :: a in s.acquisitions && s.acquisitions[a].manager == m
  }

  lemma StepKeeps(s: State, c: Action)
    requires Inv(s) && (c.Open? ==> !Opened(s, c.m))
    ensures Inv(Step(s, c))
  {
    hide Inv, Move, FilesInv, TokensInv, ManagerOk, TokenOk;
    match c
    case Open(m) => OpenKeeps(s, m);
    case Begin(a, m, e) =>
      if a !in s.acquisitions && m in s.managers && e !in s.managers[m].byExecution && e !in s.managers[m].pending {
        BeginKeeps(s, a, m, e);
      }
    case Advance(a) => if Running(s, a) { MoveKeeps(s, a); }
    case GiveUp(a) =>
      if Running(s, a) && IsPending(s.acquisitions[a].stage) {
        AbandonKeeps(s, a, s.acquisitions[a], if s.acquisitions[a].stage.Waiting? then Over else Dropping);
      }
    case Release(a) =>
      if Running(s, a) && s.acquisitions[a].stage.Held? {
        AtManager(s, a);
        ReleaseKeeps(s, a, s.acquisitions[a], Unlocked(s.acquisitions[a].stage.token));
      }
    case Crash(m) => if m in s.managers { CrashKeeps(s, m); }
  }

  /** Every manager of a run is a new object. */
  ghost predicate FreshManagers(actions: seq<Action>) {
    actions != [] ==>
      && FreshManagers(actions[..|actions| - 1])
      && var c := actions[|actions| - 1];
         c.Open? ==> !Opened(Run(INITIAL, actions[..|actions| - 1]), c.m)
  }

  lemma {:induction false} ReachableInv(actions: seq<Action>)
    requires FreshManagers(actions)
    ensures Inv(Run(INITIAL, actions))
  {
    if actions != [] {
      ReachableInv(actions[..|actions| - 1]);
      hide Inv, Step, Opened;
      StepKeeps(Run(INITIAL, actions[..|actions| - 1]), actions[|actions| - 1]);
    }
  }

  // ---------- the guarantees ----------

  /** In order of publication, the tokens of an execution strictly increase, whatever crashed in between. */
  lemma TokensIncrease(actions: seq<Action>, i: nat, j: nat)
    requires FreshManagers(actions) && i < j < |Run(INITIAL, actions).issued|
    requires Run(INITIAL, actions).issued[i].execution == Run(INITIAL, actions).issued[j].execution
    ensures Run(INITIAL, actions).issued[i].token < Run(INITIAL, actions).issued[j].token
  {
    ReachableInv(actions);
    hide Run, FilesInv, ManagersInv;
  }

  /** The token file holds the greatest token ever published for its execution. */
  lemma FileHoldsGreatest(actions: seq<Action>, i: nat)
    requires FreshManagers(actions) && i < |Run(INITIAL, actions).issued|
    ensures var s := Run(INITIAL, actions);
            var e := s.issued[i].execution;
            && s.issued[i].token <= TokenOf(s, e)
            && exists j :: 0 <= j < |s.issued| && s.issued[j].execution == e && s.issued[j].token == TokenOf(s, e)
  {
    ReachableInv(actions);
    hide Run, FilesInv, ManagersInv;
    var s := Run(INITIAL, actions);
    assert LastIssue(s.fence, s.issued, s.issued[i].execution);
  }

  /** The tables of every live manager are inverses of each other, disjoint from what is pending. */
  lemma TablesAreInverse(actions: seq<Action>, m: Id)
    requires FreshManagers(actions) && m in Run(INITIAL, actions).managers
    ensures TablesOk(Run(INITIAL, actions).managers[m])
  {
    ReachableInv(actions);
    hide Run, FilesInv, TokensInv, TablesOk;
    assert ManagerOk(Run(INITIAL, actions).managers[m], Run(INITIAL, actions).acquisitions, m);
  }

  /** Among all processes, at most one acquisition of an execution has its file lock. */
  lemma MutualExclusion(actions: seq<Action>, a: Id, b: Id)
    requires FreshManagers(actions)
    requires var s := Run(INITIAL, actions);
             && Running(s, a) && Running(s, b) && s.acquisitions[a].execution == s.acquisitions[b].execution
             && HasFile(s.acquisitions[a].stage) && HasFile(s.acquisitions[b].stage)
    ensures a == b
  {
    ReachableInv(actions);
    hide Run, TokensInv, ManagersInv, FilesInv;
    var s := Run(INITIAL, actions);
    OneHolder(s.files, s.acquisitions, s.managers.Keys, a, b);
  }

  lemma {:induction false} TokenNames(fence: map<string, nat>, issued: seq<Issue>, e: string, n: nat, a: Id, b: Id)
    requires IssuedOk(fence, issued) && Issue(e, n, a) in issued && Issue(e, n, b) in issued
    ensures a == b && n >= 1
  {
    var i :| 0 <= i < |issued| && issued[i] == Issue(e, n, a);
    var j :| 0 <= j < |issued| && issued[j] == Issue(e, n, b);
  }

  lemma SameToken(fence: map<string, nat>, issued: seq<Issue>, e: string, m: nat, n: nat, a: Id)
    requires IssuedOk(fence, issued) && Issue(e, m, a) in issued && Issue(e, n, a) in issued
    ensures m == n
  {
    var i :| 0 <= i < |issued| && issued[i] == Issue(e, m, a);
    var j :| 0 <= j < |issued| && issued[j] == Issue(e, n, a);
  }

  lemma ValidatedToken(s: State, a: Id, e: string)
    requires Inv(s) && Validates(s, a, e)
    ensures s.acquisitions[a].execution == e && IsTabled(s.acquisitions[a].stage)
    ensures Issue(e, HandleToken(s.acquisitions[a]), a) in s.issued
  {
    AtManager(s, a);
    hide Inv, TablesOk;
    assert EntryOk(s.managers[s.acquisitions[a].manager], a, s.acquisitions[a]);
  }

  /**
   * The knowledge store's check admits at most one handle of an execution, namely the one that was issued the
   * newest token; a handle that is still held always passes, whatever other processes do.
   */
  lemma FenceAdmitsNewestOnly(actions: seq<Action>, a: Id, b: Id, e: string)
    requires FreshManagers(actions)
    ensures var s := Run(INITIAL, actions);
            && (PassesFence(s, a, e) && PassesFence(s, b, e) ==> a == b)
            && (PassesFence(s, a, e) <==> Validates(s, a, e) && Issue(e, TokenOf(s, e), a) in s.issued)
            && (Running(s, a) && s.acquisitions[a].stage.Held? && s.acquisitions[a].execution == e ==>
                  PassesFence(s, a, e))
  {
    ReachableInv(actions);
    var s := Run(INITIAL, actions);
    hide Run, FreshManagers;
    if Validates(s, a, e) { ValidatedToken(s, a, e); }
    if Validates(s, b, e) { ValidatedToken(s, b, e); }
    assert IssuedOk(s.fence, s.issued);
    if PassesFence(s, a, e) && PassesFence(s, b, e) { TokenNames(s.fence, s.issued, e, TokenOf(s, e), a, b); }
    if Validates(s, a, e) && Issue(e, TokenOf(s, e), a) in s.issued {
      SameToken(s.fence, s.issued, e, TokenOf(s, e), HandleToken(s.acquisitions[a]), a);
    }
    if Running(s, a) && s.acquisitions[a].stage.Held? && s.acquisitions[a].execution == e { HeldPasses(s, a); }
  }

  lemma HeldPasses(s: State, a: Id)
    requires Inv(s) && Running(s, a) && s.acquisitions[a].stage.Held?
    ensures PassesFence(s, a, s.acquisitions[a].execution)
  {
    AtManager(s, a);
    hide Inv, TablesOk, IssuedOk;
    assert EntryOk(s.managers[s.acquisitions[a].manager], a, s.acquisitions[a]);
  }

  // ---------- why validation alone is not enough ----------

  /** The acquisition of an idle manager, from registration to return, when the file lock is free. */
  function Acquired(s: State, b: Id, n: Id, e: string): State
    requires n in s.managers
  {
    var k, t := TokenOf(s, e) + 1, s.managers[n];
    State(s.files[e := b], s.fence[e := k],
          s.managers[n := Tables(t.active[b := e], t.byExecution[e := b], (t.pending + {e}) - {e})],
          s.acquisitions[b := Acquisition(n, e, Held(k))], s.issued + [Issue(e, k, b)])
  }

  function Between(s: State, b: Id, n: Id, e: string, g: Stage): State
    requires n in s.managers
  {
    s.(managers := s.managers[n := s.managers[n].(pending := s.managers[n].pending + {e})],
       acquisitions := s.acquisitions[b := Acquisition(n, e, g)])
  }

  lemma BeginStep(s: State, b: Id, n: Id, e: string)
    requires n in s.managers && b !in s.acquisitions && e !in s.managers[n].byExecution && e !in s.managers[n].pending
    ensures Step(s, Begin(b, n, e)) == Between(s, b, n, e, Waiting)
  {
  }

  lemma TakeStep(s: State, b: Id, n: Id, e: string)
    requires n in s.managers && e !in s.files
    ensures Step(Between(s, b, n, e, Waiting), Advance(b)) == Between(s.(files := s.files[e := b]), b, n, e, Locked)
  {
  }

  lemma ReadStep(s: State, b: Id, n: Id, e: string)
    requires n in s.managers
    ensures Step(Between(s, b, n, e, Locked), Advance(b)) == Between(s, b, n, e, Fencing(TokenOf(s, e)))
  {
  }

  lemma FenceStep(s: State, b: Id, n: Id, e: string, k: nat)
    requires n in s.managers
    ensures Step(Between(s, b, n, e, Fencing(k)), Advance(b)) ==
            Between(s.(fence := s.fence[e := k + 1], issued := s.issued + [Issue(e, k + 1, b)]), b, n, e, Fenced(k + 1))
  {
  }

  lemma EnterStep(s: State, b: Id, n: Id, e: string, k: nat)
    requires n in s.managers
    ensures Step(Between(s, b, n, e, Fenced(k)), Advance(b)) ==
            Between(s, b, n, e, Held(k)).(managers := s.managers[n := Tables(s.managers[n].active[b := e],
              s.managers[n].byExecution[e := b], (s.managers[n].pending + {e}) - {e})])
  {
  }

  lemma AcquiresAlone(s: State, b: Id, n: Id, e: string)
    requires n in s.managers && b !in s.acquisitions && e !in s.files
    requires e !in s.managers[n].byExecution && e !in s.managers[n].pending
    ensures Step(Step(Step(Step(Step(s, Begin(b, n, e)), Advance(b)), Advance(b)), Advance(b)), Advance(b)) ==
            Acquired(s, b, n, e)
  {
    hide Step, Between;
    var k := TokenOf(s, e);
    BeginStep(s, b, n, e);
    TakeStep(s, b, n, e);
    var s2 := s.(files := s.files[e := b]);
    ReadStep(s2, b, n, e);
    FenceStep(s2, b, n, e, k);
    var s4 := s2.(fence := s.fence[e := k + 1], issued := s.issued + [Issue(e, k + 1, b)]);
    EnterStep(s4, b, n, e, k + 1);
    AcquiredShape(s, s4, b, n, e, k + 1);
  }

  lemma AcquiredShape(s: State, s4: State, b: Id, n: Id, e: string, k: nat)
    requires n in s.managers && k == TokenOf(s, e) + 1
    requires s4 == s.(files := s.files[e := b], fence := s.fence[e := k], issued := s.issued + [Issue(e, k, b)])
    ensures Acquired(s, b, n, e) ==
            Between(s4, b, n, e, Held(k)).(managers := s4.managers[n := Tables(s4.managers[n].active[b := e],
              s4.managers[n].byExecution[e := b], (s4.managers[n].pending + {e}) - {e})])
  {
  }

  /**
   * Release drops the file lock before it clears the tables.  In between, an idle manager can acquire: then both
   * handles validate, and only the check against the token file tells the new one from the old.
   */
  lemma StaleHandleValidates(s: State, a: Id, b: Id, n: Id)
    requires Inv(s) && Running(s, a) && s.acquisitions[a].stage.Held? && b !in s.acquisitions
    requires n in s.managers && n != s.acquisitions[a].manager
    requires s.acquisitions[a].execution !in s.managers[n].byExecution
             && s.acquisitions[a].execution !in s.managers[n].pending
    ensures var e := s.acquisitions[a].execution;
            var s0 := Step(Step(s, Release(a)), Begin(b, n, e));
            var t := Step(Step(Step(Step(s0, Advance(b)), Advance(b)), Advance(b)), Advance(b));
            && Validates(t, a, e) && Validates(t, b, e) && PassesFence(t, b, e) && !PassesFence(t, a, e)
  {
    hide Inv, Step, Validates, PassesFence, Acquired, TokenOf;
    var e := s.acquisitions[a].execution;
    HeldPasses(s, a);
    ReleasedShape(s, a);
    var r := s.(files := s.files - {e},
                acquisitions := s.acquisitions[a :=
                  s.acquisitions[a].(stage := Unlocked(s.acquisitions[a].stage.token))]);
    AcquiresAlone(r, b, n, e);
    BothValidate(s, r, a, b, n, e);
  }

  lemma ReleasedShape(s: State, a: Id)
    requires Running(s, a) && s.acquisitions[a].stage.Held?
    ensures var x := s.acquisitions[a];
            Step(s, Release(a)) ==
            s.(files := s.files - {x.execution},
              acquisitions := s.acquisitions[a := x.(stage := Unlocked(x.stage.token))])
  {
  }

  lemma BothValidate(s: State, r: State, a: Id, b: Id, n: Id, e: string)
    requires PassesFence(s, a, e) && s.acquisitions[a].stage.Held? && b !in s.acquisitions
    requires n in s.managers && n != s.acquisitions[a].manager
    requires r == s.(files := s.files - {e},
                     acquisitions := s.acquisitions[a :=
                       s.acquisitions[a].(stage := Unlocked(s.acquisitions[a].stage.token))])
    ensures var t := Acquired(r, b, n, e);
            Validates(t, a, e) && Validates(t, b, e) && PassesFence(t, b, e) && !PassesFence(t, a, e)
  {
  }
}
