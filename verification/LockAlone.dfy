/** What an acquisition, a release and a failed acquisition achieve when nothing interferes. */
module LockAlone {
  import opened LockModel

  function Advances(s: State, a: Id, n: nat): State { if n == 0 then s else Step(Advances(s, a, n - 1), Advance(a)) }

  /** Between two states, only the lock of one execution, one manager's tables and one acquisition have changed. */
  predicate OnlyAcquisition(s: State, t: State, a: Id) {
    && t == s.(files := t.files, fence := t.fence, managers := t.managers, acquisitions := t.acquisitions,
               issued := t.issued)
    && a in t.acquisitions && t.acquisitions == s.acquisitions[a := t.acquisitions[a]]
  }

  lemma TwoAdvances(s: State, a: Id)
    ensures Advances(s, a, 2) == Step(Step(s, Advance(a)), Advance(a))
  {
    hide Step;
    assert Advances(s, a, 0) == s;
    assert Advances(s, a, 1) == Step(s, Advance(a));
  }

  lemma {:induction false} AdvancesJoin(s: State, a: Id, m: nat, n: nat)
    ensures Advances(s, a, m + n) == Advances(Advances(s, a, m), a, n)
  {
    hide Step;
    if n > 0 { AdvancesJoin(s, a, m, n - 1); }
  }

  /** The file lock is taken and the token read. */
  lemma TakesFile(s: State, a: Id, x: Acquisition)
    requires a in s.acquisitions && s.acquisitions[a] == x && x.stage.Waiting? && x.manager in s.managers
    ensures var t := Advances(s, a, 2);
            if x.execution in s.files then t == s
            else t == s.(files := s.files[x.execution := a],
                         acquisitions := s.acquisitions[a := x.(stage := Fencing(TokenOf(s, x.execution)))])
  {
    TwoAdvances(s, a);
    hide Advances;
  }

  /** The next token is published and the tables entered. */
  lemma EntersTables(s: State, a: Id, x: Acquisition)
    requires a in s.acquisitions && s.acquisitions[a] == x && x.stage.Fencing? && x.manager in s.managers
    ensures var t, e, own, next := Advances(s, a, 2), x.execution, s.managers[x.manager], x.stage.read + 1;
            t == s.(fence := s.fence[e := next], issued := s.issued + [Issue(e, next, a)],
                    managers := s.managers[x.manager :=
                      Tables(own.active[a := e], own.byExecution[e := a], own.pending - {e})],
                    acquisitions := s.acquisitions[a := x.(stage := Held(next))])
  {
    TwoAdvances(s, a);
    hide Advances, Step;
    Publishes(s, a, x);
    Enters(Step(s, Advance(a)), a, x.(stage := Fenced(x.stage.read + 1)));
    Again(s.acquisitions, a, x.(stage := Fenced(x.stage.read + 1)), x.(stage := Held(x.stage.read + 1)));
  }

  lemma Publishes(s: State, a: Id, x: Acquisition)
    requires a in s.acquisitions && s.acquisitions[a] == x && x.stage.Fencing? && x.manager in s.managers
    ensures var e, next := x.execution, x.stage.read + 1;
            Step(s, Advance(a)) ==
            s.(fence := s.fence[e := next], issued := s.issued + [Issue(e, next, a)],
               acquisitions := s.acquisitions[a := x.(stage := Fenced(next))])
  {
  }

  lemma Enters(s: State, a: Id, x: Acquisition)
    requires a in s.acquisitions && s.acquisitions[a] == x && x.stage.Fenced? && x.manager in s.managers
    ensures var e, own := x.execution, s.managers[x.manager];
            Step(s, Advance(a)) ==
            s.(managers := s.managers[x.manager :=
                 Tables(own.active[a := e], own.byExecution[e := a], own.pending - {e})],
               acquisitions := s.acquisitions[a := x.(stage := Held(x.stage.token))])
  {
  }

  lemma Again<K, V>(f: map<K, V>, k: K, x: V, y: V)
    ensures f[k := x][k := y] == f[k := y]
  {
  }

  /** The state with the file lock taken and the token read. */
  function Fetched(u: State, a: Id, m: Id, e: string, read: nat): State {
    u.(files := u.files[e := a], acquisitions := u.acquisitions[a := Acquisition(m, e, Fencing(read))])
  }

  /** The state with the handle under the next token. */
  function Granted(u: State, a: Id, m: Id, e: string, read: nat): State
    requires m in u.managers
  {
    var own, next := u.managers[m], read + 1;
    u.(files := u.files[e := a], fence := u.fence[e := next], issued := u.issued + [Issue(e, next, a)],
       managers := u.managers[m := Tables(own.active[a := e], own.byExecution[e := a], own.pending - {e})],
       acquisitions := u.acquisitions[a := Acquisition(m, e, Held(next))])
  }

  lemma FromFencing(u: State, a: Id, m: Id, e: string, read: nat)
    requires m in u.managers
    ensures Advances(Fetched(u, a, m, e, read), a, 2) == Granted(u, a, m, e, read)
  {
    EntersTables(Fetched(u, a, m, e, read), a, Acquisition(m, e, Fencing(read)));
    hide Advances;
    Again(u.acquisitions, a, Acquisition(m, e, Fencing(read)), Acquisition(m, e, Held(read + 1)));
  }

  /**
   * An undisturbed acquisition of a free execution ends with a handle under the next token: in the lock file, in the
   * token file and in both tables.
   */
  lemma AcquireAlone(s: State, a: Id, m: Id, e: string)
    requires a !in s.acquisitions && m in s.managers && e !in s.files
    requires e !in s.managers[m].byExecution && e !in s.managers[m].pending
    ensures var own, next := s.managers[m], (if e in s.fence then s.fence[e] else 0) + 1;
            Advances(Step(s, Begin(a, m, e)), a, 4) ==
            s.(files := s.files[e := a], fence := s.fence[e := next], issued := s.issued + [Issue(e, next, a)],
               managers := s.managers[m := Tables(own.active[a := e], own.byExecution[e := a], own.pending)],
               acquisitions := s.acquisitions[a := Acquisition(m, e, Held(next))])
  {
    var u, listed := Step(s, Begin(a, m, e)), s.managers[m].(pending := s.managers[m].pending + {e});
    Registers(s, a, m, e);
    hide Advances, Step;
    FromWaiting(u, a, m, e);
    var own, next := s.managers[m], (if e in s.fence then s.fence[e] else 0) + 1;
    assert listed.pending - {e} == own.pending;
    Again(s.managers, m, listed, Tables(own.active[a := e], own.byExecution[e := a], own.pending));
    Again(s.acquisitions, a, Acquisition(m, e, Waiting), Acquisition(m, e, Held(next)));
  }

  lemma FromWaiting(u: State, a: Id, m: Id, e: string)
    requires a in u.acquisitions && u.acquisitions[a] == Acquisition(m, e, Waiting)
    requires m in u.managers && e !in u.files
    ensures Advances(u, a, 4) == Granted(u, a, m, e, if e in u.fence then u.fence[e] else 0)
  {
    var read := if e in u.fence then u.fence[e] else 0;
    hide Advances, Step, Fetched, Granted;
    Fetches(u, a, m, e);
    AdvancesJoin(u, a, 2, 2);
    FromFencing(u, a, m, e, read);
  }

  lemma Fetches(u: State, a: Id, m: Id, e: string)
    requires a in u.acquisitions && u.acquisitions[a] == Acquisition(m, e, Waiting)
    requires m in u.managers && e !in u.files
    ensures Advances(u, a, 2) == Fetched(u, a, m, e, if e in u.fence then u.fence[e] else 0)
  {
    hide Advances, Step;
    TakesFile(u, a, Acquisition(m, e, Waiting));
  }

  /** While another holds the file lock, it waits, registered and without effect. */
  lemma WaitAlone(s: State, a: Id, m: Id, e: string)
    requires a !in s.acquisitions && m in s.managers && e in s.files
    requires e !in s.managers[m].byExecution && e !in s.managers[m].pending
    ensures Advances(Step(s, Begin(a, m, e)), a, 4) ==
            s.(managers := s.managers[m := s.managers[m].(pending := s.managers[m].pending + {e})],
               acquisitions := s.acquisitions[a := Acquisition(m, e, Waiting)])
  {
    var u := Step(s, Begin(a, m, e));
    Registers(s, a, m, e);
    AdvancesJoin(u, a, 2, 2);
    hide Advances, Step;
    TakesFile(u, a, Acquisition(m, e, Waiting));
  }

  lemma Registers(s: State, a: Id, m: Id, e: string)
    requires a !in s.acquisitions && m in s.managers
    requires e !in s.managers[m].byExecution && e !in s.managers[m].pending
    ensures Step(s, Begin(a, m, e)) ==
            s.(managers := s.managers[m := s.managers[m].(pending := s.managers[m].pending + {e})],
               acquisitions := s.acquisitions[a := Acquisition(m, e, Waiting)])
    ensures s.managers[m].pending + {e} - {e} == s.managers[m].pending
  {
  }

  /** An undisturbed release drops the file lock and leaves both tables; the token stays. */
  lemma ReleaseAlone(s: State, a: Id)
    requires Running(s, a) && s.acquisitions[a].stage.Held?
    ensures var t, x := Advances(Step(s, Release(a)), a, 1), s.acquisitions[a];
            var own := s.managers[x.manager];
            && OnlyAcquisition(s, t, a) && t.acquisitions[a] == x.(stage := Over)
            && t.files == s.files - {x.execution} && t.fence == s.fence
            && t.managers == s.managers[x.manager :=
                  Tables(own.active - {a}, own.byExecution - {x.execution}, own.pending)]
  {
    var u := Step(s, Release(a));
    assert Advances(u, a, 0) == u;
  }

  /** A failed acquisition is no longer pending and holds no file lock; no token is published. */
  lemma GiveUpAlone(s: State, a: Id)
    requires Running(s, a)
    requires var g := s.acquisitions[a].stage; g.Waiting? || g.Locked? || g.Fencing? || g.Fenced?
    ensures var t, x := Advances(Step(s, GiveUp(a)), a, 1), s.acquisitions[a];
            var own := s.managers[x.manager];
            && OnlyAcquisition(s, t, a) && t.acquisitions[a] == x.(stage := Over) && t.fence == s.fence
            && t.files == (if x.stage.Waiting? then s.files else s.files - {x.execution})
            && t.managers == s.managers[x.manager := own.(pending := own.pending - {x.execution})]
  {
    var u := Step(s, GiveUp(a));
    assert Advances(u, a, 0) == u;
  }
}
