/**
 * Execution locks of many processes as a state machine: each process keeps tables in memory, the operating system
 * keeps the exclusive file locks, and one file per execution keeps the fencing token.
 */
module LockModel {

  type Id = nat

  /** One acquisition, from its registration to its release; the handle it yields is named by it. */
  datatype Stage =
    | Waiting                  // registered as pending, trying for the file lock
    | Locked                   // has the file lock, about to read the token
    | Fencing(read: nat)       // about to publish the next token
    | Fenced(token: nat)       // about to enter the tables
    | Dropping                 // gave up: no longer pending, about to drop the file lock
    | Held(token: nat)         // acquire has returned the handle
    | Unlocked(token: nat)     // release has dropped the file lock, about to leave the tables
    | Over

  datatype Acquisition = Acquisition(manager: Id, execution: string, stage: Stage)

  /** The tables of one manager. */
  datatype Tables = Tables(active: map<Id, string>, byExecution: map<string, Id>, pending: set<string>)

  /** A published fencing token; the sequence of them is history that no step reads. */
  datatype Issue = Issue(execution: string, token: nat, acquisition: Id)

  datatype State = State(
    files: map<string, Id>, fence: map<string, nat>, managers: map<Id, Tables>,
    acquisitions: map<Id, Acquisition>, issued: seq<Issue>)

  const INITIAL := State(map[], map[], map[], map[], [])

  datatype Action =
    | Open(m: Id)
    | Begin(a: Id, m: Id, execution: string)
    | Advance(a: Id)
    | GiveUp(a: Id)
    | Release(a: Id)
    | Crash(m: Id)

  function TokenOf(s: State, execution: string): nat {
    if execution in s.fence then s.fence[execution] else 0
  }

  function At(s: State, a: Id, x: Acquisition, stage: Stage): State {
    s.(acquisitions := s.acquisitions[a := x.(stage := stage)])
  }

  function WithTables(s: State, m: Id, t: Tables): State { s.(managers := s.managers[m := t]) }

  /** The next step of an acquisition or of its release. */
  function Move(s: State, a: Id, x: Acquisition): State
    requires x.manager in s.managers
  {
    var t, e := s.managers[x.manager], x.execution;
    match x.stage
    case Waiting => if e in s.files then s else At(s.(files := s.files[e := a]), a, x, Locked)
    case Locked => At(s, a, x, Fencing(TokenOf(s, e)))
    case Fencing(n) =>
      At(s.(fence := s.fence[e := n + 1], issued := s.issued + [Issue(e, n + 1, a)]), a, x, Fenced(n + 1))
    case Fenced(token) =>
      At(WithTables(s, x.manager, Tables(t.active[a := e], t.byExecution[e := a], t.pending - {e})), a, x, Held(token))
    case Dropping => At(s.(files := s.files - {e}), a, x, Over)
    case Unlocked(_) =>
      At(WithTables(s, x.manager, t.(active := t.active - {a}, byExecution := t.byExecution - {e})), a, x, Over)
    case _ => s
  }

  /** A failed acquisition leaves the pending set first and drops its file lock, if it has one, after. */
  function Abandon(s: State, a: Id, x: Acquisition): State
    requires x.manager in s.managers
  {
    var t := s.managers[x.manager];
    var unlisted := WithTables(s, x.manager, t.(pending := t.pending - {x.execution}));
    match x.stage
    case Waiting => At(unlisted, a, x, Over)
    case Locked => At(unlisted, a, x, Dropping)
    case Fencing(_) => At(unlisted, a, x, Dropping)
    case Fenced(_) => At(unlisted, a, x, Dropping)
    case _ => s
  }

  predicate Running(s: State, a: Id) { a in s.acquisitions && s.acquisitions[a].manager in s.managers }

  function Step(s: State, c: Action): State {
    match c
    case Open(m) => if m in s.managers then s else WithTables(s, m, Tables(map[], map[], {}))
    case Begin(a, m, e) =>
      if a in s.acquisitions || m !in s.managers || e in s.managers[m].byExecution || e in s.managers[m].pending then s
      else
        At(WithTables(s, m, s.managers[m].(pending := s.managers[m].pending + {e})), a, Acquisition(m, e, Waiting),
          Waiting)
    case Advance(a) => if Running(s, a) then Move(s, a, s.acquisitions[a]) else s
    case GiveUp(a) => if Running(s, a) then Abandon(s, a, s.acquisitions[a]) else s
    case Release(a) =>
      if Running(s, a) && s.acquisitions[a].stage.Held? then
        var x := s.acquisitions[a];
        At(s.(files := s.files - {x.execution}), a, x, Unlocked(x.stage.token))
      else s
    case Crash(m) =>
      // the process is gone: its tables with it, and the system drops its file locks
      if m !in s.managers then s
      else
        s.(managers := s.managers - {m},
           files := map e | e in s.files && !(s.files[e] in s.acquisitions
             && s.acquisitions[s.files[e]].manager == m) :: s.files[e])
  }

  function Run(s: State, actions: seq<Action>): State {
    if actions == [] then s else Step(Run(s, actions[..|actions| - 1]), actions[|actions| - 1])
  }

  // ---------- what a manager and the knowledge store check ----------

  /** The manager's own check of a handle. */
  predicate Validates(s: State, a: Id, execution: string) {
    Running(s, a) && a in s.managers[s.acquisitions[a].manager].active &&
    s.managers[s.acquisitions[a].manager].active[a] == execution
  }

  function HandleToken(x: Acquisition): nat {
    match x.stage case Held(t) => t case Unlocked(t) => t case _ => 0
  }

  /** The knowledge store's check: a validated handle whose token is still the one in the file. */
  predicate PassesFence(s: State, a: Id, execution: string) {
    Validates(s, a, execution) && TokenOf(s, execution) == HandleToken(s.acquisitions[a])
  }
}
