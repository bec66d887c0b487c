/** What each party achieves undisturbed, said of the files; and what a launcher does that comes too late. */
module CancellationAlone {
  import opened Common
  import opened CancellationModel
  import opened CancellationTheorems

  /** So many steps of one request, or of one launch, in a row. */
  function Proceeds(s: State, r: Id, n: nat): State { if n == 0 then s else Step(Proceeds(s, r, n - 1), Proceed(r)) }
  function Advances(s: State, l: Id, n: nat): State { if n == 0 then s else Step(Advances(s, l, n - 1), Advance(l)) }

  predicate IsAt(s: State, r: Id, d: Decision, at: Asking) { r in s.requests && s.requests[r] == Request(d, at) }

  /** The same state, but for the two files of requests and the progress of one request. */
  predicate OnlyRequest(s: State, t: State, r: Id) {
    && t == s.(policy := t.policy, request := t.request, requests := t.requests)
    && r in t.requests && t.requests == s.requests[r := t.requests[r]]
  }

  // ---------- a request ----------

  lemma OnlyThen(s: State, t: State, u: State, r: Id)
    requires OnlyRequest(s, t, r) && OnlyRequest(t, u, r)
    ensures OnlyRequest(s, u, r)
  {
    assert s.requests[r := t.requests[r]][r := u.requests[r]] == s.requests[r := u.requests[r]];
  }

  lemma {:induction false} ProceedsJoin(s: State, r: Id, m: nat, n: nat)
    ensures Proceeds(s, r, m + n) == Proceeds(Proceeds(s, r, m), r, n)
  {
    hide Step;
    if n > 0 { ProceedsJoin(s, r, m, n - 1); }
  }

  /** The decision is bound, or found bound already; another one, or half of one, fails the request. */
  lemma BindsPolicy(s: State, r: Id, d: Decision) returns (n: nat, t: State)
    requires IsAt(s, r, d, FindPolicy)
    ensures t == Proceeds(s, r, n) && OnlyRequest(s, t, r) && t.request == s.request && t.active == s.active
    ensures var bound := s.policy == Absent || s.policy == Full(d);
            && IsAt(t, r, d, if bound then FindRequest else Failed)
            && t.policy == if bound then Full(d) else s.policy
  {
    var a := Step(s, Proceed(r));
    var b := Step(a, Proceed(r));
    assert Proceeds(s, r, 1) == a by { assert Proceeds(s, r, 0) == s; }
    assert Proceeds(s, r, 2) == b;
    if s.policy.Exists() {
      n, t := 2, b;
    } else {
      n, t := 3, Step(b, Proceed(r));
      assert Proceeds(s, r, 3) == t;
    }
  }

  lemma FilesRequest(s: State, r: Id, d: Decision) returns (n: nat, t: State)
    requires IsAt(s, r, d, FindRequest)
    ensures t == Proceeds(s, r, n) && OnlyRequest(s, t, r) && t.policy == s.policy && t.active == s.active
    ensures var asked := s.request == Absent || s.request == Full(d);
            && IsAt(t, r, d, if asked then FindActive else Failed)
            && t.request == if asked then Full(d) else s.request
  {
    var a := Step(s, Proceed(r));
    var b := Step(a, Proceed(r));
    assert Proceeds(s, r, 1) == a by { assert Proceeds(s, r, 0) == s; }
    assert Proceeds(s, r, 2) == b;
    if s.request.Exists() {
      n, t := 2, b;
    } else {
      n, t := 3, Step(b, Proceed(r));
      assert Proceeds(s, r, 3) == t;
    }
  }

  /** What a request answers about the slot. */
  predicate AnswersSlot(active: File<Slot>, at: Asking) {
    match active
    case Absent => at.Answered? && at.seen == None
    case Torn => at == Failed
    case Full(slot) => at.Answered? && at.seen == Some(slot.owner)
  }

  lemma ReadsSlot(s: State, r: Id, d: Decision) returns (n: nat, t: State)
    requires IsAt(s, r, d, FindActive)
    ensures t == Proceeds(s, r, n) && OnlyRequest(s, t, r) && t.policy == s.policy && t.request == s.request
    ensures t.requests[r].decision == d && AnswersSlot(s.active, t.requests[r].at)
  {
    var a := Step(s, Proceed(r));
    assert Proceeds(s, r, 1) == a by { assert Proceeds(s, r, 0) == s; }
    if s.active.Exists() {
      n, t := 2, Step(a, Proceed(r));
      assert Proceeds(s, r, 2) == t;
    } else {
      n, t := 1, a;
    }
  }

  /** The files and the answer an undisturbed request leaves. */
  predicate Requested(s: State, t: State, r: Id, d: Decision) {
    var bound := s.policy == Absent || s.policy == Full(d);
    var asked := bound && (s.request == Absent || s.request == Full(d));
    && OnlyRequest(s, t, r)
    && t.policy == (if bound then Full(d) else s.policy) && t.request == (if asked then Full(d) else s.request)
    && if asked then AnswersSlot(s.active, t.requests[r].at) else t.requests[r].at == Failed
  }

  lemma FromFindRequest(s: State, r: Id, d: Decision) returns (n: nat)
    requires IsAt(s, r, d, FindRequest) && s.policy == Full(d)
    ensures Requested(s, Proceeds(s, r, n), r, d)
  {
    var k, w := FilesRequest(s, r, d);
    n := k;
    hide Step, AnswersSlot, OnlyRequest, Proceeds;
    if w.requests[r].at != Failed {
      var j, x := ReadsSlot(w, r, d);
      OnlyThen(s, w, x, r);
      ProceedsJoin(s, r, k, j);
      n := k + j;
    }
  }

  lemma RequestedThen(s: State, t: State, u: State, r: Id, d: Decision)
    requires OnlyRequest(s, t, r) && t.active == s.active && t.request == s.request && Requested(t, u, r, d)
    requires t.policy == Full(d) && (s.policy == Absent || s.policy == Full(d))
    ensures Requested(s, u, r, d)
  {
    OnlyThen(s, t, u, r);
    hide AnswersSlot, OnlyRequest;
  }

  lemma FromFindPolicy(s: State, r: Id, d: Decision) returns (n: nat)
    requires IsAt(s, r, d, FindPolicy)
    ensures Requested(s, Proceeds(s, r, n), r, d)
  {
    var m, v := BindsPolicy(s, r, d);
    n := m;
    hide Step, AnswersSlot, OnlyRequest, Proceeds;
    if v.requests[r].at != Failed {
      var k := FromFindRequest(v, r, d);
      RequestedThen(s, v, Proceeds(v, r, k), r, d);
      ProceedsJoin(s, r, m, k);
      n := m + k;
    }
  }

  /**
   * An undisturbed request binds its decision, leaves its request and answers the command in the slot; the same
   * request made again answers again. A foreign or half-written file fails it.
   */
  lemma RequestAlone(s: State, r: Id, d: Decision) returns (n: nat)
    requires r !in s.requests
    ensures Requested(s, Proceeds(Step(s, Ask(r, d)), r, n), r, d)
  {
    var u := Step(s, Ask(r, d));
    Asked(s, r, d);
    n := FromFindPolicy(u, r, d);
    var t := Proceeds(u, r, n);
    hide Step, AnswersSlot, Proceeds, OnlyRequest;
    OnlyThen(s, u, t, r);
  }

  lemma Asked(s: State, r: Id, d: Decision)
    requires r !in s.requests
    ensures var u := Step(s, Ask(r, d));
            && IsAt(u, r, d, FindPolicy) && OnlyRequest(s, u, r) && u.policy == s.policy && u.request == s.request
            && u.active == s.active
  {
  }

  // ---------- a launch ----------

  predicate OnlyLaunch(s: State, t: State, l: Id) {
    && t == s.(active := t.active, outcome := t.outcome, launches := t.launches, returned := t.returned,
               published := t.published)
    && l in t.launches && t.launches == s.launches[l := t.launches[l]]
  }

  lemma OneAdvance(s: State, l: Id, n: nat)
    requires n >= 1 && l in s.launches
    ensures Advances(s, l, n) == Step(Advances(s, l, n - 1), Advance(l))
    ensures n == 1 ==> Advances(s, l, 1) == AdvanceLaunch(s, l, s.launches[l])
  {
    assert Advances(s, l, 0) == s;
  }

  /** An undisturbed start takes a free slot unless there is a request; otherwise it leaves all files as they are. */
  lemma StartAlone(s: State, l: Id)
    requires l !in s.launches
    ensures var t := Advances(Step(s, Start(l)), l, 4);
            && OnlyLaunch(s, t, l) && t.outcome == s.outcome && t.published == s.published
            && (s.request.Exists() ==> t.launches[l] == Refused && t.active == s.active && t.returned == s.returned)
            && (!s.request.Exists() && s.active.Exists() ==>
                  t.launches[l] == Blocked && t.active == s.active && t.returned == s.returned)
            && (!s.request.Exists() && !s.active.Exists() ==>
                  t.launches[l] == Held && t.active == Full(Slot(l, false)) && t.returned == s.returned + {l})
  {
    var u := Step(s, Start(l));
    assert Advances(u, l, 0) == u;
    var a := Step(u, Advance(l));
    assert Advances(u, l, 1) == a;
    var b := Step(a, Advance(l));
    assert Advances(u, l, 2) == b;
    var c := Step(b, Advance(l));
    assert Advances(u, l, 3) == c;
  }

  predicate OwnsSlot(s: State, l: Id) { s.active.Full? && s.active.value.owner == l }

  /** A held command is marked running, in its own slot only. */
  lemma SpawnAlone(s: State, l: Id)
    requires l in s.launches && s.launches[l] == Held
    ensures var t := Advances(s, l, 2);
            && OnlyLaunch(s, t, l)
            && (OwnsSlot(s, l) ==> t.launches[l] == Running && t.active == Full(Slot(l, true)))
            && (!OwnsSlot(s, l) ==> t.launches[l] == Diverged && t.active == s.active)
            && t.outcome == s.outcome
  {
    TwoAdvances(s, l);
    hide Advances;
    var a := Step(s, Advance(l));
    assert a == At(s, l, if OwnsSlot(s, l) then Binding else Diverged);
  }

  lemma TwoAdvances(s: State, l: Id)
    ensures Advances(s, l, 2) == Step(Step(s, Advance(l)), Advance(l))
  {
    hide Step;
    assert Advances(s, l, 0) == s;
    assert Advances(s, l, 1) == Step(s, Advance(l));
  }

  /** A command that finishes reports its outcome and frees its slot; one that is not in the slot does neither. */
  lemma FinishAlone(s: State, l: Id, o: Outcome)
    requires l in s.launches && (s.launches[l] == Held || s.launches[l] == Running)
    ensures var t := Advances(Step(s, Finish(l, o)), l, 3);
            && OnlyLaunch(s, t, l) && t.returned == s.returned
            && (OwnsSlot(s, l) ==>
                  && t.launches[l] == Released && t.active == Absent && t.outcome == Some(Report(l, o))
                  && t.published == s.published[l := o])
            && (!OwnsSlot(s, l) ==>
                  && t.launches[l] == Diverged && t.active == s.active && t.outcome == s.outcome
                  && t.published == s.published)
  {
    var u := Step(s, Finish(l, o));
    assert u == At(s, l, Finishing(o));
    ThreeAdvances(u, l);
    hide Step, Advances;
    Finishes(s, u, l, o);
  }

  lemma ThreeAdvances(s: State, l: Id)
    ensures Advances(s, l, 3) == Step(Step(Step(s, Advance(l)), Advance(l)), Advance(l))
  {
    hide Step;
    TwoAdvances(s, l);
  }

  lemma Finishes(s: State, u: State, l: Id, o: Outcome)
    requires u == At(s, l, Finishing(o)) && l in s.launches
    ensures var t := Step(Step(Step(u, Advance(l)), Advance(l)), Advance(l));
            && OnlyLaunch(s, t, l) && t.returned == s.returned
            && (OwnsSlot(s, l) ==>
                  && t.launches[l] == Released && t.active == Absent && t.outcome == Some(Report(l, o))
                  && t.published == s.published[l := o])
            && (!OwnsSlot(s, l) ==>
                  && t.launches[l] == Diverged && t.active == s.active && t.outcome == s.outcome
                  && t.published == s.published)
  {
    var a := Step(u, Advance(l));
    var b := Step(a, Advance(l));
    var c := Step(b, Advance(l));
    assert a == At(s, l, if OwnsSlot(s, l) then Publishing(o) else Diverged);
    if OwnsSlot(s, l) {
      assert b == At(s.(outcome := Some(Report(l, o)), published := s.published[l := o]), l, Clearing);
    } else {
      assert b == a;
    }
  }

  // ---------- a wait ----------

  predicate WaitsAt(s: State, w: Id, c: Id, at: Waiting) { w in s.waits && s.waits[w] == Wait(c, at) }

  /** What one undisturbed round of a wait finds. */
  predicate Found(s: State, c: Id, expired: bool, at: Waiting) {
    var mine := s.outcome.Some? && s.outcome.value.command == c;
    if s.active == Torn then at == Unreadable
    else if mine && !OwnsSlot(s, c) then at == Observed(Quiescent(s.outcome.value.outcome))
    else if s.active == Absent then at == Observed(Disappeared)
    else if expired then at == Observed(NotObserved)
    else at == LoadOutcome
  }

  /** A round reads the outcome, then the slot, and decides; undecided rounds start again until the time is over. */
  lemma RoundAlone(s: State, w: Id, c: Id, expired: bool)
    requires WaitsAt(s, w, c, LoadOutcome)
    ensures var one := Step(Step(s, Poll(w, expired)), Poll(w, expired));
            var t := if s.active.Exists() then Step(one, Poll(w, expired)) else one;
            && t == s.(waits := t.waits) && w in t.waits && t.waits[w].command == c
            && Found(s, c, expired, t.waits[w].at)
  {
  }

  // ---------- too late ----------

  predicate Idle(s: State, l: Id) {
    && (l in s.launches ==> s.launches[l] == Unchecked || s.launches[l] == Refused)
    && l !in s.returned && l !in s.published && (s.active.Full? ==> s.active.value.owner != l)
  }

  /** What one step of a launch can change: its own progress, the slot to its own or to none, its own report. */
  predicate OwnStep(s: State, t: State, k: Id) {
    && t == s.(active := t.active, outcome := t.outcome, launches := t.launches, returned := t.returned,
               published := t.published)
    && k in t.launches && t.launches == s.launches[k := t.launches[k]]
    && (t.active == s.active || (t.active.Full? ==> t.active.value.owner == k))
    && t.returned <= s.returned + {k} && t.published.Keys <= s.published.Keys + {k}
  }

  lemma AdvanceIsOwn(s: State, k: Id)
    requires k in s.launches
    ensures OwnStep(s, AdvanceLaunch(s, k, s.launches[k]), k)
    ensures s.request.Exists() && (s.launches[k] == Unchecked || s.launches[k] == Refused) ==>
              AdvanceLaunch(s, k, s.launches[k]) == At(s, k, Refused)
  {
    hide OwnStep, At;
    StaysOwn(s, k);
    match s.launches[k]
    case Unchecked => AtIsOwn(s, s, k, if s.request.Exists() then Refused else Checked);
    case Checked =>
      if s.active.Exists() { AtIsOwn(s, s, k, Blocked); } else { AtIsOwn(s, s.(active := Torn), k, Created); }
    case Created => AtIsOwn(s, s.(active := Full(Slot(k, false))), k, Written);
    case Written =>
      if s.request.Exists() { AtIsOwn(s, s, k, Finishing(CancelledBeforeSpawn)); }
      else { AtIsOwn(s, s.(returned := s.returned + {k}), k, Held); }
    case Held => AtIsOwn(s, s, k, if OwnsSlot(s, k) then Binding else Diverged);
    case Binding => AtIsOwn(s, s.(active := Full(Slot(k, true))), k, Running);
    case Finishing(o) => AtIsOwn(s, s, k, if OwnsSlot(s, k) then Publishing(o) else Diverged);
    case Publishing(o) =>
      AtIsOwn(s, s.(outcome := Some(Report(k, o)), published := s.published[k := o]), k, Clearing);
    case Clearing => AtIsOwn(s, s.(active := Absent), k, Released);
    case _ =>
  }

  lemma StaysOwn(s: State, k: Id)
    requires k in s.launches
    ensures OwnStep(s, s, k) && At(s, k, s.launches[k]) == s
  {
    assert s.launches == s.launches[k := s.launches[k]];
  }

  lemma AtIsOwn(s: State, u: State, k: Id, pc: Launch)
    requires u == s.(active := u.active, outcome := u.outcome, returned := u.returned, published := u.published)
    requires u.active == s.active || (u.active.Full? ==> u.active.value.owner == k)
    requires u.returned <= s.returned + {k} && u.published.Keys <= s.published.Keys + {k}
    ensures OwnStep(s, At(u, k, pc), k)
  {
  }

  lemma AdvanceKeepsIdle(s: State, k: Id, l: Id)
    requires s.request.Exists() && Idle(s, l) && k in s.launches
    ensures var t := AdvanceLaunch(s, k, s.launches[k]); t.request.Exists() && Idle(t, l)
  {
    AdvanceIsOwn(s, k);
    hide AdvanceLaunch;
  }

  lemma ProceedKeepsIdle(s: State, r: Id, l: Id)
    requires s.request.Exists() && Idle(s, l) && r in s.requests
    ensures var t := ProceedRequest(s, r, s.requests[r].decision, s.requests[r].at); t.request.Exists() && Idle(t, l)
  {
    hide NextAsking;
  }

  lemma PollKeepsIdle(s: State, w: Id, expired: bool, l: Id)
    requires s.request.Exists() && Idle(s, l) && w in s.waits
    ensures var t := PollWait(s, w, s.waits[w].command, s.waits[w].at, expired); t.request.Exists() && Idle(t, l)
  {
    hide Verdict;
  }

  lemma StepKeepsIdle(s: State, a: Action, l: Id)
    requires s.request.Exists() && Idle(s, l)
    ensures Step(s, a).request.Exists() && Idle(Step(s, a), l)
  {
    hide AdvanceLaunch, ProceedRequest, PollWait;
    match a
    case Advance(k) => if k in s.launches { AdvanceKeepsIdle(s, k, l); }
    case Proceed(r) => if r in s.requests { ProceedKeepsIdle(s, r, l); }
    case Poll(w, expired) => if w in s.waits { PollKeepsIdle(s, w, expired, l); }
    case _ =>
  }

  lemma {:induction false} RunKeepsIdle(s: State, actions: seq<Action>, l: Id)
    requires s.request.Exists() && Idle(s, l)
    ensures Run(s, actions).request.Exists() && Idle(Run(s, actions), l)
  {
    if actions != [] {
      var init := actions[..|actions| - 1];
      RunKeepsIdle(s, init, l);
      hide Step, Idle;
      StepKeepsIdle(Run(s, init), actions[|actions| - 1], l);
    }
  }

  lemma UncheckedIsIdle(s: State, l: Id)
    requires Inv(s) && (l in s.launches ==> s.launches[l] == Unchecked)
    ensures Idle(s, l)
  {
  }

  /**
   * A launcher that has not looked when the request file exists never takes the slot, never starts a command and
   * never reports an outcome, whatever else happens.
   */
  lemma LateLauncherDoesNothing(before: seq<Action>, after: seq<Action>, l: Id)
    requires var s := Run(INITIAL, before);
             s.request.Exists() && (l in s.launches ==> s.launches[l] == Unchecked)
    ensures Idle(Run(Run(INITIAL, before), after), l)
  {
    hide Run, Idle, Inv;
    ReachableInv(before);
    UncheckedIsIdle(Run(INITIAL, before), l);
    RunKeepsIdle(Run(INITIAL, before), after, l);
  }
}
