/** What every interleaving of launchers, requesters and waiters keeps. */
module CancellationTheorems {
  import opened Common
  import opened CancellationModel

  // ---------- the slot ----------

  predicate Owns(pc: Launch) {
    pc.Created? || pc.Written? || pc.Held? || pc.Binding? || pc.Running? || pc.Finishing? || pc.Publishing?
      || pc.Clearing?
  }

  predicate Wrote(pc: Launch) { (Owns(pc) && !pc.Created?) || pc.Released? }

  predicate Reported(pc: Launch) { pc.Clearing? || pc.Released? }

  /** A command that owns the slot finds itself in it; its outcome is published exactly from then on. */
  predicate LaunchOk(s: State, l: Id, pc: Launch) {
    && !pc.Diverged?
    && (pc.Created? ==> s.active.Torn?)
    && (Owns(pc) && !pc.Created? ==> s.active.Full? && s.active.value.owner == l)
    && (l in s.published <==> Reported(pc))
    && (l in s.returned ==> Wrote(pc) && !pc.Written?)
  }

  ghost predicate SlotInv(s: State) {
    && (forall l :: l in s.launches ==> LaunchOk(s, l, s.launches[l]))
    && (forall l, m :: l in s.launches && m in s.launches && s.launches[l].Created? && s.launches[m].Created? ==>
          l == m)
    && s.published.Keys <= s.launches.Keys && s.returned <= s.launches.Keys
    && (s.outcome.Some? ==> s.outcome.value.command in s.published &&
                            s.published[s.outcome.value.command] == s.outcome.value.outcome)
    && (s.active.Full? ==> s.active.value.owner in s.launches && Wrote(s.launches[s.active.value.owner]))
  }

  /** Moves that leave the files alone. */
  lemma MoveKeepsSlot(s: State, l: Id, pc: Launch)
    requires SlotInv(s) && LaunchOk(s, l, pc) && !pc.Created?
    requires l in s.launches && Wrote(s.launches[l]) ==> Wrote(pc)
    ensures SlotInv(At(s, l, pc))
  {
    hide Wrote, Owns, Reported;
  }

  lemma OwnersAgree(s: State, l: Id, m: Id)
    requires SlotInv(s) && l in s.launches && m in s.launches && Owns(s.launches[l]) && Owns(s.launches[m])
    ensures l == m
  {
    assert LaunchOk(s, l, s.launches[l]) && LaunchOk(s, m, s.launches[m]);
  }

  lemma CreateKeepsSlot(s: State, l: Id)
    requires SlotInv(s) && l in s.launches && s.launches[l].Checked? && s.active.Absent?
    ensures SlotInv(At(s.(active := Torn), l, Created))
  {
    var t := At(s.(active := Torn), l, Created);
    forall m | m in t.launches ensures LaunchOk(t, m, t.launches[m]) && (t.launches[m].Created? ==> m == l) {
      assert LaunchOk(s, m, s.launches[m]);
    }
  }

  lemma WriteKeepsSlot(s: State, l: Id, slot: Slot, pc: Launch)
    requires SlotInv(s) && l in s.launches && Owns(s.launches[l]) && slot.owner == l
    requires (s.launches[l].Created? && pc.Written?) || (s.launches[l].Binding? && pc.Running?)
    ensures SlotInv(At(s.(active := Full(slot)), l, pc))
  {
    var t := At(s.(active := Full(slot)), l, pc);
    forall m | m in t.launches ensures LaunchOk(t, m, t.launches[m]) {
      assert LaunchOk(s, m, s.launches[m]);
      if Owns(s.launches[m]) { OwnersAgree(s, l, m); }
    }
  }

  lemma ReturnKeepsSlot(s: State, l: Id)
    requires SlotInv(s) && l in s.launches && s.launches[l].Written?
    ensures SlotInv(At(s.(returned := s.returned + {l}), l, Held))
  {
    var t := At(s.(returned := s.returned + {l}), l, Held);
    forall m | m in t.launches ensures LaunchOk(t, m, t.launches[m]) {
      assert LaunchOk(s, m, s.launches[m]);
    }
  }

  lemma PublishKeepsSlot(s: State, l: Id, o: Outcome)
    requires SlotInv(s) && l in s.launches && s.launches[l].Publishing?
    ensures SlotInv(At(s.(outcome := Some(Report(l, o)), published := s.published[l := o]), l, Clearing))
  {
    var t := At(s.(outcome := Some(Report(l, o)), published := s.published[l := o]), l, Clearing);
    forall m | m in t.launches ensures LaunchOk(t, m, t.launches[m]) {
      assert LaunchOk(s, m, s.launches[m]);
    }
  }

  lemma ClearKeepsSlot(s: State, l: Id)
    requires SlotInv(s) && l in s.launches && s.launches[l].Clearing?
    ensures SlotInv(At(s.(active := Absent), l, Released))
  {
    var t := At(s.(active := Absent), l, Released);
    forall m | m in t.launches ensures LaunchOk(t, m, t.launches[m]) {
      assert LaunchOk(s, m, s.launches[m]);
      if Owns(s.launches[m]) { OwnersAgree(s, l, m); }
    }
  }

  lemma AdvanceKeepsSlot(s: State, l: Id)
    requires SlotInv(s) && l in s.launches
    ensures SlotInv(AdvanceLaunch(s, l, s.launches[l]))
  {
    var pc := s.launches[l];
    assert LaunchOk(s, l, pc);
    var t := AdvanceLaunch(s, l, pc);
    hide SlotInv;
    match pc
    case Checked => if s.active.Absent? { CreateKeepsSlot(s, l); } else { MoveKeepsSlot(s, l, Blocked); }
    case Created => WriteKeepsSlot(s, l, Slot(l, false), Written);
    case Binding => WriteKeepsSlot(s, l, Slot(l, true), Running);
    case Written =>
      if s.request.Exists() { MoveKeepsSlot(s, l, Finishing(CancelledBeforeSpawn)); } else { ReturnKeepsSlot(s, l); }
    case Publishing(o) => PublishKeepsSlot(s, l, o);
    case Clearing => ClearKeepsSlot(s, l);
    case Unchecked => MoveKeepsSlot(s, l, t.launches[l]);
    case Held => MoveKeepsSlot(s, l, Binding);
    case Finishing(o) => MoveKeepsSlot(s, l, Publishing(o));
    case _ =>
  }

  lemma OthersKeepSlot(s: State, t: State)
    requires SlotInv(s)
    requires t == s.(policy := t.policy, request := t.request, requests := t.requests, waits := t.waits)
    ensures SlotInv(t)
  {
    hide Wrote, Owns, Reported;
    forall m | m in t.launches ensures LaunchOk(t, m, t.launches[m]) {
      assert LaunchOk(s, m, s.launches[m]);
    }
  }

  lemma FinishKeepsSlot(s: State, l: Id, o: Outcome)
    requires SlotInv(s) && l in s.launches
    ensures s.launches[l].Held? || s.launches[l].Running? ==> SlotInv(At(s, l, Finishing(o)))
  {
    assert LaunchOk(s, l, s.launches[l]);
    hide SlotInv;
    if s.launches[l].Held? || s.launches[l].Running? { MoveKeepsSlot(s, l, Finishing(o)); }
  }

  lemma StartKeepsSlot(s: State, l: Id)
    requires SlotInv(s) && l !in s.launches
    ensures SlotInv(At(s, l, Unchecked))
  {
    MoveKeepsSlot(s, l, Unchecked);
  }

  lemma StepKeepsSlot(s: State, a: Action)
    requires SlotInv(s)
    ensures SlotInv(Step(s, a))
  {
    hide AdvanceLaunch, ProceedRequest, PollWait, SlotInv;
    if a.Proceed? && a.r in s.requests { ProceedFrame(s, a.r); }
    if a.Poll? && a.w in s.waits { PollFrame(s, a.w, a.expired); }
    match a
    case Advance(l) => if l in s.launches { AdvanceKeepsSlot(s, l); }
    case Start(l) => if l !in s.launches { StartKeepsSlot(s, l); }
    case Finish(l, o) => if l in s.launches { FinishKeepsSlot(s, l, o); }
    case _ =>
      OthersKeepSlot(s, Step(s, a));
  }

  // ---------- the decision ----------

  predicate Decided(at: Asking) {
    at.FindRequest? || at.LoadRequest? || at.CreateRequest? || at.WriteRequest? || Asked(at)
  }

  predicate Asked(at: Asking) { at.FindActive? || at.LoadActive? || at.Answered? }

  predicate RequestOk(s: State, x: Request) {
    && (x.at.WritePolicy? ==> s.policy.Torn?)
    && (Decided(x.at) ==> s.policy == Full(x.decision))
    && (x.at.WriteRequest? ==> s.request.Torn?)
    && (Asked(x.at) ==> s.request == Full(x.decision))
  }

  /** One policy decision binds every request. */
  ghost predicate DecisionInv(s: State) {
    && (forall r :: r in s.requests ==> RequestOk(s, s.requests[r]))
    && (forall r, q ::
          r in s.requests && q in s.requests && s.requests[r].at.WritePolicy? && s.requests[q].at.WritePolicy? ==>
            r == q)
    && (forall r, q ::
          r in s.requests && q in s.requests && s.requests[r].at.WriteRequest? && s.requests[q].at.WriteRequest? ==>
            r == q)
    && (s.request.Exists() ==> s.policy.Full?) && (s.request.Full? ==> s.request == s.policy)
  }

  lemma MoveKeepsDecision(s: State, r: Id, x: Request)
    requires DecisionInv(s) && RequestOk(s, x) && !x.at.WritePolicy? && !x.at.WriteRequest?
    ensures DecisionInv(AtRequest(s, r, x.decision, x.at))
  {
    hide Decided, Asked;
  }

  lemma CreateKeepsDecision(s: State, r: Id, d: Decision)
    requires DecisionInv(s) && r in s.requests && s.requests[r] == Request(d, CreatePolicy) && s.policy.Absent?
    ensures DecisionInv(AtRequest(s.(policy := Torn), r, d, WritePolicy))
  {
    var t := AtRequest(s.(policy := Torn), r, d, WritePolicy);
    forall q | q in t.requests ensures RequestOk(t, t.requests[q]) && (t.requests[q].at.WritePolicy? ==> q == r) {
      assert RequestOk(s, s.requests[q]);
    }
  }

  lemma WriteKeepsDecision(s: State, r: Id, d: Decision)
    requires DecisionInv(s) && r in s.requests && s.requests[r] == Request(d, WritePolicy)
    ensures DecisionInv(AtRequest(s.(policy := Full(d)), r, d, FindRequest))
  {
    var t := AtRequest(s.(policy := Full(d)), r, d, FindRequest);
    assert RequestOk(s, s.requests[r]);
    forall q | q in t.requests ensures RequestOk(t, t.requests[q]) {
      assert RequestOk(s, s.requests[q]);
    }
  }

  lemma CreateRequestKeepsDecision(s: State, r: Id, d: Decision)
    requires DecisionInv(s) && r in s.requests && s.requests[r] == Request(d, CreateRequest) && s.request.Absent?
    ensures DecisionInv(AtRequest(s.(request := Torn), r, d, WriteRequest))
  {
    var t := AtRequest(s.(request := Torn), r, d, WriteRequest);
    assert RequestOk(s, s.requests[r]);
    forall q | q in t.requests ensures RequestOk(t, t.requests[q]) && (t.requests[q].at.WriteRequest? ==> q == r) {
      assert RequestOk(s, s.requests[q]);
    }
  }

  lemma WriteRequestKeepsDecision(s: State, r: Id, d: Decision)
    requires DecisionInv(s) && r in s.requests && s.requests[r] == Request(d, WriteRequest)
    ensures DecisionInv(AtRequest(s.(request := Full(d)), r, d, FindActive))
  {
    var t := AtRequest(s.(request := Full(d)), r, d, FindActive);
    assert RequestOk(s, s.requests[r]);
    forall q | q in t.requests ensures RequestOk(t, t.requests[q]) {
      assert RequestOk(s, s.requests[q]);
    }
  }

  lemma ProceedKeepsDecision(s: State, r: Id)
    requires DecisionInv(s) && r in s.requests
    ensures DecisionInv(ProceedRequest(s, r, s.requests[r].decision, s.requests[r].at))
  {
    var d, at := s.requests[r].decision, s.requests[r].at;
    assert RequestOk(s, s.requests[r]);
    var t := ProceedRequest(s, r, d, at);
    assert s.requests[r] == Request(d, at);
    hide DecisionInv;
    match at
    case CreatePolicy =>
      if s.policy.Absent? { CreateKeepsDecision(s, r, d); } else { MoveKeepsDecision(s, r, Request(d, Failed)); }
    case WritePolicy => WriteKeepsDecision(s, r, d);
    case CreateRequest =>
      if s.request.Absent? {
        CreateRequestKeepsDecision(s, r, d);
      } else {
        MoveKeepsDecision(s, r, Request(d, Failed));
      }
    case WriteRequest => WriteRequestKeepsDecision(s, r, d);
    case Answered(_, _) =>
    case Failed =>
    case _ => MoveKeepsDecision(s, r, t.requests[r]);
  }

  lemma OthersKeepDecision(s: State, t: State)
    requires DecisionInv(s) && t.policy == s.policy && t.request == s.request && t.requests == s.requests
    ensures DecisionInv(t)
  {
    hide Decided, Asked;
    forall r | r in t.requests ensures RequestOk(t, t.requests[r]) { assert RequestOk(s, s.requests[r]); }
  }

  lemma StepKeepsDecision(s: State, a: Action)
    requires DecisionInv(s)
    ensures DecisionInv(Step(s, a))
  {
    hide DecisionInv, ProceedRequest;
    match a
    case Proceed(r) => if r in s.requests { ProceedKeepsDecision(s, r); }
    case Ask(r, d) => if r !in s.requests { MoveKeepsDecision(s, r, Request(d, FindPolicy)); }
    case _ => OthersKeepDecision(s, Step(s, a));
  }

  // ---------- moving forward ----------

  lemma AdvanceForward(s: State, l: Id, m: Id)
    requires SlotInv(s) && l in s.launches && m in s.launches
    ensures var t := AdvanceLaunch(s, l, s.launches[l]);
            && m in t.launches && (Wrote(s.launches[m]) ==> Wrote(t.launches[m]))
            && (s.launches[m].Released? ==> t.launches[m].Released?)
  {
    assert LaunchOk(s, l, s.launches[l]);
    hide SlotInv;
  }

  /** A slot once written stays written or is released, and a released one stays released. */
  lemma LaunchForward(s: State, a: Action, m: Id)
    requires SlotInv(s) && m in s.launches
    ensures var t := Step(s, a);
            && m in t.launches && (Wrote(s.launches[m]) ==> Wrote(t.launches[m]))
            && (s.launches[m].Released? ==> t.launches[m].Released?)
  {
    hide AdvanceLaunch, ProceedRequest, PollWait;
    if a.Advance? && a.l in s.launches { AdvanceForward(s, a.l, m); }
    hide SlotInv;
    if a.Proceed? && a.r in s.requests { ProceedFrame(s, a.r); }
    if a.Poll? && a.w in s.waits { PollFrame(s, a.w, a.expired); }
  }

  lemma ProceedFrame(s: State, r: Id)
    requires r in s.requests
    ensures var t := ProceedRequest(s, r, s.requests[r].decision, s.requests[r].at);
            && t.launches == s.launches && t.published == s.published && t.returned == s.returned
            && t.waits == s.waits && t.active == s.active && t.outcome == s.outcome
            && (s.request.Exists() ==> t.request.Exists())
  {
    hide NextAsking, PolicyAfter;
  }

  lemma ProceedOwn(s: State, r: Id, q: Id)
    requires r in s.requests
    ensures var t := ProceedRequest(s, r, s.requests[r].decision, s.requests[r].at);
            && (q in t.requests <==> q in s.requests)
            && (q in s.requests && (q != r || s.requests[r].at.Answered?) ==> t.requests[q] == s.requests[q])
  {
    hide PolicyAfter, RequestAfter;
  }

  lemma AdvanceFrame(s: State, l: Id)
    requires l in s.launches
    ensures AdvanceLaunch(s, l, s.launches[l]).requests == s.requests
    ensures AdvanceLaunch(s, l, s.launches[l]).waits == s.waits
  {
  }

  lemma PollFrame(s: State, w: Id, expired: bool)
    requires w in s.waits
    ensures var t := PollWait(s, w, s.waits[w].command, s.waits[w].at, expired); t == s.(waits := t.waits)
  {
  }

  /** Published outcomes stay published. */
  lemma PublishedStays(s: State, a: Action, l: Id)
    requires SlotInv(s) && l in s.published
    ensures l in Step(s, a).published && Step(s, a).published[l] == s.published[l]
  {
    if a.Advance? && a.l in s.launches {
      assert LaunchOk(s, a.l, s.launches[a.l]);
      hide SlotInv;
    } else {
      hide SlotInv, ProceedRequest, PollWait;
      if a.Proceed? && a.r in s.requests { ProceedFrame(s, a.r); }
      if a.Poll? && a.w in s.waits { PollFrame(s, a.w, a.expired); }
    }
  }

  // ---------- mutual visibility ----------

  /** A request that has read the slot saw every command that was ever started, or that command had reported. */
  ghost predicate SeenFor(s: State, at: Asking)
    requires at.Answered?
  {
    && s.request.Exists()
    && (forall l :: l in s.returned ==> at.seen == Some(l) || l in at.reported)
    && at.reported <= s.published.Keys
    && (at.seen.Some? ==> at.seen.value in s.launches && Wrote(s.launches[at.seen.value]))
  }

  ghost predicate SeenInv(s: State) {
    forall r :: r in s.requests && s.requests[r].at.Answered? ==> SeenFor(s, s.requests[r].at)
  }

  /** Once a request exists, no further command is started. */
  lemma RequestStopsStarts(s: State, a: Action)
    requires s.request.Exists()
    ensures Step(s, a).request.Exists() && Step(s, a).returned == s.returned
  {
  }

  lemma ReturnedIsSeen(s: State, l: Id)
    requires SlotInv(s) && l in s.returned
    ensures l in s.published || (s.active.Full? && s.active.value.owner == l)
  {
    assert LaunchOk(s, l, s.launches[l]);
  }

  lemma SeenStays(s: State, a: Action, at: Asking)
    requires SlotInv(s) && at.Answered? && SeenFor(s, at)
    ensures SeenFor(Step(s, a), at)
  {
    RequestStopsStarts(s, a);
    if at.seen.Some? { LaunchForward(s, a, at.seen.value); }
    forall l | l in at.reported ensures l in Step(s, a).published { PublishedStays(s, a, l); }
    hide Step, SlotInv, Wrote;
  }

  /** The read itself, at the moment it is made. */
  lemma AnswerIsSeen(s: State, seen: Option<Id>)
    requires SlotInv(s) && s.request.Exists()
    requires seen == (if s.active.Full? then Some(s.active.value.owner) else None)
    ensures SeenFor(s, Answered(seen, s.published.Keys))
  {
    forall l | l in s.returned ensures seen == Some(l) || l in s.published { ReturnedIsSeen(s, l); }
  }

  lemma AnswerShape(s: State, r: Id, t: State)
    requires r in s.requests && t == ProceedRequest(s, r, s.requests[r].decision, s.requests[r].at)
    requires t.requests[r].at.Answered? && !s.requests[r].at.Answered?
    ensures Asked(s.requests[r].at)
    ensures t.requests[r].at == Answered(if s.active.Full? then Some(s.active.value.owner) else None, s.published.Keys)
  {
  }

  lemma SeenElsewhere(s: State, t: State, at: Asking)
    requires at.Answered? && SeenFor(s, at) && t.request.Exists()
    requires t.returned == s.returned && t.published == s.published && t.launches == s.launches
    ensures SeenFor(t, at)
  {
    hide Wrote;
  }

  lemma StepKeepsSeen(s: State, a: Action)
    requires SlotInv(s) && DecisionInv(s) && SeenInv(s)
    ensures SeenInv(Step(s, a))
  {
    var t := Step(s, a);
    forall r | r in t.requests && t.requests[r].at.Answered? ensures SeenFor(t, t.requests[r].at) {
      if r in s.requests && s.requests[r].at == t.requests[r].at {
        hide DecisionInv, Step, SlotInv;
        SeenStays(s, a, s.requests[r].at);
      } else {
        OnlyProceedAnswers(s, a, r);
        assert RequestOk(s, s.requests[r]);
        hide DecisionInv, SlotInv, ProceedRequest, SeenFor;
        AnswerShape(s, r, t);
        ProceedFrame(s, r);
        AnswerIsSeen(s, t.requests[r].at.seen);
        SeenElsewhere(s, t, t.requests[r].at);
      }
    }
  }

  lemma OnlyProceedAnswers(s: State, a: Action, r: Id)
    requires r in Step(s, a).requests && Step(s, a).requests[r].at.Answered?
    requires r !in s.requests || s.requests[r].at != Step(s, a).requests[r].at
    ensures a == Proceed(r) && r in s.requests && !s.requests[r].at.Answered?
  {
    hide AdvanceLaunch, ProceedRequest, PollWait;
    if a.Advance? && a.l in s.launches { AdvanceFrame(s, a.l); }
    if a.Proceed? && a.r in s.requests { ProceedOwn(s, a.r, r); }
    if a.Poll? && a.w in s.waits { PollFrame(s, a.w, a.expired); }
  }

  // ---------- waiting ----------

  predicate ReadOk(s: State, c: Id, read: Option<Report>) {
    read.Some? && read.value.command == c ==> c in s.published && s.published[c] == read.value.outcome
  }

  /** What one wait may have read so far, and what its verdict entails. */
  predicate WaitOk(s: State, w: Wait) {
    && w.command in s.launches && Wrote(s.launches[w.command])
    && match w.at
       case SeekActive(read) => ReadOk(s, w.command, read)
       case ReadActive(read) => ReadOk(s, w.command, read)
       case Observed(Quiescent(o)) =>
         s.launches[w.command].Released? && w.command in s.published && s.published[w.command] == o
       case Observed(Disappeared) => s.launches[w.command].Released?
       case _ => true
  }

  ghost predicate WaitInv(s: State) { forall w :: w in s.waits ==> WaitOk(s, s.waits[w]) }

  lemma WaitStays(s: State, a: Action, w: Wait)
    requires SlotInv(s) && WaitOk(s, w)
    ensures WaitOk(Step(s, a), w)
  {
    LaunchForward(s, a, w.command);
    if w.command in s.published { PublishedStays(s, a, w.command); }
    hide Step, SlotInv, Wrote;
  }

  /** A command that wrote its slot and is no longer in it has released it. */
  lemma GoneIsReleased(s: State, c: Id)
    requires SlotInv(s) && c in s.launches && Wrote(s.launches[c]) && !(s.active.Full? && s.active.value.owner == c)
    ensures s.launches[c].Released?
  {
  }

  lemma PollKeepsWait(s: State, w: Id, expired: bool)
    requires SlotInv(s) && w in s.waits && WaitOk(s, s.waits[w])
    ensures var t := PollWait(s, w, s.waits[w].command, s.waits[w].at, expired); WaitOk(t, t.waits[w])
  {
    var c := s.waits[w].command;
    if !(s.active.Full? && s.active.value.owner == c) { GoneIsReleased(s, c); }
    assert s.outcome.Some? && s.outcome.value.command == c ==>
           c in s.published && s.published[c] == s.outcome.value.outcome;
    hide SlotInv, Wrote;
  }

  lemma StepKeepsWait(s: State, a: Action)
    requires SlotInv(s) && SeenInv(s) && WaitInv(s)
    ensures WaitInv(Step(s, a))
  {
    var t := Step(s, a);
    forall w | w in t.waits ensures WaitOk(t, t.waits[w]) {
      if w in s.waits && t.waits[w] == s.waits[w] {
        hide Step, SlotInv, SeenInv;
        WaitStays(s, a, s.waits[w]);
      } else {
        OnlyPollMoves(s, a, w);
        hide SlotInv, Wrote, PollWait, SeenInv;
        if w in s.waits { PollKeepsWait(s, w, a.expired); } else { assert SeenFor(s, s.requests[a.r].at); }
      }
    }
  }

  lemma OnlyPollMoves(s: State, a: Action, w: Id)
    requires SeenInv(s)
    requires w in Step(s, a).waits && !(w in s.waits && Step(s, a).waits[w] == s.waits[w])
    ensures if w in s.waits then a.Poll? && a.w == w
            else && a.Await? && a.w == w && a.r in s.requests && s.requests[a.r].at.Answered?
                 && SeenFor(s, s.requests[a.r].at)
  {
    hide SeenFor, AdvanceLaunch, ProceedRequest;
    if a.Advance? && a.l in s.launches { AdvanceFrame(s, a.l); }
    if a.Proceed? && a.r in s.requests { ProceedFrame(s, a.r); }
  }

  // ---------- every reachable state ----------

  ghost predicate Inv(s: State) { SlotInv(s) && DecisionInv(s) && SeenInv(s) && WaitInv(s) }

  lemma {:induction false} ReachableInv(actions: seq<Action>)
    ensures Inv(Run(INITIAL, actions))
  {
    if actions != [] {
      ReachableInv(actions[..|actions| - 1]);
      var s, a := Run(INITIAL, actions[..|actions| - 1]), actions[|actions| - 1];
      StepKeepsSlot(s, a);
      StepKeepsDecision(s, a);
      StepKeepsSeen(s, a);
      StepKeepsWait(s, a);
    }
  }

  // ---------- the handshake ----------

  /**
   * If a command was ever started, then a cancellation request that has completed either saw it in the slot,
   * or read the slot only after the command had published its outcome.
   */
  lemma RequestSeesStartedCommand(actions: seq<Action>, l: Id, r: Id)
    requires var s := Run(INITIAL, actions); l in s.returned && r in s.requests && s.requests[r].at.Answered?
    ensures var at := Run(INITIAL, actions).requests[r].at; at.seen == Some(l) || l in at.reported
  {
    ReachableInv(actions);
    hide Run, SlotInv, DecisionInv, WaitInv;
  }

  /** The slot serves one command at a time: two commands in possession of it are the same. */
  lemma OneCommandAtATime(actions: seq<Action>, l: Id, m: Id)
    requires var s := Run(INITIAL, actions);
             l in s.launches && m in s.launches && Owns(s.launches[l]) && Owns(s.launches[m])
    ensures l == m
  {
    ReachableInv(actions);
    hide Run, DecisionInv, WaitInv, SeenInv;
  }

  /** Two requests that complete carry the same decision, and it is the one the policy file holds. */
  lemma OneDecision(actions: seq<Action>, r: Id, q: Id)
    requires var s := Run(INITIAL, actions);
             r in s.requests && q in s.requests && s.requests[r].at.Answered? && s.requests[q].at.Answered?
    ensures var s := Run(INITIAL, actions);
            s.requests[r].decision == s.requests[q].decision && s.policy == Full(s.requests[r].decision)
  {
    ReachableInv(actions);
    hide Run, SlotInv, WaitInv, SeenInv;
  }

  /** A quiescent verdict is true: the awaited command published just that outcome and released its slot. */
  lemma QuiescentIsTrue(actions: seq<Action>, w: Id, o: Outcome)
    requires var s := Run(INITIAL, actions); w in s.waits && s.waits[w].at == Observed(Quiescent(o))
    ensures var s := Run(INITIAL, actions);
            var c := s.waits[w].command;
            && c in s.launches && s.launches[c].Released?
            && c in s.published && s.published[c] == o
  {
    ReachableInv(actions);
    hide Run, SlotInv, DecisionInv, SeenInv;
  }

  /**
   * A disappeared verdict, which the wait reports as not quiescent, is never about a command that vanished
   * without an outcome: the awaited command always published one and released its slot.
   */
  lemma DisappearedIsAlwaysFalseAlarm(actions: seq<Action>, w: Id)
    requires var s := Run(INITIAL, actions); w in s.waits && s.waits[w].at == Observed(Disappeared)
    ensures var s := Run(INITIAL, actions);
            var c := s.waits[w].command;
            c in s.published && c in s.launches && s.launches[c].Released?
  {
    ReachableInv(actions);
    hide Run, DecisionInv, SeenInv;
  }

  // ---------- such a false alarm can happen ----------

  const D := Decision("decision", 0)

  /** One command starts, one request is made and sees it, one wait reads the outcome file too soon. */
  const WAITING := State(
    Full(D), Full(D), Full(Slot(0, false)), None, map[0 := Held], map[0 := Request(D, Answered(Some(0), {}))],
    map[0 := Wait(0, SeekActive(None))], {0}, map[])

  lemma RunStep(actions: seq<Action>, a: Action, s: State, t: State)
    requires Run(INITIAL, actions) == s && Step(s, a) == t
    ensures Run(INITIAL, actions + [a]) == t
  {
    assert (actions + [a])[..|actions|] == actions;
  }

  /** The launcher of command 0 runs up to its return. */
  lemma CommandStarts() returns (actions: seq<Action>)
    ensures Run(INITIAL, actions) ==
            INITIAL.(launches := map[0 := Held], active := Full(Slot(0, false)), returned := {0})
  {
    var s := INITIAL.(launches := map[0 := Unchecked]);
    RunStep([], Start(0), INITIAL, s);
    actions := [] + [Start(0)];
    var i := 0;
    var pcs := [Checked, Created, Written, Held];
    while i < 4
      invariant 0 <= i <= 4 && Run(INITIAL, actions) == s
      invariant s == INITIAL.(launches := map[0 := if i == 0 then Unchecked else pcs[i - 1]],
                              active := if i < 2 then Absent else if i == 2 then Torn else Full(Slot(0, false)),
                              returned := if i == 4 then {0} else {})
    {
      var t := Step(s, Advance(0));
      assert s.launches[0 := pcs[i]] == map[0 := pcs[i]];
      RunStep(actions, Advance(0), s, t);
      actions, s, i := actions + [Advance(0)], t, i + 1;
    }
  }

  /** A request runs through and sees command 0 in the slot. */
  lemma RequestSees(started: seq<Action>, s0: State) returns (actions: seq<Action>)
    requires Run(INITIAL, started) == s0
    requires s0 == INITIAL.(launches := map[0 := Held], active := Full(Slot(0, false)), returned := {0})
    ensures Run(INITIAL, actions) ==
            s0.(policy := Full(D), request := Full(D), requests := map[0 := Request(D, Answered(Some(0), {}))])
  {
    var pcs := [FindPolicy, CreatePolicy, WritePolicy, FindRequest, CreateRequest, WriteRequest, FindActive, LoadActive,
                Answered(Some(0), {})];
    var s := s0.(requests := map[0 := Request(D, FindPolicy)]);
    hide Run;
    RunStep(started, Ask(0, D), s0, s);
    actions := started + [Ask(0, D)];
    var i := 0;
    while i < 8
      invariant 0 <= i <= 8 && Run(INITIAL, actions) == s
      invariant s == s0.(requests := map[0 := Request(D, pcs[i])],
                         policy := if i < 2 then Absent else if i == 2 then Torn else Full(D),
                         request := if i < 5 then Absent else if i == 5 then Torn else Full(D))
    {
      var t := Step(s, Proceed(0));
      assert s.requests[0 := Request(D, pcs[i + 1])] == map[0 := Request(D, pcs[i + 1])];
      assert s.published.Keys == {};
      RunStep(actions, Proceed(0), s, t);
      actions, s, i := actions + [Proceed(0)], t, i + 1;
    }
  }

  /** Command 0 ends: its outcome is published and its slot released. */
  lemma CommandEnds(before: seq<Action>, s0: State) returns (actions: seq<Action>)
    requires Run(INITIAL, before) == s0 && s0 == WAITING
    ensures Run(INITIAL, actions) ==
            WAITING.(launches := map[0 := Released], active := Absent, outcome := Some(Report(0, Cancelled)),
                     published := map[0 := Cancelled])
  {
    var pcs := [Finishing(Cancelled), Publishing(Cancelled), Clearing, Released];
    var s := s0.(launches := map[0 := pcs[0]]);
    hide Run;
    RunStep(before, Finish(0, Cancelled), s0, s);
    actions := before + [Finish(0, Cancelled)];
    var i := 0;
    while i < 3
      invariant 0 <= i <= 3 && Run(INITIAL, actions) == s
      invariant s == WAITING.(launches := map[0 := pcs[i]], active := if i < 3 then Full(Slot(0, false)) else Absent,
                              outcome := if i < 2 then None else Some(Report(0, Cancelled)),
                              published := if i < 2 then map[] else map[0 := Cancelled])
    {
      var t := Step(s, Advance(0));
      assert s.launches[0 := pcs[i + 1]] == map[0 := pcs[i + 1]];
      RunStep(actions, Advance(0), s, t);
      actions, s, i := actions + [Advance(0)], t, i + 1;
    }
  }

  /** Reading the outcome just before it is published and the slot just after it is released misses both. */
  lemma FalseAlarmHappens()
    ensures exists actions, w :: && w in Run(INITIAL, actions).waits
                                 && Run(INITIAL, actions).waits[w].at == Observed(Disappeared)
  {
    var started := CommandStarts();
    hide Run;
    var asked := RequestSees(started, Run(INITIAL, started));
    var s := Run(INITIAL, asked);
    var begun := s.(waits := map[0 := Wait(0, LoadOutcome)]);
    RunStep(asked, Await(0, 0), s, begun);
    assert begun.waits[0 := Wait(0, SeekActive(None))] == WAITING.waits;
    RunStep(asked + [Await(0, 0)], Poll(0, false), begun, WAITING);
    var ended := CommandEnds(asked + [Await(0, 0)] + [Poll(0, false)], WAITING);
    var last := Run(INITIAL, ended);
    RunStep(ended, Poll(0, false), last, Step(last, Poll(0, false)));
    var all := ended + [Poll(0, false)];
    assert 0 in Run(INITIAL, all).waits && Run(INITIAL, all).waits[0].at == Observed(Disappeared);
  }
}
