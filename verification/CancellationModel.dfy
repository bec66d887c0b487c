/**
 * The cancellation handshake as a state machine: every file operation of every process is one atomic step,
 * and steps interleave freely. A process that crashes is one that takes no further step.
 */
module CancellationModel {
  import opened Common

  type Id = nat

  /** A file made by exclusive creation is empty until its content is written. */
  datatype File<T> = Absent | Torn | Full(value: T)
  {
    predicate Exists() { !Absent? }
  }

  datatype Slot = Slot(owner: Id, running: bool)

  datatype Outcome = Cancelled | CancelledBeforeSpawn | Completed | SpawnFailed | TimedOut

  datatype Report = Report(command: Id, outcome: Outcome)

  /** A command's launcher, from the first check to the release of its slot. */
  datatype Launch =
    | Unchecked            // about to look for a request
    | Checked              // saw none, about to create the slot file
    | Created              // created it, about to write it
    | Written              // wrote it, about to look for a request again
    | Held                 // command_started has returned the command id
    | Binding              // loaded its slot, about to mark it running
    | Running
    | Finishing(outcome: Outcome)    // about to load its slot
    | Publishing(outcome: Outcome)   // about to replace the outcome file
    | Clearing             // about to remove the slot file
    | Released
    | Refused
    | Blocked
    | Diverged

  /** A cancellation request, from its policy decision to the read of the active slot. */
  datatype Asking =
    | FindPolicy | LoadPolicy | CreatePolicy | WritePolicy
    | FindRequest | LoadRequest | CreateRequest | WriteRequest
    | FindActive | LoadActive
    | Answered(seen: Option<Id>, reported: set<Id>)   // `reported` is history: outcomes published by then
    | Failed

  datatype Observation = Quiescent(outcome: Outcome) | Disappeared | NotObserved

  /** A wait for one command, cycling through outcome and slot. */
  datatype Waiting = LoadOutcome | SeekActive(read: Option<Report>) | ReadActive(read: Option<Report>)
                   | Observed(observation: Observation) | Unreadable

  datatype Decision = Decision(id: string, at: int)

  datatype Request = Request(decision: Decision, at: Asking)
  datatype Wait = Wait(command: Id, at: Waiting)

  /** The shared files, every process, and two histories that no step reads. */
  datatype State = State(
    policy: File<Decision>, request: File<Decision>, active: File<Slot>, outcome: Option<Report>,
    launches: map<Id, Launch>, requests: map<Id, Request>, waits: map<Id, Wait>,
    returned: set<Id>, published: map<Id, Outcome>)

  const INITIAL := State(Absent, Absent, Absent, None, map[], map[], map[], {}, map[])

  datatype Action =
    | Start(l: Id)
    | Advance(l: Id)
    | Finish(l: Id, outcome: Outcome)
    | Ask(r: Id, decision: Decision)
    | Proceed(r: Id)
    | Await(w: Id, r: Id)
    | Poll(w: Id, expired: bool)

  function At(s: State, l: Id, pc: Launch): State { s.(launches := s.launches[l := pc]) }

  /** Load the slot and continue when it is this command's own. */
  function WithOwnSlot(s: State, l: Id, next: Launch): State {
    At(s, l, if s.active.Full? && s.active.value.owner == l then next else Diverged)
  }

  function AdvanceLaunch(s: State, l: Id, pc: Launch): State {
    match pc
    case Unchecked => At(s, l, if s.request.Exists() then Refused else Checked)
    case Checked => if s.active.Exists() then At(s, l, Blocked) else At(s.(active := Torn), l, Created)
    case Created => At(s.(active := Full(Slot(l, false))), l, Written)
    case Written =>
      if s.request.Exists() then At(s, l, Finishing(CancelledBeforeSpawn))
      else At(s.(returned := s.returned + {l}), l, Held)
    case Held => WithOwnSlot(s, l, Binding)
    case Binding => At(s.(active := Full(Slot(l, true))), l, Running)
    case Finishing(o) => WithOwnSlot(s, l, Publishing(o))
    case Publishing(o) =>
      At(s.(outcome := Some(Report(l, o)), published := s.published[l := o]), l, Clearing)
    case Clearing => At(s.(active := Absent), l, Released)
    case _ => s
  }

  function AtRequest(s: State, r: Id, d: Decision, at: Asking): State {
    s.(requests := s.requests[r := Request(d, at)])
  }

  /** Where a request goes next, given the files as they are. */
  function NextAsking(s: State, d: Decision, at: Asking): Asking {
    match at
    case FindPolicy => if s.policy.Exists() then LoadPolicy else CreatePolicy
    case LoadPolicy => if s.policy == Full(d) then FindRequest else Failed
    case CreatePolicy => if s.policy.Exists() then Failed else WritePolicy
    case WritePolicy => FindRequest
    case FindRequest => if s.request.Exists() then LoadRequest else CreateRequest
    case LoadRequest => if s.request == Full(d) then FindActive else Failed
    case CreateRequest => if s.request.Exists() then Failed else WriteRequest
    case WriteRequest => FindActive
    case FindActive => if s.active.Exists() then LoadActive else Answered(None, s.published.Keys)
    case LoadActive => if s.active.Full? then Answered(Some(s.active.value.owner), s.published.Keys) else Failed
    case _ => at
  }

  function PolicyAfter(s: State, d: Decision, at: Asking): File<Decision> {
    if at.CreatePolicy? && s.policy.Absent? then Torn else if at.WritePolicy? then Full(d) else s.policy
  }

  function RequestAfter(s: State, d: Decision, at: Asking): File<Decision> {
    if at.CreateRequest? && s.request.Absent? then Torn else if at.WriteRequest? then Full(d) else s.request
  }

  function ProceedRequest(s: State, r: Id, d: Decision, at: Asking): State {
    AtRequest(s.(policy := PolicyAfter(s, d, at), request := RequestAfter(s, d, at)), r, d, NextAsking(s, d, at))
  }

  function AtWait(s: State, w: Id, c: Id, at: Waiting): State { s.(waits := s.waits[w := Wait(c, at)]) }

  /** One round's verdict, from the outcome read before and the slot read now. */
  function Verdict(c: Id, read: Option<Report>, active: Option<Id>, expired: bool): Waiting {
    if read.Some? && read.value.command == c && active != Some(c) then Observed(Quiescent(read.value.outcome))
    else if active.None? then Observed(Disappeared)
    else if expired then Observed(NotObserved)
    else LoadOutcome
  }

  function PollWait(s: State, w: Id, c: Id, at: Waiting, expired: bool): State {
    match at
    case LoadOutcome => AtWait(s, w, c, SeekActive(s.outcome))
    case SeekActive(read) =>
      AtWait(s, w, c, if s.active.Exists() then ReadActive(read) else Verdict(c, read, None, expired))
    case ReadActive(read) =>
      AtWait(s, w, c, if s.active.Full? then Verdict(c, read, Some(s.active.value.owner), expired) else Unreadable)
    case _ => s
  }

  function Step(s: State, a: Action): State {
    match a
    case Start(l) => if l in s.launches then s else At(s, l, Unchecked)
    case Advance(l) => if l in s.launches then AdvanceLaunch(s, l, s.launches[l]) else s
    case Finish(l, o) =>
      if l in s.launches && (s.launches[l].Held? || s.launches[l].Running?) then At(s, l, Finishing(o)) else s
    case Ask(r, d) => if r in s.requests then s else AtRequest(s, r, d, FindPolicy)
    case Proceed(r) =>
      if r in s.requests then ProceedRequest(s, r, s.requests[r].decision, s.requests[r].at) else s
    case Await(w, r) =>
      if w !in s.waits && r in s.requests && s.requests[r].at.Answered? && s.requests[r].at.seen.Some?
      then AtWait(s, w, s.requests[r].at.seen.value, LoadOutcome) else s
    case Poll(w, expired) =>
      if w in s.waits then PollWait(s, w, s.waits[w].command, s.waits[w].at, expired) else s
  }

  function Run(s: State, actions: seq<Action>): State {
    if actions == [] then s else Step(Run(s, actions[..|actions| - 1]), actions[|actions| - 1])
  }
}
