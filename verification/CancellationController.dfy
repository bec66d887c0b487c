/**
 * The controller's methods over the shared files, each run without interruption.  What other processes do between
 * their file operations is the subject of the state machine; here a wait is given what it reads in each round.
 */
module CancellationControllerModule {
  import opened Common
  import opened CancellationModel

  datatype StartResult = Started | AlreadyCancelled | SlotTaken

  /** What one round of waiting reads: the outcome first, the slot after it. */
  datatype Round = Round(outcome: Option<Report>, active: File<Slot>)

  /** What one round tells a wait for command `c`; an unwritten slot file cannot be read. */
  function Judge(c: Id, round: Round, expired: bool): Waiting {
    match round.active
    case Absent => Verdict(c, round.outcome, None, expired)
    case Torn => Unreadable
    case Full(slot) => Verdict(c, round.outcome, Some(slot.owner), expired)
  }

  /** A wait ends in the first round that decides it, or in the last, whose deadline has passed. */
  function Waited(c: Id, rounds: seq<Round>): Waiting
    requires rounds != []
  {
    var now := Judge(c, rounds[0], |rounds| == 1);
    if now != LoadOutcome || |rounds| == 1 then now else Waited(c, rounds[1..])
  }

  class CancellationController {
    var policy: File<Decision>
    var request: File<Decision>
    var active: File<Slot>
    var outcome: Option<Report>

    constructor ()
      ensures policy == Absent && request == Absent && active == Absent && outcome == None
    {
      policy, request, active, outcome := Absent, Absent, Absent, None;
    }

    /** Bind the decision, or find it bound already; another decision, or half of one, refuses. */
    method PublishPolicyDecision(d: Decision) returns (ok: bool)
      modifies `policy
      ensures ok <==> old(policy) == Absent || old(policy) == Full(d)
      ensures policy == if ok then Full(d) else old(policy)
    {
      if policy.Exists() { return policy == Full(d); }
      policy := Torn;
      policy := Full(d);
      ok := true;
    }

    /** Decision first, request second, slot last: the answer is the command in the slot after the request exists. */
    method RequestCancellation(d: Decision) returns (seen: Option<Option<Id>>)
      modifies `policy, `request
      ensures var bound := old(policy) == Absent || old(policy) == Full(d);
              var asked := bound && (old(request) == Absent || old(request) == Full(d));
              && policy == (if bound then Full(d) else old(policy))
              && request == (if asked then Full(d) else old(request))
              && seen == (if !asked || active.Torn? then None
                          else Some(if active.Full? then Some(active.value.owner) else None))
    {
      var bound := PublishPolicyDecision(d);
      if !bound { return None; }
      if request.Exists() {
        if request != Full(d) { return None; }
      } else {
        request := Torn;
        request := Full(d);
      }
      match active
      case Absent => seen := Some(None);
      case Torn => seen := None;
      case Full(slot) => seen := Some(Some(slot.owner));
    }

    /** Check, take the slot, write it, and check again; `meanwhile` says that a request exists at the second look. */
    method CommandStarted(id: Id, meanwhile: bool) returns (r: StartResult)
      modifies `active, `outcome
      ensures var free := !request.Exists() && !old(active).Exists();
              && r == (if request.Exists() || (free && meanwhile) then AlreadyCancelled
                       else if !free then SlotTaken else Started)
              && active == (if r.Started? then Full(Slot(id, false)) else old(active))
              && outcome == (if free && meanwhile then Some(Report(id, CancelledBeforeSpawn)) else old(outcome))
    {
      if request.Exists() { return AlreadyCancelled; }
      if active.Exists() { return SlotTaken; }
      active := Torn;
      active := Full(Slot(id, false));
      if meanwhile {
        var done := CommandFinished(id, CancelledBeforeSpawn);
        return AlreadyCancelled;
      }
      r := Started;
    }

    method CommandSpawned(id: Id) returns (ok: bool)
      modifies `active
      ensures ok <==> old(active).Full? && old(active).value.owner == id
      ensures active == if ok then Full(Slot(id, true)) else old(active)
    {
      if !active.Full? || active.value.owner != id { return false; }
      active := Full(Slot(id, true));
      ok := true;
    }

    /** Publish the outcome before releasing the slot; only the command in the slot can. */
    method CommandFinished(id: Id, o: Outcome) returns (ok: bool)
      modifies `active, `outcome
      ensures ok <==> old(active).Full? && old(active).value.owner == id
      ensures active == (if ok then Absent else old(active))
              && outcome == (if ok then Some(Report(id, o)) else old(outcome))
    {
      if !active.Full? || active.value.owner != id { return false; }
      outcome := Some(Report(id, o));
      active := Absent;
      ok := true;
    }
  }

  /** The polling loop: read the outcome, read the slot, decide or sleep until the deadline. */
  method WaitForQuiescence(c: Id, rounds: seq<Round>) returns (r: Waiting)
    requires rounds != []
    ensures r == Waited(c, rounds) && r != LoadOutcome
    ensures forall o :: r == Observed(Quiescent(o)) ==>
              exists k :: 0 <= k < |rounds| && rounds[k].outcome == Some(Report(c, o)) &&
                          !(rounds[k].active.Full? && rounds[k].active.value.owner == c)
    ensures r == Observed(Disappeared) ==> exists k :: 0 <= k < |rounds| && rounds[k].active.Absent?
  {
    var k := 0;
    while true
      invariant 0 <= k < |rounds| && Waited(c, rounds) == Waited(c, rounds[k..])
      decreases |rounds| - k
    {
      var expired := k == |rounds| - 1;
      r := Judge(c, rounds[k], expired);
      if r != LoadOutcome { return; }
      assert rounds[k..][1..] == rounds[k + 1..];
      k := k + 1;
    }
  }
}
