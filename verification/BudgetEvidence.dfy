/** The evidence manifest folds the same journal a second time; both folds agree. */
module BudgetEvidence {
  import opened Common
  import opened BudgetText
  import opened BudgetModel
  import opened BudgetConservation
  import opened BudgetBoundary
  import opened BudgetAgreement
  import opened BudgetBlindSpot
  import opened BudgetCapacity

  /** What the manifest records about the budget, or that no boundary was used. */
  datatype Manifest =
    | NotApplicable
    | RecordedUsage(prompt: nat, completion: nat, total: nat, tools: nat, duration: nat, attempts: nat,
                    cost: Option<nat>, unpriced: nat)

  /** The totals of all committed results. */
  function CommittedTotals(events: seq<Event>): Totals {
    if events == [] then ZERO
    else
      var before, e := CommittedTotals(events[..|events| - 1]), events[|events| - 1];
      if e.body.Committed? then Add(before, e.body.result.actual) else before
  }

  predicate SomeCommitted(events: seq<Event>) { exists e :: e in events && e.body.Committed? }

  predicate AllPriced(events: seq<Event>) {
    forall e :: e in events && e.body.Committed? ==> e.body.result.actual.cost.Some?
  }

  function ManifestOf(events: seq<Event>): Manifest {
    var t := CommittedTotals(events);
    if !SomeCommitted(events) then NotApplicable
    else RecordedUsage(t.prompt, t.completion, t.prompt + t.completion, t.tools, t.duration, t.attempts,
                       if AllPriced(events) then Some(t.known) else None, t.unpriced)
  }

  /** The manifest's own loop over the journal. */
  method BudgetEvidence(events: seq<Event>) returns (m: Manifest)
    ensures m == ManifestOf(events)
  {
    var prompt: nat, completion: nat, total: nat, tools: nat := 0, 0, 0, 0;
    var duration: nat, attempts: nat, unpriced: nat, cost: nat := 0, 0, 0, 0;
    var costKnown, count := true, 0;
    var i := 0;
    while i < |events|
      invariant 0 <= i <= |events|
      invariant CommittedTotals(events[..i]) == Totals(prompt, completion, tools, duration, attempts, cost, unpriced)
      invariant total == prompt + completion
      invariant count > 0 <==> SomeCommitted(events[..i])
      invariant costKnown == AllPriced(events[..i])
    {
      assert events[..i + 1][..i] == events[..i];
      assert events[..i + 1] == events[..i] + [events[i]];
      if events[i].body.Committed? {
        var actual := events[i].body.result.actual;
        prompt, completion := prompt + actual.prompt, completion + actual.completion;
        total := total + (actual.prompt + actual.completion);
        tools, duration := tools + actual.tools, duration + actual.duration;
        attempts, unpriced := attempts + actual.attempts, unpriced + actual.unpriced;
        if actual.cost.None? { costKnown := false; } else { cost := cost + actual.cost.value; }
        count := count + 1;
      }
      i := i + 1;
    }
    assert events[..i] == events;
    if count == 0 { return NotApplicable; }
    m := RecordedUsage(prompt, completion, total, tools, duration, attempts,
                       if costKnown then Some(cost) else None, unpriced);
  }

  lemma NextExec(limits: Limits, l: Ledger, e: Event)
    requires Accepts(limits, l, e)
    ensures Next(limits, l, e).exec == if e.body.Committed? then Add(l.exec, e.body.result.actual) else l.exec
  {
    hide Add;
    if !e.body.Committed? { NextSpendsNothing(limits, l, e); }
  }

  lemma ActualPrice(limits: Limits, r: Reservation, x: Result)
    requires ActualOk(limits, r, x)
    ensures x.actual.cost.None? <==> x.actual.unpriced > 0
  {
  }

  /** The reader's loop has added up exactly the committed results. */
  lemma {:induction false} LoopSumsCommits(limits: Limits, events: seq<Event>)
    requires Loop(limits, events).Some?
    ensures Loop(limits, events).value.exec == CommittedTotals(events)
    ensures CommittedTotals(events).unpriced > 0 <==> !AllPriced(events)
  {
    if events != [] {
      var init, e := events[..|events| - 1], events[|events| - 1];
      LoopSumsCommits(limits, init);
      var l := Loop(limits, init).value;
      NextExec(limits, l, e);
      if e.body.Committed? { ActualPrice(limits, e.body.result.reservation, e.body.result); }
      assert init + [e] == events;
      hide Accepts, Next, Loop, ActualOk;
      PricedStep(init, e);
    }
  }

  lemma PricedStep(events: seq<Event>, e: Event)
    ensures AllPriced(events + [e]) <==> AllPriced(events) && (e.body.Committed? ==> e.body.result.actual.cost.Some?)
  {
    var all := events + [e];
    assert e in all && forall x :: x in events ==> x in all;
  }

  /**
   * On every accepted journal with a commit, the ledger shows what the manifest shows plus the usage from before the
   * first budget event, in tokens, tool calls, unpriced operations and cost; a cost is known to both or lost by
   * historical usage without a price. The manifest's duration and attempts never exceed the ledger's.
   */
  lemma FoldsAgree(limits: Limits, events: seq<Event>)
    requires Accepted(limits, events) && SomeCommitted(events)
    ensures var m, u := ManifestOf(events), Usage(Replay(limits, events).value.exec);
            var past := (d: Dim) => Base(limits, events, Whole, d);
            && m.RecordedUsage?
            && u.prompt == m.prompt + past(PromptTokens) && u.completion == m.completion + past(CompletionTokens)
            && u.prompt + u.completion == m.total + past(TotalTokens)
            && u.tools == m.tools + past(ToolCalls) && u.unpriced == m.unpriced + past(CostUnavailable)
            && u.cost == (if m.cost.None? || past(CostUnavailable) > 0 then None
                  else Some(m.cost.value + past(CostUsd)))
            && m.duration <= u.duration && m.attempts <= u.attempts
  {
    hide CommittedTotals, Loop, Late, AllPriced, SomeCommitted, Base;
    LoopSumsCommits(limits, events);
    var l := Loop(limits, events).value;
    LateOnlyLate(limits, l, events);
    LateAmount(limits, l, events, Whole, PromptTokens);
    LateAmount(limits, l, events, Whole, CompletionTokens);
    LateAmount(limits, l, events, Whole, TotalTokens);
    LateAmount(limits, l, events, Whole, ToolCalls);
    LateAmount(limits, l, events, Whole, CostUsd);
    LateAmount(limits, l, events, Whole, CostUnavailable);
  }
}
