/** When an allocation that was published is set back to CLAIMED, over all runs. */
module WebContinuationReopening {
  import opened Basics
  import opened WebContinuation
  import opened WebContinuationSafety

  /** The state an allocation is in; Allocating stands for no row. */
  function StateOf(allocations: map<string, Allocation>, x: string): AllocationState {
    if x in allocations then allocations[x].state else Allocating
  }

  lemma StageLeavesAllocations(s: State, e: Event)
    requires StageEvent(e)
    ensures StageStep(s, e).allocations == s.allocations
  {
    hide StagePrepareStep, StageInsertStep, StageCheckStep, StageSubmitStep;
  }

  lemma CommitLeavesAllocations(s: State, e: Event)
    requires CommitEvent(e) && !e.CommitPublish?
    ensures CommitStep(s, e).allocations == s.allocations
  {
    hide CommitAuthorizeStep, CommitStatusStep, CommitProveStep, CommitLookStep, CommitBeginStep, CommitRebindStep, CommitSettleStep;
  }

  lemma OutsideLeavesAllocations(s: State, e: Event)
    ensures OutsideStep(s, e).allocations == s.allocations
  {
    hide ReconcileStep, CancelStep, RelayMovesStep, RelayReceiptStep, AttestStep, ForeignSubmitStep;
  }

  lemma AllocationsUntouched(s: State, e: Event)
    requires !e.ClaimRecord? && !e.CommitPublish? && !e.TargetInsert?
    ensures Step(s, e).allocations == s.allocations
  {
    hide StageStep, CommitStep, OutsideStep, TargetCheckStep, TargetSubmitStep, ClaimAuthorizeStep, ClaimProveStep, ClaimPrepareStep;
    if StageEvent(e) {
      StageLeavesAllocations(s, e);
    } else if CommitEvent(e) {
      CommitLeavesAllocations(s, e);
    } else {
      OutsideLeavesAllocations(s, e);
    }
  }

  /** The step at which an allocation leaves PUBLISHED records a claim of it, and the chat has
      no open allocation. */
  lemma ReopeningStep(s: State, e: Event, x: string)
    requires Inv(s) && x in s.allocations && s.allocations[x].state == AllocationPublished
    ensures StateOf(Step(s, e).allocations, x) != AllocationPublished <==>
      && e.ClaimRecord? && e.pid in s.flights && s.flights[e.pid].ClaimPrepared? && s.flights[e.pid].allocation == x
      && !HasOpenAllocation(s.allocations, s.allocations[x].owner, s.allocations[x].chat)
  {
    hide Inv, HasOpenAllocation;
    if e.ClaimRecord? {
      ClaimRecordReopens(s, e.pid, x);
    } else if !e.CommitPublish? && !e.TargetInsert? {
      AllocationsUntouched(s, e);
    } else {
      PublishedStaysHere(s, e, x);
    }
  }

  lemma PublishedStaysHere(s: State, e: Event, x: string)
    requires x in s.allocations && s.allocations[x].state == AllocationPublished && (e.CommitPublish? || e.TargetInsert?)
    ensures StateOf(Step(s, e).allocations, x) == AllocationPublished
  {
    hide CommitPublishStep, TargetInsertStep;
    if e.CommitPublish? {
      CommitPublishLeaves(s, e.pid, x);
    } else {
      TargetInsertLeaves(s, e, x);
    }
  }

  lemma CommitPublishLeaves(s: State, pid: nat, x: string)
    requires x in s.allocations && s.allocations[x].state == AllocationPublished
    ensures StateOf(CommitPublishStep(s, pid).allocations, x) == AllocationPublished
  {
  }

  lemma TargetInsertLeaves(s: State, e: Event, x: string)
    requires e.TargetInsert? && x in s.allocations && s.allocations[x].state == AllocationPublished
    ensures StateOf(TargetInsertStep(s, e.pid, e.req, e.cp, e.grant).allocations, x) == AllocationPublished
  {
    hide WellFormed, AllocationId, HasOpenAllocation, AllocationKeyTaken, NewAllocation;
    var k, t := AllocationId(e.req.owner, e.req.run, e.req.chat, e.req.key), TargetInsertStep(s, e.pid, e.req, e.cp, e.grant);
    if k in s.allocations {
      assert t.allocations == s.allocations;
    } else {
      assert x != k;
    }
  }

  lemma ClaimRecordReopens(s: State, pid: nat, x: string)
    requires Inv(s) && x in s.allocations && s.allocations[x].state == AllocationPublished
    ensures StateOf(ClaimRecordStep(s, pid).allocations, x) != AllocationPublished <==>
      && pid in s.flights && s.flights[pid].ClaimPrepared? && s.flights[pid].allocation == x
      && !HasOpenAllocation(s.allocations, s.allocations[x].owner, s.allocations[x].chat)
    ensures StateOf(ClaimRecordStep(s, pid).allocations, x) in {AllocationPublished, Claimed}
  {
    hide Inv, HasOpenAllocation, JobTaken, AttestedFor;
    if pid in s.flights && s.flights[pid].ClaimPrepared? && s.flights[pid].allocation == x {
      FlightFact(s, pid);
      AllocationFact(s, x);
    }
  }

  // ---------------------------------------------------------------- over runs

  /** The chat of an allocation has an open one. */
  predicate ChatOpen(s: State, x: string) {
    x in s.allocations && HasOpenAllocation(s.allocations, s.allocations[x].owner, s.allocations[x].chat)
  }

  /** An open allocation of the chat stands before every step. */
  predicate OpenThroughout(s: State, events: seq<Event>, x: string)
    decreases |events|
  {
    events == [] || (ChatOpen(s, x) && OpenThroughout(Step(s, events[0]), events[1..], x))
  }

  /** As long as an open allocation of its chat stands, a published allocation stays so. */
  lemma {:induction false} PublishedWhileOpen(s: State, events: seq<Event>, x: string)
    requires Inv(s) && x in s.allocations && s.allocations[x].state == AllocationPublished && OpenThroughout(s, events, x)
    ensures StateOf(Run(s, events).allocations, x) == AllocationPublished
    decreases |events|
  {
    hide Step, Inv, Grows, HasOpenAllocation;
    if events != [] {
      ReopeningStep(s, events[0], x);
      StepKeepsInv(s, events[0]);
      AllocationStays(s, Step(s, events[0]), x);
      PublishedWhileOpen(Step(s, events[0]), events[1..], x);
    }
  }

  /** A claim of x from its beginning, with the chat bound to the source of its continuation. */
  function WholeClaim(s: State, x: string): seq<Event>
    requires x in s.allocations && ClaimId(s.allocations[x]) in s.core
  {
    var a, row := s.allocations[x], s.core[ClaimId(s.allocations[x])];
    var cp := Checkpoint(a.checkpoint, a.run, Some(row.source), "", a.checkpointSha);
    [Crash, Rebound(ChatKey(a.owner, a.chat), row.source),
     ClaimAuthorize(0, x, cp, Some(a.grant)), ClaimProve(0, true), ClaimPrepare(0, cp)]
  }

  lemma RunFive(s: State, a: Event, b: Event, c: Event, d: Event, e: Event)
    ensures Run(s, [a, b, c, d, e]) == Step(Step(Step(Step(Step(s, a), b), c), d), e)
  {
    hide Step;
    RunOne(s, a);
    RunAppend(s, [a], [b]);
    RunOne(Step(s, a), b);
    RunAppend(s, [a] + [b], [c]);
    RunOne(Step(Step(s, a), b), c);
    RunAppend(s, [a] + [b] + [c], [d]);
    RunOne(Step(Step(Step(s, a), b), c), d);
    RunAppend(s, [a] + [b] + [c] + [d], [e]);
    RunOne(Step(Step(Step(Step(s, a), b), c), d), e);
    assert [a] + [b] + [c] + [d] + [e] == [a, b, c, d, e];
  }

  lemma Released(s: State, chat: ChatKey, source: string)
    ensures Step(Step(s, Crash), Rebound(chat, source)) == s.(flights := map[], binding := s.binding[chat := source])
  {
    OutsideDispatch(s, Crash);
    OutsideDispatch(s.(flights := map[]), Rebound(chat, source));
    hide Step;
  }

  lemma Authorizes(s: State, x: string, cp: Checkpoint)
    requires 0 !in s.flights && x in s.allocations && cp.id == s.allocations[x].checkpoint
    ensures Step(s, ClaimAuthorize(0, x, cp, Some(s.allocations[x].grant))) == With(s, 0, ClaimAuthorized(x, s.allocations[x]))
  {
    ClaimDispatch(s, ClaimAuthorize(0, x, cp, Some(s.allocations[x].grant)));
    hide Step;
  }

  lemma Proves(s: State, x: string, a: Allocation)
    requires 0 in s.flights && s.flights[0] == ClaimAuthorized(x, a) && NewTargetProven(s, a)
    ensures Step(s, ClaimProve(0, true)) == With(s, 0, ClaimProven(x, a, ReceiptOf(s, a.job).value))
  {
    ClaimDispatch(s, ClaimProve(0, true));
    hide Step, AttestedFor;
  }

  lemma FindsTheRow(s: State, a: Allocation, cp: Checkpoint)
    requires Reclaimable(s, a) && cp.id == a.checkpoint && Bound(s, ChatKey(a.owner, a.chat)) == Some(s.core[ClaimId(a)].source)
    requires cp.conversation == Some(s.core[ClaimId(a)].source)
    ensures PreparedCore(s, ClaimId(a), a.run, cp, ReceiptOf(s, a.job).value.conversation) == Some(s.core[ClaimId(a)])
  {
    hide NewTargetProven;
  }

  lemma Prepares(s: State, x: string, a: Allocation, cp: Checkpoint)
    requires Reclaimable(s, a) && 0 in s.flights && s.flights[0] == ClaimProven(x, a, ReceiptOf(s, a.job).value)
    requires cp.id == a.checkpoint && cp.conversation == Some(s.core[ClaimId(a)].source)
    requires Bound(s, ChatKey(a.owner, a.chat)) == Some(s.core[ClaimId(a)].source)
    ensures Step(s, ClaimPrepare(0, cp)) == With(s, 0, ClaimPrepared(x, a, ReceiptOf(s, a.job).value))
  {
    ClaimDispatch(s, ClaimPrepare(0, cp));
    FindsTheRow(s, a, cp);
    hide Step, PreparedCore, NewTargetProven;
    assert s.core[ClaimId(a) := s.core[ClaimId(a)]] == s.core;
  }

  lemma StaysReclaimable(s: State, t: State, a: Allocation)
    requires Reclaimable(s, a) && t.jobs == s.jobs && t.attested == s.attested && t.core == s.core
    ensures Reclaimable(t, a) && NewTargetProven(t, a) && ReceiptOf(t, a.job) == ReceiptOf(s, a.job)
  {
  }

  lemma PublishedIsReclaimable(s: State, x: string)
    requires Inv(s) && x in s.allocations && s.allocations[x].state == AllocationPublished
    ensures Reclaimable(s, s.allocations[x])
  {
    AllocationFact(s, x);
    TransferFact(s, ClaimId(s.allocations[x]));
    hide Inv, Reclaimable;
  }

  /** The claim comes as far as its prepared continuation, and touches no allocation. */
  lemma ClaimsAnew(s: State, x: string)
    requires x in s.allocations && Reclaimable(s, s.allocations[x])
    ensures var a, t := s.allocations[x], Run(s, WholeClaim(s, x));
      && t.allocations == s.allocations && 0 in t.flights && t.flights[0] == ClaimPrepared(x, a, ReceiptOf(s, a.job).value)
  {
    var a, row := s.allocations[x], s.core[ClaimId(s.allocations[x])];
    var cp := Checkpoint(a.checkpoint, a.run, Some(row.source), "", a.checkpointSha);
    var chat := ChatKey(a.owner, a.chat);
    RunFive(s, Crash, Rebound(chat, row.source), ClaimAuthorize(0, x, cp, Some(a.grant)), ClaimProve(0, true), ClaimPrepare(0, cp));
    Released(s, chat, row.source);
    hide Step, Run, Reclaimable, NewTargetProven, ReceiptOf;
    var t := s.(flights := map[], binding := s.binding[chat := row.source]);
    Authorizes(t, x, cp);
    var t1 := With(t, 0, ClaimAuthorized(x, a));
    StaysReclaimable(s, t1, a);
    Proves(t1, x, a);
    var t2 := With(t1, 0, ClaimProven(x, a, ReceiptOf(t1, a.job).value));
    StaysReclaimable(s, t2, a);
    Prepares(t2, x, a, cp);
  }

  lemma RecordReopens(s: State, x: string)
    requires Inv(s) && x in s.allocations && s.allocations[x].state == AllocationPublished && !ChatOpen(s, x)
    requires 0 in s.flights && s.flights[0].ClaimPrepared? && s.flights[0].allocation == x
    ensures StateOf(Step(s, ClaimRecord(0)).allocations, x) == Claimed
  {
    ReopeningStep(s, ClaimRecord(0), x);
    ClaimDispatch(s, ClaimRecord(0));
    ClaimRecordReopens(s, 0, x);
    hide *;
  }

  /** A published allocation whose chat has no open one is claimed again, by a claim that begins
      only now: before its record no allocation has changed. */
  lemma PublishedReopens(s: State, x: string)
    requires Inv(s) && x in s.allocations && s.allocations[x].state == AllocationPublished && !ChatOpen(s, x)
    ensures Reclaimable(s, s.allocations[x])
    ensures Run(s, WholeClaim(s, x)).allocations == s.allocations
    ensures StateOf(Step(Run(s, WholeClaim(s, x)), ClaimRecord(0)).allocations, x) == Claimed
  {
    PublishedIsReclaimable(s, x);
    ClaimsAnew(s, x);
    RunKeepsInv(s, WholeClaim(s, x));
    var t := Run(s, WholeClaim(s, x));
    hide *;
    assert ChatOpen(t, x) == ChatOpen(s, x) by { SameChat(s, t, x); }
    RecordReopens(t, x);
  }

  lemma SameChat(s: State, t: State, x: string)
    requires t.allocations == s.allocations
    ensures ChatOpen(t, x) == ChatOpen(s, x)
  {
  }

  /** The run changes no allocation, and its next step takes x out of PUBLISHED. */
  predicate Reopening(s: State, events: seq<Event>, e: Event, x: string) {
    var t := Run(s, events);
    t.allocations == s.allocations && StateOf(Step(t, e).allocations, x) != AllocationPublished
  }

  /** An allocation, unlike a transfer, can leave PUBLISHED: it can be the next of all to change
      exactly when its chat has no open allocation, whether or not a claim is under way. */
  lemma AllocationReopensIff(s: State, x: string)
    requires Inv(s) && x in s.allocations && s.allocations[x].state == AllocationPublished
    ensures (exists events, e :: Reopening(s, events, e, x)) <==> !ChatOpen(s, x)
  {
    hide Step, Run, Inv, Grows, HasOpenAllocation;
    if !ChatOpen(s, x) {
      PublishedReopens(s, x);
      assert Reopening(s, WholeClaim(s, x), ClaimRecord(0), x);
    }
    if events, e :| Reopening(s, events, e, x) {
      RunKeepsInv(s, events);
      ReopeningStep(Run(s, events), e, x);
    }
  }

  predicate Reopened(s: State, events: seq<Event>, x: string) {
    StateOf(Run(s, events).allocations, x) != AllocationPublished
  }

  /** And it can leave PUBLISHED at all exactly when its chat can come to have no open one. */
  lemma EverReopensIff(s: State, x: string)
    requires Inv(s) && x in s.allocations && s.allocations[x].state == AllocationPublished
    ensures (exists events :: Reopened(s, events, x)) <==> exists events :: !ChatOpen(Run(s, events), x)
  {
    hide Step, Run, Inv, Grows, HasOpenAllocation, OpenThroughout;
    if events :| !ChatOpen(Run(s, events), x) {
      var t := Run(s, events);
      RunKeepsInv(s, events);
      AllocationStays(s, t, x);
      if t.allocations[x].state == AllocationPublished {
        PublishedReopens(t, x);
        RunAppend(s, events, WholeClaim(t, x));
        RunAppend(s, events + WholeClaim(t, x), [ClaimRecord(0)]);
        RunOne(Run(t, WholeClaim(t, x)), ClaimRecord(0));
        assert Reopened(s, events + WholeClaim(t, x) + [ClaimRecord(0)], x);
      } else {
        assert Reopened(s, events, x);
      }
    }
    if events :| Reopened(s, events, x) {
      if OpenThroughout(s, events, x) {
        PublishedWhileOpen(s, events, x);
      } else {
        var before := ClosedBefore(s, events, x);
      }
    }
  }

  lemma {:induction false} ClosedBefore(s: State, events: seq<Event>, x: string) returns (before: seq<Event>)
    requires !OpenThroughout(s, events, x)
    ensures !ChatOpen(Run(s, before), x)
    decreases |events|
  {
    hide Step, HasOpenAllocation;
    if !ChatOpen(s, x) {
      before := [];
    } else {
      var rest := ClosedBefore(Step(s, events[0]), events[1..], x);
      before := [events[0]] + rest;
      assert before[0] == events[0] && before[1..] == rest;
    }
  }
}
