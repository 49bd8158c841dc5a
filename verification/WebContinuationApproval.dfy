/** Who let a message out: over every run, each row and each derived job of the relay goes back
    to a request that an operator approved, with the text of the checkpoint it quotes.

    The approval is a parameter of the request and is kept in no table, so the statement is about
    the run and not about its last state: for each row there is an earlier step that staged or
    allocated it, and that step carried the approval. The proof goes by the few steps that enter
    a row or a flight about to enter one. */
module WebContinuationApproval {
  import opened Basics
  import opened WebContinuation
  import opened WebContinuationSafety

  /** For which chat, under which key and grant, which message was approved. */
  datatype Approval = Approval(owner: string, run: string, chat: string, key: string, prompt: string, grant: string)

  function OfTransfer(id: ContinuationId, t: Transfer): Approval {
    Approval(id.owner, t.run, id.chat, id.key, t.prompt, t.grant)
  }

  function OfAllocation(a: Allocation): Approval {
    Approval(a.owner, a.run, a.chat, a.key, a.prompt, a.grant)
  }

  /** A request to stage or to allocate, approved by the operator, whose summary is that of the
      checkpoint and within its bounds; the message is this summary under the fixed heading. */
  predicate Approves(e: Event, p: Approval) {
    && (e.StagePrepare? || e.TargetInsert?)
    && e.req.approved && e.cp.summary == e.req.summary && 1 <= |e.req.summary| <= 16000
    && p == Approval(e.req.owner, e.req.run, e.req.chat, e.req.key, "SENTRA continuation context (read-only):\n\n" + e.req.summary, p.grant)
    && e.grant == Some(p.grant)
  }

  predicate Approved(events: seq<Event>, p: Approval) {
    exists i :: 0 <= i < |events| && Approves(events[i], p)
  }

  lemma StillApproved(events: seq<Event>, e: Event, p: Approval)
    requires Approved(events, p) || Approves(e, p)
    ensures Approved(events + [e], p)
  {
    hide Approves;
    if Approved(events, p) {
      var i :| 0 <= i < |events| && Approves(events[i], p);
      assert (events + [e])[i] == events[i];
    } else {
      assert (events + [e])[|events|] == e;
    }
  }

  /** Every row, and every row about to be inserted, goes back to an approved request. */
  ghost predicate AllApproved(s: State, events: seq<Event>) {
    && (forall x :: x in s.allocations ==> Approved(events, OfAllocation(s.allocations[x])))
    && (forall id :: id in s.transfers ==> Approved(events, OfTransfer(id, s.transfers[id])))
    && (forall pid :: pid in s.flights ==> FlightApproved(s.flights[pid], events))
  }

  predicate FlightApproved(f: Flight, events: seq<Event>) {
    f.StagePrepared? ==> Approved(events, OfTransfer(f.id, f.row))
  }

  // ---------------------------------------------------------------- where rows come from

  /** What a step of nobody in particular leaves alone. */
  predicate EntersNothing(s: State, t: State) {
    && (forall x :: x in t.allocations ==> x in s.allocations)
    && (forall id :: id in t.transfers ==> id in s.transfers)
  }

  lemma NewAllocationApproved(e: Event)
    requires e.TargetInsert? && WellFormed(e.req, e.cp) && e.grant.Some?
    ensures Approves(e, OfAllocation(NewAllocation(e.req, e.cp, e.grant.value)))
  {
    hide AllocationId;
  }

  lemma TargetInsertEnters(s: State, e: Event)
    requires e.TargetInsert?
    ensures var t := TargetInsertStep(s, e.pid, e.req, e.cp, e.grant);
      forall x :: x in t.allocations && x !in s.allocations ==> Approves(e, OfAllocation(t.allocations[x]))
  {
    hide Step, HasOpenAllocation, AllocationKeyTaken, AllocationId, Bound, WellFormed, NewAllocation, Approves, OfAllocation, Advances;
    var t := TargetInsertStep(s, e.pid, e.req, e.cp, e.grant);
    if t.allocations != s.allocations {
      NewAllocationApproved(e);
      assert t.allocations == s.allocations[AllocationId(e.req.owner, e.req.run, e.req.chat, e.req.key)
                                            := NewAllocation(e.req, e.cp, e.grant.value)];
    }
  }

  lemma TargetEnters(s: State, e: Event)
    requires TargetEvent(e)
    ensures var t := Step(s, e);
      && t.transfers == s.transfers && Advances(s.flights, t.flights, e.pid)
      && forall x :: x in t.allocations && x !in s.allocations ==> Approves(e, OfAllocation(t.allocations[x]))
  {
    TargetDispatch(s, e);
    if e.TargetInsert? {
      TargetInsertEnters(s, e);
    }
    hide Step, TargetInsertStep, TargetCheckStep, TargetSubmitStep, Advances, Approves;
  }

  function PreparedTransfer(e: Event): Flight
    requires e.StagePrepare? && e.target.Some? && e.grant.Some?
  {
    var id := ContinuationId(e.req.owner, e.req.chat, e.req.key);
    StagePrepared(id, Transfer(e.req.run, e.req.item, e.req.principal, e.grant.value, e.target.value,
                               JobFor(Continuation(id)), PREAMBLE + e.req.summary, e.cp.sha, Staged))
  }

  lemma PreparedTransferApproved(e: Event)
    requires e.StagePrepare? && WellFormed(e.req, e.cp) && e.target.Some? && e.grant.Some?
    ensures Approves(e, OfTransfer(PreparedTransfer(e).id, PreparedTransfer(e).row))
  {
  }

  lemma StagePrepareEnters(s: State, e: Event)
    requires e.StagePrepare?
    ensures var t := StagePrepareStep(s, e.pid, e.req, e.target, e.cp, e.grant);
      t.flights == s.flights
      || (e.pid in t.flights && t.flights[e.pid].StagePrepared? && Approves(e, OfTransfer(t.flights[e.pid].id, t.flights[e.pid].row)))
  {
    StagePrepareForms(s, e);
    hide StagePrepareStep, PreparedCore, WellFormed, PreparedTransfer;
    if WellFormed(e.req, e.cp) && e.target.Some? && e.grant.Some? {
      PreparedTransferApproved(e);
      hide Approves;
    }
  }

  /** The flight of a prepared staging, if it prepares. */
  lemma StagePrepareForms(s: State, e: Event)
    requires e.StagePrepare?
    ensures var t := StagePrepareStep(s, e.pid, e.req, e.target, e.cp, e.grant);
      t == s || (WellFormed(e.req, e.cp) && e.target.Some? && e.grant.Some?
                 && exists core :: t == s.(core := core) || t == With(s.(core := core), e.pid, PreparedTransfer(e)))
  {
    hide PreparedCore, WellFormed, With, Touches;
  }

  lemma InsertedIsTheRow(transfers: map<ContinuationId, Transfer>, id: ContinuationId, row: Transfer, other: ContinuationId)
    ensures var r := InsertedTransfer(transfers, id, row);
      r.Some? && other in r.value && other !in transfers ==> other == id && r.value[other] == row
  {
    hide JobTaken;
  }

  lemma StageInsertEnters(s: State, pid: nat, id: ContinuationId)
    requires id in StageInsertStep(s, pid).transfers && id !in s.transfers
    ensures pid in s.flights && s.flights[pid].StagePrepared?
    ensures id == s.flights[pid].id && StageInsertStep(s, pid).transfers[id] == s.flights[pid].row
  {
    StageInsertForms(s, pid);
    hide StageInsertStep, InsertedTransfer, Advances;
    if pid in s.flights && s.flights[pid].StagePrepared? {
      InsertedIsTheRow(s.transfers, s.flights[pid].id, s.flights[pid].row, id);
    }
  }

  lemma StageInsertForms(s: State, pid: nat)
    ensures var t := StageInsertStep(s, pid);
      if pid in s.flights && s.flights[pid].StagePrepared?
      then var inserted := InsertedTransfer(s.transfers, s.flights[pid].id, s.flights[pid].row);
           t == if inserted.None? then Ended(s, pid) else With(s.(transfers := inserted.value), pid, StageInserted(s.flights[pid].id))
      else t == s
  {
    hide InsertedTransfer, With, Ended, Advances;
  }

  lemma StageEnters(s: State, e: Event)
    requires StageEvent(e)
    ensures var t := Step(s, e);
      && t.allocations == s.allocations
      && (forall id :: id in t.transfers && id !in s.transfers ==>
            e.pid in s.flights && s.flights[e.pid].StagePrepared? && id == s.flights[e.pid].id && t.transfers[id] == s.flights[e.pid].row)
      && (Advances(s.flights, t.flights, e.pid)
          || (e.pid in t.flights && t.flights[e.pid].StagePrepared? && Approves(e, OfTransfer(t.flights[e.pid].id, t.flights[e.pid].row))))
  {
    StageDispatch(s, e);
    if e.StagePrepare? {
      StagePrepareEnters(s, e);
    } else if e.StageInsert? {
      forall id | id in StageInsertStep(s, e.pid).transfers && id !in s.transfers
        ensures e.pid in s.flights && s.flights[e.pid].StagePrepared? && id == s.flights[e.pid].id
                && StageInsertStep(s, e.pid).transfers[id] == s.flights[e.pid].row
      {
        StageInsertEnters(s, e.pid, id);
      }
    }
    hide Step, StagePrepareStep, StageInsertStep, StageCheckStep, StageSubmitStep, Approves;
  }

  lemma ClaimRecordEnters(s: State, pid: nat, id: ContinuationId)
    requires id in ClaimRecordStep(s, pid).transfers && id !in s.transfers
    ensures pid in s.flights && s.flights[pid].ClaimPrepared?
    ensures var f := s.flights[pid];
      id == ClaimId(f.a) && ClaimRecordStep(s, pid).transfers[id] == TransferFor(f.a, f.receipt.conversation)
  {
    ClaimRecordForms(s, pid);
    hide ClaimRecordStep, CanRecord, TransferFor, ClaimId, Advances, RecordedTransfers;
    if pid in s.flights && s.flights[pid].ClaimPrepared? {
      RecordedIsTheTransfer(s.transfers, s.flights[pid].a, s.flights[pid].receipt.conversation, id);
    }
  }

  lemma ClaimRecordForms(s: State, pid: nat)
    ensures var t := ClaimRecordStep(s, pid);
      if pid in s.flights && s.flights[pid].ClaimPrepared?
      then
        var f := s.flights[pid];
        t == (if !CanRecord(s, f.allocation, f.a) then Ended(s, pid)
              else Ended(s.(transfers := RecordedTransfers(s.transfers, f.a, f.receipt.conversation),
                            allocations := s.allocations[f.allocation := s.allocations[f.allocation].(state := Claimed)]), pid))
      else t == s
  {
    hide TransferFor, ClaimId, RecordedTransfers, Ended, Advances;
  }

  lemma RecordedIsTheTransfer(transfers: map<ContinuationId, Transfer>, a: Allocation, target: string, id: ContinuationId)
    ensures var r := RecordedTransfers(transfers, a, target);
      id in r && id !in transfers ==> id == ClaimId(a) && r[id] == TransferFor(a, target)
  {
    hide TransferFor, ClaimId;
  }

  lemma ClaimRecordAllocates(s: State, pid: nat, x: string)
    requires x in ClaimRecordStep(s, pid).allocations
    ensures x in s.allocations
  {
    ClaimRecordForms(s, pid);
    hide ClaimRecordStep, RecordedTransfers, Advances;
  }

  lemma ClaimEnters(s: State, e: Event)
    requires ClaimEvent(e)
    ensures var t := Step(s, e);
      && (forall x :: x in t.allocations ==> x in s.allocations) && Advances(s.flights, t.flights, e.pid)
      && forall id :: id in t.transfers && id !in s.transfers ==>
           && e.pid in s.flights && s.flights[e.pid].ClaimPrepared? && id == ClaimId(s.flights[e.pid].a)
           && t.transfers[id] == TransferFor(s.flights[e.pid].a, s.flights[e.pid].receipt.conversation)
  {
    ClaimDispatch(s, e);
    if e.ClaimRecord? {
      forall id | id in ClaimRecordStep(s, e.pid).transfers && id !in s.transfers
        ensures e.pid in s.flights && s.flights[e.pid].ClaimPrepared? && id == ClaimId(s.flights[e.pid].a)
                && ClaimRecordStep(s, e.pid).transfers[id] == TransferFor(s.flights[e.pid].a, s.flights[e.pid].receipt.conversation)
      {
        ClaimRecordEnters(s, e.pid, id);
      }
      forall x | x in ClaimRecordStep(s, e.pid).allocations ensures x in s.allocations {
        ClaimRecordAllocates(s, e.pid, x);
      }
    }
    hide Step, ClaimAuthorizeStep, ClaimProveStep, ClaimPrepareStep, ClaimRecordStep, Advances, ClaimId, TransferFor;
  }

  lemma CommitPublishEnters(s: State, pid: nat)
    ensures EntersNothing(s, CommitPublishStep(s, pid))
  {
  }

  lemma CommitEnters(s: State, e: Event)
    requires CommitEvent(e)
    ensures EntersNothing(s, Step(s, e)) && Advances(s.flights, Step(s, e).flights, e.pid)
  {
    CommitDispatch(s, e);
    if e.CommitPublish? {
      CommitPublishEnters(s, e.pid);
    }
    hide Step, CommitAuthorizeStep, CommitStatusStep, CommitProveStep, CommitLookStep, CommitBeginStep, CommitRebindStep, CommitSettleStep,
      CommitPublishStep, Advances;
  }

  lemma OutsideEnters(s: State, e: Event)
    requires !StageEvent(e) && !TargetEvent(e) && !ClaimEvent(e) && !CommitEvent(e)
    ensures EntersNothing(s, Step(s, e))
    ensures var t := Step(s, e); forall pid :: pid in t.flights ==> pid in s.flights && t.flights[pid] == s.flights[pid]
  {
    OutsideDispatch(s, e);
    hide Step, ReconcileStep, CancelStep, RelayMovesStep, RelayReceiptStep, AttestStep, ForeignSubmitStep;
  }

  // ---------------------------------------------------------------- steps and runs

  lemma AllocationStaysApproved(s: State, events: seq<Event>, e: Event, t: State, x: string)
    requires AllApproved(s, events) && Grows(s, t) && x in t.allocations
    requires x in s.allocations || Approves(e, OfAllocation(t.allocations[x]))
    ensures Approved(events + [e], OfAllocation(t.allocations[x]))
  {
    hide Approves, Approved, Grows;
    if x in s.allocations {
      AllocationStays(s, t, x);
      assert OfAllocation(s.allocations[x]) == OfAllocation(t.allocations[x]);
    }
    StillApproved(events, e, OfAllocation(t.allocations[x]));
  }

  lemma TransferStaysApproved(s: State, events: seq<Event>, e: Event, t: State, id: ContinuationId)
    requires AllApproved(s, events) && Grows(s, t) && id in t.transfers
    requires id in s.transfers || Approved(events, OfTransfer(id, t.transfers[id]))
    ensures Approved(events + [e], OfTransfer(id, t.transfers[id]))
  {
    hide Approves, Approved, Grows;
    if id in s.transfers {
      TransferStays(s, t, id);
      assert OfTransfer(id, s.transfers[id]) == OfTransfer(id, t.transfers[id]);
    }
    StillApproved(events, e, OfTransfer(id, t.transfers[id]));
  }

  /** A claim's transfer is approved as its allocation was. */
  lemma ClaimedIsApproved(s: State, events: seq<Event>, pid: nat)
    requires Inv(s) && AllApproved(s, events) && pid in s.flights && s.flights[pid].ClaimPrepared?
    ensures var f := s.flights[pid];
      Approved(events, OfTransfer(ClaimId(f.a), TransferFor(f.a, f.receipt.conversation)))
  {
    FlightFact(s, pid);
    hide Approved, Inv;
    var f := s.flights[pid];
    assert OfAllocation(s.allocations[f.allocation]) == OfTransfer(ClaimId(f.a), TransferFor(f.a, f.receipt.conversation));
  }

  lemma TransferStaysOrEnters(s: State, events: seq<Event>, e: Event, t: State, id: ContinuationId)
    requires Inv(s) && AllApproved(s, events) && t == Step(s, e) && id in t.transfers
    ensures id in s.transfers || Approved(events, OfTransfer(id, t.transfers[id]))
  {
    hide Step, Inv, Approved, Approves, OfTransfer, TransferFor, ClaimId;
    if StageEvent(e) {
      StageEnters(s, e);
    } else if TargetEvent(e) {
      TargetEnters(s, e);
    } else if ClaimEvent(e) {
      ClaimEnters(s, e);
      if id !in s.transfers {
        ClaimedIsApproved(s, events, e.pid);
      }
    } else if CommitEvent(e) {
      CommitEnters(s, e);
    } else {
      OutsideEnters(s, e);
    }
  }

  lemma TransfersStayApproved(s: State, events: seq<Event>, e: Event)
    requires Inv(s) && AllApproved(s, events)
    ensures forall id :: id in Step(s, e).transfers ==> Approved(events + [e], OfTransfer(id, Step(s, e).transfers[id]))
  {
    hide Step, Inv, Grows, AllApproved, Approved, OfTransfer;
    var t := Step(s, e);
    StepKeepsInv(s, e);
    forall id | id in t.transfers ensures Approved(events + [e], OfTransfer(id, t.transfers[id])) {
      TransferStaysOrEnters(s, events, e, t, id);
      TransferStaysApproved(s, events, e, t, id);
    }
  }

  lemma AllocationsStayApproved(s: State, events: seq<Event>, e: Event)
    requires Inv(s) && AllApproved(s, events)
    ensures forall x :: x in Step(s, e).allocations ==> Approved(events + [e], OfAllocation(Step(s, e).allocations[x]))
  {
    var t := Step(s, e);
    StepKeepsInv(s, e);
    hide Step, Inv, Grows, Approved, Approves, OfAllocation;
    forall x | x in t.allocations ensures Approved(events + [e], OfAllocation(t.allocations[x])) {
      if StageEvent(e) {
        StageEnters(s, e);
      } else if TargetEvent(e) {
        TargetEnters(s, e);
      } else if ClaimEvent(e) {
        ClaimEnters(s, e);
      } else if CommitEvent(e) {
        CommitEnters(s, e);
      } else {
        OutsideEnters(s, e);
      }
      AllocationStaysApproved(s, events, e, t, x);
    }
  }

  lemma OtherFlightStays(before: map<nat, Flight>, after: map<nat, Flight>, p: nat, pid: nat)
    requires Touches(before, after, p) && p != pid && pid in after
    ensures pid in before && before[pid] == after[pid]
  {
  }

  lemma NoneAdvancesToStaging(before: map<nat, Flight>, after: map<nat, Flight>, pid: nat)
    requires Advances(before, after, pid) && pid in after && after[pid].StagePrepared?
    ensures pid in before && before[pid] == after[pid]
  {
  }

  lemma StagingEnters(s: State, e: Event, t: State, pid: nat)
    requires t == Step(s, e) && (StageEvent(e) || TargetEvent(e) || ClaimEvent(e) || CommitEvent(e))
    requires e.pid == pid && pid in t.flights && t.flights[pid].StagePrepared?
    ensures var f := t.flights[pid];
      (pid in s.flights && s.flights[pid] == f) || Approves(e, OfTransfer(f.id, f.row))
  {
    hide Step, Approves, Advances, OfTransfer;
    if StageEvent(e) {
      StageEnters(s, e);
    } else if TargetEvent(e) {
      TargetEnters(s, e);
    } else if ClaimEvent(e) {
      ClaimEnters(s, e);
    } else {
      CommitEnters(s, e);
    }
    if Advances(s.flights, t.flights, pid) {
      NoneAdvancesToStaging(s.flights, t.flights, pid);
    }
  }

  /** The only new flight about to insert a row is that of the step itself. */
  lemma NewStaging(s: State, e: Event, t: State, pid: nat)
    requires t == Step(s, e) && pid in t.flights && t.flights[pid].StagePrepared?
    ensures var f := t.flights[pid];
      (pid in s.flights && s.flights[pid] == f) || Approves(e, OfTransfer(f.id, f.row))
  {
    hide Step, Approves, Touches, OfTransfer;
    if !StageEvent(e) && !TargetEvent(e) && !ClaimEvent(e) && !CommitEvent(e) {
      OutsideEnters(s, e);
    } else if e.pid == pid {
      StagingEnters(s, e, t, pid);
    } else {
      if StageEvent(e) {
        StageTouches(s, e);
      } else if TargetEvent(e) {
        TargetTouches(s, e);
      } else if ClaimEvent(e) {
        ClaimTouches(s, e);
      } else {
        CommitTouches(s, e);
      }
      OtherFlightStays(s.flights, t.flights, e.pid, pid);
    }
  }

  lemma FlightsStayApproved(s: State, events: seq<Event>, e: Event)
    requires AllApproved(s, events)
    ensures forall pid :: pid in Step(s, e).flights ==> FlightApproved(Step(s, e).flights[pid], events + [e])
  {
    hide Step, Approved, Approves, OfTransfer;
    var t := Step(s, e);
    forall pid | pid in t.flights ensures FlightApproved(t.flights[pid], events + [e]) {
      if t.flights[pid].StagePrepared? {
        NewStaging(s, e, t, pid);
        if pid in s.flights && s.flights[pid] == t.flights[pid] {
          assert FlightApproved(s.flights[pid], events);
        }
        StillApproved(events, e, OfTransfer(t.flights[pid].id, t.flights[pid].row));
      }
    }
  }

  lemma StepKeepsApproval(s: State, events: seq<Event>, e: Event)
    requires Inv(s) && AllApproved(s, events)
    ensures AllApproved(Step(s, e), events + [e])
  {
    hide Step, Inv, Approved, FlightApproved;
    TransfersStayApproved(s, events, e);
    AllocationsStayApproved(s, events, e);
    FlightsStayApproved(s, events, e);
  }

  lemma {:induction false} RunKeepsApproval(s: State, before: seq<Event>, events: seq<Event>)
    requires Inv(s) && AllApproved(s, before)
    ensures AllApproved(Run(s, events), before + events)
    decreases |events|
  {
    hide Step, Inv, Grows, AllApproved;
    if events == [] {
      assert before + events == before;
    } else {
      StepKeepsInv(s, events[0]);
      StepKeepsApproval(s, before, events[0]);
      RunKeepsApproval(Step(s, events[0]), before + [events[0]], events[1..]);
      assert before + [events[0]] + events[1..] == before + events;
    }
  }

  /** Whatever ran, every allocation and every transfer goes back to a request that the operator
      approved: for its owner, run, chat and key, under its grant, with its message. */
  lemma EveryRowWasApproved(events: seq<Event>, x: string, id: ContinuationId)
    ensures var s := Run(Init, events);
      && (x in s.allocations ==> Approved(events, OfAllocation(s.allocations[x])))
      && (id in s.transfers ==> Approved(events, OfTransfer(id, s.transfers[id])))
  {
    hide Step, Run, Inv, Approved;
    InitIsSound();
    RunKeepsApproval(Init, [], events);
    assert [] + events == events;
  }

  /** And so does every message the relay was given for a transfer or an allocation: nothing but
      the approved text of a checkpoint ever goes out. */
  lemma EveryMessageWasApproved(events: seq<Event>, task: TaskId)
    ensures var s := Run(Init, events);
      JobFor(task) in s.jobs ==> exists p :: Approved(events, p) && p.prompt == s.jobs[JobFor(task)].prompt
  {
    hide Step, Run, Inv, Approved, Grows;
    InitIsSound();
    RunKeepsInv(Init, events);
    var s := Run(Init, events);
    if JobFor(task) in s.jobs {
      JobFact(s, JobFor(task));
      match task {
        case Continuation(id) =>
          EveryRowWasApproved(events, "", id);
          assert OfTransfer(id, s.transfers[id]).prompt == s.jobs[JobFor(task)].prompt;
        case Target(x) =>
          EveryRowWasApproved(events, x, ContinuationId("", "", ""));
          assert OfAllocation(s.allocations[x]).prompt == s.jobs[JobFor(task)].prompt;
      }
    }
  }
}
