/** What every step of a Web continuation keeps: rows keep their identity and agree with one
    another, a transfer's job is its own or that of the allocation it was claimed from, a sent
    delivery keeps its receipt and an attestation its receipt, whatever is published stands on an
    exact and attested receipt under the grant it was staged with, a committed binding was seen at
    its target, no job is submitted twice, and an allocation that was claimed could be claimed
    again. Every flight carries what its next step relies on. The lemmas come in the order of the
    argument: facts that survive growth, one changed component at a time, and then each step. */
module WebContinuationSafety {
  import opened Basics
  import opened WebContinuation

  // ---------------------------------------------------------------- what never changes

  predicate SameTransfer(a: Transfer, b: Transfer) {
    b == a.(stage := b.stage) && (a.stage == Published ==> b.stage == Published)
  }

  predicate SameAllocation(a: Allocation, b: Allocation) {
    b == a.(state := b.state)
  }

  predicate SameCore(a: CoreRow, b: CoreRow) {
    b == a.(state := b.state) && (a.state == Committed ==> b.state == Committed)
  }

  predicate SameDelivery(a: Delivery, b: Delivery) {
    a.prompt == b.prompt && a.target == b.target && (a.state == Sent ==> b == a)
  }

  predicate TransferKept(s: State, t: State, id: ContinuationId) {
    id in s.transfers ==> id in t.transfers && SameTransfer(s.transfers[id], t.transfers[id])
  }

  predicate AllocationKept(s: State, t: State, x: string) {
    x in s.allocations ==> x in t.allocations && SameAllocation(s.allocations[x], t.allocations[x])
  }

  predicate CoreKept(s: State, t: State, id: ContinuationId) {
    id in s.core ==> id in t.core && SameCore(s.core[id], t.core[id])
  }

  predicate JobKept(s: State, t: State, j: JobId) {
    j in s.jobs ==> j in t.jobs && SameDelivery(s.jobs[j], t.jobs[j])
  }

  predicate AttestationKept(s: State, t: State, j: JobId) {
    j in s.attested ==> j in t.attested && t.attested[j] == s.attested[j]
  }

  /** Rows only appear; their identities, a publication, a committed binding, a receipt and an
      attestation are for good. */
  ghost predicate Grows(s: State, t: State) {
    && (forall id :: TransferKept(s, t, id))
    && (forall x :: AllocationKept(s, t, x))
    && (forall id :: CoreKept(s, t, id))
    && (forall j :: JobKept(s, t, j))
    && (forall j :: AttestationKept(s, t, j))
    && s.log <= t.log
  }

  // ---------------------------------------------------------------- what each row stands on

  predicate Agrees(id: ContinuationId, t: Transfer, a: Allocation) {
    && id == ClaimId(a) && t.job == a.job && t.run == a.run && t.item == a.item && t.principal == a.principal
    && t.grant == a.grant && t.prompt == a.prompt && t.checkpointSha == a.checkpointSha
  }

  /** Another claim of this allocation would go through: its receipt still proves it, and its
      continuation is the one a claim would prepare. */
  predicate Reclaimable(s: State, a: Allocation) {
    && NewTargetProven(s, a) && ClaimId(a) in s.core
    && var row := s.core[ClaimId(a)];
    && row.run == a.run && row.checkpoint == a.checkpoint && row.source != "" && row.source != row.target
    && row.target == ReceiptOf(s, a.job).value.conversation
  }

  /** A transfer's job is its own, or that of the allocation it was claimed from. */
  predicate TransferSound(s: State, id: ContinuationId)
    requires id in s.transfers
  {
    var t := s.transfers[id];
    match t.job
    case JobFor(Continuation(i)) => i == id
    case JobFor(Target(x)) => x in s.allocations && Agrees(id, t, s.allocations[x]) && Reclaimable(s, s.allocations[x])
    case Foreign(_) => false
  }

  predicate PublishedSound(s: State, id: ContinuationId)
    requires id in s.transfers
  {
    s.transfers[id].stage == Published ==>
      ExactReceipt(s, id) && s.core[id].state == Committed && Authorized(id, s.transfers[id].grant) in s.log
  }

  predicate AllocationSound(s: State, x: string)
    requires x in s.allocations
  {
    var a := s.allocations[x];
    && a.job == JobFor(Target(x)) && x == AllocationId(a.owner, a.run, a.chat, a.key)
    && (a.state == AllocationPublished ==>
          ClaimId(a) in s.transfers && s.transfers[ClaimId(a)].job == a.job && s.transfers[ClaimId(a)].stage == Published)
  }

  predicate CoreSound(s: State, id: ContinuationId)
    requires id in s.core
  {
    s.core[id].state == Committed ==> BoundToTarget(id) in s.log
  }

  predicate JobSound(s: State, j: JobId)
    requires j in s.jobs
  {
    var d := s.jobs[j];
    && (d.state == Sent ==> d.receipt.Some? && d.receipt.value.prompt == d.prompt
                            && (d.target.Some? ==> d.target.value == d.receipt.value.conversation))
    && match j
       case JobFor(Continuation(id)) =>
         id in s.transfers && s.transfers[id].job == j && d.prompt == s.transfers[id].prompt
         && d.target == Some(s.transfers[id].target) && Submitted(j) in s.log
       case JobFor(Target(x)) =>
         x in s.allocations && d.prompt == s.allocations[x].prompt && d.target == None && Submitted(j) in s.log
       case Foreign(_) => true
  }

  predicate AttestationSound(s: State, j: JobId)
    requires j in s.attested
  {
    ReceiptOf(s, j) == Some(s.attested[j].receipt)
  }

  predicate ClaimHolds(s: State, x: string, a: Allocation, r: Receipt) {
    && x in s.allocations && SameAllocation(a, s.allocations[x])
    && NewTargetProven(s, a) && ReceiptOf(s, a.job) == Some(r)
  }

  predicate Held(s: State, id: ContinuationId) {
    id in s.transfers && Authorized(id, s.transfers[id].grant) in s.log
  }

  predicate FlightSound(s: State, f: Flight) {
    match f
    case StagePrepared(id, row) => row.job == JobFor(Continuation(id)) && row.stage == Staged
    case StageInserted(id) => id in s.transfers && s.transfers[id].job == JobFor(Continuation(id))
    case StageChecked(id) => id in s.transfers && s.transfers[id].job == JobFor(Continuation(id))
    case TargetInserted(x) => x in s.allocations
    case TargetChecked(x) => x in s.allocations
    case ClaimAuthorized(x, a) => x in s.allocations && SameAllocation(a, s.allocations[x])
    case ClaimProven(x, a, r) => ClaimHolds(s, x, a, r)
    case ClaimPrepared(x, a, r) =>
      ClaimHolds(s, x, a, r) && Reclaimable(s, a)
    case CommitAuthorized(id) => Held(s, id)
    case CommitSeen(id, seen) => Held(s, id) && id in s.core && (seen == Committed ==> s.core[id].state == Committed)
    case CommitProven(id, seen) => Held(s, id) && ExactReceipt(s, id) && (seen == Committed ==> s.core[id].state == Committed)
    case CommitLooked(id) => Held(s, id) && ExactReceipt(s, id)
    case CommitRebinding(id) => Held(s, id) && ExactReceipt(s, id)
    case CommitFailed(id) => Held(s, id) && ExactReceipt(s, id)
    case CommitRebound(id) => Held(s, id) && ExactReceipt(s, id) && BoundToTarget(id) in s.log
    case CommitDone(id) => Held(s, id) && ExactReceipt(s, id) && s.core[id].state == Committed
  }

  predicate SubmittedOnce(log: seq<Audit>) {
    forall i, j :: 0 <= i < j < |log| && log[i].Submitted? && log[j].Submitted? ==> log[i].job != log[j].job
  }

  predicate SubmittedKnown(s: State, j: JobId) {
    Submitted(j) in s.log ==> j in s.jobs
  }

  ghost predicate Inv(s: State) {
    && (forall id :: id in s.transfers ==> TransferSound(s, id) && PublishedSound(s, id))
    && (forall x :: x in s.allocations ==> AllocationSound(s, x))
    && (forall id :: id in s.core ==> CoreSound(s, id))
    && (forall j :: j in s.jobs ==> JobSound(s, j))
    && (forall j :: j in s.attested ==> AttestationSound(s, j))
    && (forall pid :: pid in s.flights ==> FlightSound(s, s.flights[pid]))
    && SubmittedOnce(s.log)
    && (forall j :: SubmittedKnown(s, j))
  }

  // ---------------------------------------------------------------- facts survive growth

  lemma ReceiptKept(s: State, t: State, j: JobId)
    requires Grows(s, t) && ReceiptOf(s, j).Some?
    ensures ReceiptOf(t, j) == ReceiptOf(s, j)
  {
    assert JobKept(s, t, j);
  }

  lemma AttestedKept(s: State, t: State, j: JobId, owner: string, run: string, r: Receipt)
    requires Grows(s, t) && AttestedFor(s, j, owner, run, r)
    ensures AttestedFor(t, j, owner, run, r)
  {
    assert AttestationKept(s, t, j);
    ReceiptKept(s, t, j);
  }

  lemma ExactKept(s: State, t: State, id: ContinuationId)
    requires Grows(s, t) && ExactReceipt(s, id)
    ensures ExactReceipt(t, id)
  {
    assert TransferKept(s, t, id) && CoreKept(s, t, id);
    var job := s.transfers[id].job;
    ReceiptKept(s, t, job);
    AttestedKept(s, t, job, id.owner, s.transfers[id].run, ReceiptOf(s, job).value);
  }

  lemma ProvenKept(s: State, t: State, a: Allocation, b: Allocation)
    requires Grows(s, t) && NewTargetProven(s, a) && SameAllocation(a, b)
    ensures NewTargetProven(t, b) && ReceiptOf(t, b.job) == ReceiptOf(s, a.job)
  {
    ReceiptKept(s, t, a.job);
    AttestedKept(s, t, a.job, a.owner, a.run, ReceiptOf(s, a.job).value);
    hide Grows;
  }

  lemma ReclaimableKept(s: State, t: State, a: Allocation, b: Allocation)
    requires Grows(s, t) && Reclaimable(s, a) && SameAllocation(a, b)
    ensures Reclaimable(t, b)
  {
    assert CoreKept(s, t, ClaimId(a));
    ProvenKept(s, t, a, b);
    hide Grows, NewTargetProven;
  }

  lemma ClaimKept(s: State, t: State, x: string, a: Allocation, r: Receipt)
    requires Grows(s, t) && ClaimHolds(s, x, a, r)
    ensures ClaimHolds(t, x, a, r)
  {
    assert AllocationKept(s, t, x);
    ProvenKept(s, t, a, a);
    hide NewTargetProven, Grows;
  }

  lemma FlightKept(s: State, t: State, f: Flight)
    requires Grows(s, t) && FlightSound(s, f)
    ensures FlightSound(t, f)
  {
    hide ClaimHolds, ExactReceipt, AttestedFor, ReceiptOf, Reclaimable;
    match f
    case StagePrepared(_, _) =>
    case StageInserted(id) => assert TransferKept(s, t, id);
    case StageChecked(id) => assert TransferKept(s, t, id);
    case TargetInserted(x) => assert AllocationKept(s, t, x);
    case TargetChecked(x) => assert AllocationKept(s, t, x);
    case ClaimAuthorized(x, a) => assert AllocationKept(s, t, x);
    case ClaimProven(x, a, r) => ClaimKept(s, t, x, a, r);
    case ClaimPrepared(x, a, r) =>
      ClaimKept(s, t, x, a, r);
      ReclaimableKept(s, t, a, a);
    case CommitAuthorized(id) => assert TransferKept(s, t, id);
    case CommitSeen(id, _) => assert TransferKept(s, t, id) && CoreKept(s, t, id);
    case _ => CommitFlightKept(s, t, f);
  }

  predicate CommitFlight(f: Flight) {
    f.CommitProven? || f.CommitLooked? || f.CommitRebinding? || f.CommitRebound? || f.CommitFailed? || f.CommitDone?
  }

  lemma CommitFlightKept(s: State, t: State, f: Flight)
    requires Grows(s, t) && CommitFlight(f) && FlightSound(s, f)
    ensures FlightSound(t, f)
  {
    hide AttestedFor, ReceiptOf;
    ExactKept(s, t, f.id);
    assert TransferKept(s, t, f.id) && CoreKept(s, t, f.id);
  }

  lemma TransferStaysSound(s: State, t: State, id: ContinuationId)
    requires Grows(s, t) && id in s.transfers && TransferSound(s, id)
    ensures id in t.transfers && TransferSound(t, id)
  {
    hide Reclaimable;
    assert TransferKept(s, t, id);
    if s.transfers[id].job.JobFor? && s.transfers[id].job.task.Target? {
      var x := s.transfers[id].job.task.allocation;
      assert AllocationKept(s, t, x);
      ReclaimableKept(s, t, s.allocations[x], t.allocations[x]);
    }
  }

  lemma PublishedStaysSound(s: State, t: State, id: ContinuationId)
    requires Grows(s, t) && id in s.transfers && PublishedSound(s, id)
    requires id in t.transfers && t.transfers[id].stage == s.transfers[id].stage
    ensures PublishedSound(t, id)
  {
    if s.transfers[id].stage == Published {
      ExactKept(s, t, id);
      assert TransferKept(s, t, id) && CoreKept(s, t, id);
    }
  }

  lemma AllocationStaysSound(s: State, t: State, x: string)
    requires Grows(s, t) && x in s.allocations && AllocationSound(s, x)
    requires x in t.allocations && (t.allocations[x].state == AllocationPublished ==> s.allocations[x].state == AllocationPublished)
    ensures AllocationSound(t, x)
  {
    assert AllocationKept(s, t, x) && TransferKept(s, t, ClaimId(s.allocations[x]));
  }

  lemma JobStaysSound(s: State, t: State, j: JobId)
    requires Grows(s, t) && j in s.jobs && JobSound(s, j) && j in t.jobs && t.jobs[j] == s.jobs[j]
    ensures JobSound(t, j)
  {
    if j.JobFor? && j.task.Continuation? {
      assert TransferKept(s, t, j.task.id);
    } else if j.JobFor? {
      assert AllocationKept(s, t, j.task.allocation);
    }
  }

  /** What a step must show of the rows it adds or alters. */
  ghost predicate NewSound(s: State, t: State) {
    && (forall id :: id in t.transfers ==>
          (id in s.transfers && t.transfers[id].stage == s.transfers[id].stage) || (TransferSound(t, id) && PublishedSound(t, id)))
    && (forall x :: x in t.allocations ==>
          (x in s.allocations && t.allocations[x].state == s.allocations[x].state) || AllocationSound(t, x))
    && (forall id :: id in t.core ==> (id in s.core && t.core[id].state == s.core[id].state) || CoreSound(t, id))
    && (forall j :: j in t.jobs ==> (j in s.jobs && t.jobs[j] == s.jobs[j]) || JobSound(t, j))
    && (forall j :: j in t.attested ==> j in s.attested || AttestationSound(t, j))
    && (forall pid :: pid in t.flights ==> (pid in s.flights && t.flights[pid] == s.flights[pid]) || FlightSound(t, t.flights[pid]))
    && SubmittedOnce(t.log)
    && (forall j :: SubmittedKnown(t, j))
  }

  lemma GrowthKeepsInv(s: State, t: State)
    requires Inv(s) && Grows(s, t) && NewSound(s, t)
    ensures Inv(t)
  {
    hide TransferSound, PublishedSound, AllocationSound, JobSound, FlightSound, SubmittedOnce, SubmittedKnown, ReceiptOf;
    hide Grows;
    forall id | id in t.transfers ensures TransferSound(t, id) && PublishedSound(t, id) {
      if id in s.transfers && t.transfers[id].stage == s.transfers[id].stage {
        TransferStaysSound(s, t, id);
        PublishedStaysSound(s, t, id);
      }
    }
    forall x | x in t.allocations ensures AllocationSound(t, x) {
      if x in s.allocations && t.allocations[x].state == s.allocations[x].state {
        AllocationStaysSound(s, t, x);
      }
    }
    forall id | id in t.core ensures CoreSound(t, id) {
      LogKept(s, t);
      if id in s.core {
        assert CoreSound(s, id);
      }
    }
    forall j | j in t.jobs ensures JobSound(t, j) {
      if j in s.jobs && t.jobs[j] == s.jobs[j] {
        JobStaysSound(s, t, j);
      }
    }
    forall j | j in t.attested ensures AttestationSound(t, j) {
      if j in s.attested {
        assert AttestationSound(s, j);
        ReceiptKept(s, t, j);
        AttestationSame(s, t, j);
      }
    }
    forall pid | pid in t.flights ensures FlightSound(t, t.flights[pid]) {
      if pid in s.flights && t.flights[pid] == s.flights[pid] {
        FlightKept(s, t, t.flights[pid]);
      }
    }
  }

  lemma LogKept(s: State, t: State)
    requires Grows(s, t)
    ensures s.log <= t.log && forall x :: x in s.log ==> x in t.log
  {
  }

  lemma AttestationSame(s: State, t: State, j: JobId)
    requires Grows(s, t) && j in s.attested
    ensures j in t.attested && t.attested[j] == s.attested[j]
  {
    assert AttestationKept(s, t, j);
  }

  // ---------------------------------------------------------------- one component at a time

  lemma GrowsItself(s: State)
    ensures Grows(s, s)
  {
  }

  lemma GrowsTrans(s: State, t: State, u: State)
    requires Grows(s, t) && Grows(t, u)
    ensures Grows(s, u)
  {
    forall id ensures TransferKept(s, u, id) && CoreKept(s, u, id) {
      assert TransferKept(s, t, id) && TransferKept(t, u, id) && CoreKept(s, t, id) && CoreKept(t, u, id);
    }
    forall x ensures AllocationKept(s, u, x) {
      assert AllocationKept(s, t, x) && AllocationKept(t, u, x);
    }
    forall j ensures JobKept(s, u, j) && AttestationKept(s, u, j) {
      assert JobKept(s, t, j) && JobKept(t, u, j) && AttestationKept(s, t, j) && AttestationKept(t, u, j);
    }
  }

  lemma SetFlights(s: State, flights: map<nat, Flight>)
    requires Inv(s)
    requires forall pid :: pid in flights ==> (pid in s.flights && flights[pid] == s.flights[pid]) || FlightSound(s, flights[pid])
    ensures Inv(s.(flights := flights)) && Grows(s, s.(flights := flights))
  {
    hide TransferSound, PublishedSound, AllocationSound, CoreSound, JobSound, AttestationSound, SubmittedOnce, SubmittedKnown, Inv;
    var t := s.(flights := flights);
    SameButFlights(s, t);
    forall pid | pid in t.flights && FlightSound(s, t.flights[pid]) ensures FlightSound(t, t.flights[pid]) {
      FlightKept(s, t, t.flights[pid]);
    }
    GrowthKeepsInv(s, t);
  }

  lemma SameButFlights(s: State, t: State)
    requires Inv(s) && t == s.(flights := t.flights)
    ensures Grows(s, t) && SubmittedOnce(t.log) && forall j :: SubmittedKnown(t, j)
  {
    forall j ensures SubmittedKnown(t, j) {
      assert SubmittedKnown(s, j);
    }
  }

  lemma AddFlight(s: State, pid: nat, f: Flight)
    requires Inv(s) && FlightSound(s, f)
    ensures Inv(With(s, pid, f)) && Grows(s, With(s, pid, f))
  {
    hide Inv, FlightSound;
    SetFlights(s, s.flights[pid := f]);
  }

  lemma DropFlight(s: State, pid: nat)
    requires Inv(s)
    ensures Inv(Ended(s, pid)) && Grows(s, Ended(s, pid))
  {
    hide Inv, FlightSound;
    SetFlights(s, s.flights - {pid});
  }

  /** Flights, the binding and the delivery keys carry no invariant of their own. */
  lemma SetUnseen(s: State, t: State)
    requires Inv(s) && t == s.(binding := t.binding, keys := t.keys)
    ensures Inv(t) && Grows(s, t)
  {
    hide TransferSound, PublishedSound, AllocationSound, CoreSound, JobSound, AttestationSound, SubmittedOnce, Inv;
    SameLog(s, t);
    GrowthKeepsInv(s, t);
  }

  lemma SameLog(s: State, t: State)
    requires Inv(s) && t.log == s.log && s.jobs.Keys <= t.jobs.Keys
    ensures SubmittedOnce(t.log) && forall j :: SubmittedKnown(t, j)
  {
    forall j ensures SubmittedKnown(t, j) {
      assert SubmittedKnown(s, j);
      assert j in s.jobs ==> j in s.jobs.Keys;
    }
  }

  lemma InsertTransfer(s: State, id: ContinuationId, row: Transfer)
    requires Inv(s) && id !in s.transfers && row.stage == Staged
    requires row.job == JobFor(Continuation(id))
             || (row.job.JobFor? && row.job.task.Target? && row.job.task.allocation in s.allocations
                 && Agrees(id, row, s.allocations[row.job.task.allocation])
                 && Reclaimable(s, s.allocations[row.job.task.allocation]))
    ensures var t := s.(transfers := s.transfers[id := row]); Inv(t) && Grows(s, t)
  {
    hide PublishedSound, AllocationSound, CoreSound, JobSound, AttestationSound, SubmittedOnce, Inv;
    var t := s.(transfers := s.transfers[id := row]);
    SameLog(s, t);
    assert Grows(s, t);
    hide Reclaimable, Agrees;
    assert TransferSound(t, id) by {
      if row.job.task.Target? {
        var a := s.allocations[row.job.task.allocation];
        ReclaimableKept(s, t, a, a);
      }
    }
    assert PublishedSound(t, id) by { StagedIsSound(t, id); }
    hide TransferSound;
    GrowthKeepsInv(s, t);
  }

  lemma StagedIsSound(t: State, id: ContinuationId)
    requires id in t.transfers && t.transfers[id].stage == Staged
    ensures PublishedSound(t, id)
  {
  }

  lemma InsertAllocation(s: State, x: string, a: Allocation)
    requires Inv(s) && x !in s.allocations && a.state == Allocating
    requires a.job == JobFor(Target(x)) && x == AllocationId(a.owner, a.run, a.chat, a.key)
    ensures var t := s.(allocations := s.allocations[x := a]); Inv(t) && Grows(s, t)
  {
    hide TransferSound, PublishedSound, CoreSound, JobSound, AttestationSound, SubmittedOnce, Inv;
    var t := s.(allocations := s.allocations[x := a]);
    SameLog(s, t);
    assert AllocationSound(t, x);
    assert Grows(s, t);
    hide AllocationSound;
    GrowthKeepsInv(s, t);
  }

  lemma SetCore(s: State, id: ContinuationId, row: CoreRow)
    requires Inv(s) && (id in s.core ==> SameCore(s.core[id], row))
    requires row.state == Committed ==> BoundToTarget(id) in s.log || (id in s.core && s.core[id].state == Committed)
    ensures var t := s.(core := s.core[id := row]); Inv(t) && Grows(s, t)
  {
    hide TransferSound, PublishedSound, AllocationSound, JobSound, AttestationSound, SubmittedOnce, Inv;
    var t := s.(core := s.core[id := row]);
    SameLog(s, t);
    assert CoreSound(t, id) by {
      if id in s.core && s.core[id].state == Committed {
        CoreFact(s, id);
      }
    }
    assert Grows(s, t);
    hide CoreSound;
    GrowthKeepsInv(s, t);
  }

  lemma CoreFact(s: State, id: ContinuationId)
    requires Inv(s) && id in s.core
    ensures CoreSound(s, id)
  {
  }

  lemma SetJob(s: State, j: JobId, d: Delivery)
    requires Inv(s) && (j in s.jobs ==> SameDelivery(s.jobs[j], d))
    requires JobSound(s.(jobs := s.jobs[j := d]), j)
    ensures var t := s.(jobs := s.jobs[j := d]); Inv(t) && Grows(s, t)
  {
    hide TransferSound, PublishedSound, AllocationSound, CoreSound, AttestationSound, SubmittedOnce, JobSound, Inv;
    var t := s.(jobs := s.jobs[j := d]);
    SameLog(s, t);
    assert Grows(s, t);
    GrowthKeepsInv(s, t);
  }

  lemma InsertAttestation(s: State, j: JobId, a: Attestation)
    requires Inv(s) && j !in s.attested && ReceiptOf(s, j) == Some(a.receipt)
    ensures var t := s.(attested := s.attested[j := a]); Inv(t) && Grows(s, t)
  {
    hide TransferSound, PublishedSound, AllocationSound, CoreSound, JobSound, SubmittedOnce, Inv;
    var t := s.(attested := s.attested[j := a]);
    SameLog(s, t);
    assert AttestationSound(t, j);
    assert Grows(s, t);
    hide AttestationSound;
    GrowthKeepsInv(s, t);
  }

  /** An audit entry other than a submission. */
  lemma AppendAudit(s: State, x: Audit)
    requires Inv(s) && !x.Submitted?
    ensures var t := s.(log := s.log + [x]); Inv(t) && Grows(s, t)
  {
    hide TransferSound, PublishedSound, AllocationSound, CoreSound, JobSound, AttestationSound, Inv;
    var t := s.(log := s.log + [x]);
    LogFact(s);
    forall j ensures SubmittedKnown(t, j) {
      assert SubmittedKnown(s, j);
    }
    assert Grows(s, t);
    GrowthKeepsInv(s, t);
  }

  lemma LogFact(s: State)
    requires Inv(s)
    ensures SubmittedOnce(s.log) && forall j :: SubmittedKnown(s, j)
  {
  }

  /** A submission with its job. */
  lemma InsertJob(s: State, j: JobId, d: Delivery)
    requires Inv(s) && j !in s.jobs
    requires JobSound(s.(jobs := s.jobs[j := d], log := s.log + [Submitted(j)]), j)
    ensures var t := s.(jobs := s.jobs[j := d], log := s.log + [Submitted(j)]); Inv(t) && Grows(s, t)
  {
    hide TransferSound, PublishedSound, AllocationSound, CoreSound, AttestationSound, JobSound, Inv;
    var t := s.(jobs := s.jobs[j := d], log := s.log + [Submitted(j)]);
    LogFact(s);
    assert SubmittedKnown(s, j);
    forall k ensures SubmittedKnown(t, k) {
      assert SubmittedKnown(s, k);
    }
    assert Grows(s, t);
    GrowthKeepsInv(s, t);
  }

  lemma PublishTransfer(s: State, id: ContinuationId)
    requires Inv(s) && Held(s, id) && ExactReceipt(s, id) && s.core[id].state == Committed
    ensures var t := s.(transfers := s.transfers[id := s.transfers[id].(stage := Published)]); Inv(t) && Grows(s, t)
  {
    hide AllocationSound, CoreSound, JobSound, AttestationSound, SubmittedOnce, Inv;
    var t := s.(transfers := s.transfers[id := s.transfers[id].(stage := Published)]);
    SameLog(s, t);
    TransferFact(s, id);
    assert Grows(s, t);
    hide Reclaimable;
    TransferStaysSound(s, t, id);
    assert PublishedSound(t, id);
    hide TransferSound, PublishedSound;
    GrowthKeepsInv(s, t);
  }

  lemma TransferFact(s: State, id: ContinuationId)
    requires Inv(s) && id in s.transfers
    ensures TransferSound(s, id) && PublishedSound(s, id)
  {
  }

  lemma AllocationFact(s: State, x: string)
    requires Inv(s) && x in s.allocations
    ensures AllocationSound(s, x)
  {
  }

  /** Allocations move between states; one that becomes published has its published transfer. */
  lemma SetAllocations(s: State, allocations: map<string, Allocation>)
    requires Inv(s) && allocations.Keys == s.allocations.Keys
    requires forall x :: x in allocations ==> SameAllocation(s.allocations[x], allocations[x])
    requires forall x :: x in allocations && allocations[x].state == AllocationPublished ==>
      s.allocations[x].state == AllocationPublished
      || (var id := ClaimId(s.allocations[x]);
          id in s.transfers && s.transfers[id].job == s.allocations[x].job && s.transfers[id].stage == Published)
    ensures var t := s.(allocations := allocations); Inv(t) && Grows(s, t)
  {
    hide TransferSound, PublishedSound, CoreSound, JobSound, AttestationSound, SubmittedOnce, Inv;
    var t := s.(allocations := allocations);
    SameLog(s, t);
    forall x | x in t.allocations ensures AllocationSound(t, x) {
      AllocationFact(s, x);
    }
    assert Grows(s, t);
    hide AllocationSound;
    GrowthKeepsInv(s, t);
  }

  // ---------------------------------------------------------------- the steps

  /** Keeps(s, t): t is sound and s has grown into it. */
  ghost predicate Keeps(s: State, t: State) {
    Inv(t) && Grows(s, t)
  }

  lemma FlightFact(s: State, pid: nat)
    requires Inv(s) && pid in s.flights
    ensures FlightSound(s, s.flights[pid])
  {
  }

  lemma KeepsItself(s: State)
    requires Inv(s)
    ensures Keeps(s, s)
  {
    GrowsItself(s);
  }

  /** A component change followed by a new flight. */
  lemma ThenFlight(s: State, t: State, pid: nat, f: Flight)
    requires Keeps(s, t) && FlightSound(t, f)
    ensures Keeps(s, With(t, pid, f))
  {
    hide Inv, Grows, FlightSound;
    AddFlight(t, pid, f);
    GrowsTrans(s, t, With(t, pid, f));
  }

  lemma ThenEnds(s: State, t: State, pid: nat)
    requires Keeps(s, t)
    ensures Keeps(s, Ended(t, pid))
  {
    hide Inv, Grows;
    DropFlight(t, pid);
    GrowsTrans(s, t, Ended(t, pid));
  }

  lemma StagePrepareKeeps(s: State, e: Event)
    requires Inv(s) && e.StagePrepare?
    ensures Keeps(s, StagePrepareStep(s, e.pid, e.req, e.target, e.cp, e.grant))
  {
    hide Inv, Grows, WellFormed;
    KeepsItself(s);
    var t := StagePrepareStep(s, e.pid, e.req, e.target, e.cp, e.grant);
    if t != s {
      var id := ContinuationId(e.req.owner, e.req.chat, e.req.key);
      var row := PreparedCore(s, id, e.req.run, e.cp, e.target.value).value;
      SetCore(s, id, row);
      var t1 := s.(core := s.core[id := row]);
      if t != t1 {
        ThenFlight(s, t1, e.pid, t.flights[e.pid]);
      }
    }
  }

  lemma StageInsertKeeps(s: State, pid: nat)
    requires Inv(s)
    ensures Keeps(s, StageInsertStep(s, pid))
  {
    hide Inv, Grows;
    KeepsItself(s);
    if pid in s.flights && s.flights[pid].StagePrepared? {
      FlightFact(s, pid);
      var f := s.flights[pid];
      ThenEnds(s, s, pid);
      if f.id in s.transfers {
        if s.transfers[f.id].(stage := Staged) == f.row {
          assert s.(transfers := s.transfers) == s;
          ThenFlight(s, s, pid, StageInserted(f.id));
        }
      } else {
        InsertTransfer(s, f.id, f.row);
        ThenFlight(s, s.(transfers := s.transfers[f.id := f.row]), pid, StageInserted(f.id));
      }
    }
  }

  lemma StageCheckKeeps(s: State, pid: nat)
    requires Inv(s)
    ensures Keeps(s, StageCheckStep(s, pid)) && Keeps(s, TargetCheckStep(s, pid))
  {
    hide Inv, Grows;
    KeepsItself(s);
    if pid in s.flights {
      FlightFact(s, pid);
      ThenEnds(s, s, pid);
      var f := s.flights[pid];
      if f.StageInserted? {
        ThenFlight(s, s, pid, StageChecked(f.id));
      } else if f.TargetInserted? {
        ThenFlight(s, s, pid, TargetChecked(f.allocation));
      }
    }
  }

  lemma SubmitKeeps(s: State, task: TaskId, prompt: string, target: Option<string>)
    requires Inv(s)
    requires match task
      case Continuation(id) => id in s.transfers && s.transfers[id].job == JobFor(task) && prompt == s.transfers[id].prompt
                               && target == Some(s.transfers[id].target)
      case Target(x) => x in s.allocations && prompt == s.allocations[x].prompt && target == None
    ensures Keeps(s, Submit(s, task, prompt, target))
  {
    hide Inv, Grows;
    KeepsItself(s);
    var t := Submit(s, task, prompt, target);
    if t != s {
      var j, d := JobFor(task), Delivery(prompt, target, NotSent, None);
      var t1 := s.(jobs := s.jobs[j := d], log := s.log + [Submitted(j)]);
      assert Submitted(j) in t1.log;
      InsertJob(s, j, d);
      SetUnseen(t1, t);
      GrowsTrans(s, t1, t);
    }
  }

  lemma StageSubmitKeeps(s: State, pid: nat)
    requires Inv(s)
    ensures Keeps(s, StageSubmitStep(s, pid))
  {
    hide Inv, Grows, Submit;
    KeepsItself(s);
    if pid in s.flights && s.flights[pid].StageChecked? && s.flights[pid].id in s.transfers {
      FlightFact(s, pid);
      var id := s.flights[pid].id;
      SubmitKeeps(s, Continuation(id), s.transfers[id].prompt, Some(s.transfers[id].target));
      ThenEnds(s, Submit(s, Continuation(id), s.transfers[id].prompt, Some(s.transfers[id].target)), pid);
    }
  }

  lemma StageStepKeeps(s: State, e: Event)
    requires Inv(s) && StageEvent(e)
    ensures Keeps(s, StageStep(s, e))
  {
    hide Inv, Grows, Keeps, StagePrepareStep, StageInsertStep, StageCheckStep, StageSubmitStep;
    match e
    case StagePrepare(_, _, _, _, _) => StagePrepareKeeps(s, e);
    case StageInsert(pid) => StageInsertKeeps(s, pid);
    case StageCheck(pid) => StageCheckKeeps(s, pid);
    case StageSubmit(pid) => StageSubmitKeeps(s, pid);
  }

  lemma TargetInsertKeeps(s: State, e: Event)
    requires Inv(s) && e.TargetInsert?
    ensures Keeps(s, TargetInsertStep(s, e.pid, e.req, e.cp, e.grant))
  {
    hide Inv, Grows, WellFormed, AllocationId, HasOpenAllocation, AllocationKeyTaken;
    KeepsItself(s);
    var t := TargetInsertStep(s, e.pid, e.req, e.cp, e.grant);
    if t != s {
      var x := AllocationId(e.req.owner, e.req.run, e.req.chat, e.req.key);
      var row := NewAllocation(e.req, e.cp, e.grant.value);
      if x in s.allocations {
        ThenFlight(s, s, e.pid, TargetInserted(x));
      } else {
        InsertAllocation(s, x, row);
        ThenFlight(s, s.(allocations := s.allocations[x := row]), e.pid, TargetInserted(x));
      }
    }
  }

  lemma TargetSubmitKeeps(s: State, pid: nat)
    requires Inv(s)
    ensures Keeps(s, TargetSubmitStep(s, pid))
  {
    hide Inv, Grows, Submit;
    KeepsItself(s);
    if pid in s.flights && s.flights[pid].TargetChecked? && s.flights[pid].allocation in s.allocations {
      var x := s.flights[pid].allocation;
      SubmitKeeps(s, Target(x), s.allocations[x].prompt, None);
      ThenEnds(s, Submit(s, Target(x), s.allocations[x].prompt, None), pid);
    }
  }

  lemma TargetStepKeeps(s: State, e: Event)
    requires Inv(s) && TargetEvent(e)
    ensures Keeps(s, TargetStep(s, e))
  {
    hide Inv, Grows, Keeps, TargetInsertStep, TargetCheckStep, TargetSubmitStep;
    match e
    case TargetInsert(_, _, _, _) => TargetInsertKeeps(s, e);
    case TargetCheck(pid) => StageCheckKeeps(s, pid);
    case TargetSubmit(pid) => TargetSubmitKeeps(s, pid);
  }

  lemma ClaimReadsKeep(s: State, e: Event)
    requires Inv(s) && (e.ClaimAuthorize? || e.ClaimProve?)
    ensures Keeps(s, ClaimStep(s, e))
  {
    hide Inv, Grows;
    KeepsItself(s);
    var t := ClaimStep(s, e);
    if e.ClaimAuthorize? {
      if t != s {
        ThenFlight(s, s, e.pid, ClaimAuthorized(e.allocation, s.allocations[e.allocation]));
      }
    } else if e.pid in s.flights && s.flights[e.pid].ClaimAuthorized? {
      FlightFact(s, e.pid);
      ThenEnds(s, s, e.pid);
      if t != Ended(s, e.pid) {
        ThenFlight(s, s, e.pid, t.flights[e.pid]);
      }
    }
  }

  lemma ClaimPrepareKeeps(s: State, pid: nat, cp: Checkpoint)
    requires Inv(s)
    ensures Keeps(s, ClaimPrepareStep(s, pid, cp))
  {
    hide Inv, Grows;
    KeepsItself(s);
    if pid in s.flights && s.flights[pid].ClaimProven? {
      var f := s.flights[pid];
      ThenEnds(s, s, pid);
      var core := if cp.id != f.a.checkpoint then None else PreparedCore(s, ClaimId(f.a), f.a.run, cp, f.receipt.conversation);
      if core.Some? {
        SetCore(s, ClaimId(f.a), core.value);
        var t1 := s.(core := s.core[ClaimId(f.a) := core.value]);
        FlightFact(s, pid);
        FlightKept(s, t1, f);
        ThenFlight(s, t1, pid, ClaimPrepared(f.allocation, f.a, f.receipt));
      }
    }
  }

  lemma ClaimRecordKeeps(s: State, pid: nat)
    requires Inv(s)
    ensures Keeps(s, ClaimRecordStep(s, pid))
  {
    hide Inv, Grows, HasOpenAllocation, JobTaken;
    KeepsItself(s);
    if pid in s.flights && s.flights[pid].ClaimPrepared? {
      var f := s.flights[pid];
      ThenEnds(s, s, pid);
      if ClaimRecordStep(s, pid) != Ended(s, pid) {
        FlightFact(s, pid);
        AllocationFact(s, f.allocation);
        var id := ClaimId(f.a);
        var t1 := if id in s.transfers then s else s.(transfers := s.transfers[id := TransferFor(f.a, f.receipt.conversation)]);
        if id !in s.transfers {
          InsertTransfer(s, id, TransferFor(f.a, f.receipt.conversation));
        }
        var allocations := s.allocations[f.allocation := s.allocations[f.allocation].(state := Claimed)];
        assert allocations.Keys == s.allocations.Keys;
        SetAllocations(t1, allocations);
        GrowsTrans(s, t1, t1.(allocations := allocations));
        ThenEnds(s, t1.(allocations := allocations), pid);
      }
    }
  }

  lemma ClaimStepKeeps(s: State, e: Event)
    requires Inv(s) && ClaimEvent(e)
    ensures Keeps(s, ClaimStep(s, e))
  {
    hide Inv, Grows, Keeps, ClaimPrepareStep, ClaimRecordStep;
    match e
    case ClaimAuthorize(_, _, _, _) => ClaimReadsKeep(s, e);
    case ClaimProve(_, _) => ClaimReadsKeep(s, e);
    case ClaimPrepare(pid, cp) => ClaimPrepareKeeps(s, pid, cp);
    case ClaimRecord(pid) => ClaimRecordKeeps(s, pid);
  }

  lemma CommitAuthorizeKeeps(s: State, e: Event)
    requires Inv(s) && e.CommitAuthorize?
    ensures Keeps(s, CommitAuthorizeStep(s, e.pid, e.id, e.approved, e.grant))
  {
    hide Inv, Grows;
    KeepsItself(s);
    if CommitAuthorizeStep(s, e.pid, e.id, e.approved, e.grant) != s {
      AppendAudit(s, Authorized(e.id, e.grant.value));
      ThenFlight(s, s.(log := s.log + [Authorized(e.id, e.grant.value)]), e.pid, CommitAuthorized(e.id));
    }
  }

  lemma ReconcileKeeps(s: State, id: ContinuationId)
    requires Inv(s)
    ensures Keeps(s, ReconcileStep(s, id)) && Keeps(s, CancelStep(s, id))
  {
    hide Inv, Grows;
    KeepsItself(s);
    if id in s.core && s.core[id].state != Committed {
      SetCore(s, id, s.core[id].(state := Uncertain));
      SetCore(s, id, s.core[id].(state := Cancelled));
      var t1 := s.(log := s.log + [BoundToTarget(id)]);
      AppendAudit(s, BoundToTarget(id));
      SetCore(t1, id, s.core[id].(state := Committed));
      GrowsTrans(s, t1, t1.(core := s.core[id := s.core[id].(state := Committed)]));
    }
  }

  lemma CommitStatusKeeps(s: State, pid: nat)
    requires Inv(s)
    ensures Keeps(s, CommitStatusStep(s, pid))
  {
    hide Inv, Grows, ReconcileStep;
    KeepsItself(s);
    if pid in s.flights && s.flights[pid].CommitAuthorized? {
      var id := s.flights[pid].id;
      FlightFact(s, pid);
      ThenEnds(s, s, pid);
      if id in s.core {
        var t := ReconcileStep(s, id);
        ReconcileKeeps(s, id);
        assert id in t.core.Keys;
        FlightKept(s, t, s.flights[pid]);
        ThenFlight(s, t, pid, CommitSeen(id, t.core[id].state));
      }
    }
  }

  lemma CommitProveKeeps(s: State, pid: nat, browser: bool)
    requires Inv(s)
    ensures Keeps(s, CommitProveStep(s, pid, browser))
  {
    hide Inv, Grows, AttestedFor, ReceiptOf;
    KeepsItself(s);
    if pid in s.flights && s.flights[pid].CommitSeen? {
      var f := s.flights[pid];
      FlightFact(s, pid);
      ThenEnds(s, s, pid);
      if browser && ExactReceipt(s, f.id) {
        ThenFlight(s, s, pid, CommitProven(f.id, f.seen));
      }
    }
  }

  lemma CommitLookKeeps(s: State, pid: nat, cp: Checkpoint)
    requires Inv(s)
    ensures Keeps(s, CommitLookStep(s, pid, cp))
  {
    hide Inv, Grows, AttestedFor, ReceiptOf;
    KeepsItself(s);
    if pid in s.flights && s.flights[pid].CommitProven? {
      var id := s.flights[pid].id;
      FlightFact(s, pid);
      ThenEnds(s, s, pid);
      ThenFlight(s, s, pid, CommitLooked(id));
      if s.core[id].state == Committed {
        ThenFlight(s, s, pid, CommitDone(id));
      }
    }
  }

  lemma CommitBeginKeeps(s: State, pid: nat)
    requires Inv(s)
    ensures Keeps(s, CommitBeginStep(s, pid))
  {
    hide Inv, Grows, ExactReceipt;
    KeepsItself(s);
    if pid in s.flights && s.flights[pid].CommitLooked? && s.flights[pid].id in s.core {
      var id := s.flights[pid].id;
      ThenEnds(s, s, pid);
      if CommitBeginStep(s, pid) != Ended(s, pid) {
        FlightFact(s, pid);
        var row := s.core[id].(state := Rebinding);
        SetCore(s, id, row);
        ExactKept(s, s.(core := s.core[id := row]), id);
        ThenFlight(s, s.(core := s.core[id := row]), pid, CommitRebinding(id));
      }
    }
  }

  lemma CommitRebindKeeps(s: State, pid: nat)
    requires Inv(s)
    ensures Keeps(s, CommitRebindStep(s, pid))
  {
    hide Inv, Grows, ExactReceipt;
    KeepsItself(s);
    if pid in s.flights && s.flights[pid].CommitRebinding? && s.flights[pid].id in s.core {
      var id := s.flights[pid].id;
      FlightFact(s, pid);
      ThenFlight(s, s, pid, CommitFailed(id));
      if CommitRebindStep(s, pid) != With(s, pid, CommitFailed(id)) {
        var t1 := s.(log := s.log + [BoundToTarget(id)]);
        AppendAudit(s, BoundToTarget(id));
        var t2 := t1.(binding := s.binding[ChatKey(id.owner, id.chat) := s.core[id].target]);
        SetUnseen(t1, t2);
        GrowsTrans(s, t1, t2);
        ExactKept(s, t2, id);
        ThenFlight(s, t2, pid, CommitRebound(id));
      }
    }
  }

  lemma CommitSettleKeeps(s: State, pid: nat)
    requires Inv(s)
    ensures Keeps(s, CommitSettleStep(s, pid))
  {
    hide Inv, Grows, ExactReceipt;
    KeepsItself(s);
    if pid in s.flights && (s.flights[pid].CommitRebound? || s.flights[pid].CommitFailed?) && s.flights[pid].id in s.core {
      var f := s.flights[pid];
      FlightFact(s, pid);
      ThenEnds(s, s, pid);
      if s.core[f.id].state == Rebinding || s.core[f.id].state == (if f.CommitRebound? then Committed else Uncertain) {
        var row := s.core[f.id].(state := if f.CommitRebound? then Committed else Uncertain);
        SetCore(s, f.id, row);
        var t1 := s.(core := s.core[f.id := row]);
        ExactKept(s, t1, f.id);
        ThenEnds(s, t1, pid);
        if f.CommitRebound? {
          ThenFlight(s, t1, pid, CommitDone(f.id));
        }
      }
    }
  }

  lemma CommitPublishKeeps(s: State, pid: nat)
    requires Inv(s)
    ensures Keeps(s, CommitPublishStep(s, pid))
  {
    hide Inv, Grows, ExactReceipt;
    KeepsItself(s);
    if pid in s.flights && s.flights[pid].CommitDone? && s.flights[pid].id in s.transfers {
      var id := s.flights[pid].id;
      FlightFact(s, pid);
      PublishTransfer(s, id);
      var t1 := s.(transfers := s.transfers[id := s.transfers[id].(stage := Published)]);
      TransferFact(s, id);
      var allocations := PublishAllocations(s.allocations, id.owner, s.transfers[id].job);
      forall x | x in allocations && allocations[x].state == AllocationPublished && s.allocations[x].state != AllocationPublished
        ensures ClaimId(s.allocations[x]) == id
      {
        AllocationFact(s, x);
      }
      assert allocations.Keys == s.allocations.Keys;
      SetAllocations(t1, allocations);
      GrowsTrans(s, t1, t1.(allocations := allocations));
      ThenEnds(s, t1.(allocations := allocations), pid);
    }
  }

  lemma CommitStepKeeps(s: State, e: Event)
    requires Inv(s) && CommitEvent(e)
    ensures Keeps(s, CommitStep(s, e))
  {
    hide Inv, Grows, Keeps, CommitAuthorizeStep, CommitStatusStep, CommitProveStep, CommitLookStep, CommitBeginStep,
         CommitRebindStep, CommitSettleStep, CommitPublishStep;
    match e
    case CommitAuthorize(_, _, _, _) => CommitAuthorizeKeeps(s, e);
    case CommitStatus(pid) => CommitStatusKeeps(s, pid);
    case CommitProve(pid, browser) => CommitProveKeeps(s, pid, browser);
    case CommitLook(pid, cp) => CommitLookKeeps(s, pid, cp);
    case CommitBegin(pid) => CommitBeginKeeps(s, pid);
    case CommitRebind(pid) => CommitRebindKeeps(s, pid);
    case CommitSettle(pid) => CommitSettleKeeps(s, pid);
    case CommitPublish(pid) => CommitPublishKeeps(s, pid);
  }

  lemma JobFact(s: State, j: JobId)
    requires Inv(s) && j in s.jobs
    ensures JobSound(s, j)
  {
  }

  lemma RelayKeeps(s: State, e: Event)
    requires Inv(s) && (e.RelayMoves? || e.RelayReceipt? || e.Attest?)
    ensures Keeps(s, OutsideStep(s, e))
  {
    hide Inv, Grows;
    KeepsItself(s);
    var t := OutsideStep(s, e);
    if t != s {
      if e.Attest? {
        InsertAttestation(s, e.job, t.attested[e.job]);
      } else {
        JobFact(s, e.job);
        SetJob(s, e.job, t.jobs[e.job]);
      }
    }
  }

  lemma ForeignKeeps(s: State, key: TaskId, name: string, prompt: string, target: Option<string>)
    requires Inv(s)
    ensures Keeps(s, ForeignSubmitStep(s, key, name, prompt, target))
  {
    hide Inv, Grows;
    KeepsItself(s);
    var t := ForeignSubmitStep(s, key, name, prompt, target);
    if t != s {
      var t1 := s.(jobs := t.jobs);
      SetJob(s, Foreign(name), Delivery(prompt, target, NotSent, None));
      SetUnseen(t1, t);
      GrowsTrans(s, t1, t);
    }
  }

  lemma OutsideStepKeeps(s: State, e: Event)
    requires Inv(s) && !StageEvent(e) && !TargetEvent(e) && !ClaimEvent(e) && !CommitEvent(e)
    ensures Keeps(s, OutsideStep(s, e))
  {
    hide Inv, Grows, ReconcileStep, CancelStep, ForeignSubmitStep, RelayMovesStep, RelayReceiptStep, AttestStep;
    match e
    case Reconcile(id) => ReconcileKeeps(s, id);
    case Cancel(id) => ReconcileKeeps(s, id);
    case Rebound(chat, conversation) => SetUnseen(s, s.(binding := s.binding[chat := conversation]));
    case RelayMoves(_, _) => RelayKeeps(s, e);
    case RelayReceipt(_, _) => RelayKeeps(s, e);
    case Attest(_, _, _) => RelayKeeps(s, e);
    case ForeignSubmit(key, name, prompt, target) => ForeignKeeps(s, key, name, prompt, target);
    case Die(pid) => DropFlight(s, pid);
    case Crash => SetFlights(s, map[]);
  }

  lemma StepKeepsInv(s: State, e: Event)
    requires Inv(s)
    ensures Inv(Step(s, e)) && Grows(s, Step(s, e))
  {
    hide Inv, Grows, StageStep, TargetStep, ClaimStep, CommitStep, OutsideStep;
    if StageEvent(e) {
      StageStepKeeps(s, e);
    } else if TargetEvent(e) {
      TargetStepKeeps(s, e);
    } else if ClaimEvent(e) {
      ClaimStepKeeps(s, e);
    } else if CommitEvent(e) {
      CommitStepKeeps(s, e);
    } else {
      OutsideStepKeeps(s, e);
    }
  }

  lemma {:induction false} RunKeepsInv(s: State, events: seq<Event>)
    requires Inv(s)
    ensures Inv(Run(s, events)) && Grows(s, Run(s, events))
    decreases |events|
  {
    hide Inv, Grows, Step;
    if events == [] {
      GrowsItself(s);
    } else {
      StepKeepsInv(s, events[0]);
      RunKeepsInv(Step(s, events[0]), events[1..]);
      GrowsTrans(s, Step(s, events[0]), Run(s, events));
    }
  }

  // ---------------------------------------------------------------- over whole runs

  lemma InitIsSound()
    ensures Inv(Init)
  {
  }

  /** The core binding of the continuation is committed and the chat was seen bound to its
      target, with an exact receipt for its job that was attested for its run, under the grant
      the transfer was staged with. */
  predicate StandsOnReceipt(s: State, id: ContinuationId) {
    && id in s.transfers && id in s.core && s.core[id].state == Committed && BoundToTarget(id) in s.log
    && var t := s.transfers[id];
    && ReceiptOf(s, t.job).Some? && ReceiptOf(s, t.job).value.conversation == s.core[id].target
    && ReceiptOf(s, t.job).value.prompt == t.prompt
    && t.job in s.attested && s.attested[t.job] == Attestation(id.owner, t.run, ReceiptOf(s, t.job).value)
    && Authorized(id, t.grant) in s.log
  }

  lemma PublishedStands(s: State, id: ContinuationId)
    requires Inv(s) && id in s.transfers && s.transfers[id].stage == Published
    ensures StandsOnReceipt(s, id)
  {
    TransferFact(s, id);
    CoreFact(s, id);
    hide Inv;
  }

  // ---------------------------------------------------------------- one request among others

  /** The step is not one of this request, and the process lives on. */
  predicate Other(e: Event, pid: nat) {
    OfNobody(e) || (!e.Crash? && e.pid != pid)
  }

  predicate OfOthers(events: seq<Event>, pid: nat) {
    forall e :: e in events ==> Other(e, pid)
  }

  predicate SameFlight(s: State, t: State, pid: nat) {
    (pid in t.flights <==> pid in s.flights) && (pid in s.flights ==> t.flights[pid] == s.flights[pid])
  }

  lemma TouchingLeaves(s: State, t: State, p: nat, pid: nat)
    requires Touches(s.flights, t.flights, p) && p != pid
    ensures SameFlight(s, t, pid)
  {
  }

  lemma StageDispatch(s: State, e: Event)
    requires StageEvent(e)
    ensures Step(s, e) == StageStep(s, e)
  {
    hide StageStep, TargetStep, ClaimStep, CommitStep, OutsideStep;
  }

  lemma TargetDispatch(s: State, e: Event)
    requires TargetEvent(e)
    ensures Step(s, e) == TargetStep(s, e)
  {
    hide StageStep, TargetStep, ClaimStep, CommitStep, OutsideStep;
  }

  lemma ClaimDispatch(s: State, e: Event)
    requires ClaimEvent(e)
    ensures Step(s, e) == ClaimStep(s, e)
  {
    hide StageStep, TargetStep, ClaimStep, CommitStep, OutsideStep;
  }

  lemma CommitDispatch(s: State, e: Event)
    requires CommitEvent(e)
    ensures Step(s, e) == CommitStep(s, e)
  {
    hide StageStep, TargetStep, ClaimStep, CommitStep, OutsideStep;
  }

  lemma OutsideDispatch(s: State, e: Event)
    requires !StageEvent(e) && !TargetEvent(e) && !ClaimEvent(e) && !CommitEvent(e)
    ensures Step(s, e) == OutsideStep(s, e)
  {
    hide StageStep, TargetStep, ClaimStep, CommitStep, OutsideStep;
  }

  lemma StageTouches(s: State, e: Event)
    requires StageEvent(e)
    ensures Touches(s.flights, Step(s, e).flights, e.pid)
  {
    StageDispatch(s, e);
    hide Step, StagePrepareStep, StageInsertStep, StageCheckStep, StageSubmitStep;
  }

  lemma TargetTouches(s: State, e: Event)
    requires TargetEvent(e)
    ensures Touches(s.flights, Step(s, e).flights, e.pid)
  {
    TargetDispatch(s, e);
    hide Step, TargetInsertStep, TargetCheckStep, TargetSubmitStep;
  }

  lemma ClaimTouches(s: State, e: Event)
    requires ClaimEvent(e)
    ensures Touches(s.flights, Step(s, e).flights, e.pid)
  {
    ClaimDispatch(s, e);
    hide Step, ClaimAuthorizeStep, ClaimProveStep, ClaimPrepareStep, ClaimRecordStep;
  }

  lemma CommitTouches(s: State, e: Event)
    requires CommitEvent(e)
    ensures Touches(s.flights, Step(s, e).flights, e.pid)
  {
    CommitDispatch(s, e);
    hide Step, CommitAuthorizeStep, CommitStatusStep, CommitProveStep, CommitLookStep, CommitBeginStep, CommitRebindStep, CommitSettleStep,
      CommitPublishStep;
  }

  lemma OutsideTouches(s: State, e: Event)
    requires !StageEvent(e) && !TargetEvent(e) && !ClaimEvent(e) && !CommitEvent(e)
    ensures OfNobody(e) ==> Step(s, e).flights == s.flights
    ensures e.Die? ==> Touches(s.flights, Step(s, e).flights, e.pid)
  {
    OutsideDispatch(s, e);
    hide Step, ReconcileStep, CancelStep, RelayMovesStep, RelayReceiptStep, AttestStep, ForeignSubmitStep;
  }

  lemma OtherLeavesFlight(s: State, e: Event, pid: nat)
    requires Other(e, pid)
    ensures SameFlight(s, Step(s, e), pid)
  {
    hide Step, Touches;
    if StageEvent(e) {
      StageTouches(s, e);
      TouchingLeaves(s, Step(s, e), e.pid, pid);
    } else if TargetEvent(e) {
      TargetTouches(s, e);
      TouchingLeaves(s, Step(s, e), e.pid, pid);
    } else if ClaimEvent(e) {
      ClaimTouches(s, e);
      TouchingLeaves(s, Step(s, e), e.pid, pid);
    } else if CommitEvent(e) {
      CommitTouches(s, e);
      TouchingLeaves(s, Step(s, e), e.pid, pid);
    } else {
      OutsideTouches(s, e);
      if e.Die? {
        TouchingLeaves(s, Step(s, e), e.pid, pid);
      }
    }
  }

  lemma {:induction false} OthersLeaveFlight(s: State, events: seq<Event>, pid: nat)
    requires OfOthers(events, pid)
    ensures SameFlight(s, Run(s, events), pid)
    decreases |events|
  {
    hide Step, Other;
    if events != [] {
      OtherLeavesFlight(s, events[0], pid);
      OthersLeaveFlight(Step(s, events[0]), events[1..], pid);
    }
  }

  lemma NothingRuns(s: State)
    ensures Run(s, []) == s
  {
  }

  lemma RunOne(s: State, e: Event)
    ensures Run(s, [e]) == Step(s, e)
  {
    hide Step;
    assert [e][1..] == [];
  }

  lemma {:induction false} RunAppend(s: State, a: seq<Event>, b: seq<Event>)
    ensures Run(s, a + b) == Run(Run(s, a), b)
    decreases |a|
  {
    hide Step;
    if a == [] {
      assert a + b == b;
    } else {
      assert (a + b)[0] == a[0] && (a + b)[1..] == a[1..] + b;
      RunAppend(Step(s, a[0]), a[1..], b);
    }
  }

  /** A commit past its checks has a core row. */
  lemma CommitNamesCore(s: State, pid: nat)
    requires Inv(s) && pid in s.flights && CommitFlight(s.flights[pid])
    ensures s.flights[pid].id in s.core && s.flights[pid].id in s.transfers
  {
    FlightFact(s, pid);
    hide Inv;
  }

  lemma TransferStays(s: State, t: State, id: ContinuationId)
    requires Grows(s, t) && id in s.transfers
    ensures id in t.transfers && t.transfers[id].(stage := Staged) == s.transfers[id].(stage := Staged)
  {
    assert TransferKept(s, t, id);
  }

  lemma AllocationStays(s: State, t: State, x: string)
    requires Grows(s, t) && x in s.allocations
    ensures x in t.allocations && SameAllocation(s.allocations[x], t.allocations[x])
  {
    assert AllocationKept(s, t, x);
  }

  lemma CoreStays(s: State, t: State, id: ContinuationId)
    requires Grows(s, t) && id in s.core
    ensures id in t.core && t.core[id].checkpoint == s.core[id].checkpoint
  {
    assert CoreKept(s, t, id);
  }

  lemma SharedJobAgrees(s: State, id: ContinuationId, x: string)
    requires Inv(s) && id in s.transfers && x in s.allocations && s.transfers[id].job == s.allocations[x].job
    ensures Agrees(id, s.transfers[id], s.allocations[x])
  {
    TransferFact(s, id);
    AllocationFact(s, x);
    hide Inv;
  }
}
