/** native_bridge/continuation_web.py as a state machine: a chat moves from conversation A to
    conversation B by one Web message, whose exact receipt gates the publication.

    One step is one transaction, one call of the relay or one read of its receipt. What a
    request holds in between is a flight and dies with the process. The control plane, the
    relay and the receipt broker are kept to what their own code promises here. */
module WebContinuation {
  import opened Basics

  const MAX_SUMMARY := 16_000
  const MAX_KEY := 128
  const PREAMBLE := "SENTRA continuation context (read-only):\n\n"

  /** A continuation row has a fresh identifier and a unique (owner, chat, request key), and is
      never deleted: the triple stands for the identifier. */
  datatype ContinuationId = ContinuationId(owner: string, chat: string, key: string)

  /** An allocation is identified by its owner, run, chat and key joined with bars. */
  function AllocationId(owner: string, run: string, chat: string, key: string): string {
    owner + "|" + run + "|" + chat + "|" + key
  }

  /** What a job identifier and a delivery key are derived from. */
  datatype TaskId = Continuation(id: ContinuationId) | Target(allocation: string)

  /** A relay job; other submitters' identifiers are not derived from a task. */
  datatype JobId = JobFor(task: TaskId) | Foreign(name: string)

  datatype Receipt = Receipt(conversation: string, message: string, prompt: string)

  datatype DeliveryState = NotSent | Pending | Unconfirmed | Sent

  /** A row of web_deliveries with its job; target is None for a new chat. */
  datatype Delivery = Delivery(prompt: string, target: Option<string>, state: DeliveryState, receipt: Option<Receipt>)

  datatype CoreState = Prepared | Rebinding | Uncertain | Committed | Cancelled

  /** A row of session_continuations. */
  datatype CoreRow = CoreRow(run: string, checkpoint: string, source: string, target: string, state: CoreState)

  datatype Stage = Staged | Published

  /** A row of web_continuation_transfers. */
  datatype Transfer = Transfer(run: string, item: string, principal: string, grant: string, target: string,
                               job: JobId, prompt: string, checkpointSha: string, stage: Stage)

  datatype AllocationState = Allocating | Claimed | AllocationUncertain | AllocationPublished

  /** A row of web_target_allocations. */
  datatype Allocation = Allocation(owner: string, run: string, chat: string, item: string, principal: string, grant: string,
                                   checkpoint: string, checkpointSha: string, key: string, job: JobId, prompt: string,
                                   state: AllocationState)

  /** A row of authenticated_web_receipts. */
  datatype Attestation = Attestation(owner: string, run: string, receipt: Receipt)

  /** The latest checkpoint of a chat as the control plane reports it. */
  datatype Checkpoint = Checkpoint(id: string, run: string, conversation: Option<string>, summary: string, sha: string)

  datatype ChatKey = ChatKey(owner: string, chat: string)

  /** What a request holds between its steps. */
  datatype Flight =
    | StagePrepared(id: ContinuationId, row: Transfer)
    | StageInserted(id: ContinuationId)
    | StageChecked(id: ContinuationId)
    | TargetInserted(allocation: string)
    | TargetChecked(allocation: string)
    | ClaimAuthorized(allocation: string, a: Allocation)
    | ClaimProven(allocation: string, a: Allocation, receipt: Receipt)
    | ClaimPrepared(allocation: string, a: Allocation, receipt: Receipt)
    | CommitAuthorized(id: ContinuationId)
    | CommitSeen(id: ContinuationId, seen: CoreState)
    | CommitProven(id: ContinuationId, seen: CoreState)
    | CommitLooked(id: ContinuationId)
    | CommitRebinding(id: ContinuationId)
    | CommitRebound(id: ContinuationId)
    | CommitFailed(id: ContinuationId)
    | CommitDone(id: ContinuationId)

  /** What the outside has seen. */
  datatype Audit =
    | Submitted(job: JobId)                             // a job entered the relay
    | Authorized(id: ContinuationId, grant: string)     // the commit of id ran under this grant
    | BoundToTarget(id: ContinuationId)                 // the chat was seen bound to the target

  datatype State = State(transfers: map<ContinuationId, Transfer>, allocations: map<string, Allocation>,
                         core: map<ContinuationId, CoreRow>, binding: map<ChatKey, string>,
                         keys: map<TaskId, JobId>, jobs: map<JobId, Delivery>, attested: map<JobId, Attestation>,
                         flights: map<nat, Flight>, log: seq<Audit>)

  const Init := State(map[], map[], map[], map[], map[], map[], map[], map[], [])

  /** The parameters stage and allocate_new_target share. */
  datatype Request = Request(owner: string, run: string, chat: string, item: string, principal: string,
                             key: string, summary: string, approved: bool)

  datatype Event =
    // stage; grant is what _authority returned, target the conversation the URL names
    | StagePrepare(pid: nat, req: Request, target: Option<string>, cp: Checkpoint, grant: Option<string>)
    | StageInsert(pid: nat)
    | StageCheck(pid: nat)
    | StageSubmit(pid: nat)
    // allocate_new_target
    | TargetInsert(pid: nat, req: Request, cp: Checkpoint, grant: Option<string>)
    | TargetCheck(pid: nat)
    | TargetSubmit(pid: nat)
    // claim_new_target
    | ClaimAuthorize(pid: nat, allocation: string, cp: Checkpoint, grant: Option<string>)
    | ClaimProve(pid: nat, browser: bool)
    | ClaimPrepare(pid: nat, cp: Checkpoint)
    | ClaimRecord(pid: nat)
    // commit
    | CommitAuthorize(pid: nat, id: ContinuationId, approved: bool, grant: Option<string>)
    | CommitStatus(pid: nat)
    | CommitProve(pid: nat, browser: bool)
    | CommitLook(pid: nat, cp: Checkpoint)
    | CommitBegin(pid: nat)
    | CommitRebind(pid: nat)
    | CommitSettle(pid: nat)
    | CommitPublish(pid: nat)
    // status and the control plane
    | Reconcile(id: ContinuationId)
    | Cancel(id: ContinuationId)
    | Rebound(chat: ChatKey, conversation: string)
    // the relay, its worker and the broker
    | RelayMoves(job: JobId, state: DeliveryState)
    | RelayReceipt(job: JobId, receipt: Receipt)
    | Attest(job: JobId, owner: string, run: string)
    | ForeignSubmit(key: TaskId, name: string, prompt: string, target: Option<string>)
    | Die(pid: nat)
    | Crash

  function With(s: State, pid: nat, f: Flight): (r: State)
    ensures f.StagePrepared? || Advances(s.flights, r.flights, pid)
  {
    s.(flights := s.flights[pid := f])
  }

  function Ended(s: State, pid: nat): (r: State)
    ensures Advances(s.flights, r.flights, pid)
  {
    s.(flights := s.flights - {pid})
  }

  /** A step moves the flight it is of, or ends it, and leaves all others alone. */
  predicate Touches(before: map<nat, Flight>, after: map<nat, Flight>, pid: nat) {
    after == before || after == before - {pid} || (pid in after && after == before[pid := after[pid]])
  }

  /** And it does not leave a flight about to insert a row, unless it is the step of a request
      to stage. */
  predicate Advances(before: map<nat, Flight>, after: map<nat, Flight>, pid: nat) {
    after == before || after == before - {pid} || (pid in after && !after[pid].StagePrepared? && after == before[pid := after[pid]])
  }

  // ---------------------------------------------------------------- the control plane

  predicate Open(st: CoreState) {
    st == Prepared || st == Rebinding || st == Uncertain
  }

  predicate HasOpen(core: map<ContinuationId, CoreRow>, owner: string, chat: string) {
    exists id :: id in core && id.owner == owner && id.chat == chat && Open(core[id].state)
  }

  /** The conversation a chat is bound to. */
  function Bound(s: State, chat: ChatKey): Option<string> {
    if chat in s.binding then Some(s.binding[chat]) else None
  }

  /** prepare_chat_continuation: the row of the key, new or unchanged; None on a conflict. */
  function PreparedCore(s: State, id: ContinuationId, run: string, cp: Checkpoint, target: string): Option<CoreRow> {
    var source := Bound(s, ChatKey(id.owner, id.chat));
    if source.None? || source.value == "" || cp.conversation != source || target == source.value then None
    else if id in s.core then
      var row := s.core[id];
      if row.run == run && row.checkpoint == cp.id && row.source == source.value && row.target == target then Some(row) else None
    else if cp.run != run || HasOpen(s.core, id.owner, id.chat) then None
    else Some(CoreRow(run, cp.id, source.value, target, Prepared))
  }

  // ---------------------------------------------------------------- stage

  predicate WellFormed(req: Request, cp: Checkpoint) {
    req.approved && 1 <= |req.summary| <= MAX_SUMMARY && cp.summary == req.summary && 1 <= |req.key| <= MAX_KEY
  }

  function StagePrepareStep(s: State, pid: nat, req: Request, target: Option<string>, cp: Checkpoint, grant: Option<string>): (r: State)
    ensures r.allocations == s.allocations && r.transfers == s.transfers && Touches(s.flights, r.flights, pid)
  {
    if pid in s.flights || !WellFormed(req, cp) || target.None? || grant.None? then s
    else
      var id := ContinuationId(req.owner, req.chat, req.key);
      var core := PreparedCore(s, id, req.run, cp, target.value);
      if core.None? then s
      else
        var t := s.(core := s.core[id := core.value]);
        if core.value.state != Prepared then t
        else With(t, pid, StagePrepared(id, Transfer(req.run, req.item, req.principal, grant.value, target.value,
                                                     JobFor(Continuation(id)), PREAMBLE + req.summary, cp.sha, Staged)))
  }

  /** The row of the continuation, new or found unchanged; None if its intent changed. */
  function InsertedTransfer(transfers: map<ContinuationId, Transfer>, id: ContinuationId, row: Transfer)
    : Option<map<ContinuationId, Transfer>>
  {
    if id in transfers then (if transfers[id].(stage := Staged) == row then Some(transfers) else None)
    else if JobTaken(transfers, row.job) then None
    else Some(transfers[id := row])
  }

  function StageInsertStep(s: State, pid: nat): (r: State)
    ensures r.allocations == s.allocations && Advances(s.flights, r.flights, pid)
  {
    if pid !in s.flights || !s.flights[pid].StagePrepared? then s
    else
      var f := s.flights[pid];
      var transfers := InsertedTransfer(s.transfers, f.id, f.row);
      if transfers.None? then Ended(s, pid) else With(s.(transfers := transfers.value), pid, StageInserted(f.id))
  }

  /** job_id is unique among the transfers. */
  predicate JobTaken(transfers: map<ContinuationId, Transfer>, job: JobId) {
    exists id :: id in transfers && transfers[id].job == job
  }

  predicate Outstanding(s: State, job: JobId) {
    job in s.jobs && s.jobs[job].state == Unconfirmed
  }

  function StageCheckStep(s: State, pid: nat): (r: State)
    ensures r.allocations == s.allocations && r.transfers == s.transfers && Advances(s.flights, r.flights, pid)
  {
    if pid !in s.flights || !s.flights[pid].StageInserted? then s
    else
      var f := s.flights[pid];
      if Outstanding(s, JobFor(Continuation(f.id))) then Ended(s, pid) else With(s, pid, StageChecked(f.id))
  }

  /** JobStore.submit: one job per delivery key; a key met again must carry the same material. */
  function Submit(s: State, task: TaskId, prompt: string, target: Option<string>): (r: State)
    ensures r.allocations == s.allocations && r.flights == s.flights && r.transfers == s.transfers
  {
    if task in s.keys || JobFor(task) in s.jobs then s
    else s.(keys := s.keys[task := JobFor(task)],
            jobs := s.jobs[JobFor(task) := Delivery(prompt, target, NotSent, None)],
            log := s.log + [Submitted(JobFor(task))])
  }

  function StageSubmitStep(s: State, pid: nat): (r: State)
    ensures r.allocations == s.allocations && r.transfers == s.transfers && Advances(s.flights, r.flights, pid)
  {
    if pid !in s.flights || !s.flights[pid].StageChecked? || s.flights[pid].id !in s.transfers then s
    else
      var id := s.flights[pid].id;
      Ended(Submit(s, Continuation(id), s.transfers[id].prompt, Some(s.transfers[id].target)), pid)
  }

  // ---------------------------------------------------------------- allocate_new_target

  predicate OpenAllocation(st: AllocationState) {
    st != AllocationPublished
  }

  predicate HasOpenAllocation(allocations: map<string, Allocation>, owner: string, chat: string) {
    exists x :: x in allocations && allocations[x].owner == owner && allocations[x].chat == chat && OpenAllocation(allocations[x].state)
  }

  predicate AllocationKeyTaken(allocations: map<string, Allocation>, owner: string, chat: string, key: string) {
    exists x :: x in allocations && allocations[x].owner == owner && allocations[x].chat == chat && allocations[x].key == key
  }

  function NewAllocation(req: Request, cp: Checkpoint, grant: string): Allocation {
    Allocation(req.owner, req.run, req.chat, req.item, req.principal, grant, cp.id, cp.sha, req.key,
               JobFor(Target(AllocationId(req.owner, req.run, req.chat, req.key))), PREAMBLE + req.summary, Allocating)
  }

  function TargetInsertStep(s: State, pid: nat, req: Request, cp: Checkpoint, grant: Option<string>): (r: State)
    ensures r.transfers == s.transfers && Advances(s.flights, r.flights, pid)
  {
    if pid in s.flights || !WellFormed(req, cp) || grant.None? || cp.conversation != Bound(s, ChatKey(req.owner, req.chat)) then s
    else
      var x, row := AllocationId(req.owner, req.run, req.chat, req.key), NewAllocation(req, cp, grant.value);
      if x in s.allocations then
        if s.allocations[x] == row then With(s, pid, TargetInserted(x)) else s
      else if HasOpenAllocation(s.allocations, req.owner, req.chat)
              || AllocationKeyTaken(s.allocations, req.owner, req.chat, req.key) then s
      else With(s.(allocations := s.allocations[x := row]), pid, TargetInserted(x))
  }

  function TargetCheckStep(s: State, pid: nat): (r: State)
    ensures r.allocations == s.allocations && r.transfers == s.transfers && Advances(s.flights, r.flights, pid)
  {
    if pid !in s.flights || !s.flights[pid].TargetInserted? then s
    else
      var x := s.flights[pid].allocation;
      if Outstanding(s, JobFor(Target(x))) then Ended(s, pid) else With(s, pid, TargetChecked(x))
  }

  function TargetSubmitStep(s: State, pid: nat): (r: State)
    ensures r.allocations == s.allocations && r.transfers == s.transfers && Advances(s.flights, r.flights, pid)
  {
    if pid !in s.flights || !s.flights[pid].TargetChecked? || s.flights[pid].allocation !in s.allocations then s
    else
      var x := s.flights[pid].allocation;
      Ended(Submit(s, Target(x), s.allocations[x].prompt, None), pid)
  }

  // ---------------------------------------------------------------- claim_new_target

  function ClaimAuthorizeStep(s: State, pid: nat, x: string, cp: Checkpoint, grant: Option<string>): (r: State)
    ensures r.allocations == s.allocations && r.transfers == s.transfers && Advances(s.flights, r.flights, pid)
  {
    if pid in s.flights || x !in s.allocations then s
    else
      var a := s.allocations[x];
      if grant != Some(a.grant) || cp.id != a.checkpoint then s else With(s, pid, ClaimAuthorized(x, a))
  }

  /** The receipt the relay holds for a job, if the message was sent. */
  function ReceiptOf(s: State, job: JobId): Option<Receipt> {
    if job in s.jobs && s.jobs[job].state == Sent then s.jobs[job].receipt else None
  }

  /** require_attested; browser: the live browser binding still proves the message. */
  predicate AttestedFor(s: State, job: JobId, owner: string, run: string, receipt: Receipt) {
    job in s.attested && s.attested[job] == Attestation(owner, run, receipt) && ReceiptOf(s, job) == Some(receipt)
  }

  /** The receipt of an allocation names a conversation and its prompt, and was attested. */
  predicate NewTargetProven(s: State, a: Allocation) {
    var sent := ReceiptOf(s, a.job);
    sent.Some? && sent.value.prompt == a.prompt && sent.value.conversation != "" && AttestedFor(s, a.job, a.owner, a.run, sent.value)
  }

  function ClaimProveStep(s: State, pid: nat, browser: bool): (r: State)
    ensures r.allocations == s.allocations && r.transfers == s.transfers && Advances(s.flights, r.flights, pid)
  {
    if pid !in s.flights || !s.flights[pid].ClaimAuthorized? then s
    else
      var f := s.flights[pid];
      if !browser || !NewTargetProven(s, f.a) then Ended(s, pid)
      else With(s, pid, ClaimProven(f.allocation, f.a, ReceiptOf(s, f.a.job).value))
  }

  function ClaimId(a: Allocation): ContinuationId {
    ContinuationId(a.owner, a.chat, a.key)
  }

  function ClaimPrepareStep(s: State, pid: nat, cp: Checkpoint): (r: State)
    ensures r.allocations == s.allocations && r.transfers == s.transfers && Advances(s.flights, r.flights, pid)
  {
    if pid !in s.flights || !s.flights[pid].ClaimProven? then s
    else
      var f := s.flights[pid];
      var core := if cp.id != f.a.checkpoint then None else PreparedCore(s, ClaimId(f.a), f.a.run, cp, f.receipt.conversation);
      if core.None? then Ended(s, pid)
      else With(s.(core := s.core[ClaimId(f.a) := core.value]), pid, ClaimPrepared(f.allocation, f.a, f.receipt))
  }

  function TransferFor(a: Allocation, target: string): Transfer {
    Transfer(a.run, a.item, a.principal, a.grant, target, a.job, a.prompt, a.checkpointSha, Staged)
  }

  function RecordedTransfers(transfers: map<ContinuationId, Transfer>, a: Allocation, target: string): map<ContinuationId, Transfer> {
    if ClaimId(a) in transfers then transfers else transfers[ClaimId(a) := TransferFor(a, target)]
  }

  /** Neither another delivery of the continuation, nor another continuation of the job, nor,
      for an allocation that is published, a successor that is open. */
  predicate CanRecord(s: State, x: string, a: Allocation) {
    && (if ClaimId(a) in s.transfers then s.transfers[ClaimId(a)].job == a.job else !JobTaken(s.transfers, a.job))
    && x in s.allocations
    && (OpenAllocation(s.allocations[x].state) || !HasOpenAllocation(s.allocations, s.allocations[x].owner, s.allocations[x].chat))
  }

  /** The state is set to CLAIMED whatever it was; the open index may refuse it. */
  function ClaimRecordStep(s: State, pid: nat): (r: State)
    ensures Advances(s.flights, r.flights, pid)
  {
    if pid !in s.flights || !s.flights[pid].ClaimPrepared? then s
    else
      var f := s.flights[pid];
      if !CanRecord(s, f.allocation, f.a) then Ended(s, pid)
      else
        Ended(s.(transfers := RecordedTransfers(s.transfers, f.a, f.receipt.conversation),
                 allocations := s.allocations[f.allocation := s.allocations[f.allocation].(state := Claimed)]), pid)
  }

  // ---------------------------------------------------------------- commit

  function CommitAuthorizeStep(s: State, pid: nat, id: ContinuationId, approved: bool, grant: Option<string>): (r: State)
    ensures r.allocations == s.allocations && r.transfers == s.transfers && Advances(s.flights, r.flights, pid)
  {
    if pid in s.flights || !approved || id !in s.transfers || grant != Some(s.transfers[id].grant) then s
    else With(s.(log := s.log + [Authorized(id, grant.value)]), pid, CommitAuthorized(id))
  }

  /** The receipt names this continuation's target and prompt and was attested for its run. */
  predicate ExactReceipt(s: State, id: ContinuationId)
  {
    && id in s.transfers && id in s.core
    && var t := s.transfers[id];
    && var r := ReceiptOf(s, t.job);
    && r.Some? && r.value.conversation == s.core[id].target && r.value.prompt == t.prompt
    && AttestedFor(s, t.job, id.owner, t.run, r.value)
  }

  /** reconcile_chat_continuation reads the binding and never rebinds. */
  function ReconcileStep(s: State, id: ContinuationId): (r: State)
    ensures r.allocations == s.allocations && r.flights == s.flights && r.core.Keys == s.core.Keys && r.transfers == s.transfers
  {
    var chat := ChatKey(id.owner, id.chat);
    if id !in s.core || chat !in s.binding || !(s.core[id].state == Rebinding || s.core[id].state == Uncertain) then s
    else if s.binding[chat] == s.core[id].target then
      s.(core := s.core[id := s.core[id].(state := Committed)], log := s.log + [BoundToTarget(id)])
    else s.(core := s.core[id := s.core[id].(state := Uncertain)])
  }

  /** commit asks for the status first: what it goes by is the core row as reconciled now. */
  function CommitStatusStep(s: State, pid: nat): (r: State)
    ensures r.allocations == s.allocations && r.transfers == s.transfers && Advances(s.flights, r.flights, pid)
  {
    if pid !in s.flights || !s.flights[pid].CommitAuthorized? then s
    else
      var id := s.flights[pid].id;
      if id !in s.core then Ended(s, pid)
      else With(ReconcileStep(s, id), pid, CommitSeen(id, ReconcileStep(s, id).core[id].state))
  }

  /** And the receipt of the delivery, exact and attested. A sent delivery never changes, so it
      makes no difference that it is read together with its attestation. */
  function CommitProveStep(s: State, pid: nat, browser: bool): (r: State)
    ensures r.allocations == s.allocations && r.transfers == s.transfers && Advances(s.flights, r.flights, pid)
  {
    if pid !in s.flights || !s.flights[pid].CommitSeen? then s
    else
      var f := s.flights[pid];
      if !browser || !ExactReceipt(s, f.id) then Ended(s, pid) else With(s, pid, CommitProven(f.id, f.seen))
  }

  /** The reads of commit_chat_continuation, unless the binding was seen committed. */
  function CommitLookStep(s: State, pid: nat, cp: Checkpoint): (r: State)
    ensures r.allocations == s.allocations && r.transfers == s.transfers && Advances(s.flights, r.flights, pid)
  {
    if pid !in s.flights || !s.flights[pid].CommitProven? || s.flights[pid].id !in s.core then s
    else
      var id, seen := s.flights[pid].id, s.flights[pid].seen;
      var row, current := s.core[id], Bound(s, ChatKey(id.owner, id.chat));
      if seen == Committed || (seen == Prepared && row.state == Committed && current == Some(row.target)) then
        With(s, pid, CommitDone(id))
      else if seen == Prepared && row.state == Prepared && current == Some(row.source) && cp.id == row.checkpoint then
        With(s, pid, CommitLooked(id))
      else Ended(s, pid)
  }

  /** The transition to REBINDING, which a second commit may find made already. */
  function CommitBeginStep(s: State, pid: nat): (r: State)
    ensures r.allocations == s.allocations && r.transfers == s.transfers && Advances(s.flights, r.flights, pid)
  {
    if pid !in s.flights || !s.flights[pid].CommitLooked? || s.flights[pid].id !in s.core then s
    else
      var id := s.flights[pid].id;
      if s.core[id].state != Prepared && s.core[id].state != Rebinding then Ended(s, pid)
      else With(s.(core := s.core[id := s.core[id].(state := Rebinding)]), pid, CommitRebinding(id))
  }

  function CommitRebindStep(s: State, pid: nat): (r: State)
    ensures r.allocations == s.allocations && r.transfers == s.transfers && Advances(s.flights, r.flights, pid)
  {
    if pid !in s.flights || !s.flights[pid].CommitRebinding? || s.flights[pid].id !in s.core then s
    else
      var id := s.flights[pid].id;
      var row, chat := s.core[id], ChatKey(id.owner, id.chat);
      if chat !in s.binding || s.binding[chat] != row.source then With(s, pid, CommitFailed(id))
      else With(s.(binding := s.binding[chat := row.target], log := s.log + [BoundToTarget(id)]), pid, CommitRebound(id))
  }

  /** The transition out of REBINDING, to COMMITTED or UNCERTAIN; it expects REBINDING, or the
      new state already. */
  function CommitSettleStep(s: State, pid: nat): (r: State)
    ensures r.allocations == s.allocations && r.transfers == s.transfers && Advances(s.flights, r.flights, pid)
  {
    if pid !in s.flights || !(s.flights[pid].CommitRebound? || s.flights[pid].CommitFailed?) || s.flights[pid].id !in s.core then s
    else
      var f := s.flights[pid];
      var row := s.core[f.id];
      var next := if f.CommitRebound? then Committed else Uncertain;
      if row.state != Rebinding && row.state != next then Ended(s, pid)
      else
        var t := s.(core := s.core[f.id := row.(state := next)]);
        if f.CommitRebound? then With(t, pid, CommitDone(f.id)) else Ended(t, pid)
  }

  function PublishAllocations(allocations: map<string, Allocation>, owner: string, job: JobId): map<string, Allocation> {
    map x | x in allocations ::
      if allocations[x].owner == owner && allocations[x].job == job && allocations[x].state == Claimed
      then allocations[x].(state := AllocationPublished) else allocations[x]
  }

  function CommitPublishStep(s: State, pid: nat): (r: State)
    ensures Advances(s.flights, r.flights, pid)
  {
    if pid !in s.flights || !s.flights[pid].CommitDone? || s.flights[pid].id !in s.transfers then s
    else
      var id := s.flights[pid].id;
      var t := s.transfers[id];
      Ended(s.(transfers := s.transfers[id := t.(stage := Published)],
               allocations := PublishAllocations(s.allocations, id.owner, t.job)), pid)
  }

  // ---------------------------------------------------------------- the surroundings

  function CancelStep(s: State, id: ContinuationId): (r: State)
    ensures r.allocations == s.allocations && r.flights == s.flights && r.transfers == s.transfers
  {
    var chat := ChatKey(id.owner, id.chat);
    if id !in s.core || chat !in s.binding || s.binding[chat] != s.core[id].source
       || !(s.core[id].state == Prepared || s.core[id].state == Uncertain) then s
    else s.(core := s.core[id := s.core[id].(state := Cancelled)])
  }

  /** A sent delivery keeps its receipt; any other may change state. */
  function RelayMovesStep(s: State, job: JobId, state: DeliveryState): (r: State)
    ensures r.allocations == s.allocations && r.flights == s.flights && r.transfers == s.transfers
  {
    if job !in s.jobs || s.jobs[job].state == Sent || state == Sent then s
    else s.(jobs := s.jobs[job := s.jobs[job].(state := state)])
  }

  function RelayReceiptStep(s: State, job: JobId, receipt: Receipt): (r: State)
    ensures r.allocations == s.allocations && r.flights == s.flights && r.transfers == s.transfers
  {
    if job !in s.jobs || s.jobs[job].state == NotSent || s.jobs[job].state == Sent || receipt.prompt != s.jobs[job].prompt
       || (s.jobs[job].target.Some? && s.jobs[job].target.value != receipt.conversation) then s
    else s.(jobs := s.jobs[job := s.jobs[job].(state := Sent, receipt := Some(receipt))])
  }

  function AttestStep(s: State, job: JobId, owner: string, run: string): (r: State)
    ensures r.allocations == s.allocations && r.flights == s.flights && r.transfers == s.transfers
  {
    if job in s.attested || ReceiptOf(s, job).None? then s
    else s.(attested := s.attested[job := Attestation(owner, run, ReceiptOf(s, job).value)])
  }

  function ForeignSubmitStep(s: State, key: TaskId, name: string, prompt: string, target: Option<string>): (r: State)
    ensures r.allocations == s.allocations && r.flights == s.flights && r.transfers == s.transfers
  {
    if key in s.keys || Foreign(name) in s.jobs then s
    else s.(keys := s.keys[key := Foreign(name)], jobs := s.jobs[Foreign(name) := Delivery(prompt, target, NotSent, None)])
  }

  function StageStep(s: State, e: Event): State {
    match e
    case StagePrepare(pid, req, target, cp, grant) => StagePrepareStep(s, pid, req, target, cp, grant)
    case StageInsert(pid) => StageInsertStep(s, pid)
    case StageCheck(pid) => StageCheckStep(s, pid)
    case StageSubmit(pid) => StageSubmitStep(s, pid)
    case _ => s
  }

  function TargetStep(s: State, e: Event): State {
    match e
    case TargetInsert(pid, req, cp, grant) => TargetInsertStep(s, pid, req, cp, grant)
    case TargetCheck(pid) => TargetCheckStep(s, pid)
    case TargetSubmit(pid) => TargetSubmitStep(s, pid)
    case _ => s
  }

  function ClaimStep(s: State, e: Event): State {
    match e
    case ClaimAuthorize(pid, x, cp, grant) => ClaimAuthorizeStep(s, pid, x, cp, grant)
    case ClaimProve(pid, browser) => ClaimProveStep(s, pid, browser)
    case ClaimPrepare(pid, cp) => ClaimPrepareStep(s, pid, cp)
    case ClaimRecord(pid) => ClaimRecordStep(s, pid)
    case _ => s
  }

  function CommitStep(s: State, e: Event): State {
    match e
    case CommitAuthorize(pid, id, approved, grant) => CommitAuthorizeStep(s, pid, id, approved, grant)
    case CommitStatus(pid) => CommitStatusStep(s, pid)
    case CommitProve(pid, browser) => CommitProveStep(s, pid, browser)
    case CommitLook(pid, cp) => CommitLookStep(s, pid, cp)
    case CommitBegin(pid) => CommitBeginStep(s, pid)
    case CommitRebind(pid) => CommitRebindStep(s, pid)
    case CommitSettle(pid) => CommitSettleStep(s, pid)
    case CommitPublish(pid) => CommitPublishStep(s, pid)
    case _ => s
  }

  function OutsideStep(s: State, e: Event): State {
    match e
    case Reconcile(id) => ReconcileStep(s, id)
    case Cancel(id) => CancelStep(s, id)
    case Rebound(chat, conversation) => s.(binding := s.binding[chat := conversation])
    case RelayMoves(job, state) => RelayMovesStep(s, job, state)
    case RelayReceipt(job, receipt) => RelayReceiptStep(s, job, receipt)
    case Attest(job, owner, run) => AttestStep(s, job, owner, run)
    case ForeignSubmit(key, name, prompt, target) => ForeignSubmitStep(s, key, name, prompt, target)
    case Die(pid) => Ended(s, pid)
    case Crash => s.(flights := map[])
    case _ => s
  }

  predicate StageEvent(e: Event) {
    e.StagePrepare? || e.StageInsert? || e.StageCheck? || e.StageSubmit?
  }

  predicate TargetEvent(e: Event) {
    e.TargetInsert? || e.TargetCheck? || e.TargetSubmit?
  }

  predicate ClaimEvent(e: Event) {
    e.ClaimAuthorize? || e.ClaimProve? || e.ClaimPrepare? || e.ClaimRecord?
  }

  predicate CommitEvent(e: Event) {
    e.CommitAuthorize? || e.CommitStatus? || e.CommitProve? || e.CommitLook? || e.CommitBegin? || e.CommitRebind? || e.CommitSettle?
    || e.CommitPublish?
  }

  /** Steps that belong to no request of this module. */
  predicate OfNobody(e: Event) {
    e.Reconcile? || e.Cancel? || e.Rebound? || e.RelayMoves? || e.RelayReceipt? || e.Attest? || e.ForeignSubmit?
  }

  function Step(s: State, e: Event): State {
    if StageEvent(e) then StageStep(s, e)
    else if TargetEvent(e) then TargetStep(s, e)
    else if ClaimEvent(e) then ClaimStep(s, e)
    else if CommitEvent(e) then CommitStep(s, e)
    else OutsideStep(s, e)
  }

  /** Any number of steps in any order. */
  function Run(s: State, events: seq<Event>): State
    decreases |events|
  {
    if events == [] then s else Run(Step(s, events[0]), events[1..])
  }
}
