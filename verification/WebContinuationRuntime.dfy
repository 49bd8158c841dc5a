/** The methods of native_bridge/continuation_web.py as they run on the tables: one method per
    transaction, relay call or control plane call, each proved to be the corresponding step. */
module WebContinuationRuntime {
  import opened Basics
  import opened WebContinuation
  import opened WebContinuationSafety

  datatype Outcome = Proceeds | Conflict | Refused | Done

  /** The row a staging asks for. */
  function RowFor(req: Request, target: string, cp: Checkpoint, grant: string): Transfer {
    Transfer(req.run, req.item, req.principal, grant, target, JobFor(Continuation(ContinuationId(req.owner, req.chat, req.key))),
             "SENTRA continuation context (read-only):\n\n" + req.summary, cp.sha, Staged)
  }

  /** The row an allocation asks for. */
  function AllocationFor(req: Request, cp: Checkpoint, grant: string): Allocation {
    Allocation(req.owner, req.run, req.chat, req.item, req.principal, grant, cp.id, cp.sha, req.key,
               JobFor(Target(req.owner + "|" + req.run + "|" + req.chat + "|" + req.key)),
               "SENTRA continuation context (read-only):\n\n" + req.summary, Allocating)
  }

  /** What prepare_chat_continuation asks for: the checkpoint was taken in the conversation the
      chat is bound to, the target is another one, and the row of the key is the one asked for
      or, if there is none, no other continuation of the chat is unresolved. */
  predicate Preparable(s: State, id: ContinuationId, run: string, cp: Checkpoint, target: string) {
    var chat := ChatKey(id.owner, id.chat);
    && chat in s.binding && s.binding[chat] != "" && cp.conversation == Some(s.binding[chat]) && target != s.binding[chat]
    && (id in s.core ==> s.core[id] == CoreRow(run, cp.id, s.binding[chat], target, s.core[id].state))
    && (id !in s.core ==>
          && cp.run == run
          && forall other :: other in s.core && other.owner == id.owner && other.chat == id.chat ==>
               s.core[other].state == Committed || s.core[other].state == Cancelled)
  }

  /** The message of a job was sent with this prompt, and its receipt attested for this run. */
  predicate Receives(s: State, job: JobId, owner: string, run: string, prompt: string, receipt: Receipt) {
    && job in s.jobs && s.jobs[job].state == Sent && s.jobs[job].receipt == Some(receipt) && receipt.prompt == prompt
    && job in s.attested && s.attested[job] == Attestation(owner, run, receipt)
  }

  /** The receipt of a continuation is of its own job and prompt, in the target conversation. */
  predicate ReachedTarget(s: State, id: ContinuationId) {
    && id in s.transfers && id in s.core && s.transfers[id].job in s.jobs && s.jobs[s.transfers[id].job].receipt.Some?
    && var receipt := s.jobs[s.transfers[id].job].receipt.value;
    && receipt.conversation == s.core[id].target
    && Receives(s, s.transfers[id].job, id.owner, s.transfers[id].run, s.transfers[id].prompt, receipt)
  }

  /** The receipt of a new chat is of its own job and prompt, in whatever conversation it names. */
  predicate ReachedNewChat(s: State, a: Allocation) {
    && a.job in s.jobs && s.jobs[a.job].receipt.Some? && s.jobs[a.job].receipt.value.conversation != ""
    && Receives(s, a.job, a.owner, a.run, a.prompt, s.jobs[a.job].receipt.value)
  }

  /** A reconciliation settles a row that was being rebound by where its chat is now. */
  function Reconciled(s: State, id: ContinuationId): (r: State)
    ensures r == s.(core := r.core, log := r.log) && r.core.Keys == s.core.Keys
  {
    var chat := ChatKey(id.owner, id.chat);
    if id !in s.core || chat !in s.binding || (s.core[id].state != Rebinding && s.core[id].state != Uncertain) then s
    else if s.binding[chat] == s.core[id].target then
      s.(core := s.core[id := s.core[id].(state := Committed)], log := s.log + [BoundToTarget(id)])
    else s.(core := s.core[id := s.core[id].(state := Uncertain)])
  }

  /** The request of stage is approved and complete. */
  predicate AsksToStage(req: Request, target: Option<string>, cp: Checkpoint, grant: Option<string>) {
    req.approved && cp.summary == req.summary && 1 <= |req.summary| <= 16000 && 1 <= |req.key| <= 128 && target.Some? && grant.Some?
  }

  /** The request of allocate_new_target is approved and complete, and its checkpoint was taken
      in the conversation the chat is bound to. */
  predicate AsksToAllocate(s: State, req: Request, cp: Checkpoint, grant: Option<string>) {
    && req.approved && cp.summary == req.summary && 1 <= |req.summary| <= 16000 && 1 <= |req.key| <= 128 && grant.Some?
    && cp.conversation == if ChatKey(req.owner, req.chat) in s.binding then Some(s.binding[ChatKey(req.owner, req.chat)]) else None
  }

  predicate Allocatable(s: State, req: Request, cp: Checkpoint, grant: Option<string>) {
    var x := req.owner + "|" + req.run + "|" + req.chat + "|" + req.key;
    && AsksToAllocate(s, req, cp, grant)
    && (if x in s.allocations then s.allocations[x] == AllocationFor(req, cp, grant.value)
        else forall other :: other in s.allocations && s.allocations[other].owner == req.owner && s.allocations[other].chat == req.chat ==>
               s.allocations[other].state == AllocationPublished && s.allocations[other].key != req.key)
    && !Unsettled(s, JobFor(Target(x))) && OwnKey(s, Target(x))
  }

  /** Nobody else holds the row or its job, and no earlier delivery of it awaits
      reconciliation. */
  predicate Deliverable(s: State, id: ContinuationId, row: Transfer) {
    && (if id in s.transfers then s.transfers[id].(stage := Staged) == row
        else forall other :: other in s.transfers ==> s.transfers[other].job != row.job)
    && !Unsettled(s, JobFor(Continuation(id))) && OwnKey(s, Continuation(id))
  }

  lemma SameQueue(s: State, t: State, task: TaskId)
    requires s.jobs == t.jobs && s.keys == t.keys
    ensures Unsettled(s, JobFor(task)) == Unsettled(t, JobFor(task)) && OwnKey(s, task) == OwnKey(t, task)
  {
  }

  lemma SameOutlook(s: State, t: State, id: ContinuationId, row: Transfer)
    requires s.jobs == t.jobs && s.keys == t.keys && s.transfers == t.transfers
    ensures Deliverable(s, id, row) == Deliverable(t, id, row)
  {
  }

  predicate Stageable(s: State, req: Request, target: Option<string>, cp: Checkpoint, grant: Option<string>) {
    var id := ContinuationId(req.owner, req.chat, req.key);
    && AsksToStage(req, target, cp, grant)
    && Preparable(s, id, req.run, cp, target.value) && (id in s.core ==> s.core[id].state == Prepared)
    && Deliverable(s, id, RowFor(req, target.value, cp, grant.value))
  }

  predicate SameChat(a: Allocation, b: Allocation) {
    a.owner == b.owner && a.chat == b.chat
  }

  /** The transfer of a claim can be recorded: the continuation has no other delivery, the job
      no other continuation, and the allocation, if published, no successor that is open. */
  predicate Recordable(s: State, x: string, a: Allocation) {
    var id := ContinuationId(a.owner, a.chat, a.key);
    && x in s.allocations
    && (if id in s.transfers then s.transfers[id].job == a.job
        else forall other :: other in s.transfers ==> s.transfers[other].job != a.job)
    && (s.allocations[x].state == AllocationPublished ==>
          forall other :: other in s.allocations && SameChat(s.allocations[other], s.allocations[x]) ==>
            s.allocations[other].state == AllocationPublished)
  }

  /** All a claim left alone needs. */
  predicate ClaimsNow(s: State, x: string, cp: Checkpoint, grant: Option<string>, browser: bool) {
    && x in s.allocations && grant == Some(s.allocations[x].grant) && cp.id == s.allocations[x].checkpoint && browser
    && ReachedNewChat(s, s.allocations[x])
    && ClaimsProven(s, x, s.allocations[x], s.jobs[s.allocations[x].job].receipt.value, cp)
  }

  predicate ClaimsProven(s: State, x: string, a: Allocation, receipt: Receipt, cp: Checkpoint) {
    && cp.id == a.checkpoint && Preparable(s, ContinuationId(a.owner, a.chat, a.key), a.run, cp, receipt.conversation)
    && Recordable(s, x, a)
  }

  lemma SameClaim(s: State, t: State, x: string, a: Allocation)
    requires s.allocations == t.allocations && s.transfers == t.transfers
    ensures Recordable(s, x, a) == Recordable(t, x, a)
  {
  }

  lemma SamePreparation(s: State, t: State, id: ContinuationId, run: string, cp: Checkpoint, target: string)
    requires s.binding == t.binding && s.core == t.core
    ensures Preparable(s, id, run, cp, target) == Preparable(t, id, run, cp, target)
  {
  }

  lemma SameNewChat(s: State, t: State, a: Allocation)
    requires s.jobs == t.jobs && s.attested == t.attested
    ensures ReachedNewChat(s, a) == ReachedNewChat(t, a)
  {
  }

  lemma SameProof(s: State, t: State, x: string, a: Allocation, receipt: Receipt, cp: Checkpoint)
    requires s == t.(flights := s.flights)
    ensures ClaimsProven(s, x, a, receipt, cp) == ClaimsProven(t, x, a, receipt, cp)
  {
    hide Preparable, Recordable;
    SameClaim(s, t, x, a);
    SamePreparation(s, t, ContinuationId(a.owner, a.chat, a.key), a.run, cp, receipt.conversation);
  }

  /** All a commit left alone needs, of the tables as it reconciles them. */
  predicate CommitsNow(s: State, id: ContinuationId, approved: bool, grant: Option<string>, browser: bool, cp: Checkpoint) {
    && approved && id in s.transfers && grant == Some(s.transfers[id].grant) && id in s.core && browser
    && ReachedTarget(Reconciled(s, id), id) && Movable(Reconciled(s, id), id, cp)
  }

  /** The continuation is committed, or prepared with its chat and checkpoint as they were. */
  predicate Movable(s: State, id: ContinuationId, cp: Checkpoint) {
    var chat := ChatKey(id.owner, id.chat);
    id in s.core &&
    (s.core[id].state == Committed
     || (s.core[id].state == Prepared && chat in s.binding && s.binding[chat] == s.core[id].source && cp.id == s.core[id].checkpoint))
  }

  lemma SameTarget(s: State, t: State, id: ContinuationId)
    requires s.transfers == t.transfers && s.core == t.core && s.jobs == t.jobs && s.attested == t.attested
    ensures ReachedTarget(s, id) == ReachedTarget(t, id)
  {
  }

  lemma SameMove(s: State, t: State, id: ContinuationId, cp: Checkpoint)
    requires s.core == t.core && s.binding == t.binding
    ensures Movable(s, id, cp) == Movable(t, id, cp)
  {
  }

  /** Reconciling reads and writes nothing of what requests hold, and keeps the rows. */
  lemma ReconcilesAlike(s: State, t: State, id: ContinuationId)
    requires t == s.(flights := t.flights, log := t.log)
    ensures Reconciled(t, id).core == Reconciled(s, id).core
  {
  }

  /** A job is awaiting its reconciliation. */
  predicate Unsettled(s: State, job: JobId) {
    job in s.jobs && s.jobs[job].state == Unconfirmed
  }

  /** The tables after a job was given to the relay, unless its delivery key was known or its
      name taken. */
  function Queued(s: State, task: TaskId, prompt: string, target: Option<string>): State {
    if task in s.keys || JobFor(task) in s.jobs then s
    else s.(keys := s.keys[task := JobFor(task)], jobs := s.jobs[JobFor(task) := Delivery(prompt, target, NotSent, None)],
            log := s.log + [Submitted(JobFor(task))])
  }

  /** Whether the delivery key of a task is, or can become, that of its own job. */
  predicate OwnKey(s: State, task: TaskId) {
    if task in s.keys then s.keys[task] == JobFor(task) else JobFor(task) !in s.jobs
  }

  lemma RowIsStaged(req: Request, target: string, cp: Checkpoint, grant: string)
    ensures RowFor(req, target, cp, grant).(stage := Staged) == RowFor(req, target, cp, grant)
  {
  }

  class ContinuationRuntime {
    var transfers: map<ContinuationId, Transfer>   // web_continuation_transfers
    var allocations: map<string, Allocation>       // web_target_allocations
    var core: map<ContinuationId, CoreRow>         // session_continuations
    var binding: map<ChatKey, string>              // the chats' conversations
    var keys: map<TaskId, JobId>                   // web_deliveries by delivery key
    var jobs: map<JobId, Delivery>                 // web_deliveries by job
    var attested: map<JobId, Attestation>          // authenticated_web_receipts
    var flights: map<nat, Flight>
    ghost var log: seq<Audit>

    ghost function Tables(): State
      reads this
    {
      State(transfers, allocations, core, binding, keys, jobs, attested, flights, log)
    }

    constructor ()
      ensures Tables() == Init
    {
      transfers, allocations, core, binding, keys, jobs, attested, flights, log :=
        map[], map[], map[], map[], map[], map[], map[], map[], [];
    }

    /** prepare_chat_continuation with its one row. */
    method PrepareCore(id: ContinuationId, run: string, cp: Checkpoint, target: string) returns (r: Option<CoreRow>)
      modifies this`core
      ensures r == PreparedCore(old(Tables()), id, run, cp, target)
      ensures r.Some? <==> Preparable(old(Tables()), id, run, cp, target)
      ensures r.Some? ==> r.value == CoreRow(run, cp.id, binding[ChatKey(id.owner, id.chat)], target,
                                             if id in old(core) then old(core)[id].state else Prepared)
      ensures core == if r.Some? then old(core)[id := r.value] else old(core)
    {
      var chat := ChatKey(id.owner, id.chat);
      if chat !in binding || binding[chat] == "" || cp.conversation != Some(binding[chat]) || target == binding[chat] {
        return None;
      }
      if id in core {
        var row := core[id];
        if row.run != run || row.checkpoint != cp.id || row.source != binding[chat] || row.target != target {
          return None;
        }
        core := core[id := row];
        return Some(row);
      }
      if cp.run != run || HasOpen(core, id.owner, id.chat) {
        return None;
      }
      var row := CoreRow(run, cp.id, binding[chat], target, Prepared);
      core := core[id := row];
      return Some(row);
    }

    method StagePrepare(pid: nat, req: Request, target: Option<string>, cp: Checkpoint, grant: Option<string>) returns (r: Outcome)
      requires pid !in flights
      modifies this
      ensures Tables() == Step(old(Tables()), Event.StagePrepare(pid, req, target, cp, grant))
      ensures r == Refused <==> !(req.approved && 1 <= |req.summary| <= 16000 && cp.summary == req.summary && 1 <= |req.key| <= 128
                                  && target.Some? && grant.Some?)
      ensures var id := ContinuationId(req.owner, req.chat, req.key);
        r != Refused ==>
          var fits := Preparable(old(Tables()), id, req.run, cp, target.value);
          && (r == Proceeds <==> fits && (id in old(core) ==> old(core)[id].state == Prepared))
          && (r == Proceeds ==>
                Tables() == old(Tables()).(
                  core := old(core)[id := CoreRow(req.run, cp.id, old(binding)[ChatKey(req.owner, req.chat)], target.value, Prepared)],
                  flights := old(flights)[pid := StagePrepared(id, RowFor(req, target.value, cp, grant.value))]))
      ensures r != Proceeds ==> Tables() == old(Tables())
      ensures r != Done
    {
      if !WellFormed(req, cp) || target.None? || grant.None? {
        return Refused;
      }
      var id := ContinuationId(req.owner, req.chat, req.key);
      var row := PrepareCore(id, req.run, cp, target.value);
      if row.None? || row.value.state != Prepared {
        return Conflict;
      }
      flights := flights[pid := StagePrepared(id, Transfer(req.run, req.item, req.principal, grant.value, target.value,
                                                           JobFor(Continuation(id)), PREAMBLE + req.summary, cp.sha, Staged))];
      return Proceeds;
    }

    method StageInsert(pid: nat) returns (r: Outcome)
      requires pid in flights && flights[pid].StagePrepared?
      modifies this
      ensures Tables() == Step(old(Tables()), Event.StageInsert(pid))
      ensures var f := old(flights)[pid];
        var clash := if f.id in old(transfers) then old(transfers)[f.id].(stage := Staged) != f.row
                     else exists other :: other in old(transfers) && old(transfers)[other].job == f.row.job;
        && r == (if clash then Conflict else Proceeds)
        && Tables() == if clash then old(Tables()).(flights := old(flights) - {pid})
                       else old(Tables()).(transfers := if f.id in old(transfers) then old(transfers) else old(transfers)[f.id := f.row],
                                           flights := old(flights)[pid := StageInserted(f.id)])
    {
      var f := flights[pid];
      if f.id in transfers {
        if transfers[f.id].(stage := Staged) != f.row {
          flights := flights - {pid};
          return Conflict;
        }
      } else {
        if JobTaken(transfers, f.row.job) {
          flights := flights - {pid};
          return Conflict;
        }
        transfers := transfers[f.id := f.row];
      }
      flights := flights[pid := StageInserted(f.id)];
      return Proceeds;
    }

    method StageCheck(pid: nat) returns (r: Outcome)
      requires pid in flights && flights[pid].StageInserted?
      modifies this
      ensures Tables() == Step(old(Tables()), Event.StageCheck(pid))
      ensures var id := old(flights)[pid].id;
        var wait := Unsettled(old(Tables()), JobFor(Continuation(id)));
        && r == (if wait then Conflict else Proceeds)
        && Tables() == old(Tables()).(flights := if wait then old(flights) - {pid} else old(flights)[pid := StageChecked(id)])
    {
      var f := flights[pid];
      var job := JobFor(Continuation(f.id));
      if job in jobs && jobs[job].state == Unconfirmed {
        flights := flights - {pid};
        return Conflict;
      }
      flights := flights[pid := StageChecked(f.id)];
      return Proceeds;
    }

    /** JobStore.submit. A delivery key that is known gives back the job it is known by. */
    method SubmitJob(task: TaskId, prompt: string, target: Option<string>) returns (job: Option<JobId>)
      modifies this`keys, this`jobs, this`log
      ensures Tables() == Submit(old(Tables()), task, prompt, target)
      ensures Tables() == Queued(old(Tables()), task, prompt, target)
      ensures job == if task in old(keys) then Some(old(keys)[task]) else if JobFor(task) in old(jobs) then None else Some(JobFor(task))
    {
      if task in keys {
        return Some(keys[task]);
      }
      if JobFor(task) in jobs {
        return None;
      }
      keys := keys[task := JobFor(task)];
      jobs := jobs[JobFor(task) := Delivery(prompt, target, NotSent, None)];
      log := log + [Submitted(JobFor(task))];
      return Some(JobFor(task));
    }

    method StageSubmit(pid: nat) returns (r: Outcome)
      requires pid in flights && flights[pid].StageChecked? && flights[pid].id in transfers
      modifies this
      ensures Tables() == Step(old(Tables()), Event.StageSubmit(pid))
      ensures var id := old(flights)[pid].id;
        && r == (if OwnKey(old(Tables()), Continuation(id)) then Done else Conflict)
        && (r == Done ==> Continuation(id) in keys && keys[Continuation(id)] == JobFor(Continuation(id)))
        && Tables() == Queued(old(Tables()), Continuation(id), transfers[id].prompt, Some(transfers[id].target)).(
                         flights := old(flights) - {pid})
    {
      var id := flights[pid].id;
      var job := SubmitJob(Continuation(id), transfers[id].prompt, Some(transfers[id].target));
      flights := flights - {pid};
      return if job == Some(JobFor(Continuation(id))) then Done else Conflict;
    }

    method TargetInsert(pid: nat, req: Request, cp: Checkpoint, grant: Option<string>) returns (r: Outcome)
      requires pid !in flights
      modifies this
      ensures Tables() == Step(old(Tables()), Event.TargetInsert(pid, req, cp, grant))
      ensures r == Refused <==> !(req.approved && 1 <= |req.summary| <= 16000 && cp.summary == req.summary && 1 <= |req.key| <= 128
                                  && grant.Some?
                                  && cp.conversation == if ChatKey(req.owner, req.chat) in binding
                                                        then Some(binding[ChatKey(req.owner, req.chat)]) else None)
      ensures var x := req.owner + "|" + req.run + "|" + req.chat + "|" + req.key;
        r != Refused ==>
          var row := AllocationFor(req, cp, grant.value);
          && (r == Conflict <==> if x in old(allocations) then old(allocations)[x] != row
                                 else exists other :: other in old(allocations)
                                        && old(allocations)[other].owner == req.owner && old(allocations)[other].chat == req.chat
                                        && (old(allocations)[other].state != AllocationPublished || old(allocations)[other].key == req.key))
          && (r == Proceeds ==>
                Tables() == old(Tables()).(allocations := old(allocations)[x := row], flights := old(flights)[pid := TargetInserted(x)]))
      ensures r != Proceeds ==> Tables() == old(Tables())
      ensures r != Done
    {
      var chat := ChatKey(req.owner, req.chat);
      if !WellFormed(req, cp) || grant.None? || cp.conversation != (if chat in binding then Some(binding[chat]) else None) {
        return Refused;
      }
      var x, row := AllocationId(req.owner, req.run, req.chat, req.key), NewAllocation(req, cp, grant.value);
      if x in allocations {
        if allocations[x] != row {
          return Conflict;
        }
      } else {
        if HasOpenAllocation(allocations, req.owner, req.chat) || AllocationKeyTaken(allocations, req.owner, req.chat, req.key) {
          return Conflict;
        }
        allocations := allocations[x := row];
      }
      flights := flights[pid := TargetInserted(x)];
      return Proceeds;
    }

    method TargetCheck(pid: nat) returns (r: Outcome)
      requires pid in flights && flights[pid].TargetInserted?
      modifies this
      ensures Tables() == Step(old(Tables()), Event.TargetCheck(pid))
      ensures var x := old(flights)[pid].allocation;
        var wait := Unsettled(old(Tables()), JobFor(Target(x)));
        && r == (if wait then Conflict else Proceeds)
        && Tables() == old(Tables()).(flights := if wait then old(flights) - {pid} else old(flights)[pid := TargetChecked(x)])
    {
      var x := flights[pid].allocation;
      var job := JobFor(Target(x));
      if job in jobs && jobs[job].state == Unconfirmed {
        flights := flights - {pid};
        return Conflict;
      }
      flights := flights[pid := TargetChecked(x)];
      return Proceeds;
    }

    method TargetSubmit(pid: nat) returns (r: Outcome)
      requires pid in flights && flights[pid].TargetChecked? && flights[pid].allocation in allocations
      modifies this
      ensures Tables() == Step(old(Tables()), Event.TargetSubmit(pid))
      ensures var x := old(flights)[pid].allocation;
        && r == (if OwnKey(old(Tables()), Target(x)) then Done else Conflict)
        && (r == Done ==> Target(x) in keys && keys[Target(x)] == JobFor(Target(x)))
        && Tables() == Queued(old(Tables()), Target(x), allocations[x].prompt, None).(flights := old(flights) - {pid})
    {
      var x := flights[pid].allocation;
      var job := SubmitJob(Target(x), allocations[x].prompt, None);
      flights := flights - {pid};
      return if job == Some(JobFor(Target(x))) then Done else Conflict;
    }

    method ClaimAuthorize(pid: nat, x: string, cp: Checkpoint, grant: Option<string>) returns (r: Outcome)
      requires pid !in flights
      modifies this
      ensures Tables() == Step(old(Tables()), Event.ClaimAuthorize(pid, x, cp, grant))
      ensures r == Proceeds <==> x in allocations && grant == Some(allocations[x].grant) && cp.id == allocations[x].checkpoint
      ensures Tables() == if r == Proceeds then old(Tables()).(flights := old(flights)[pid := ClaimAuthorized(x, allocations[x])])
                          else old(Tables())
    {
      if x !in allocations || grant != Some(allocations[x].grant) || cp.id != allocations[x].checkpoint {
        return Refused;
      }
      flights := flights[pid := ClaimAuthorized(x, allocations[x])];
      return Proceeds;
    }

    /** The exact and attested receipt of the new chat. */
    method ClaimProve(pid: nat, browser: bool) returns (r: Outcome)
      requires pid in flights && flights[pid].ClaimAuthorized?
      modifies this
      ensures Tables() == Step(old(Tables()), Event.ClaimProve(pid, browser))
      ensures var f := old(flights)[pid];
        && (r == Proceeds <==> browser && ReachedNewChat(old(Tables()), f.a))
        && Tables() == old(Tables()).(
             flights := if r == Proceeds then old(flights)[pid := ClaimProven(f.allocation, f.a, jobs[f.a.job].receipt.value)]
                        else old(flights) - {pid})
    {
      var f := flights[pid];
      if browser && f.a.job in jobs && jobs[f.a.job].state == Sent && jobs[f.a.job].receipt.Some? && f.a.job in attested {
        var receipt := jobs[f.a.job].receipt.value;
        if receipt.prompt == f.a.prompt && receipt.conversation != ""
           && attested[f.a.job] == Attestation(f.a.owner, f.a.run, receipt) {
          flights := flights[pid := ClaimProven(f.allocation, f.a, receipt)];
          return Proceeds;
        }
      }
      flights := flights - {pid};
      return Refused;
    }

    method ClaimPrepare(pid: nat, cp: Checkpoint) returns (r: Outcome)
      requires pid in flights && flights[pid].ClaimProven?
      modifies this
      ensures Tables() == Step(old(Tables()), Event.ClaimPrepare(pid, cp))
      ensures var f := old(flights)[pid];
        var id := ContinuationId(f.a.owner, f.a.chat, f.a.key);
        && (r == Proceeds <==> cp.id == f.a.checkpoint && Preparable(old(Tables()), id, f.a.run, cp, f.receipt.conversation))
        && (r == Proceeds ==> ChatKey(f.a.owner, f.a.chat) in old(binding))
        && Tables() == if r == Proceeds
                       then old(Tables()).(
                              core := old(core)[id := CoreRow(f.a.run, cp.id, old(binding)[ChatKey(f.a.owner, f.a.chat)],
                                                              f.receipt.conversation,
                                                              if id in old(core) then old(core)[id].state else Prepared)],
                              flights := old(flights)[pid := ClaimPrepared(f.allocation, f.a, f.receipt)])
                       else old(Tables()).(flights := old(flights) - {pid})
    {
      var f := flights[pid];
      if cp.id == f.a.checkpoint {
        var row := PrepareCore(ClaimId(f.a), f.a.run, cp, f.receipt.conversation);
        if row.Some? {
          flights := flights[pid := ClaimPrepared(f.allocation, f.a, f.receipt)];
          return Proceeds;
        }
      }
      flights := flights - {pid};
      return Conflict;
    }

    method ClaimRecord(pid: nat) returns (r: Outcome)
      requires pid in flights && flights[pid].ClaimPrepared? && flights[pid].allocation in allocations
      modifies this
      ensures Tables() == Step(old(Tables()), Event.ClaimRecord(pid))
      ensures var f := old(flights)[pid];
        var id := ContinuationId(f.a.owner, f.a.chat, f.a.key);
        var a := old(allocations)[f.allocation];
        && r == (if Recordable(old(Tables()), f.allocation, f.a) then Done else Conflict)
        && (r == Done ==> id in transfers && transfers[id].job == f.a.job)
        && Tables() == if r == Conflict then old(Tables()).(flights := old(flights) - {pid})
                       else old(Tables()).(
                              transfers := if id in old(transfers) then old(transfers)
                                           else old(transfers)[id := Transfer(f.a.run, f.a.item, f.a.principal, f.a.grant,
                                                  f.receipt.conversation, f.a.job, f.a.prompt, f.a.checkpointSha, Staged)],
                              allocations := old(allocations)[f.allocation := a.(state := Claimed)],
                              flights := old(flights) - {pid})
    {
      var f := flights[pid];
      var id, a := ClaimId(f.a), allocations[f.allocation];
      flights := flights - {pid};
      if id in transfers && transfers[id].job != f.a.job {
        return Conflict;
      }
      if id !in transfers && JobTaken(transfers, f.a.job) {
        return Conflict;
      }
      if !OpenAllocation(a.state) && HasOpenAllocation(allocations, a.owner, a.chat) {
        return Conflict;
      }
      if id !in transfers {
        transfers := transfers[id := TransferFor(f.a, f.receipt.conversation)];
      }
      allocations := allocations[f.allocation := a.(state := Claimed)];
      return Done;
    }

    method CommitAuthorize(pid: nat, id: ContinuationId, approved: bool, grant: Option<string>) returns (r: Outcome)
      requires pid !in flights
      modifies this
      ensures Tables() == Step(old(Tables()), Event.CommitAuthorize(pid, id, approved, grant))
      ensures r == Proceeds <==> approved && id in transfers && grant == Some(transfers[id].grant)
      ensures Tables() == if r == Proceeds
                          then old(Tables()).(log := old(log) + [Authorized(id, grant.value)],
                                              flights := old(flights)[pid := CommitAuthorized(id)])
                          else old(Tables())
    {
      if !approved || id !in transfers || grant != Some(transfers[id].grant) {
        return Refused;
      }
      log := log + [Authorized(id, grant.value)];
      flights := flights[pid := CommitAuthorized(id)];
      return Proceeds;
    }

    /** The first half of the status: the core row as reconciled now. */
    method CommitStatus(pid: nat) returns (r: Outcome)
      requires pid in flights && flights[pid].CommitAuthorized?
      modifies this
      ensures Tables() == Step(old(Tables()), Event.CommitStatus(pid))
      ensures var id := old(flights)[pid].id;
        && r == (if id in old(core) then Proceeds else Refused)
        && Tables() == Reconciled(old(Tables()), id).(
                         flights := if r == Proceeds then old(flights)[pid := CommitSeen(id, core[id].state)] else old(flights) - {pid})
    {
      var id := flights[pid].id;
      var seen := Reconcile(id);
      if seen.None? {
        flights := flights - {pid};
        return Refused;
      }
      flights := flights[pid := CommitSeen(id, seen.value)];
      return Proceeds;
    }

    /** The second half: the exact and attested receipt. */
    method CommitProve(pid: nat, browser: bool) returns (r: Outcome)
      requires pid in flights && flights[pid].CommitSeen?
      modifies this
      ensures Tables() == Step(old(Tables()), Event.CommitProve(pid, browser))
      ensures var f := old(flights)[pid];
        && (r == Proceeds <==> browser && ReachedTarget(old(Tables()), f.id))
        && Tables() == old(Tables()).(flights := if r == Proceeds then old(flights)[pid := CommitProven(f.id, f.seen)]
                                                 else old(flights) - {pid})
    {
      var f := flights[pid];
      var id := f.id;
      if browser && id in transfers && id in core && transfers[id].job in jobs && transfers[id].job in attested {
        var t, d := transfers[id], jobs[transfers[id].job];
        if d.state == Sent && d.receipt.Some? && d.receipt.value.conversation == core[id].target
           && d.receipt.value.prompt == t.prompt && attested[t.job] == Attestation(id.owner, t.run, d.receipt.value) {
          flights := flights[pid := CommitProven(id, f.seen)];
          return Proceeds;
        }
      }
      flights := flights - {pid};
      return Refused;
    }

    method CommitLook(pid: nat, cp: Checkpoint) returns (r: Outcome)
      requires pid in flights && flights[pid].CommitProven? && flights[pid].id in core
      modifies this
      ensures Tables() == Step(old(Tables()), Event.CommitLook(pid, cp))
      ensures var f, id := old(flights)[pid], old(flights)[pid].id;
        var row, chat := old(core)[id], ChatKey(id.owner, id.chat);
        var current := if chat in binding then Some(binding[chat]) else None;
        && (r == Done <==> f.seen == Committed || (f.seen == Prepared && row.state == Committed && current == Some(row.target)))
        && (r == Proceeds <==> f.seen == Prepared && row.state == Prepared && current == Some(row.source) && cp.id == row.checkpoint)
        && Tables() == old(Tables()).(flights := match r
                                                 case Done => old(flights)[pid := CommitDone(id)]
                                                 case Proceeds => old(flights)[pid := CommitLooked(id)]
                                                 case _ => old(flights) - {pid})
    {
      var id, seen := flights[pid].id, flights[pid].seen;
      var row, chat := core[id], ChatKey(id.owner, id.chat);
      var current := if chat in binding then Some(binding[chat]) else None;
      if seen == Committed {
        flights := flights[pid := CommitDone(id)];
        return Done;
      }
      if seen == Prepared && row.state == Committed && current == Some(row.target) {
        flights := flights[pid := CommitDone(id)];
        return Done;
      }
      if seen == Prepared && row.state == Prepared && current == Some(row.source) && cp.id == row.checkpoint {
        flights := flights[pid := CommitLooked(id)];
        return Proceeds;
      }
      flights := flights - {pid};
      return Conflict;
    }

    method CommitBegin(pid: nat) returns (r: Outcome)
      requires pid in flights && flights[pid].CommitLooked? && flights[pid].id in core
      modifies this
      ensures Tables() == Step(old(Tables()), Event.CommitBegin(pid))
      ensures var id := old(flights)[pid].id;
        var before := old(core)[id].state;
        && r == (if before == Prepared || before == Rebinding then Proceeds else Conflict)
        && Tables() == if r == Proceeds
                       then old(Tables()).(core := old(core)[id := old(core)[id].(state := Rebinding)],
                                           flights := old(flights)[pid := CommitRebinding(id)])
                       else old(Tables()).(flights := old(flights) - {pid})
    {
      var id := flights[pid].id;
      if core[id].state != Prepared && core[id].state != Rebinding {
        flights := flights - {pid};
        return Conflict;
      }
      core := core[id := core[id].(state := Rebinding)];
      flights := flights[pid := CommitRebinding(id)];
      return Proceeds;
    }

    /** durable.rebind_chat, which compares before it sets. */
    method CommitRebind(pid: nat) returns (r: Outcome)
      requires pid in flights && flights[pid].CommitRebinding? && flights[pid].id in core
      modifies this
      ensures Tables() == Step(old(Tables()), Event.CommitRebind(pid))
      ensures var id := old(flights)[pid].id;
        var chat := ChatKey(id.owner, id.chat);
        && r == (if chat in old(binding) && old(binding)[chat] == core[id].source then Proceeds else Conflict)
        && Tables() == if r == Proceeds
                       then old(Tables()).(binding := old(binding)[chat := core[id].target], log := old(log) + [BoundToTarget(id)],
                                           flights := old(flights)[pid := CommitRebound(id)])
                       else old(Tables()).(flights := old(flights)[pid := CommitFailed(id)])
    {
      var id := flights[pid].id;
      var row, chat := core[id], ChatKey(id.owner, id.chat);
      if chat !in binding || binding[chat] != row.source {
        flights := flights[pid := CommitFailed(id)];
        return Conflict;
      }
      binding := binding[chat := row.target];
      log := log + [BoundToTarget(id)];
      flights := flights[pid := CommitRebound(id)];
      return Proceeds;
    }

    method CommitSettle(pid: nat) returns (r: Outcome)
      requires pid in flights && (flights[pid].CommitRebound? || flights[pid].CommitFailed?) && flights[pid].id in core
      modifies this
      ensures Tables() == Step(old(Tables()), Event.CommitSettle(pid))
      ensures var f, before := old(flights)[pid], old(core)[old(flights)[pid].id].state;
        var end := if f.CommitRebound? then Committed else Uncertain;
        var moves := before == Rebinding || before == end;
        && r == (if moves && f.CommitRebound? then Proceeds else Conflict)
        && Tables() == old(Tables()).(
             core := if moves then old(core)[f.id := old(core)[f.id].(state := end)] else old(core),
             flights := if r == Proceeds then old(flights)[pid := CommitDone(f.id)] else old(flights) - {pid})
    {
      var f := flights[pid];
      var row := core[f.id];
      var next := if f.CommitRebound? then Committed else Uncertain;
      flights := flights - {pid};
      if row.state != Rebinding && row.state != next {
        return Conflict;
      }
      core := core[f.id := row.(state := next)];
      if f.CommitFailed? {
        return Conflict;
      }
      flights := flights[pid := CommitDone(f.id)];
      assert flights == old(flights)[pid := CommitDone(f.id)];
      return Proceeds;
    }

    method CommitPublish(pid: nat)
      requires pid in flights && flights[pid].CommitDone? && flights[pid].id in transfers
      modifies this
      ensures Tables() == Step(old(Tables()), Event.CommitPublish(pid))
      ensures var id := old(flights)[pid].id;
        var t := old(transfers)[id];
        && Tables() == old(Tables()).(transfers := old(transfers)[id := t.(stage := Published)], allocations := allocations,
                                      flights := old(flights) - {pid})
        && allocations.Keys == old(allocations).Keys
        && forall x :: x in allocations ==>
             var a := old(allocations)[x];
             allocations[x] == if a.owner == id.owner && a.job == t.job && a.state == Claimed then a.(state := AllocationPublished) else a
    {
      var id := flights[pid].id;
      var t := transfers[id];
      transfers := transfers[id := t.(stage := Published)];
      allocations := PublishAllocations(allocations, id.owner, t.job);
      flights := flights - {pid};
    }

    /** target_status: whether the receipt of the new chat is exact and attested. */
    method TargetStatus(x: string, browser: bool) returns (proven: bool)
      ensures proven <==> browser && x in allocations && ReachedNewChat(Tables(), allocations[x])
    {
      if !browser || x !in allocations || allocations[x].job !in jobs || allocations[x].job !in attested {
        return false;
      }
      var a := allocations[x];
      var d := jobs[a.job];
      return d.state == Sent && d.receipt.Some? && d.receipt.value.prompt == a.prompt && d.receipt.value.conversation != ""
             && attested[a.job] == Attestation(a.owner, a.run, d.receipt.value);
    }

    /** status, which reconciles first. */
    method Status(id: ContinuationId, browser: bool) returns (proven: bool)
      modifies this
      ensures Tables() == Step(old(Tables()), Event.Reconcile(id)) && Tables() == Reconciled(old(Tables()), id)
      ensures proven <==> browser && ReachedTarget(Tables(), id)
    {
      var seen := Reconcile(id);
      if !browser || seen.None? || id !in transfers || transfers[id].job !in jobs || transfers[id].job !in attested {
        return false;
      }
      var t := transfers[id];
      var d := jobs[t.job];
      return d.state == Sent && d.receipt.Some? && d.receipt.value.conversation == core[id].target && d.receipt.value.prompt == t.prompt
             && attested[t.job] == Attestation(id.owner, t.run, d.receipt.value);
    }

    method Reconcile(id: ContinuationId) returns (r: Option<CoreState>)
      modifies this
      ensures Tables() == Step(old(Tables()), Event.Reconcile(id)) && Tables() == Reconciled(old(Tables()), id)
      ensures if id in old(core) then id in core && r == Some(core[id].state) else r.None? && Tables() == old(Tables())
    {
      if id !in core {
        return None;
      }
      var row, chat := core[id], ChatKey(id.owner, id.chat);
      if chat in binding && (row.state == Rebinding || row.state == Uncertain) {
        if binding[chat] == row.target {
          core := core[id := row.(state := Committed)];
          log := log + [BoundToTarget(id)];
        } else {
          core := core[id := row.(state := Uncertain)];
        }
      }
      return Some(core[id].state);
    }

    // What other requests, the relay and the operator do between two steps

    method PlayStage(e: Event)
      requires Inv(Tables()) && (StageEvent(e) || TargetEvent(e))
      modifies this
      ensures Tables() == Step(old(Tables()), e)
    {
      var r: Outcome;
      if e.StagePrepare? {
        if e.pid !in flights {
          r := StagePrepare(e.pid, e.req, e.target, e.cp, e.grant);
        }
      } else if e.TargetInsert? {
        if e.pid !in flights {
          r := TargetInsert(e.pid, e.req, e.cp, e.grant);
        }
      } else if e.pid in flights {
        FlightFact(Tables(), e.pid);
        hide Inv;
        if e.StageInsert? && flights[e.pid].StagePrepared? {
          r := StageInsert(e.pid);
        } else if e.StageCheck? && flights[e.pid].StageInserted? {
          r := StageCheck(e.pid);
        } else if e.StageSubmit? && flights[e.pid].StageChecked? {
          r := StageSubmit(e.pid);
        } else if e.TargetCheck? && flights[e.pid].TargetInserted? {
          r := TargetCheck(e.pid);
        } else if e.TargetSubmit? && flights[e.pid].TargetChecked? {
          r := TargetSubmit(e.pid);
        }
      }
    }

    method PlayClaim(e: Event)
      requires Inv(Tables()) && ClaimEvent(e)
      modifies this
      ensures Tables() == Step(old(Tables()), e)
    {
      var r: Outcome;
      if e.ClaimAuthorize? {
        if e.pid !in flights {
          r := ClaimAuthorize(e.pid, e.allocation, e.cp, e.grant);
        }
      } else if e.pid in flights {
        FlightFact(Tables(), e.pid);
        hide Inv;
        if e.ClaimProve? && flights[e.pid].ClaimAuthorized? {
          r := ClaimProve(e.pid, e.browser);
        } else if e.ClaimPrepare? && flights[e.pid].ClaimProven? {
          r := ClaimPrepare(e.pid, e.cp);
        } else if e.ClaimRecord? && flights[e.pid].ClaimPrepared? {
          r := ClaimRecord(e.pid);
        }
      }
    }

    method PlayCommit(e: Event)
      requires Inv(Tables()) && CommitEvent(e)
      modifies this
      ensures Tables() == Step(old(Tables()), e)
    {
      var r: Outcome;
      if e.CommitAuthorize? {
        if e.pid !in flights {
          r := CommitAuthorize(e.pid, e.id, e.approved, e.grant);
        }
      } else if e.pid in flights {
        FlightFact(Tables(), e.pid);
        hide Inv;
        if e.CommitStatus? && flights[e.pid].CommitAuthorized? {
          r := CommitStatus(e.pid);
        } else if e.CommitProve? && flights[e.pid].CommitSeen? {
          r := CommitProve(e.pid, e.browser);
        } else if e.CommitLook? && flights[e.pid].CommitProven? {
          r := CommitLook(e.pid, e.cp);
        } else if e.CommitBegin? && flights[e.pid].CommitLooked? {
          r := CommitBegin(e.pid);
        } else if e.CommitRebind? && flights[e.pid].CommitRebinding? {
          r := CommitRebind(e.pid);
        } else if e.CommitSettle? && (flights[e.pid].CommitRebound? || flights[e.pid].CommitFailed?) {
          r := CommitSettle(e.pid);
        } else if e.CommitPublish? && flights[e.pid].CommitDone? {
          CommitPublish(e.pid);
        }
      }
    }

    // The relay and the broker

    method RelayMoves(job: JobId, state: DeliveryState)
      modifies this`jobs
      ensures Tables() == RelayMovesStep(old(Tables()), job, state)
    {
      if job in jobs && jobs[job].state != Sent && state != Sent {
        jobs := jobs[job := jobs[job].(state := state)];
      }
    }

    method RelayReceipt(job: JobId, receipt: Receipt)
      modifies this`jobs
      ensures Tables() == RelayReceiptStep(old(Tables()), job, receipt)
    {
      if job in jobs && jobs[job].state != NotSent && jobs[job].state != Sent && receipt.prompt == jobs[job].prompt
         && (jobs[job].target.None? || jobs[job].target.value == receipt.conversation) {
        jobs := jobs[job := jobs[job].(state := Sent, receipt := Some(receipt))];
      }
    }

    method Attest(job: JobId, owner: string, run: string)
      modifies this`attested
      ensures Tables() == AttestStep(old(Tables()), job, owner, run)
    {
      if job !in attested && job in jobs && jobs[job].state == Sent && jobs[job].receipt.Some? {
        attested := attested[job := Attestation(owner, run, jobs[job].receipt.value)];
      }
    }

    method ForeignSubmit(key: TaskId, name: string, prompt: string, target: Option<string>)
      modifies this`keys, this`jobs
      ensures Tables() == ForeignSubmitStep(old(Tables()), key, name, prompt, target)
    {
      if key !in keys && Foreign(name) !in jobs {
        keys := keys[key := Foreign(name)];
        jobs := jobs[Foreign(name) := Delivery(prompt, target, NotSent, None)];
      }
    }

    method PlayOutside(e: Event)
      requires !StageEvent(e) && !TargetEvent(e) && !ClaimEvent(e) && !CommitEvent(e)
      modifies this
      ensures Tables() == Step(old(Tables()), e)
    {
      match e
      case Reconcile(id) => var r := Reconcile(id);
      case Cancel(id) =>
        var chat := ChatKey(id.owner, id.chat);
        if id in core && chat in binding && binding[chat] == core[id].source && (core[id].state == Prepared || core[id].state == Uncertain) {
          core := core[id := core[id].(state := Cancelled)];
        }
      case Rebound(chat, conversation) => binding := binding[chat := conversation];
      case RelayMoves(job, state) => RelayMoves(job, state);
      case RelayReceipt(job, receipt) => RelayReceipt(job, receipt);
      case Attest(job, owner, run) => Attest(job, owner, run);
      case ForeignSubmit(key, name, prompt, target) => ForeignSubmit(key, name, prompt, target);
      case Die(pid) => flights := flights - {pid};
      case Crash => flights := map[];
    }

    method Meanwhile(events: seq<Event>)
      requires Inv(Tables())
      modifies this
      ensures Tables() == Run(old(Tables()), events) && Inv(Tables())
    {
      hide Inv, Grows, Step, StageEvent, TargetEvent, ClaimEvent, CommitEvent;
      assert events[..0] == [];
      NothingRuns(Tables());
      for i := 0 to |events|
        invariant Tables() == Run(old(Tables()), events[..i]) && Inv(Tables())
      {
        var e := events[i];
        ghost var s := Tables();
        StepKeepsInv(s, e);
        if StageEvent(e) || TargetEvent(e) {
          PlayStage(e);
        } else if ClaimEvent(e) {
          PlayClaim(e);
        } else if CommitEvent(e) {
          PlayCommit(e);
        } else {
          PlayOutside(e);
        }
        assert events[..i + 1] == events[..i] + [e];
        RunAppend(old(Tables()), events[..i], [e]);
        RunOne(s, e);
      }
      assert events[..|events|] == events;
    }

    // Whole requests, with whatever happens between their steps

    /** One step of a request, added to the run that led to it. */
    lemma Stepped(start: State, before: seq<Event>, s: State, e: Event) returns (run: seq<Event>)
      requires s == Run(start, before) && Inv(s) && Tables() == Step(s, e)
      ensures run == before + [e] && Tables() == Run(start, run) && Inv(Tables())
    {
      hide Step, Inv, Grows;
      run := before + [e];
      StepKeepsInv(s, e);
      RunAppend(start, before, [e]);
      RunOne(s, e);
    }

    method Await(pid: nat, events: seq<Event>, ghost start: State, ghost before: seq<Event>) returns (ghost run: seq<Event>)
      requires Inv(Tables()) && Tables() == Run(start, before) && OfOthers(events, pid)
      modifies this
      ensures run == before + events && Tables() == Run(start, run) && Inv(Tables()) && SameFlight(old(Tables()), Tables(), pid)
      ensures Grows(old(Tables()), Tables()) && (events == [] ==> Tables() == old(Tables()))
    {
      hide Step, Inv, OfOthers, Grows;
      NothingRuns(Tables());
      RunKeepsInv(Tables(), events);
      run := before + events;
      RunAppend(start, before, events);
      OthersLeaveFlight(Tables(), events, pid);
      Meanwhile(events);
    }

    /** stage. When it answers that the message is on its way, the row it asked for is in the
        table with the grant it had, and the delivery key belongs to that row's own job. Left
        alone it answers so exactly when the request is approved and complete, its continuation
        can be prepared, no other intent holds its row or its job, and no earlier delivery of
        it awaits reconciliation. */
    method Stage(pid: nat, req: Request, target: Option<string>, cp: Checkpoint, grant: Option<string>, others: nat -> seq<Event>)
      returns (staged: bool, ghost run: seq<Event>)
      requires Inv(Tables()) && pid !in flights && forall n :: OfOthers(others(n), pid)
      modifies this
      ensures Tables() == Run(old(Tables()), run) && Inv(Tables())
      ensures staged ==> AsksToStage(req, target, cp, grant)
      ensures !AsksToStage(req, target, cp, grant) ==> Tables() == old(Tables())
      ensures (forall n :: others(n) == []) ==> (staged <==> Stageable(old(Tables()), req, target, cp, grant))
      ensures var id := ContinuationId(req.owner, req.chat, req.key);
        staged ==>
          && id in transfers && transfers[id].(stage := Staged) == RowFor(req, target.value, cp, grant.value)
          && Continuation(id) in keys && keys[Continuation(id)] == JobFor(Continuation(id))
    {
      hide Step, Run, Inv, Grows, OfOthers, Unsettled, OwnKey, RowFor, Preparable, Deliverable;
      ghost var start := Tables();
      NothingRuns(start);
      var r := StagePrepare(pid, req, target, cp, grant);
      run := Stepped(start, [], start, Event.StagePrepare(pid, req, target, cp, grant));
      if r != Proceeds {
        return false, run;
      }
      RowIsStaged(req, target.value, cp, grant.value);
      SameOutlook(start, Tables(), ContinuationId(req.owner, req.chat, req.key), RowFor(req, target.value, cp, grant.value));
      staged, run := StageRow(pid, others, start, run);
    }

    /** The rest of a staging, with its continuation prepared. */
    method StageRow(pid: nat, others: nat -> seq<Event>, ghost start: State, ghost before: seq<Event>)
      returns (staged: bool, ghost run: seq<Event>)
      requires Inv(Tables()) && Tables() == Run(start, before) && pid in flights && flights[pid].StagePrepared?
      requires forall n :: OfOthers(others(n), pid)
      modifies this
      ensures Tables() == Run(start, run) && Inv(Tables())
      ensures var f := old(flights)[pid];
        staged ==> f.id in transfers && transfers[f.id].(stage := Staged) == f.row.(stage := Staged)
                   && Continuation(f.id) in keys && keys[Continuation(f.id)] == JobFor(Continuation(f.id))
      ensures (forall n :: others(n) == []) ==> (staged <==> Deliverable(old(Tables()), old(flights)[pid].id, old(flights)[pid].row))
    {
      hide Step, Run, Inv, Grows, OfOthers, Unsettled, OwnKey;
      run := Await(pid, others(0), start, before);
      ghost var s := Tables();
      var r := StageInsert(pid);
      run := Stepped(start, run, s, Event.StageInsert(pid));
      if r == Conflict {
        return false, run;
      }
      SameQueue(s, Tables(), Continuation(flights[pid].id));
      staged, run := StageDelivery(pid, others, start, run);
    }

    /** The rest of a staging, with its row in the table. */
    method StageDelivery(pid: nat, others: nat -> seq<Event>, ghost start: State, ghost before: seq<Event>)
      returns (staged: bool, ghost run: seq<Event>)
      requires Inv(Tables()) && Tables() == Run(start, before) && pid in flights && flights[pid].StageInserted?
      requires flights[pid].id in transfers && forall n :: OfOthers(others(n), pid)
      modifies this
      ensures Tables() == Run(start, run) && Inv(Tables())
      ensures var id := old(flights)[pid].id;
        id in transfers && transfers[id].(stage := Staged) == old(transfers)[id].(stage := Staged)
        && (staged ==> Continuation(id) in keys && keys[Continuation(id)] == JobFor(Continuation(id)))
      ensures var id := old(flights)[pid].id;
        (forall n :: others(n) == []) ==>
          (staged <==> !Unsettled(old(Tables()), JobFor(Continuation(id))) && OwnKey(old(Tables()), Continuation(id)))
    {
      hide Step, Run, Inv, Grows, OfOthers, Unsettled, OwnKey;
      ghost var id, s := flights[pid].id, Tables();
      ghost var entry := s;
      run := Await(pid, others(1), start, before);
      TransferStays(s, Tables(), id);
      s := Tables();
      var r := StageCheck(pid);
      run := Stepped(start, run, s, Event.StageCheck(pid));
      if r == Conflict {
        return false, run;
      }
      s := Tables();
      if others(1) == [] {
        SameQueue(entry, s, Continuation(id));
      }
      run := Await(pid, others(2), start, run);
      TransferStays(s, Tables(), id);
      s := Tables();
      r := StageSubmit(pid);
      run := Stepped(start, run, s, Event.StageSubmit(pid));
      staged := r == Done;
    }

    /** allocate_new_target. When it answers that the message is on its way, the request was
        approved and of the checkpoint's own summary, its allocation is in the table with the
        grant it had, and the delivery key belongs to the allocation's own job. Left alone it
        answers so exactly when the allocation can be entered and no earlier delivery of it
        awaits reconciliation. */
    method Allocate(pid: nat, req: Request, cp: Checkpoint, grant: Option<string>, others: nat -> seq<Event>)
      returns (queued: bool, ghost run: seq<Event>)
      requires Inv(Tables()) && pid !in flights && forall n :: OfOthers(others(n), pid)
      modifies this
      ensures Tables() == Run(old(Tables()), run) && Inv(Tables())
      ensures queued ==> AsksToAllocate(old(Tables()), req, cp, grant)
      ensures !AsksToAllocate(old(Tables()), req, cp, grant) ==> Tables() == old(Tables())
      ensures var x := req.owner + "|" + req.run + "|" + req.chat + "|" + req.key;
        queued ==>
          && x in allocations && SameAllocation(AllocationFor(req, cp, grant.value), allocations[x])
          && Target(x) in keys && keys[Target(x)] == JobFor(Target(x))
      ensures (forall n :: others(n) == []) ==> (queued <==> Allocatable(old(Tables()), req, cp, grant))
    {
      hide Step, Run, Inv, Grows, OfOthers, Unsettled, OwnKey, AllocationFor;
      ghost var start := Tables();
      NothingRuns(start);
      var r := TargetInsert(pid, req, cp, grant);
      run := Stepped(start, [], start, Event.TargetInsert(pid, req, cp, grant));
      if r != Proceeds {
        return false, run;
      }
      SameQueue(start, Tables(), Target(flights[pid].allocation));
      queued, run := AllocateDelivery(pid, others, start, run);
    }

    /** The rest of an allocation, with its row in the table. */
    method AllocateDelivery(pid: nat, others: nat -> seq<Event>, ghost start: State, ghost before: seq<Event>)
      returns (queued: bool, ghost run: seq<Event>)
      requires Inv(Tables()) && Tables() == Run(start, before) && pid in flights && flights[pid].TargetInserted?
      requires flights[pid].allocation in allocations && forall n :: OfOthers(others(n), pid)
      modifies this
      ensures Tables() == Run(start, run) && Inv(Tables())
      ensures var x := old(flights)[pid].allocation;
        && x in allocations && SameAllocation(old(allocations)[x], allocations[x])
        && (queued ==> Target(x) in keys && keys[Target(x)] == JobFor(Target(x)))
      ensures var x := old(flights)[pid].allocation;
        (forall n :: others(n) == []) ==>
          (queued <==> !Unsettled(old(Tables()), JobFor(Target(x))) && OwnKey(old(Tables()), Target(x)))
    {
      hide Step, Run, Inv, Grows, OfOthers, Unsettled, OwnKey;
      ghost var x, entry := flights[pid].allocation, Tables();
      run := Await(pid, others(0), start, before);
      AllocationStays(entry, Tables(), x);
      ghost var s := Tables();
      var r := TargetCheck(pid);
      run := Stepped(start, run, s, Event.TargetCheck(pid));
      if r == Conflict {
        return false, run;
      }
      s := Tables();
      if others(0) == [] {
        SameQueue(entry, s, Target(x));
      }
      run := Await(pid, others(1), start, run);
      AllocationStays(s, Tables(), x);
      s := Tables();
      r := TargetSubmit(pid);
      run := Stepped(start, run, s, Event.TargetSubmit(pid));
      queued := r == Done;
    }

    /** claim_new_target. When it answers that it claimed, the allocation's transfer is in the
        table and agrees with it on everything they both record. Left alone it claims exactly
        when the grant and the checkpoint are the original ones, the new chat is proven, and
        the continuation can be prepared and recorded. */
    method Claim(pid: nat, x: string, cp: Checkpoint, grant: Option<string>, browser: bool, others: nat -> seq<Event>)
      returns (claimed: Option<ContinuationId>, ghost run: seq<Event>)
      requires Inv(Tables()) && pid !in flights && forall n :: OfOthers(others(n), pid)
      modifies this
      ensures Tables() == Run(old(Tables()), run) && Inv(Tables())
      ensures claimed.Some? ==> x in old(allocations) && grant == Some(old(allocations)[x].grant) && cp.id == old(allocations)[x].checkpoint
      ensures claimed.Some? ==>
                && x in allocations && allocations[x].state == Claimed && SameAllocation(old(allocations)[x], allocations[x])
                && claimed.value in transfers && Agrees(claimed.value, transfers[claimed.value], allocations[x])
                && claimed.value in core && core[claimed.value].checkpoint == cp.id && pid !in flights
      ensures (forall n :: others(n) == []) ==> (claimed.Some? <==> ClaimsNow(old(Tables()), x, cp, grant, browser))
    {
      hide Step, Run, Inv, Grows, OfOthers, Agrees, ReachedNewChat, ClaimsProven;
      ghost var start := Tables();
      NothingRuns(start);
      var r := ClaimAuthorize(pid, x, cp, grant);
      if r != Proceeds {
        return None, [];
      }
      run := Stepped(start, [], start, Event.ClaimAuthorize(pid, x, cp, grant));
      SameNewChat(start, Tables(), flights[pid].a);
      run := Await(pid, others(0), start, run);
      ghost var s := Tables();
      r := ClaimProve(pid, browser);
      run := Stepped(start, run, s, Event.ClaimProve(pid, browser));
      if r != Proceeds {
        return None, run;
      }
      if others(0) == [] {
        SameProof(Tables(), start, x, flights[pid].a, flights[pid].receipt, cp);
      }
      claimed, run := ClaimRest(pid, cp, others, start, run);
    }

    /** The rest of a claim, with the receipt of the new chat proven. */
    method ClaimRest(pid: nat, cp: Checkpoint, others: nat -> seq<Event>, ghost start: State, ghost before: seq<Event>)
      returns (claimed: Option<ContinuationId>, ghost run: seq<Event>)
      requires Inv(Tables()) && Tables() == Run(start, before) && pid in flights && flights[pid].ClaimProven?
      requires forall n :: OfOthers(others(n), pid)
      modifies this
      ensures Tables() == Run(start, run) && Inv(Tables())
      ensures var f := old(flights)[pid];
        claimed.Some? ==>
          && f.allocation in allocations && allocations[f.allocation].state == Claimed && SameAllocation(f.a, allocations[f.allocation])
          && claimed.value in transfers && Agrees(claimed.value, transfers[claimed.value], allocations[f.allocation])
          && claimed.value in core && core[claimed.value].checkpoint == f.a.checkpoint && pid !in flights
      ensures var f := old(flights)[pid];
        (forall n :: others(n) == []) ==> (claimed.Some? <==> ClaimsProven(old(Tables()), f.allocation, f.a, f.receipt, cp))
    {
      hide Step, Run, Inv, Grows, OfOthers, Agrees, Preparable, Recordable;
      ghost var entry := Tables();
      run := Await(pid, others(1), start, before);
      ghost var s := Tables();
      var r := ClaimPrepare(pid, cp);
      run := Stepped(start, run, s, Event.ClaimPrepare(pid, cp));
      if r != Proceeds {
        return None, run;
      }
      s := Tables();
      var f := flights[pid];
      if others(1) == [] {
        SameClaim(entry, s, f.allocation, f.a);
      }
      run := Await(pid, others(2), start, run);
      CoreStays(s, Tables(), ClaimId(f.a));
      s := Tables();
      assert f.allocation in allocations && SameAllocation(f.a, allocations[f.allocation]) by { FlightFact(s, pid); }
      r := ClaimRecord(pid);
      run := Stepped(start, run, s, Event.ClaimRecord(pid));
      if r == Done {
        SharedJobAgrees(Tables(), ClaimId(f.a), f.allocation);
        claimed := Some(ClaimId(f.a));
      } else {
        claimed := None;
      }
    }

    /** commit. When it answers that it published, the publication stands on the receipt, and it
        ran under the grant of the staging. Left alone it publishes exactly when it is approved
        under that grant, the receipt is exact and attested, and the continuation, reconciled,
        is committed or can still be moved. */
    method Commit(pid: nat, id: ContinuationId, approved: bool, grant: Option<string>, browser: bool, cp: Checkpoint,
                  others: nat -> seq<Event>)
      returns (published: bool, ghost run: seq<Event>)
      requires Inv(Tables()) && pid !in flights && forall n :: OfOthers(others(n), pid)
      modifies this
      ensures Tables() == Run(old(Tables()), run) && Inv(Tables())
      ensures published ==> id in transfers && transfers[id].stage == Published && StandsOnReceipt(Tables(), id)
      ensures published ==> approved && id in old(transfers) && grant == Some(old(transfers)[id].grant)
      ensures !approved ==> Tables() == old(Tables())
      ensures (forall n :: others(n) == []) ==> (published <==> CommitsNow(old(Tables()), id, approved, grant, browser, cp))
    {
      hide Step, Run, Inv, Grows, OfOthers, StandsOnReceipt, ExactReceipt, ReachedTarget, Movable, Reconciled;
      ghost var start := Tables();
      NothingRuns(start);
      var r := CommitAuthorize(pid, id, approved, grant);
      if r != Proceeds {
        return false, [];
      }
      run := Stepped(start, [], start, Event.CommitAuthorize(pid, id, approved, grant));
      ghost var s := Tables();
      r, run := CommitChecks(pid, browser, others, start, run);
      ReconcilesAlike(start, s, id);
      SameTarget(Reconciled(start, id), Reconciled(s, id), id);
      if r != Proceeds {
        return false, run;
      }
      if forall n :: others(n) == [] {
        SameMove(Reconciled(start, id), Tables(), id, cp);
      }
      r, run := CommitCore(pid, cp, others, start, run);
      if r != Done {
        return false, run;
      }
      run := CommitLast(pid, others(6), start, run);
      published := true;
    }

    /** The publication. */
    method CommitLast(pid: nat, others: seq<Event>, ghost start: State, ghost before: seq<Event>) returns (ghost run: seq<Event>)
      requires Inv(Tables()) && Tables() == Run(start, before) && pid in flights && flights[pid].CommitDone? && OfOthers(others, pid)
      modifies this
      ensures Tables() == Run(start, run) && Inv(Tables())
      ensures var id := old(flights)[pid].id;
        id in transfers && transfers[id].stage == Published && StandsOnReceipt(Tables(), id)
    {
      hide Step, Run, Inv, Grows, OfOthers, StandsOnReceipt, ExactReceipt;
      run := Await(pid, others, start, before);
      ghost var s := Tables();
      assert flights[pid].id in transfers by { CommitNamesCore(s, pid); }
      CommitPublish(pid);
      run := Stepped(start, run, s, Event.CommitPublish(pid));
      PublishedStands(Tables(), old(flights)[pid].id);
    }

    /** The status a commit goes by. */
    method CommitChecks(pid: nat, browser: bool, others: nat -> seq<Event>, ghost start: State, ghost before: seq<Event>)
      returns (r: Outcome, ghost run: seq<Event>)
      requires Inv(Tables()) && Tables() == Run(start, before) && pid in flights && flights[pid].CommitAuthorized?
      requires forall n :: OfOthers(others(n), pid)
      modifies this
      ensures Tables() == Run(start, run) && Inv(Tables())
      ensures r == Proceeds ==> pid in flights && flights[pid].CommitProven? && flights[pid].id == old(flights)[pid].id
      ensures var id, s := old(flights)[pid].id, old(Tables());
        (forall n :: others(n) == []) ==>
          && (r == Proceeds <==> id in s.core && browser && ReachedTarget(Reconciled(s, id), id))
          && (r == Proceeds ==> Tables().core == Reconciled(s, id).core && Tables().binding == Reconciled(s, id).binding
                                && id in core && flights[pid] == CommitProven(id, core[id].state))
    {
      hide Step, Run, Inv, Grows, OfOthers, ExactReceipt, ReachedTarget, Reconciled;
      ghost var id, entry := flights[pid].id, Tables();
      ReconcilesAlike(entry, entry, id);
      run := Await(pid, others(0), start, before);
      ghost var s := Tables();
      r := CommitStatus(pid);
      run := Stepped(start, run, s, Event.CommitStatus(pid));
      if r != Proceeds {
        return;
      }
      if others(0) == [] {
        SameTarget(Tables(), Reconciled(entry, id), id);
      }
      run := Await(pid, others(1), start, run);
      s := Tables();
      r := CommitProve(pid, browser);
      run := Stepped(start, run, s, Event.CommitProve(pid, browser));
    }

    /** commit_chat_continuation, unless the binding was seen committed. */
    method CommitCore(pid: nat, cp: Checkpoint, others: nat -> seq<Event>, ghost start: State, ghost before: seq<Event>)
      returns (r: Outcome, ghost run: seq<Event>)
      requires Inv(Tables()) && Tables() == Run(start, before) && pid in flights && flights[pid].CommitProven?
      requires forall n :: OfOthers(others(n), pid)
      modifies this
      ensures Tables() == Run(start, run) && Inv(Tables())
      ensures r == Done ==> pid in flights && flights[pid] == CommitDone(old(flights)[pid].id)
      ensures var id, seen := old(flights)[pid].id, old(flights)[pid].seen;
        (forall n :: others(n) == []) && id in old(core) && old(core)[id].state == seen ==>
          (r == Done <==> Movable(old(Tables()), id, cp))
    {
      hide Step, Run, Inv, Grows, OfOthers, ExactReceipt;
      run := Await(pid, others(2), start, before);
      ghost var s := Tables();
      assert flights[pid].id in core by { CommitNamesCore(s, pid); }
      r := CommitLook(pid, cp);
      run := Stepped(start, run, s, Event.CommitLook(pid, cp));
      if r != Proceeds {
        return;
      }
      run := Await(pid, others(3), start, run);
      s := Tables();
      assert flights[pid].id in core by { CommitNamesCore(s, pid); }
      r := CommitBegin(pid);
      run := Stepped(start, run, s, Event.CommitBegin(pid));
      if r != Proceeds {
        return;
      }
      r, run := CommitMoves(pid, others, start, run);
    }

    /** The rebinding of the chat and what follows from it. */
    method CommitMoves(pid: nat, others: nat -> seq<Event>, ghost start: State, ghost before: seq<Event>)
      returns (r: Outcome, ghost run: seq<Event>)
      requires Inv(Tables()) && Tables() == Run(start, before) && pid in flights && flights[pid].CommitRebinding?
      requires forall n :: OfOthers(others(n), pid)
      modifies this
      ensures Tables() == Run(start, run) && Inv(Tables())
      ensures r == Done ==> pid in flights && flights[pid] == CommitDone(old(flights)[pid].id)
      ensures var id := old(flights)[pid].id;
        var chat := ChatKey(id.owner, id.chat);
        var stays := id in old(core) && old(core)[id].state == Rebinding
          && chat in old(binding) && old(binding)[chat] == old(core)[id].source;
        (forall n :: others(n) == []) && stays ==> r == Done
    {
      hide Step, Run, Inv, Grows, OfOthers, ExactReceipt;
      run := Await(pid, others(4), start, before);
      ghost var s := Tables();
      assert flights[pid].id in core by { CommitNamesCore(s, pid); }
      r := CommitRebind(pid);
      run := Stepped(start, run, s, Event.CommitRebind(pid));
      run := Await(pid, others(5), start, run);
      s := Tables();
      assert flights[pid].id in core by { CommitNamesCore(s, pid); }
      r := CommitSettle(pid);
      run := Stepped(start, run, s, Event.CommitSettle(pid));
      r := if r == Proceeds then Done else Conflict;
    }
  }
}
