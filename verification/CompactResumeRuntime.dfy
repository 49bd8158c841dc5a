/** The methods of native_bridge/conversation_continuation.py as they run on the checkpoints and
    on the tables of the Web layer: prepare, the gate of a resume, and a resume as a whole. */
module CompactResumeRuntime {
  import opened Basics
  import opened CompactResume
  import opened CompactResumeTheorems
  import Kept = CompactResumeSafety
  import Web = WebContinuation
  import Safety = WebContinuationSafety
  import Runtime = WebContinuationRuntime

  datatype Reply = New(id: string) | Same(id: string) | Conflict | Refused

  /** How a resume ends: stopped at its gate or blocked later, found published already, or
      published by itself. */
  datatype Outcome = Stopped | Blocked | AlreadyPublished | Published(id: Web.ContinuationId)

  /** The conversation a chat is bound to. */
  function BoundTo(w: Web.State, owner: string, chat: string): Option<string> {
    if Web.ChatKey(owner, chat) in w.binding then Some(w.binding[Web.ChatKey(owner, chat)]) else None
  }

  /** The answer of a write: a new checkpoint if its identifier is free and nothing of its stream
      is as new; the same one, or a conflict, by the digest, if its source is known; and a
      conflict otherwise. */
  predicate Answers(checkpoints: map<string, Row>, id: string, row: Row, r: Reply) {
    && !r.Refused?
    && (r.New? <==> id !in checkpoints && forall c :: c in checkpoints && Stream(checkpoints[c], row) ==> checkpoints[c].seqNo < row.seqNo)
    && (r.New? ==> r.id == id)
    && (r.Same? ==> r.id in checkpoints && Stream(checkpoints[r.id], row) && checkpoints[r.id].seqNo == row.seqNo
                    && checkpoints[r.id].sha == row.sha)
    && (r.Conflict? ==>
          forall c :: c in checkpoints && Stream(checkpoints[c], row) && checkpoints[c].seqNo == row.seqNo ==>
            exists d :: d in checkpoints && Stream(checkpoints[d], row) && checkpoints[d].seqNo == row.seqNo && checkpoints[d].sha != row.sha)
  }

  predicate Stream(a: Row, b: Row) {
    a.owner == b.owner && a.chat == b.chat && a.instance == b.instance && a.epoch == b.epoch
  }

  /** The row a handle names belongs to the owner, and its checkpoint, which is the owner's, to
      the conversation; a digest, if one is named, is the one pinned there; the request is
      approved and the account proven. */
  predicate GateOpen(s: State, owner: string, conversation: string, handle: Handle, approved: bool, named: Option<string>, account: bool) {
    && approved && account
    && (match handle
        case OfAllocation(x) => x in s.web.allocations && s.web.allocations[x].owner == owner
        case OfContinuation(id) => id in s.web.transfers && id in s.web.core && id.owner == owner)
    && var c := match handle case OfAllocation(x) => s.web.allocations[x].checkpoint case OfContinuation(id) => s.web.core[id].checkpoint;
    && c in s.checkpoints && s.checkpoints[c].owner == owner
    && var p := s.checkpoints[c].payload;
    && LogicalConversation in p && p[LogicalConversation] == Text(conversation)
    && (named.Some? ==> TranscriptSha in p && p[TranscriptSha] == Text(named.value))
  }

  /** The receipt of the continuation is there, it is prepared with its chat where it was, the
      newest checkpoint of the chat is its own, and the grant is that of its staging. */
  ghost predicate ReadyToPublish(s: State, id: Web.ContinuationId, grant: Option<string>) {
    && id in s.web.transfers && grant == Some(s.web.transfers[id].grant) && id in s.web.core && s.web.core[id].state == Web.Prepared
    && BoundTo(s.web, id.owner, id.chat) == Some(s.web.core[id].source) && Runtime.ReachedTarget(s.web, id)
    && exists i: nat ::
         && NewestAt(s.checkpoints, s.written, id.owner, id.chat, i)
         && s.written[i] == s.web.core[id].checkpoint && s.checkpoints[s.written[i]].run == s.web.core[id].run
  }

  class ConversationContinuation {
    const web: Runtime.ContinuationRuntime
    var checkpoints: map<string, Row>   // session_checkpoints
    var written: seq<string>            // by the time they were created
    var resumes: map<nat, Resuming>
    ghost var log: seq<Publication>

    ghost function Tables(): State
      reads this, web
    {
      State(web.Tables(), checkpoints, written, resumes, log)
    }

    constructor (web: Runtime.ContinuationRuntime)
      ensures this.web == web && checkpoints == map[] && written == [] && resumes == map[] && log == []
    {
      this.web, checkpoints, written, resumes, log := web, map[], [], map[], [];
    }

    /** SessionCheckpointStore.write. */
    method Write(id: string, row: Row) returns (r: Reply)
      modifies this`checkpoints, this`written
      ensures Tables() == Step(old(Tables()), Event.Write(id, row))
      ensures Answers(old(checkpoints), id, row, r)
      ensures Tables() == if r.New? then old(Tables()).(checkpoints := old(checkpoints)[id := row], written := old(written) + [id])
                          else old(Tables())
    {
      if exists c :: c in checkpoints && SameSource(checkpoints[c], row) {
        var c :| c in checkpoints && SameSource(checkpoints[c], row);
        return if checkpoints[c].sha == row.sha then Same(c) else Conflict;
      }
      if id in checkpoints || exists c :: c in checkpoints && SameStream(checkpoints[c], row) && row.seqNo < checkpoints[c].seqNo {
        return Conflict;
      }
      checkpoints := checkpoints[id := row];
      written := written + [id];
      return New(id);
    }

    /** prepare up to its checkpoint. */
    method Prepare(owner: string, conversation: string, run: string, chat: string, key: string, summary: string,
                   transcript: Transcript, approved: bool, id: string, sha: string) returns (r: Reply)
      modifies this`checkpoints, this`written
      ensures Tables() == Step(old(Tables()), Event.Prepare(owner, conversation, run, chat, key, summary, transcript, approved, id, sha))
      ensures r.Refused? <==> !Acceptable(approved, key, summary, conversation, transcript)
      ensures !r.Refused? ==>
                exists payload ::
                  && Holds(payload, summary, conversation, transcript)
                  && var row := Row(owner, run, chat, BoundTo(web.Tables(), owner, chat), "conversation-compact-resume",
                                    Request(owner, run, chat, key), 0, payload, sha);
                  && Answers(old(checkpoints), id, row, r)
                  && (r.New? ==> Tables() == old(Tables()).(checkpoints := old(checkpoints)[id := row], written := old(written) + [id]))
      ensures !r.New? ==> Tables() == old(Tables())
    {
      ghost var e := Event.Prepare(owner, conversation, run, chat, key, summary, transcript, approved, id, sha);
      PreparesByWriting(Tables(), e);
      AcceptableIff(e);
      var binding := TranscriptBinding(transcript);
      if !approved || !(1 <= |key| <= MAX_KEY) || !(1 <= |summary| <= MAX_SUMMARY) || !(1 <= |conversation| <= MAX_CONVERSATION)
         || binding.None? {
        return Refused;
      }
      HeldAsGiven(e);
      hide TranscriptBinding, Holds, Acceptable, Answers;
      var at := Web.ChatKey(owner, chat);
      var row := Row(owner, run, chat, if at in web.binding then Some(web.binding[at]) else None, INSTANCE,
                     Request(owner, run, chat, key), 0,
                     map[Summary := Text(summary), LogicalConversation := Text(conversation)] + binding.value, sha);
      assert row == PreparedRow(Tables(), e, binding.value);
      hide PreparedRow, Preparable;
      r := Write(id, row);
    }

    /** latest_session_checkpoint. */
    method LatestCheckpoint(owner: string, run: string, chat: string) returns (cp: Option<Web.Checkpoint>)
      ensures cp == Latest(Tables(), owner, run, chat)
      ensures cp.None? ==> forall i: nat :: NewestAt(checkpoints, written, owner, chat, i) ==> checkpoints[written[i]].run != run
      ensures cp.Some? ==>
                exists i: nat ::
                  && NewestAt(checkpoints, written, owner, chat, i)
                  && var row := checkpoints[written[i]];
                  && row.run == run
                  && cp.value == Web.Checkpoint(written[i], run, row.conversation,
                                                if Summary in row.payload && row.payload[Summary].Text?
                                                then row.payload[Summary].text else "",
                                                row.sha)
    {
      LatestIsNewest(checkpoints, written, owner, chat);
      hide NewestAt;
      var i, found := |written|, None;
      assert written[..|written|] == written;
      while i > 0 && found.None?
        invariant 0 <= i <= |written|
        invariant LatestOf(checkpoints, written, owner, chat)
                  == if found.Some? then found else LatestOf(checkpoints, written[..i], owner, chat)
        invariant found.Some? ==> found.value in checkpoints
      {
        i := i - 1;
        assert written[..i + 1][..i] == written[..i];
        var id := written[i];
        if id in checkpoints && checkpoints[id].owner == owner && checkpoints[id].chat == chat {
          found := Some(id);
        }
      }
      if found.None? || checkpoints[found.value].run != run {
        return None;
      }
      var row := checkpoints[found.value];
      return Some(Web.Checkpoint(found.value, row.run, row.conversation, TextAt(row.payload, Summary), row.sha));
    }

    /** Whether a step that asks for the latest checkpoint carries it. */
    method IsInformed(e: Web.Event) returns (informed: bool)
      ensures informed <==> Informed(Tables(), e)
    {
      hide Latest, NewestAt, LatestOf;
      var cp;
      match e
      case StagePrepare(_, req, _, told, _) =>
        cp := LatestCheckpoint(req.owner, req.run, req.chat);
        return cp == Some(told);
      case TargetInsert(_, req, told, _) =>
        cp := LatestCheckpoint(req.owner, req.run, req.chat);
        return cp == Some(told);
      case ClaimAuthorize(_, x, told, _) =>
        if x !in web.allocations {
          return false;
        }
        cp := LatestCheckpoint(web.allocations[x].owner, web.allocations[x].run, web.allocations[x].chat);
        return cp == Some(told);
      case ClaimPrepare(pid, told) =>
        if pid !in web.flights || !web.flights[pid].ClaimProven? {
          return false;
        }
        cp := LatestCheckpoint(web.flights[pid].a.owner, web.flights[pid].a.run, web.flights[pid].a.chat);
        return cp == Some(told);
      case CommitLook(pid, told) =>
        if pid !in web.flights || !web.flights[pid].CommitProven? || web.flights[pid].id !in web.core {
          return false;
        }
        var id := web.flights[pid].id;
        cp := LatestCheckpoint(id.owner, web.core[id].run, id.chat);
        return cp == Some(told);
      case _ => return true;
    }

    /** The checkpoint of the row a handle names. */
    method FindCheckpoint(handle: Handle) returns (c: Option<string>)
      ensures c == CheckpointOf(Tables(), handle)
    {
      match handle
      case OfAllocation(x) => c := if x in web.allocations then Some(web.allocations[x].checkpoint) else None;
      case OfContinuation(id) => c := if id in web.transfers && id in web.core then Some(web.core[id].checkpoint) else None;
    }

    /** _binding, _pinned_transcript and the account, before anything happens. */
    method MayPass(owner: string, conversation: string, handle: Handle, approved: bool, named: Option<string>, account: bool)
      returns (open: bool)
      ensures open <==> approved && BindingFound(Tables(), owner, conversation, handle)
                        && Passes(checkpoints, CheckpointOf(Tables(), handle).value, named) && account
      ensures open <==> GateOpen(Tables(), owner, conversation, handle, approved, named, account)
    {
      var c := FindCheckpoint(handle);
      if !approved || c.None? || c.value !in checkpoints {
        return false;
      }
      var row := checkpoints[c.value];
      var of := match handle case OfAllocation(x) => web.allocations[x].owner case OfContinuation(id) => id.owner;
      if of != owner || row.owner != owner || LogicalConversation !in row.payload
         || row.payload[LogicalConversation] != Text(conversation) {
        return false;
      }
      if named.Some? && PinnedSha(row.payload) != named {
        return false;
      }
      return account;
    }

    method Gate(pid: nat, owner: string, conversation: string, handle: Handle, approved: bool, named: Option<string>, account: bool)
      returns (open: bool)
      modifies this`resumes
      ensures Tables() == Step(old(Tables()), Event.Gate(pid, owner, conversation, handle, approved, named, account))
      ensures open <==> pid !in old(resumes) && pid !in web.flights
                        && GateOpen(old(Tables()), owner, conversation, handle, approved, named, account)
      ensures Tables() == if open then old(Tables()).(resumes := old(resumes)[pid := if handle.OfAllocation?
                                                                                     then AtAllocation(handle.allocation, named)
                                                                                     else AtContinuation(handle.id, named)])
                          else old(Tables())
    {
      open := MayPass(owner, conversation, handle, approved, named, account);
      hide BindingFound, Passes, GateOpen;
      if pid in resumes || pid in web.flights || !open {
        return false;
      }
      resumes := resumes[pid := if handle.OfAllocation? then AtAllocation(handle.allocation, named)
                                else AtContinuation(handle.id, named)];
    }

    /** target_status; published: the allocation was found published. */
    method TargetLook(pid: nat, browser: bool) returns (published: bool)
      modifies this`resumes
      ensures Tables() == Step(old(Tables()), Event.TargetLook(pid, browser))
      ensures pid in old(resumes) && old(resumes)[pid].AtAllocation? ==>
                var r := old(resumes)[pid];
                var known := r.allocation in web.allocations && web.allocations[r.allocation].state == Web.AllocationPublished;
                && published == known
                && resumes == if !known && browser && r.allocation in web.allocations
                                 && Runtime.ReachedNewChat(web.Tables(), web.allocations[r.allocation])
                              then old(resumes)[pid := TargetSeen(r.allocation, r.sha)] else old(resumes) - {pid}
    {
      if pid !in resumes || !resumes[pid].AtAllocation? {
        return false;
      }
      var r := resumes[pid];
      var proven := web.TargetStatus(r.allocation, browser);
      hide Web.NewTargetProven;
      published := r.allocation in web.allocations && web.allocations[r.allocation].state == Web.AllocationPublished;
      if published || !proven {
        resumes := resumes - {pid};
      } else {
        resumes := resumes[pid := TargetSeen(r.allocation, r.sha)];
      }
    }

    /** status, which reconciles. */
    method StatusLook(pid: nat, browser: bool)
      modifies this`resumes, web
      ensures Tables() == Step(old(Tables()), Event.StatusLook(pid, browser))
      ensures pid in old(resumes) && old(resumes)[pid].AtContinuation? ==>
                var r := old(resumes)[pid];
                && web.Tables() == Runtime.Reconciled(old(web.Tables()), r.id)
                && resumes == if browser && Runtime.ReachedTarget(web.Tables(), r.id)
                              then old(resumes)[pid := StatusSeen(r.id, r.sha)] else old(resumes) - {pid}
    {
      if pid in resumes && resumes[pid].AtContinuation? {
        var r := resumes[pid];
        ReconcileIs(web.Tables(), r.id);
        hide Web.Step, Web.ReconcileStep, Web.ExactReceipt;
        var proven := web.Status(r.id, browser);
        resumes := if proven then resumes[pid := StatusSeen(r.id, r.sha)] else resumes - {pid};
      }
    }

    /** The continuation that the record of a claim will be of, if it goes through. */
    method WillRecord(pid: nat) returns (claimed: Option<Web.ContinuationId>)
      ensures claimed.Some? <==> Records(web.Tables(), pid)
      ensures claimed.Some? ==> pid in web.flights && web.flights[pid].ClaimPrepared? && claimed.value == Web.ClaimId(web.flights[pid].a)
    {
      if pid !in web.flights || !web.flights[pid].ClaimPrepared? {
        return None;
      }
      var f := web.flights[pid];
      var id := Web.ClaimId(f.a);
      if id in web.transfers {
        if web.transfers[id].job != f.a.job {
          return None;
        }
      } else if Web.JobTaken(web.transfers, f.a.job) {
        return None;
      }
      if f.allocation !in web.allocations {
        return None;
      }
      var a := web.allocations[f.allocation];
      if !Web.OpenAllocation(a.state) && Web.HasOpenAllocation(web.allocations, a.owner, a.chat) {
        return None;
      }
      return Some(id);
    }

    /** One step of the Web layer. */
    method InWeb(e: Web.Event)
      requires Safety.Inv(web.Tables())
      modifies web
      ensures web.Tables() == Web.Step(old(web.Tables()), e)
    {
      hide Safety.Inv, Web.Step, Web.Run;
      ghost var before := web.Tables();
      web.Meanwhile([e]);
      Safety.RunOne(before, e);
    }

    /** The next step of a resume in the Web layer. */
    method Go(pid: nat, e: Web.Event) returns (published: Option<Publication>)
      requires Safety.Inv(web.Tables())
      modifies this`resumes, this`log, web
      ensures Tables() == Step(old(Tables()), Event.Go(pid, e))
      ensures published.Some? ==> pid in old(resumes) && published.value.sha == old(resumes)[pid].sha
      ensures log == if published.Some? then old(log) + [published.value] else old(log)
    {
      ghost var s := Tables();
      var informed := IsInformed(e);
      hide Informed, Safety.Inv, Step;
      if pid !in resumes || !InOrder(resumes[pid], e) || e.pid != pid || !informed {
        GoIdles(s, pid, e);
        return None;
      }
      published := GoOn(pid, e);
    }

    /** A step that is in order. */
    method GoOn(pid: nat, e: Web.Event) returns (published: Option<Publication>)
      requires Safety.Inv(web.Tables()) && Informed(Tables(), e) && pid in resumes && InOrder(resumes[pid], e) && e.pid == pid
      modifies this`resumes, this`log, web
      ensures Tables() == Step(old(Tables()), Event.Go(pid, e))
      ensures log == if published.Some? then old(log) + [published.value] else old(log)
      ensures published.Some? ==> published.value.sha == old(resumes)[pid].sha
    {
      ghost var s := Tables();
      GoIs(s, pid, e);
      hide Step, Informed, Safety.Inv, Web.Step, InOrder, Next, Publishing;
      var r := resumes[pid];
      var next, done := InWebLayer(pid, r, e);
      if done {
        published := Some(Publication(r.sha, r.id));
        log := log + [Publication(r.sha, r.id)];
      } else {
        published := None;
      }
      resumes := if next.Some? then resumes[pid := next.value] else resumes - {pid};
    }

    /** The step itself, and where the resume is after it. */
    method InWebLayer(pid: nat, r: Resuming, e: Web.Event) returns (next: Option<Resuming>, published: bool)
      requires Safety.Inv(web.Tables()) && InOrder(r, e) && e.pid == pid
      modifies web
      ensures web.Tables() == Web.Step(old(web.Tables()), e) && next == Next(old(web.Tables()), web.Tables(), pid, r, e)
      ensures published <==> r.Committing? && Publishing(old(web.Tables()), pid, e)
    {
      ghost var before := web.Tables();
      hide Safety.Inv, Web.Step, InOrder, Next;
      var claimed := WillRecord(pid);
      hide Records;
      published := r.Committing? && e.CommitPublish? && pid in web.flights && web.flights[pid].CommitDone?
                   && web.flights[pid].id in web.transfers;
      InWeb(e);
      next := Phase(before, pid, r, e, claimed);
    }

    /** Where a resume is after its step in the Web layer; claimed: if a claim went through. */
    method Phase(ghost before: Web.State, pid: nat, r: Resuming, e: Web.Event, claimed: Option<Web.ContinuationId>)
      returns (next: Option<Resuming>)
      requires InOrder(r, e) && (claimed.Some? <==> Records(before, pid))
      requires claimed.Some? ==> pid in before.flights && before.flights[pid].ClaimPrepared?
                                 && claimed.value == Web.ClaimId(before.flights[pid].a)
      ensures next == Next(before, web.Tables(), pid, r, e)
    {
      hide Records;
      match r
      case TargetSeen(x, sha) => next := if pid in web.flights then Some(Claiming(x, sha)) else None;
      case Claiming(x, sha) =>
        next := if pid in web.flights then Some(r)
                else if e.ClaimRecord? && claimed.Some? then Some(AtContinuation(claimed.value, sha))
                else None;
      case StatusSeen(id, sha) => next := if pid in web.flights then Some(Committing(id, sha)) else None;
      case Committing(id, sha) => next := if pid in web.flights then Some(r) else None;
    }

    /** A call of the Web layer outside a resume, or its surroundings. */
    method WebStep(e: Web.Event)
      requires Safety.Inv(web.Tables())
      modifies web
      ensures Tables() == Step(old(Tables()), Event.WebStep(e))
    {
      var informed := IsInformed(e);
      hide Safety.Inv, Informed, Web.Step;
      if e.Crash? || !informed || (!Web.OfNobody(e) && e.pid in resumes) {
        return;
      }
      InWeb(e);
    }

    method Abandon(pid: nat)
      requires Safety.Inv(web.Tables())
      modifies this`resumes, web
      ensures Tables() == Step(old(Tables()), Event.Abandon(pid))
    {
      hide Safety.Inv, Web.Step;
      if pid in resumes {
        DeathIs(web.Tables(), pid);
        InWeb(Web.Die(pid));
        resumes := resumes - {pid};
      }
    }

    method Crash()
      requires Safety.Inv(web.Tables())
      modifies this`resumes, web
      ensures Tables() == Step(old(Tables()), Event.Crash)
    {
      hide Safety.Inv, Web.Step;
      InWeb(Web.Crash);
      resumes := map[];
    }

    method Play(e: Event)
      requires Kept.Inv(Tables())
      modifies this`checkpoints, this`written, this`resumes, this`log, web
      ensures Tables() == Step(old(Tables()), e)
    {
      WebIsSound(Tables());
      hide Kept.Inv, Safety.Inv, Step;
      match e
      case Prepare(owner, conversation, run, chat, key, summary, transcript, approved, id, sha) =>
        var r := Prepare(owner, conversation, run, chat, key, summary, transcript, approved, id, sha);
      case Write(id, row) => var r := Write(id, row);
      case WebStep(w) => WebStep(w);
      case Gate(pid, owner, conversation, handle, approved, named, account) =>
        var open := Gate(pid, owner, conversation, handle, approved, named, account);
      case TargetLook(pid, browser) => var published := TargetLook(pid, browser);
      case StatusLook(pid, browser) => StatusLook(pid, browser);
      case Go(pid, w) => var published := Go(pid, w);
      case Abandon(pid) => Abandon(pid);
      case Crash => Crash();
    }

    /** What others do meanwhile, whatever it is. */
    method Await(pid: nat, events: seq<Event>, ghost start: State, ghost before: seq<Event>) returns (ghost run: seq<Event>)
      requires Kept.Inv(Tables()) && Tables() == Run(start, before) && Spares(events, pid)
      modifies this`checkpoints, this`written, this`resumes, this`log, web
      ensures Tables() == Run(start, run) && Kept.Inv(Tables()) && SameSha(old(resumes), resumes, pid)
      ensures events == [] ==> Tables() == old(Tables())
    {
      hide Kept.Inv, Step, Run;
      run := before;
      for i := 0 to |events|
        invariant Tables() == Run(start, run) && Kept.Inv(Tables()) && SameSha(old(resumes), resumes, pid)
        invariant i == 0 ==> Tables() == old(Tables())
      {
        ghost var s := Tables();
        ShaStays(s, events[i], pid);
        Play(events[i]);
        run := Stepped(start, run, s, events[i]);
      }
    }

    /** One step, added to the run that led to it. */
    lemma Stepped(start: State, before: seq<Event>, s: State, e: Event) returns (run: seq<Event>)
      requires s == Run(start, before) && Kept.Inv(s) && Tables() == Step(s, e)
      ensures Tables() == Run(start, run) && Kept.Inv(Tables())
    {
      hide Step, Kept.Inv, Kept.Grows;
      run := before + [e];
      Kept.StepKeepsInv(s, e);
      RunAppend(start, before, [e]);
      RunOne(s, e);
    }

    /** A step of the resume in the Web layer. */
    method Makes(pid: nat, e: Web.Event, ghost start: State, ghost before: seq<Event>)
      returns (published: Option<Publication>, ghost run: seq<Event>)
      requires Kept.Inv(Tables()) && Tables() == Run(start, before)
      modifies this`resumes, this`log, web
      ensures Tables() == Run(start, run) && Kept.Inv(Tables()) && SameSha(old(resumes), resumes, pid)
      ensures published.Some? ==> pid in old(resumes) && published.value.sha == old(resumes)[pid].sha
      ensures log == if published.Some? then old(log) + [published.value] else old(log)
      ensures Tables() == Step(old(Tables()), Event.Go(pid, e))
    {
      WebIsSound(Tables());
      ShaStays(Tables(), Event.Go(pid, e), pid);
      hide Kept.Inv, Safety.Inv, Step, Run;
      ghost var s := Tables();
      published := Go(pid, e);
      run := Stepped(start, before, s, Event.Go(pid, e));
    }

    /** The resume ends with an error. */
    method Fails(pid: nat, ghost start: State, ghost before: seq<Event>) returns (ghost run: seq<Event>)
      requires Kept.Inv(Tables()) && Tables() == Run(start, before)
      modifies this`resumes, web
      ensures Tables() == Run(start, run) && Kept.Inv(Tables()) && pid !in resumes
    {
      WebIsSound(Tables());
      hide Kept.Inv, Safety.Inv, Run;
      ghost var s := Tables();
      Abandon(pid);
      run := Stepped(start, before, s, Event.Abandon(pid));
    }

    // A resume from beginning to end

    /** claim_new_target is called with the latest checkpoint as it is then. */
    method AuthorizesClaim(pid: nat, x: string, grant: Option<string>, ghost start: State, ghost before: seq<Event>)
      returns (ghost run: seq<Event>)
      requires Kept.Inv(Tables()) && Tables() == Run(start, before)
      modifies this`resumes, this`log, web
      ensures Tables() == Run(start, run) && Kept.Inv(Tables()) && SameSha(old(resumes), resumes, pid)
    {
      hide Kept.Inv, Run;
      var cp, published := None, None;
      if x in web.allocations {
        cp := LatestCheckpoint(web.allocations[x].owner, web.allocations[x].run, web.allocations[x].chat);
      }
      if cp.None? {
        run := Fails(pid, start, before);
      } else {
        published, run := Makes(pid, Web.ClaimAuthorize(pid, x, cp.value, grant), start, before);
      }
    }

    /** And it prepares with the latest checkpoint as it is by then. */
    method PreparesClaim(pid: nat, ghost start: State, ghost before: seq<Event>) returns (ghost run: seq<Event>)
      requires Kept.Inv(Tables()) && Tables() == Run(start, before)
      modifies this`resumes, this`log, web
      ensures Tables() == Run(start, run) && Kept.Inv(Tables()) && SameSha(old(resumes), resumes, pid)
    {
      hide Kept.Inv, Run;
      var cp, published := None, None;
      if pid in web.flights && web.flights[pid].ClaimProven? {
        var a := web.flights[pid].a;
        cp := LatestCheckpoint(a.owner, a.run, a.chat);
      }
      if cp.None? {
        run := Fails(pid, start, before);
      } else {
        published, run := Makes(pid, Web.ClaimPrepare(pid, cp.value), start, before);
      }
    }

    /** commit_chat_continuation reads the latest checkpoint as it is then. */
    method LooksAtCore(pid: nat, ghost way: Option<Way>, ghost start: State, ghost before: seq<Event>) returns (ghost run: seq<Event>)
      requires Kept.Inv(Tables()) && Tables() == Run(start, before)
      requires way.Some? ==> Clear(way.value) && OnWay(way.value, Tables(), pid, Web.CommitProven(way.value.id, Web.Prepared))
      modifies this`resumes, this`log, web
      ensures Tables() == Run(start, run) && Kept.Inv(Tables()) && SameSha(old(resumes), resumes, pid)
      ensures way.Some? ==> OnWay(way.value, Tables(), pid, Web.CommitLooked(way.value.id))
    {
      hide Kept.Inv, Run, Step, Along, Latest;
      if way.Some? {
        FlightIs(way.value, Tables(), pid, Web.CommitProven(way.value.id, Web.Prepared));
        SameLatest(way.value.s, Tables(), way.value.id.owner, way.value.row.run, way.value.id.chat);
        LookAlong(way.value.s, Tables(), pid, way.value.id, way.value.sha, way.value.row, way.value.cp);
      }
      var cp, published := None, None;
      if pid in web.flights && web.flights[pid].CommitProven? && web.flights[pid].id in web.core {
        var id := web.flights[pid].id;
        cp := LatestCheckpoint(id.owner, web.core[id].run, id.chat);
      }
      if cp.None? {
        run := Fails(pid, start, before);
      } else {
        published, run := Makes(pid, Web.CommitLook(pid, cp.value), start, before);
      }
    }

    /** claim_new_target of a resume that has seen the receipt of its allocation. */
    method ResumeClaim(pid: nat, x: string, grant: Option<string>, browser: bool, others: nat -> seq<Event>,
                       ghost start: State, ghost before: seq<Event>) returns (ghost run: seq<Event>)
      requires Kept.Inv(Tables()) && Tables() == Run(start, before) && forall n :: Spares(others(n), pid)
      modifies this`checkpoints, this`written, this`resumes, this`log, web
      ensures Tables() == Run(start, run) && Kept.Inv(Tables()) && SameSha(old(resumes), resumes, pid)
    {
      hide Kept.Inv, Run, Spares;
      var published;
      run := Await(pid, others(1), start, before);
      run := AuthorizesClaim(pid, x, grant, start, run);
      run := Await(pid, others(2), start, run);
      published, run := Makes(pid, Web.ClaimProve(pid, browser), start, run);
      run := Await(pid, others(3), start, run);
      run := PreparesClaim(pid, start, run);
      run := Await(pid, others(4), start, run);
      published, run := Makes(pid, Web.ClaimRecord(pid), start, run);
    }

    /** The status of the continuation, and the authority for its commit. */
    method ResumeStatus(pid: nat, grant: Option<string>, browser: bool, others: nat -> seq<Event>, ghost way: Option<Way>,
                        ghost start: State, ghost before: seq<Event>) returns (ghost run: seq<Event>)
      requires Kept.Inv(Tables()) && Tables() == Run(start, before) && forall n :: Spares(others(n), pid)
      requires way.Some? ==>
                 && Clear(way.value) && way.value.s == Tables() && (forall n :: others(n) == []) && browser
                 && pid in resumes && resumes[pid] == AtContinuation(way.value.id, way.value.sha) && pid !in web.flights
                 && way.value.id in web.transfers && grant == Some(web.transfers[way.value.id].grant)
      modifies this`checkpoints, this`written, this`resumes, this`log, web
      ensures Tables() == Run(start, run) && Kept.Inv(Tables()) && SameSha(old(resumes), resumes, pid)
      ensures way.Some? ==> OnWay(way.value, Tables(), pid, Web.CommitAuthorized(way.value.id))
    {
      hide Kept.Inv, Run, Spares, Step, Along, Latest;
      run := Await(pid, others(5), start, before);
      if way.Some? {
        StatusPasses(way.value.s, pid, way.value.id, way.value.sha);
      }
      run := SeesStatus(pid, browser, start, run);
      run := Await(pid, others(6), start, run);
      if way.Some? {
        AuthorizeAlong(way.value.s, Tables(), pid, way.value.id, way.value.sha, Web.CommitAuthorize(pid, way.value.id, true, grant));
      }
      if pid in resumes && resumes[pid].StatusSeen? {
        var published;
        published, run := Makes(pid, Web.CommitAuthorize(pid, resumes[pid].id, true, grant), start, run);
      }
    }

    method SeesStatus(pid: nat, browser: bool, ghost start: State, ghost before: seq<Event>) returns (ghost run: seq<Event>)
      requires Kept.Inv(Tables()) && Tables() == Run(start, before)
      modifies this`resumes, web
      ensures Tables() == Run(start, run) && Kept.Inv(Tables()) && SameSha(old(resumes), resumes, pid)
      ensures Tables() == Step(old(Tables()), Event.StatusLook(pid, browser))
    {
      ghost var s := Tables();
      ShaStays(s, Event.StatusLook(pid, browser), pid);
      hide Kept.Inv, Run, Step;
      StatusLook(pid, browser);
      run := Stepped(start, before, s, Event.StatusLook(pid, browser));
    }

    /** commit of a resume, up to the control plane's reads. */
    method ResumeChecks(pid: nat, browser: bool, others: nat -> seq<Event>, ghost way: Option<Way>,
                        ghost start: State, ghost before: seq<Event>) returns (ghost run: seq<Event>)
      requires Kept.Inv(Tables()) && Tables() == Run(start, before) && forall n :: Spares(others(n), pid)
      requires way.Some? ==> Clear(way.value) && OnWay(way.value, Tables(), pid, Web.CommitAuthorized(way.value.id))
                             && (forall n :: others(n) == []) && browser
      modifies this`checkpoints, this`written, this`resumes, this`log, web
      ensures Tables() == Run(start, run) && Kept.Inv(Tables()) && SameSha(old(resumes), resumes, pid)
      ensures way.Some? ==> OnWay(way.value, Tables(), pid, Web.CommitLooked(way.value.id))
    {
      hide Kept.Inv, Run, Spares, Step, Along, Latest;
      var published;
      run := Await(pid, others(7), start, before);
      if way.Some? {
        StatusAlong(way.value.s, Tables(), pid, way.value.id, way.value.sha, way.value.row, way.value.row.source);
      }
      published, run := Makes(pid, Web.CommitStatus(pid), start, run);
      run := Await(pid, others(8), start, run);
      if way.Some? {
        ProofAlong(way.value.s, Tables(), pid, way.value.id, way.value.sha, way.value.row, way.value.row.source);
      }
      published, run := Makes(pid, Web.CommitProve(pid, browser), start, run);
      run := Await(pid, others(9), start, run);
      run := LooksAtCore(pid, way, start, run);
    }

    /** The rebinding, unless the binding was seen committed, and the publication. */
    method ResumePublishes(pid: nat, others: nat -> seq<Event>, ghost way: Option<Way>, ghost start: State, ghost before: seq<Event>)
      returns (published: Option<Publication>, ghost run: seq<Event>)
      requires Kept.Inv(Tables()) && Tables() == Run(start, before) && forall n :: Spares(others(n), pid)
      requires way.Some? ==>
                 Clear(way.value) && OnWay(way.value, Tables(), pid, Web.CommitLooked(way.value.id)) && forall n :: others(n) == []
      modifies this`checkpoints, this`written, this`resumes, this`log, web
      ensures Tables() == Run(start, run) && Kept.Inv(Tables())
      ensures published.Some? ==> pid in old(resumes) && published.value.sha == old(resumes)[pid].sha && published.value in log
      ensures way.Some? ==> published == Some(Publication(way.value.sha, way.value.id))
    {
      hide Kept.Inv, Run, Spares, Step, Along, Latest;
      run := Await(pid, others(10), start, before);
      if way.Some? {
        FlightIs(way.value, Tables(), pid, Web.CommitLooked(way.value.id));
      }
      if pid in web.flights && web.flights[pid].CommitLooked? {
        run := ResumeRebinds(pid, others, way, start, run);
      }
      if way.Some? {
        CompactResumeTheorems.ResumePublishes(way.value.s, Tables(), pid, way.value.id, way.value.sha,
                                              way.value.row.(state := Web.Committed), way.value.row.target);
        LogIs(way.value.s, Tables(), pid, way.value.id, way.value.sha, Web.CommitDone(way.value.id),
              way.value.row.(state := Web.Committed), way.value.row.target);
      }
      ghost var logged := log;
      published, run := Makes(pid, Web.CommitPublish(pid), start, run);
      if way.Some? {
        OneLogged(logged, published, Publication(way.value.sha, way.value.id));
      }
    }

    method ResumeRebinds(pid: nat, others: nat -> seq<Event>, ghost way: Option<Way>, ghost start: State, ghost before: seq<Event>)
      returns (ghost run: seq<Event>)
      requires Kept.Inv(Tables()) && Tables() == Run(start, before) && forall n :: Spares(others(n), pid)
      requires way.Some? ==>
                 Clear(way.value) && OnWay(way.value, Tables(), pid, Web.CommitLooked(way.value.id)) && forall n :: others(n) == []
      modifies this`checkpoints, this`written, this`resumes, this`log, web
      ensures Tables() == Run(start, run) && Kept.Inv(Tables()) && SameSha(old(resumes), resumes, pid)
      ensures way.Some? ==> var w := way.value;
        Along(w.s, Tables(), pid, w.id, w.sha, Web.CommitDone(w.id), w.row.(state := Web.Committed), w.row.target)
    {
      hide Kept.Inv, Run, Spares, Step, Along, Latest;
      var published;
      if way.Some? {
        BeginAlong(way.value.s, Tables(), pid, way.value.id, way.value.sha, way.value.row);
      }
      published, run := Makes(pid, Web.CommitBegin(pid), start, before);
      run := Await(pid, others(11), start, run);
      if way.Some? {
        RebindAlong(way.value.s, Tables(), pid, way.value.id, way.value.sha, way.value.row.(state := Web.Rebinding));
      }
      published, run := Makes(pid, Web.CommitRebind(pid), start, run);
      run := Await(pid, others(12), start, run);
      if way.Some? {
        SettleAlong(way.value.s, Tables(), pid, way.value.id, way.value.sha, way.value.row.(state := Web.Rebinding), way.value.row.target);
      }
      published, run := Makes(pid, Web.CommitSettle(pid), start, run);
      run := Await(pid, others(13), start, run);
    }

    /** resume, with anything else going on at its calls: other resumes, other requests of the Web
        layer, new checkpoints, crashes. When it answers that it published, that publication stands
        on its receipt, and the checkpoint it continues pins the digest its caller named. Left
        alone, a resume of a continuation that passes its gate publishes whenever nothing but the
        commit is missing. */
    method Resume(pid: nat, owner: string, conversation: string, handle: Handle, approved: bool, named: Option<string>,
                  account: bool, browser: bool, claimGrant: Option<string>, commitGrant: Option<string>, others: nat -> seq<Event>)
      returns (r: Outcome, ghost run: seq<Event>)
      requires Kept.Inv(Tables()) && pid !in resumes && pid !in web.flights && forall n :: Spares(others(n), pid)
      modifies this`checkpoints, this`written, this`resumes, this`log, web
      ensures Tables() == Run(old(Tables()), run) && Kept.Inv(Tables())
      ensures r.Stopped? <==> !GateOpen(old(Tables()), owner, conversation, handle, approved, named, account)
      ensures r.Stopped? ==> Tables() == old(Tables())
      ensures r.Published? ==>
                && Publication(named, r.id) in log && Safety.StandsOnReceipt(web.Tables(), r.id)
                && r.id in web.core && web.core[r.id].checkpoint in checkpoints
                && (named.Some? ==>
                      var pinned := checkpoints[web.core[r.id].checkpoint].payload;
                      TranscriptSha in pinned && pinned[TranscriptSha] == Text(named.value))
      ensures (forall n :: others(n) == []) && browser && handle.OfContinuation? && !r.Stopped? ==>
                ReadyToPublish(old(Tables()), handle.id, commitGrant) ==> r == Published(handle.id)
    {
      ghost var start := Tables();
      var open := Gate(pid, owner, conversation, handle, approved, named, account);
      hide Kept.Inv, Run, Step, Spares, BindingFound, GateOpen, Safety.StandsOnReceipt, Clear, ReadyToPublish, Passes;
      run := StartsWith(start, Event.Gate(pid, owner, conversation, handle, approved, named, account));
      if !open {
        return Stopped, run;
      }
      ghost var alone := (forall n :: others(n) == []) && browser;
      ghost var way := WayAhead(start, Tables(), handle, named, commitGrant, alone);
      r, run := ResumeOpen(pid, handle, named, browser, claimGrant, commitGrant, others, way, start, run);
      if r.Published? {
        PinsTheNamed(checkpoints, web.core[r.id].checkpoint, named);
      }
    }

    lemma PinsTheNamed(checkpoints: map<string, Row>, c: string, named: Option<string>)
      requires Passes(checkpoints, c, named)
      ensures c in checkpoints
      ensures named.Some? ==>
                TranscriptSha in checkpoints[c].payload && checkpoints[c].payload[TranscriptSha] == Text(named.value)
    {
    }

    /** The first step of a run. */
    lemma StartsWith(s: State, e: Event) returns (run: seq<Event>)
      requires Kept.Inv(s) && Tables() == Step(s, e)
      ensures Tables() == Run(s, run) && Kept.Inv(Tables())
    {
      hide Step, Kept.Inv, Kept.Grows;
      run := [e];
      RunOne(s, e);
      Kept.StepKeepsInv(s, e);
    }

    /** A resume that has passed its gate. */
    method ResumeOpen(pid: nat, handle: Handle, ghost named: Option<string>, browser: bool, claimGrant: Option<string>,
                      commitGrant: Option<string>, others: nat -> seq<Event>, ghost way: Option<Way>,
                      ghost start: State, ghost before: seq<Event>)
      returns (r: Outcome, ghost run: seq<Event>)
      requires Kept.Inv(Tables()) && Tables() == Run(start, before) && forall n :: Spares(others(n), pid)
      requires pid in resumes && resumes[pid].sha == named
      requires way.Some? ==>
                 && Clear(way.value) && way.value.s == Tables() && (forall n :: others(n) == []) && browser
                 && handle == OfContinuation(way.value.id) && way.value.sha == named
                 && resumes[pid] == AtContinuation(way.value.id, named) && pid !in web.flights
                 && way.value.id in web.transfers && commitGrant == Some(web.transfers[way.value.id].grant)
      modifies this`checkpoints, this`written, this`resumes, this`log, web
      ensures Tables() == Run(start, run) && Kept.Inv(Tables()) && !r.Stopped?
      ensures r.Published? ==>
                && Publication(named, r.id) in log && Safety.StandsOnReceipt(web.Tables(), r.id)
                && r.id in web.core && Passes(checkpoints, web.core[r.id].checkpoint, named)
      ensures way.Some? ==> r == Published(way.value.id)
    {
      hide Kept.Inv, Run, Step, Spares, Passes, Safety.StandsOnReceipt, Clear, OnWay;
      run := Await(pid, others(0), start, before);
      if handle.OfAllocation? {
        var known;
        known, run := SeesTarget(pid, browser, start, run);
        if known {
          return AlreadyPublished, run;
        }
        run := ResumeClaim(pid, handle.allocation, claimGrant, browser, others, start, run);
      }
      run := ResumeStatus(pid, commitGrant, browser, others, way, start, run);
      run := ResumeChecks(pid, browser, others, way, start, run);
      var published;
      published, run := ResumePublishes(pid, others, way, start, run);
      if published.None? {
        return Blocked, run;
      }
      LoggedStands(Tables(), published.value);
      r := Published(published.value.id);
    }

    method SeesTarget(pid: nat, browser: bool, ghost start: State, ghost before: seq<Event>) returns (known: bool, ghost run: seq<Event>)
      requires Kept.Inv(Tables()) && Tables() == Run(start, before)
      modifies this`resumes
      ensures Tables() == Run(start, run) && Kept.Inv(Tables()) && SameSha(old(resumes), resumes, pid)
    {
      ghost var s := Tables();
      ShaStays(s, Event.TargetLook(pid, browser), pid);
      hide Kept.Inv, Run, Step;
      known := TargetLook(pid, browser);
      run := Stepped(start, before, s, Event.TargetLook(pid, browser));
    }
  }

  /** Where a resume that goes through began, and the continuation, core row and checkpoint it
      goes by. */
  datatype Way = Way(s: State, id: Web.ContinuationId, sha: Option<string>, row: Web.CoreRow, cp: Web.Checkpoint)

  /** The receipt is there, and the continuation is prepared, with its chat and its checkpoint as
      they were. */
  predicate Clear(w: Way) {
    && w.id in w.s.web.core && w.s.web.core[w.id] == w.row && w.row.state == Web.Prepared
    && Web.Bound(w.s.web, Web.ChatKey(w.id.owner, w.id.chat)) == Some(w.row.source) && Web.ExactReceipt(w.s.web, w.id)
    && Latest(w.s, w.id.owner, w.row.run, w.id.chat) == Some(w.cp) && w.cp.id == w.row.checkpoint
  }

  predicate OnWay(w: Way, t: State, pid: nat, f: Web.Flight) {
    Along(w.s, t, pid, w.id, w.sha, f, w.row, w.row.source)
  }

  ghost function WayFrom(s: State, t: State, id: Web.ContinuationId, sha: Option<string>, grant: Option<string>): (w: Way)
    requires ReadyToPublish(s, id, grant) && t == s.(resumes := t.resumes)
    ensures Clear(w) && w.s == t && w.id == id && w.sha == sha && id in s.web.transfers && grant == Some(s.web.transfers[id].grant)
  {
    LatestIsNewest(s.checkpoints, s.written, id.owner, id.chat);
    var row := s.web.core[id];
    var pinned := s.checkpoints[row.checkpoint];
    Way(t, id, sha, row, Web.Checkpoint(row.checkpoint, row.run, pinned.conversation, TextAt(pinned.payload, Summary), pinned.sha))
  }

  /** The way of a resume that nobody disturbs, if nothing but the commit is missing. */
  lemma WayAhead(s: State, t: State, handle: Handle, sha: Option<string>, grant: Option<string>, alone: bool) returns (way: Option<Way>)
    requires t == s.(resumes := t.resumes)
    ensures way.Some? <==> alone && handle.OfContinuation? && ReadyToPublish(s, handle.id, grant)
    ensures way.Some? ==>
              && Clear(way.value) && way.value.s == t && handle == OfContinuation(way.value.id) && way.value.sha == sha
              && way.value.id in s.web.transfers && grant == Some(s.web.transfers[way.value.id].grant)
  {
    way := None;
    if alone && handle.OfContinuation? && ReadyToPublish(s, handle.id, grant) {
      way := Some(WayFrom(s, t, handle.id, sha, grant));
    }
  }

  lemma FlightIs(w: Way, t: State, pid: nat, f: Web.Flight)
    requires OnWay(w, t, pid, f)
    ensures pid in t.web.flights && t.web.flights[pid] == f && w.id in t.web.core && t.web.core[w.id] == w.row
    ensures t.checkpoints == w.s.checkpoints && t.written == w.s.written && t.log == w.s.log
  {
    hide Web.ExactReceipt;
  }

  lemma LogIs(s: State, t: State, pid: nat, id: Web.ContinuationId, sha: Option<string>, f: Web.Flight, row: Web.CoreRow, bound: string)
    requires Along(s, t, pid, id, sha, f, row, bound)
    ensures t.log == s.log
  {
    hide Stands;
  }

  lemma OneLogged(log: seq<Publication>, published: Option<Publication>, p: Publication)
    requires log + [p] == if published.Some? then log + [published.value] else log
    ensures published == Some(p)
  {
    assert |log + [p]| == |log| + 1;
    assert (log + [p])[|log|] == p;
  }

  /** What a logged publication means for good. */
  lemma LoggedStands(s: State, p: Publication)
    requires Kept.Inv(s) && p in s.log
    ensures p.id in s.web.core && Passes(s.checkpoints, s.web.core[p.id].checkpoint, p.sha) && Safety.StandsOnReceipt(s.web, p.id)
  {
    assert Kept.PublicationSound(s, p);
    hide Safety.Inv, Safety.StandsOnReceipt, Passes;
    Safety.PublishedStands(s.web, p.id);
  }

  /** The resume, if it is still there, goes by the digest it went by before. */
  predicate SameSha(before: map<nat, Resuming>, after: map<nat, Resuming>, pid: nat) {
    pid in after ==> pid in before && after[pid].sha == before[pid].sha
  }

  /** Nobody else opens a resume of this number. */
  predicate Spares(events: seq<Event>, pid: nat) {
    forall e :: e in events ==> !(e.Gate? && e.pid == pid)
  }

  lemma GoKeepsSha(s: State, p: nat, e: Web.Event, pid: nat)
    ensures SameSha(s.resumes, GoStep(s, p, e).resumes, pid)
  {
    hide Informed, Web.Step, Records, Publishing;
  }

  lemma ShaStays(s: State, e: Event, pid: nat)
    requires Spares([e], pid)
    ensures SameSha(s.resumes, Step(s, e).resumes, pid)
  {
    assert e in [e];
    hide GoStep, WriteStep, PreparedRow, Preparable, Informed, Web.Step, Web.ReconcileStep, Web.ExactReceipt, Web.NewTargetProven,
      BindingFound, Passes;
    if e.Go? {
      GoKeepsSha(s, e.pid, e.e, pid);
    }
  }

  lemma WebIsSound(s: State)
    requires Kept.Inv(s)
    ensures Safety.Inv(s.web)
  {
  }

  lemma DeathIs(w: Web.State, pid: nat)
    ensures Web.Step(w, Web.Die(pid)) == Web.Ended(w, pid)
  {
    Safety.OutsideDispatch(w, Web.Die(pid));
    hide Web.Step;
  }

  lemma GoIdles(s: State, pid: nat, e: Web.Event)
    requires pid !in s.resumes || !InOrder(s.resumes[pid], e) || e.pid != pid || !Informed(s, e)
    ensures Step(s, Event.Go(pid, e)) == s
  {
    hide Informed, Web.Step;
  }

  lemma GoIs(s: State, pid: nat, e: Web.Event)
    requires pid in s.resumes && InOrder(s.resumes[pid], e) && e.pid == pid && Informed(s, e)
    ensures var r, w := s.resumes[pid], Web.Step(s.web, e);
      var next := Next(s.web, w, pid, r, e);
      Step(s, Event.Go(pid, e))
      == State(w, s.checkpoints, s.written, if next.Some? then s.resumes[pid := next.value] else s.resumes - {pid},
               if r.Committing? && Publishing(s.web, pid, e) then s.log + [Publication(r.sha, r.id)] else s.log)
  {
    hide Informed, Web.Step, InOrder, Publishing, Next;
  }

  lemma ReconcileIs(w: Web.State, id: Web.ContinuationId)
    ensures Web.Step(w, Web.Reconcile(id)) == Web.ReconcileStep(w, id)
  {
    Safety.OutsideDispatch(w, Web.Reconcile(id));
    hide Web.Step;
  }
}
