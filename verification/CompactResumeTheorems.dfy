/** Compact&Resume over all runs: a pinned transcript comes back as it was pinned, a digest that
    a resume names is the pinned one if it publishes, and one that names none goes by nothing. */
module CompactResumeTheorems {
  import opened Basics
  import opened CompactResume
  import opened CompactResumeSafety
  import Web = WebContinuation
  import Safety = WebContinuationSafety

  // ---------------------------------------------------------------- a checkpoint is for good

  predicate Accepted(s: State, e: Event)
    requires e.Prepare?
  {
    e.id !in s.checkpoints && e.id in Step(s, e).checkpoints
  }

  lemma BindingReadsBack(t: Transcript, binding: Payload)
    requires TranscriptBinding(t) == Some(binding)
    ensures Pinned(binding) == binding && PinnedSha(binding) == t.sha && binding.Keys <= PINNED
  {
    assert forall k :: k in binding ==> k in PINNED;
  }

  lemma PayloadReadsBack(e: Event, binding: Payload)
    requires e.Prepare? && TranscriptBinding(e.transcript) == Some(binding)
    ensures Pinned(PreparedPayload(e, binding)) == binding && PinnedSha(PreparedPayload(e, binding)) == e.transcript.sha
    ensures LogicalConversation in PreparedPayload(e, binding)
    ensures PreparedPayload(e, binding)[LogicalConversation] == Text(e.conversation)
  {
    BindingReadsBack(e.transcript, binding);
    assert Pinned(PreparedPayload(e, binding)) == Pinned(binding);
  }

  lemma AcceptedWrites(s: State, e: Event)
    requires e.Prepare? && Accepted(s, e)
    ensures TranscriptBinding(e.transcript).Some?
    ensures e.id in Step(s, e).checkpoints
    ensures Step(s, e).checkpoints[e.id] == PreparedRow(s, e, TranscriptBinding(e.transcript).value)
  {
    hide TranscriptBinding, PreparedRow;
  }

  lemma Later(before: seq<Event>, e: Event, later: seq<Event>)
    ensures Grows(Step(Run(Init, before), e), Run(Step(Run(Init, before), e), later))
  {
    hide Inv, Grows, Step;
    InitIsSound();
    RunKeepsInv(Init, before);
    StepKeepsInv(Run(Init, before), e);
    RunKeepsInv(Step(Run(Init, before), e), later);
  }

  /** What an accepted prepare was given is what its checkpoint holds at any later time: the
      summary, the conversation, and of the transcript the digest, the message identifiers and
      the children, each exactly if it was given, within the bounds of prepare. */
  lemma TranscriptComesBack(before: seq<Event>, e: Event, later: seq<Event>)
    requires e.Prepare? && Accepted(Run(Init, before), e)
    ensures var t := Run(Step(Run(Init, before), e), later);
      && Acceptable(e.approved, e.key, e.summary, e.conversation, e.transcript)
      && e.id in t.checkpoints && Holds(t.checkpoints[e.id].payload, e.summary, e.conversation, e.transcript)
      && t.checkpoints[e.id].(payload := map[])
         == Row(e.owner, e.run, e.chat, Web.Bound(Run(Init, before).web, Web.ChatKey(e.owner, e.chat)), "conversation-compact-resume",
                Request(e.owner, e.run, e.chat, e.key), 0, map[], e.sha)
  {
    AcceptedIsAcceptable(Run(Init, before), e);
    HeldAsGiven(e);
    hide Inv, Step, Run, TranscriptBinding, Accepted, Web.Bound, Acceptable, Holds;
    Later(before, e, later);
    AcceptedWrites(Run(Init, before), e);
    hide PreparedPayload;
  }

  lemma AcceptedIsAcceptable(s: State, e: Event)
    requires e.Prepare? && Accepted(s, e)
    ensures Preparable(e) && Acceptable(e.approved, e.key, e.summary, e.conversation, e.transcript)
  {
    AcceptableIff(e);
    hide Acceptable, PreparedRow, WriteStep, TranscriptBinding;
  }

  lemma StreamTaken(s: State, c: string, id: string, row: Row)
    requires c in s.checkpoints && SameStream(s.checkpoints[c], row) && row.seqNo <= s.checkpoints[c].seqNo
    ensures WriteStep(s, id, row) == s
  {
  }

  /** A second prepare under the same key writes nothing, whatever transcript it brings. */
  lemma SecondPrepareWritesNothing(before: seq<Event>, e: Event, later: seq<Event>, again: Event)
    requires e.Prepare? && Accepted(Run(Init, before), e) && again.Prepare?
    requires again.owner == e.owner && again.run == e.run && again.chat == e.chat && again.key == e.key
    ensures var t := Run(Step(Run(Init, before), e), later); Step(t, again) == t
  {
    var t := Run(Step(Run(Init, before), e), later);
    hide Inv, TranscriptBinding, Accepted, Run, WriteStep, Step;
    Later(before, e, later);
    AcceptedWrites(Run(Init, before), e);
    hide Safety.Grows;
    if Preparable(again) {
      StreamTaken(t, e.id, again.id, PreparedRow(t, again, TranscriptBinding(again.transcript).value));
    }
    hide PreparedRow, Preparable;
    PreparesByWriting(t, again);
  }

  lemma PreparesByWriting(t: State, e: Event)
    requires e.Prepare?
    ensures Step(t, e) == if Preparable(e) then WriteStep(t, e.id, PreparedRow(t, e, TranscriptBinding(e.transcript).value)) else t
  {
    hide WriteStep, PreparedRow, TranscriptBinding;
  }

  // ---------------------------------------------------------------- what is published

  /** A digest a resume named is the pinned one of the checkpoint whose continuation it
      published, and that publication stands on its receipt. */
  lemma PublishedTranscriptIsTheNamedOne(events: seq<Event>, p: Publication)
    ensures var s := Run(Init, events);
      p in s.log ==>
        && p.id in s.web.core && s.web.core[p.id].checkpoint in s.checkpoints
        && (p.sha.Some? ==>
              var pinned := s.checkpoints[s.web.core[p.id].checkpoint].payload;
              TranscriptSha in pinned && pinned[TranscriptSha] == Text(p.sha.value))
        && Safety.StandsOnReceipt(s.web, p.id) && s.web.transfers[p.id].stage == Web.Published
  {
    hide Step, Safety.Inv, Safety.Grows, Safety.StandsOnReceipt;
    InitIsSound();
    RunKeepsInv(Init, events);
    var s := Run(Init, events);
    hide Run;
    if p in s.log {
      assert PublicationSound(s, p);
      Safety.PublishedStands(s.web, p.id);
    }
  }

  // ---------------------------------------------------------------- a resume that goes through

  /** A commit of this continuation under way at this point, with the core row and the binding
      as given. */
  predicate Stands(w: Web.State, pid: nat, id: Web.ContinuationId, f: Web.Flight, row: Web.CoreRow, bound: string) {
    && pid in w.flights && w.flights[pid] == f
    && id in w.core && w.core[id] == row && Web.Bound(w, Web.ChatKey(id.owner, id.chat)) == Some(bound)
    && Web.ExactReceipt(w, id)
  }

  /** Nothing but the commit itself is missing. */
  predicate Ready(s: State, pid: nat, id: Web.ContinuationId) {
    && id in s.web.core && s.web.core[id].state == Web.Prepared
    && Web.Bound(s.web, Web.ChatKey(id.owner, id.chat)) == Some(s.web.core[id].source)
    && Web.ExactReceipt(s.web, id) && pid !in s.web.flights
    && var cp := Latest(s, id.owner, s.web.core[id].run, id.chat);
    && cp.Some? && cp.value.id == s.web.core[id].checkpoint
  }

  lemma ReceiptStays(v: Web.State, w: Web.State, id: Web.ContinuationId)
    requires Web.ExactReceipt(v, id) && w.transfers == v.transfers && w.jobs == v.jobs && w.attested == v.attested
    requires id in w.core && w.core[id].target == v.core[id].target
    ensures Web.ExactReceipt(w, id)
  {
  }

  lemma AuthorizeStands(w: Web.State, pid: nat, id: Web.ContinuationId, row: Web.CoreRow, bound: string)
    requires pid !in w.flights && id in w.core && w.core[id] == row && Web.ExactReceipt(w, id)
    requires Web.Bound(w, Web.ChatKey(id.owner, id.chat)) == Some(bound)
    ensures Stands(Web.CommitAuthorizeStep(w, pid, id, true, Some(w.transfers[id].grant)), pid, id, Web.CommitAuthorized(id), row, bound)
  {
    ReceiptStays(w, Web.CommitAuthorizeStep(w, pid, id, true, Some(w.transfers[id].grant)), id);
    hide Web.ExactReceipt;
  }

  lemma StatusStands(w: Web.State, pid: nat, id: Web.ContinuationId, row: Web.CoreRow, bound: string)
    requires Stands(w, pid, id, Web.CommitAuthorized(id), row, bound) && row.state == Web.Prepared
    ensures Stands(Web.CommitStatusStep(w, pid), pid, id, Web.CommitSeen(id, Web.Prepared), row, bound)
  {
    hide Web.ExactReceipt;
    assert Web.ReconcileStep(w, id) == w;
    ReceiptStays(w, Web.CommitStatusStep(w, pid), id);
  }

  lemma ProofStands(w: Web.State, pid: nat, id: Web.ContinuationId, row: Web.CoreRow, bound: string)
    requires Stands(w, pid, id, Web.CommitSeen(id, Web.Prepared), row, bound)
    ensures Stands(Web.CommitProveStep(w, pid, true), pid, id, Web.CommitProven(id, Web.Prepared), row, bound)
  {
    hide Web.ExactReceipt;
    ReceiptStays(w, Web.CommitProveStep(w, pid, true), id);
  }

  lemma LookStands(w: Web.State, pid: nat, cp: Web.Checkpoint, id: Web.ContinuationId, row: Web.CoreRow)
    requires Stands(w, pid, id, Web.CommitProven(id, Web.Prepared), row, row.source) && row.state == Web.Prepared
    requires cp.id == row.checkpoint
    ensures Stands(Web.CommitLookStep(w, pid, cp), pid, id, Web.CommitLooked(id), row, row.source)
  {
    hide Web.ExactReceipt;
    ReceiptStays(w, Web.CommitLookStep(w, pid, cp), id);
  }

  lemma BeginStands(w: Web.State, pid: nat, id: Web.ContinuationId, row: Web.CoreRow, bound: string)
    requires Stands(w, pid, id, Web.CommitLooked(id), row, bound) && row.state == Web.Prepared
    ensures Stands(Web.CommitBeginStep(w, pid), pid, id, Web.CommitRebinding(id), row.(state := Web.Rebinding), bound)
  {
    hide Web.ExactReceipt;
    ReceiptStays(w, Web.CommitBeginStep(w, pid), id);
  }

  lemma RebindStands(w: Web.State, pid: nat, id: Web.ContinuationId, row: Web.CoreRow)
    requires Stands(w, pid, id, Web.CommitRebinding(id), row, row.source)
    ensures Stands(Web.CommitRebindStep(w, pid), pid, id, Web.CommitRebound(id), row, row.target)
  {
    hide Web.ExactReceipt;
    ReceiptStays(w, Web.CommitRebindStep(w, pid), id);
  }

  lemma SettleStands(w: Web.State, pid: nat, id: Web.ContinuationId, row: Web.CoreRow, bound: string)
    requires Stands(w, pid, id, Web.CommitRebound(id), row, bound) && row.state == Web.Rebinding
    ensures Stands(Web.CommitSettleStep(w, pid), pid, id, Web.CommitDone(id), row.(state := Web.Committed), bound)
  {
    hide Web.ExactReceipt;
    ReceiptStays(w, Web.CommitSettleStep(w, pid), id);
  }

  /** A resume committing at this point, with nothing published and no checkpoint written since. */
  predicate Along(s: State, t: State, pid: nat, id: Web.ContinuationId, sha: Option<string>, f: Web.Flight, row: Web.CoreRow,
                  bound: string) {
    && t.checkpoints == s.checkpoints && t.written == s.written && t.log == s.log
    && pid in t.resumes && t.resumes[pid] == Committing(id, sha) && Stands(t.web, pid, id, f, row, bound)
  }

  lemma Standing(w: Web.State, pid: nat, id: Web.ContinuationId, f: Web.Flight, row: Web.CoreRow, bound: string)
    requires Stands(w, pid, id, f, row, bound)
    ensures pid in w.flights
  {
  }

  /** One step of its commit moves nothing but the Web layer. */
  lemma CommitGoes(t: State, pid: nat, id: Web.ContinuationId, sha: Option<string>, e: Web.Event)
    requires pid in t.resumes && t.resumes[pid] == Committing(id, sha) && Web.CommitEvent(e) && !e.CommitAuthorize? && !e.CommitPublish?
    requires e.pid == pid && Informed(t, e) && pid in Web.Step(t.web, e).flights
    ensures Step(t, Go(pid, e)) == t.(web := Web.Step(t.web, e))
  {
    hide Web.Step, Informed, Records;
    assert t.resumes[pid := Committing(id, sha)] == t.resumes;
  }

  lemma GoesAlong(s: State, t: State, pid: nat, id: Web.ContinuationId, sha: Option<string>, f: Web.Flight, row: Web.CoreRow,
                  bound: string, e: Web.Event, g: Web.Flight, next: Web.CoreRow, moved: string)
    requires Along(s, t, pid, id, sha, f, row, bound) && Web.CommitEvent(e) && !e.CommitAuthorize? && !e.CommitPublish?
    requires e.pid == pid && Informed(t, e) && Stands(Web.CommitStep(t.web, e), pid, id, g, next, moved)
    ensures Along(s, Step(t, Go(pid, e)), pid, id, sha, g, next, moved)
  {
    Safety.CommitDispatch(t.web, e);
    hide Web.Step, Web.CommitStep, Informed, Web.CommitEvent, Step;
    Standing(Web.CommitStep(t.web, e), pid, id, g, next, moved);
    hide Stands;
    CommitGoes(t, pid, id, sha, e);
  }

  lemma NeedsNothing(t: State, e: Web.Event)
    requires Web.CommitEvent(e) && !e.CommitLook?
    ensures Informed(t, e)
  {
  }

  lemma LookIsInformed(t: State, pid: nat, cp: Web.Checkpoint, id: Web.ContinuationId, row: Web.CoreRow)
    requires Stands(t.web, pid, id, Web.CommitProven(id, Web.Prepared), row, row.source)
    requires Latest(t, id.owner, row.run, id.chat) == Some(cp)
    ensures Informed(t, Web.CommitLook(pid, cp))
  {
    hide Latest, Web.ExactReceipt, Web.Bound;
  }

  lemma SameLatest(s: State, t: State, owner: string, run: string, chat: string)
    requires t.checkpoints == s.checkpoints && t.written == s.written
    ensures Latest(t, owner, run, chat) == Latest(s, owner, run, chat)
  {
    hide LatestOf;
  }

  lemma RunOne(s: State, e: Event)
    ensures Run(s, [e]) == Step(s, e)
  {
    hide Step;
    assert [e][1..] == [];
  }

  lemma {:induction false} RunAppend(s: State, a: seq<Event>, b: seq<Event>)
    ensures Run(s, a + b) == Run(Run(s, a), b)
    decreases |a|
  {
    hide Step;
    if a == [] {
      assert a + b == b;
    } else {
      assert (a + b)[1..] == a[1..] + b;
      RunAppend(Step(s, a[0]), a[1..], b);
    }
  }

  lemma RunTwo(s: State, a: Event, b: Event)
    ensures Run(s, [a, b]) == Step(Step(s, a), b)
  {
    hide Step;
    assert [a, b] == [a] + [b];
    RunAppend(s, [a], [b]);
    RunOne(s, a);
    RunOne(Step(s, a), b);
  }

  lemma StatusPasses(s: State, pid: nat, id: Web.ContinuationId, sha: Option<string>)
    requires pid in s.resumes && s.resumes[pid] == AtContinuation(id, sha)
    requires id in s.web.core && s.web.core[id].state == Web.Prepared && Web.ExactReceipt(s.web, id)
    ensures Step(s, StatusLook(pid, true)) == Phase(s, pid, StatusSeen(id, sha))
  {
    hide Web.ExactReceipt;
    assert Web.ReconcileStep(s.web, id) == s.web;
  }

  lemma AuthorizeGoes(u: State, pid: nat, id: Web.ContinuationId, sha: Option<string>, e: Web.Event)
    requires pid in u.resumes && u.resumes[pid] == StatusSeen(id, sha) && e.CommitAuthorize? && e.id == id && e.approved && e.pid == pid
    requires pid in Web.Step(u.web, e).flights
    ensures Step(u, Go(pid, e)) == Phase(u.(web := Web.Step(u.web, e)), pid, Committing(id, sha))
  {
    hide Web.Step;
  }

  lemma AuthorizeAlong(s: State, u: State, pid: nat, id: Web.ContinuationId, sha: Option<string>, e: Web.Event)
    requires u == Phase(s, pid, StatusSeen(id, sha)) && Ready(s, pid, id)
    requires e == Web.CommitAuthorize(pid, id, true, Some(s.web.transfers[id].grant))
    ensures Along(s, Step(u, Go(pid, e)), pid, id, sha, Web.CommitAuthorized(id), s.web.core[id], s.web.core[id].source)
  {
    hide Latest, Step, Web.ExactReceipt, Web.Bound, Web.CommitAuthorizeStep, Web.Step;
    AuthorizeStands(s.web, pid, id, s.web.core[id], s.web.core[id].source);
    Safety.CommitDispatch(s.web, e);
    AuthorizeGoes(u, pid, id, sha, e);
  }

  /** The status of a resume that has its receipt, and its grant. */
  lemma ResumeBegins(s: State, pid: nat, id: Web.ContinuationId, sha: Option<string>) returns (t: State)
    requires pid in s.resumes && s.resumes[pid] == AtContinuation(id, sha) && Ready(s, pid, id)
    ensures t == Run(s, [StatusLook(pid, true), Go(pid, Web.CommitAuthorize(pid, id, true, Some(s.web.transfers[id].grant)))])
    ensures Along(s, t, pid, id, sha, Web.CommitAuthorized(id), s.web.core[id], s.web.core[id].source)
  {
    var e := Web.CommitAuthorize(pid, id, true, Some(s.web.transfers[id].grant));
    StatusPasses(s, pid, id, sha);
    AuthorizeAlong(s, Phase(s, pid, StatusSeen(id, sha)), pid, id, sha, e);
    RunTwo(s, StatusLook(pid, true), Go(pid, e));
    hide *;
    t := Run(s, [StatusLook(pid, true), Go(pid, e)]);
  }

  lemma StatusAlong(s: State, t: State, pid: nat, id: Web.ContinuationId, sha: Option<string>, row: Web.CoreRow, bound: string)
    requires Along(s, t, pid, id, sha, Web.CommitAuthorized(id), row, bound) && row.state == Web.Prepared
    ensures Along(s, Step(t, Go(pid, Web.CommitStatus(pid))), pid, id, sha, Web.CommitSeen(id, Web.Prepared), row, bound)
  {
    hide Stands, Web.CommitStatusStep, Step;
    StatusStands(t.web, pid, id, row, bound);
    NeedsNothing(t, Web.CommitStatus(pid));
    GoesAlong(s, t, pid, id, sha, Web.CommitAuthorized(id), row, bound,
              Web.CommitStatus(pid), Web.CommitSeen(id, Web.Prepared), row, bound);
  }

  lemma ProofAlong(s: State, t: State, pid: nat, id: Web.ContinuationId, sha: Option<string>, row: Web.CoreRow, bound: string)
    requires Along(s, t, pid, id, sha, Web.CommitSeen(id, Web.Prepared), row, bound)
    ensures Along(s, Step(t, Go(pid, Web.CommitProve(pid, true))), pid, id, sha, Web.CommitProven(id, Web.Prepared), row, bound)
  {
    hide Stands, Web.CommitProveStep, Step;
    ProofStands(t.web, pid, id, row, bound);
    NeedsNothing(t, Web.CommitProve(pid, true));
    GoesAlong(s, t, pid, id, sha, Web.CommitSeen(id, Web.Prepared), row, bound, Web.CommitProve(pid, true),
              Web.CommitProven(id, Web.Prepared), row, bound);
  }

  lemma LookAlong(s: State, t: State, pid: nat, id: Web.ContinuationId, sha: Option<string>, row: Web.CoreRow, cp: Web.Checkpoint)
    requires Along(s, t, pid, id, sha, Web.CommitProven(id, Web.Prepared), row, row.source) && row.state == Web.Prepared
    requires Latest(s, id.owner, row.run, id.chat) == Some(cp) && cp.id == row.checkpoint
    ensures Along(s, Step(t, Go(pid, Web.CommitLook(pid, cp))), pid, id, sha, Web.CommitLooked(id), row, row.source)
  {
    hide Stands, Web.CommitLookStep, Step, Latest;
    SameLatest(s, t, id.owner, row.run, id.chat);
    LookIsInformed(t, pid, cp, id, row);
    LookStands(t.web, pid, cp, id, row);
    GoesAlong(s, t, pid, id, sha, Web.CommitProven(id, Web.Prepared), row, row.source, Web.CommitLook(pid, cp), Web.CommitLooked(id),
              row, row.source);
  }

  lemma BeginAlong(s: State, t: State, pid: nat, id: Web.ContinuationId, sha: Option<string>, row: Web.CoreRow)
    requires Along(s, t, pid, id, sha, Web.CommitLooked(id), row, row.source) && row.state == Web.Prepared
    ensures Along(s, Step(t, Go(pid, Web.CommitBegin(pid))), pid, id, sha, Web.CommitRebinding(id), row.(state := Web.Rebinding), row.source)
  {
    hide Stands, Web.CommitBeginStep, Step;
    BeginStands(t.web, pid, id, row, row.source);
    NeedsNothing(t, Web.CommitBegin(pid));
    GoesAlong(s, t, pid, id, sha, Web.CommitLooked(id), row, row.source, Web.CommitBegin(pid), Web.CommitRebinding(id),
              row.(state := Web.Rebinding), row.source);
  }

  lemma RebindAlong(s: State, t: State, pid: nat, id: Web.ContinuationId, sha: Option<string>, row: Web.CoreRow)
    requires Along(s, t, pid, id, sha, Web.CommitRebinding(id), row, row.source)
    ensures Along(s, Step(t, Go(pid, Web.CommitRebind(pid))), pid, id, sha, Web.CommitRebound(id), row, row.target)
  {
    hide Stands, Web.CommitRebindStep, Step;
    RebindStands(t.web, pid, id, row);
    NeedsNothing(t, Web.CommitRebind(pid));
    GoesAlong(s, t, pid, id, sha, Web.CommitRebinding(id), row, row.source, Web.CommitRebind(pid), Web.CommitRebound(id), row, row.target);
  }

  lemma SettleAlong(s: State, t: State, pid: nat, id: Web.ContinuationId, sha: Option<string>, row: Web.CoreRow, bound: string)
    requires Along(s, t, pid, id, sha, Web.CommitRebound(id), row, bound) && row.state == Web.Rebinding
    ensures Along(s, Step(t, Go(pid, Web.CommitSettle(pid))), pid, id, sha, Web.CommitDone(id), row.(state := Web.Committed), bound)
  {
    hide Stands, Web.CommitSettleStep, Step;
    SettleStands(t.web, pid, id, row, bound);
    NeedsNothing(t, Web.CommitSettle(pid));
    GoesAlong(s, t, pid, id, sha, Web.CommitRebound(id), row, bound, Web.CommitSettle(pid), Web.CommitDone(id),
              row.(state := Web.Committed), bound);
  }

  /** Status and receipt of the commit. */
  lemma ResumeChecks(s: State, t: State, pid: nat, id: Web.ContinuationId, sha: Option<string>, row: Web.CoreRow, bound: string)
    returns (u: State)
    requires Along(s, t, pid, id, sha, Web.CommitAuthorized(id), row, bound) && row.state == Web.Prepared
    ensures u == Run(t, [Go(pid, Web.CommitStatus(pid)), Go(pid, Web.CommitProve(pid, true))])
    ensures Along(s, u, pid, id, sha, Web.CommitProven(id, Web.Prepared), row, bound)
  {
    hide Step, Along;
    var a, b := Go(pid, Web.CommitStatus(pid)), Go(pid, Web.CommitProve(pid, true));
    StatusAlong(s, t, pid, id, sha, row, bound);
    ProofAlong(s, Step(t, a), pid, id, sha, row, bound);
    u := Step(Step(t, a), b);
    RunTwo(t, a, b);
  }

  /** The reads of the control plane, and the rebinding begins. */
  lemma ResumeRebinds(s: State, t: State, pid: nat, id: Web.ContinuationId, sha: Option<string>, row: Web.CoreRow, cp: Web.Checkpoint)
    returns (u: State)
    requires Along(s, t, pid, id, sha, Web.CommitProven(id, Web.Prepared), row, row.source) && row.state == Web.Prepared
    requires Latest(s, id.owner, row.run, id.chat) == Some(cp) && cp.id == row.checkpoint
    ensures u == Run(t, [Go(pid, Web.CommitLook(pid, cp)), Go(pid, Web.CommitBegin(pid))])
    ensures Along(s, u, pid, id, sha, Web.CommitRebinding(id), row.(state := Web.Rebinding), row.source)
  {
    hide Step, Along, Latest;
    var a, b := Go(pid, Web.CommitLook(pid, cp)), Go(pid, Web.CommitBegin(pid));
    LookAlong(s, t, pid, id, sha, row, cp);
    BeginAlong(s, Step(t, a), pid, id, sha, row);
    u := Step(Step(t, a), b);
    RunTwo(t, a, b);
  }

  lemma ResumeSettles(s: State, t: State, pid: nat, id: Web.ContinuationId, sha: Option<string>, row: Web.CoreRow)
    returns (u: State)
    requires Along(s, t, pid, id, sha, Web.CommitRebinding(id), row, row.source) && row.state == Web.Rebinding
    ensures u == Run(t, [Go(pid, Web.CommitRebind(pid)), Go(pid, Web.CommitSettle(pid))])
    ensures Along(s, u, pid, id, sha, Web.CommitDone(id), row.(state := Web.Committed), row.target)
  {
    hide Step, Along;
    var a, b := Go(pid, Web.CommitRebind(pid)), Go(pid, Web.CommitSettle(pid));
    RebindAlong(s, t, pid, id, sha, row);
    SettleAlong(s, Step(t, a), pid, id, sha, row, row.target);
    u := Step(Step(t, a), b);
    RunTwo(t, a, b);
  }

  lemma ResumePublishes(s: State, t: State, pid: nat, id: Web.ContinuationId, sha: Option<string>, row: Web.CoreRow, bound: string)
    requires Along(s, t, pid, id, sha, Web.CommitDone(id), row, bound)
    ensures Step(t, Go(pid, Web.CommitPublish(pid))).log == s.log + [Publication(sha, id)]
  {
    var e := Web.CommitPublish(pid);
    NeedsNothing(t, e);
    hide Web.Step, Informed;
    assert id in t.web.transfers by { hide Web.Bound, Web.AttestedFor; }
    assert Publishing(t.web, pid, e);
    hide Publishing;
  }

  /** From its first gate on a resume that is ready publishes. */
  lemma ReadyResumePublishes(s: State, pid: nat, id: Web.ContinuationId, sha: Option<string>) returns (events: seq<Event>)
    requires pid in s.resumes && s.resumes[pid] == AtContinuation(id, sha) && Ready(s, pid, id)
    ensures Run(s, events).log == s.log + [Publication(sha, id)]
  {
    var row, cp := s.web.core[id], Latest(s, id.owner, s.web.core[id].run, id.chat).value;
    hide Step, Run, Stands, Latest, Web.ExactReceipt, Web.Bound;
    var a := [StatusLook(pid, true), Go(pid, Web.CommitAuthorize(pid, id, true, Some(s.web.transfers[id].grant)))];
    var t := ResumeBegins(s, pid, id, sha);
    var b := [Go(pid, Web.CommitStatus(pid)), Go(pid, Web.CommitProve(pid, true))];
    RunAppend(s, a, b);
    t := ResumeChecks(s, t, pid, id, sha, row, row.source);
    var c := [Go(pid, Web.CommitLook(pid, cp)), Go(pid, Web.CommitBegin(pid))];
    RunAppend(s, a + b, c);
    t := ResumeRebinds(s, t, pid, id, sha, row, cp);
    var d := [Go(pid, Web.CommitRebind(pid)), Go(pid, Web.CommitSettle(pid))];
    RunAppend(s, a + b + c, d);
    t := ResumeSettles(s, t, pid, id, sha, row.(state := Web.Rebinding));
    var e := Go(pid, Web.CommitPublish(pid));
    RunAppend(s, a + b + c + d, [e]);
    RunOne(t, e);
    ResumePublishes(s, t, pid, id, sha, row.(state := Web.Committed), row.target);
    events := a + b + c + d + [e];
  }

  lemma GatePasses(s: State, pid: nat, owner: string, conversation: string, id: Web.ContinuationId, sha: Option<string>)
    requires pid !in s.resumes && pid !in s.web.flights && BindingFound(s, owner, conversation, OfContinuation(id))
    requires sha.None? || PinnedSha(s.checkpoints[s.web.core[id].checkpoint].payload) == sha
    ensures Step(s, Gate(pid, owner, conversation, OfContinuation(id), true, sha, true)) == Phase(s, pid, AtContinuation(id, sha))
  {
    hide PinnedSha;
  }

  /** A resume that has its receipt and its binding can publish exactly if it names no digest or
      the pinned one: without a name any transcript may have been pinned. */
  lemma ResumePublishesIff(s: State, pid: nat, owner: string, conversation: string, id: Web.ContinuationId, sha: Option<string>)
    requires Inv(s) && Ready(s, pid, id) && pid !in s.resumes && BindingFound(s, owner, conversation, OfContinuation(id))
    ensures (exists events :: Run(s, events).log == s.log + [Publication(sha, id)])
            <==> (sha.None? || PinnedSha(s.checkpoints[s.web.core[id].checkpoint].payload) == sha)
  {
    hide Step, Run, Latest, PinnedSha, Safety.Inv;
    var p := Publication(sha, id);
    forall events | Run(s, events).log == s.log + [p] ensures Passes(s.checkpoints, s.web.core[id].checkpoint, sha) {
      RunKeepsInv(s, events);
      PublishedPasses(s, Run(s, events), p);
    }
    if sha.None? || PinnedSha(s.checkpoints[s.web.core[id].checkpoint].payload) == sha {
      GatePasses(s, pid, owner, conversation, id, sha);
      var e := Gate(pid, owner, conversation, OfContinuation(id), true, sha, true);
      var t := Phase(s, pid, AtContinuation(id, sha));
      assert Ready(t, pid, id) by {
        hide BindingFound, Web.ExactReceipt;
        SameLatest(s, t, id.owner, s.web.core[id].run, id.chat);
        StaysExact(s.web, t.web, id);
      }
      var rest := ReadyResumePublishes(t, pid, id, sha);
      RunOne(s, e);
      RunAppend(s, [e], rest);
      assert Run(s, [e] + rest).log == s.log + [p];
    }
  }

  lemma StaysExact(v: Web.State, w: Web.State, id: Web.ContinuationId)
    requires v == w && Web.ExactReceipt(v, id)
    ensures Web.ExactReceipt(w, id)
  {
  }

  /** What a publication passed it would pass at an earlier time. */
  lemma PublishedPasses(s: State, t: State, p: Publication)
    requires Inv(t) && Grows(s, t) && p in t.log && p.id in s.web.core && s.web.core[p.id].checkpoint in s.checkpoints
    ensures Passes(s.checkpoints, s.web.core[p.id].checkpoint, p.sha)
  {
    hide Safety.Inv, Safety.Grows, PinnedSha;
    assert PublicationSound(t, p);
    Safety.CoreStays(s.web, t.web, p.id);
  }
}
