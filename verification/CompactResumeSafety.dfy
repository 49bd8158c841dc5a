/** What every step of a Compact&Resume keeps. A resume stays on the checkpoint whose pinned
    transcript passed its gate: an allocation names the same checkpoint for good, a claim
    prepares the continuation of that very checkpoint, and a continuation never changes the one
    it names. So what a resume commits in the end is what it was let through with. Checkpoints
    are only added, and what the Web layer has established stays. The lemmas come in the order
    of the argument: facts that survive growth, what a step of the Web layer leaves of the
    resume it belongs to, and then each event in turn. */
module CompactResumeSafety {
  import opened Basics
  import opened CompactResume
  import Web = WebContinuation
  import Safety = WebContinuationSafety

  /** Checkpoints are only added, and what the Web layer has established stays. */
  ghost predicate Grows(s: State, t: State) {
    && (forall c :: c in s.checkpoints ==> c in t.checkpoints && t.checkpoints[c] == s.checkpoints[c])
    && Safety.Grows(s.web, t.web) && s.log <= t.log
  }

  /** The checkpoint of the allocation passed the comparison. */
  predicate AllocationGated(s: State, x: string, sha: Option<string>) {
    x in s.web.allocations && Passes(s.checkpoints, s.web.allocations[x].checkpoint, sha)
  }

  predicate ContinuationGated(s: State, id: Web.ContinuationId, sha: Option<string>) {
    id in s.web.core && Passes(s.checkpoints, s.web.core[id].checkpoint, sha)
  }

  /** The claim a resume makes is of its allocation, and prepares the same checkpoint. */
  predicate ClaimOf(w: Web.State, pid: nat, x: string) {
    && pid in w.flights
    && var f := w.flights[pid];
    && (f.ClaimAuthorized? || f.ClaimProven? || f.ClaimPrepared?) && f.allocation == x
    && x in w.allocations && f.a.checkpoint == w.allocations[x].checkpoint
    && (f.ClaimPrepared? ==> PreparedSame(w, f.a))
  }

  predicate PreparedSame(w: Web.State, a: Web.Allocation) {
    Web.ClaimId(a) in w.core && w.core[Web.ClaimId(a)].checkpoint == a.checkpoint
  }

  predicate Commits(f: Web.Flight, id: Web.ContinuationId) {
    match f
    case CommitAuthorized(i) => i == id
    case CommitSeen(i, _) => i == id
    case CommitProven(i, _) => i == id
    case CommitLooked(i) => i == id
    case CommitRebinding(i) => i == id
    case CommitRebound(i) => i == id
    case CommitFailed(i) => i == id
    case CommitDone(i) => i == id
    case _ => false
  }

  predicate CommitOf(w: Web.State, pid: nat, id: Web.ContinuationId) {
    pid in w.flights && Commits(w.flights[pid], id)
  }

  predicate ResumeSound(s: State, pid: nat)
    requires pid in s.resumes
  {
    match s.resumes[pid]
    case AtAllocation(x, sha) => AllocationGated(s, x, sha) && pid !in s.web.flights
    case TargetSeen(x, sha) => AllocationGated(s, x, sha) && pid !in s.web.flights
    case Claiming(x, sha) => AllocationGated(s, x, sha) && ClaimOf(s.web, pid, x)
    case AtContinuation(id, sha) => ContinuationGated(s, id, sha) && pid !in s.web.flights
    case StatusSeen(id, sha) => ContinuationGated(s, id, sha) && pid !in s.web.flights
    case Committing(id, sha) => ContinuationGated(s, id, sha) && CommitOf(s.web, pid, id)
  }

  predicate PublicationSound(s: State, p: Publication) {
    && ContinuationGated(s, p.id, p.sha)
    && p.id in s.web.transfers && s.web.transfers[p.id].stage == Web.Published
  }

  ghost predicate Inv(s: State) {
    && Safety.Inv(s.web)
    && (forall pid :: pid in s.resumes ==> ResumeSound(s, pid))
    && (forall p :: p in s.log ==> PublicationSound(s, p))
  }

  lemma InitIsSound()
    ensures Inv(Init)
  {
    Safety.InitIsSound();
  }

  // ---------------------------------------------------------------- facts survive growth

  lemma GrowsItself(s: State)
    ensures Grows(s, s)
  {
    Safety.GrowsItself(s.web);
  }

  lemma GrowsTrans(s: State, t: State, u: State)
    requires Grows(s, t) && Grows(t, u)
    ensures Grows(s, u)
  {
    Safety.GrowsTrans(s.web, t.web, u.web);
  }

  lemma AllocationGatedStays(s: State, t: State, x: string, sha: Option<string>)
    requires Grows(s, t) && AllocationGated(s, x, sha)
    ensures AllocationGated(t, x, sha)
  {
    hide Safety.Grows;
    Safety.AllocationStays(s.web, t.web, x);
  }

  lemma ContinuationGatedStays(s: State, t: State, id: Web.ContinuationId, sha: Option<string>)
    requires Grows(s, t) && ContinuationGated(s, id, sha)
    ensures ContinuationGated(t, id, sha)
  {
    hide Safety.Grows;
    Safety.CoreStays(s.web, t.web, id);
  }

  lemma ClaimStays(v: Web.State, w: Web.State, pid: nat, x: string)
    requires Safety.Grows(v, w) && Safety.SameFlight(v, w, pid) && ClaimOf(v, pid, x)
    ensures ClaimOf(w, pid, x)
  {
    hide Safety.Grows;
    Safety.AllocationStays(v, w, x);
    if v.flights[pid].ClaimPrepared? {
      Safety.CoreStays(v, w, Web.ClaimId(v.flights[pid].a));
    }
  }

  /** A resume that has not moved is sound still. */
  lemma ResumeStays(s: State, t: State, pid: nat)
    requires Grows(s, t) && Safety.SameFlight(s.web, t.web, pid) && pid in s.resumes && ResumeSound(s, pid)
    requires pid in t.resumes && t.resumes[pid] == s.resumes[pid]
    ensures ResumeSound(t, pid)
  {
    hide Safety.Grows, AllocationGated, ContinuationGated, ClaimOf;
    assert Safety.Grows(s.web, t.web);
    match s.resumes[pid]
    case AtAllocation(x, sha) => AllocationGatedStays(s, t, x, sha);
    case TargetSeen(x, sha) => AllocationGatedStays(s, t, x, sha);
    case Claiming(x, sha) =>
      AllocationGatedStays(s, t, x, sha);
      ClaimStays(s.web, t.web, pid, x);
    case AtContinuation(id, sha) => ContinuationGatedStays(s, t, id, sha);
    case StatusSeen(id, sha) => ContinuationGatedStays(s, t, id, sha);
    case Committing(id, sha) => ContinuationGatedStays(s, t, id, sha);
  }

  lemma PublicationStays(s: State, t: State, p: Publication)
    requires Grows(s, t) && PublicationSound(s, p)
    ensures PublicationSound(t, p)
  {
    ContinuationGatedStays(s, t, p.id, p.sha);
    assert Safety.TransferKept(s.web, t.web, p.id);
  }

  /** Every resume is where it was, except one that is sound where it is now. */
  ghost predicate Moves(s: State, t: State, pid: nat) {
    && (forall q :: q in t.resumes && q != pid ==> q in s.resumes && t.resumes[q] == s.resumes[q] && Safety.SameFlight(s.web, t.web, q))
    && (pid in t.resumes ==> ResumeSound(t, pid))
  }

  lemma MovingKeeps(s: State, t: State, pid: nat)
    requires Inv(s) && Grows(s, t) && Moves(s, t, pid) && Safety.Inv(t.web)
    requires t.log == s.log || (t.log != [] && t.log == s.log + [t.log[|t.log| - 1]] && PublicationSound(t, t.log[|t.log| - 1]))
    ensures Inv(t)
  {
    hide Safety.Inv, Safety.Grows, ResumeSound, PublicationSound, Grows;
    forall q | q in t.resumes ensures ResumeSound(t, q) {
      if q != pid {
        ResumeStays(s, t, q);
      }
    }
    forall p | p in t.log ensures PublicationSound(t, p) {
      if p in s.log {
        PublicationStays(s, t, p);
      }
    }
  }

  lemma StayingKeeps(s: State, t: State)
    requires Inv(s) && Grows(s, t) && Safety.Inv(t.web) && t.log == s.log
    requires forall q :: q in t.resumes ==> q in s.resumes && t.resumes[q] == s.resumes[q] && Safety.SameFlight(s.web, t.web, q)
    ensures Inv(t)
  {
    hide Safety.Inv, Safety.Grows, ResumeSound, PublicationSound, Grows;
    forall q | q in t.resumes ensures ResumeSound(t, q) {
      ResumeStays(s, t, q);
    }
    forall p | p in t.log ensures PublicationSound(t, p) {
      PublicationStays(s, t, p);
    }
  }

  // ---------------------------------------------------------------- the steps

  ghost predicate Keeps(s: State, t: State) {
    Inv(t) && Grows(s, t)
  }

  lemma SameWebGrows(s: State, t: State)
    requires t.web == s.web && t.log == s.log
    requires forall c :: c in s.checkpoints ==> c in t.checkpoints && t.checkpoints[c] == s.checkpoints[c]
    ensures Grows(s, t)
  {
    Safety.GrowsItself(s.web);
  }

  lemma WriteKeeps(s: State, id: string, row: Row)
    requires Inv(s)
    ensures Keeps(s, WriteStep(s, id, row))
  {
    var t := WriteStep(s, id, row);
    hide Safety.Inv, Safety.Grows;
    SameWebGrows(s, t);
    hide Grows;
    StayingKeeps(s, t);
  }

  lemma WebStepKeeps(s: State, e: Web.Event)
    requires Inv(s)
    ensures Keeps(s, WebStepStep(s, e))
  {
    hide Safety.Inv, Safety.Grows, Informed, Web.Step, ResumeSound, PublicationSound;
    GrowsItself(s);
    var t := WebStepStep(s, e);
    if t != s {
      Safety.StepKeepsInv(s.web, e);
      forall q | q in t.resumes ensures Safety.SameFlight(s.web, t.web, q) {
        Safety.OtherLeavesFlight(s.web, e, q);
      }
      StayingKeeps(s, t);
    }
  }

  lemma PhaseKeeps(s: State, pid: nat, r: Resuming)
    requires Inv(s) && ResumeSound(Phase(s, pid, r), pid)
    ensures Keeps(s, Phase(s, pid, r))
  {
    var t := Phase(s, pid, r);
    hide Safety.Inv, Safety.Grows, ResumeSound, PublicationSound;
    SameWebGrows(s, t);
    hide Grows;
    MovingKeeps(s, t, pid);
  }

  lemma OverKeeps(s: State, pid: nat)
    requires Inv(s)
    ensures Keeps(s, Over(s, pid))
  {
    var t := Over(s, pid);
    hide Safety.Inv, Safety.Grows, ResumeSound, PublicationSound;
    SameWebGrows(s, t);
    hide Grows;
    MovingKeeps(s, t, pid);
  }

  lemma GateIsSound(s: State, e: Event)
    requires e.Gate? && GateStep(s, e) != s
    ensures ResumeSound(GateStep(s, e), e.pid)
  {
    hide PinnedSha;
  }

  lemma GateKeeps(s: State, e: Event)
    requires Inv(s) && e.Gate?
    ensures Keeps(s, GateStep(s, e))
  {
    hide Inv, Grows, ResumeSound, BindingFound, Passes;
    GrowsItself(s);
    var t := GateStep(s, e);
    if t != s {
      GateIsSound(s, e);
      PhaseKeeps(s, e.pid, t.resumes[e.pid]);
    }
  }

  lemma ResumeFact(s: State, pid: nat)
    requires Inv(s) && pid in s.resumes
    ensures ResumeSound(s, pid)
  {
  }

  lemma TargetLookKeeps(s: State, pid: nat, browser: bool)
    requires Inv(s)
    ensures Keeps(s, TargetLookStep(s, pid, browser))
  {
    hide Inv, Grows, Web.NewTargetProven, Passes;
    GrowsItself(s);
    if pid in s.resumes && s.resumes[pid].AtAllocation? {
      ResumeFact(s, pid);
      OverKeeps(s, pid);
      PhaseKeeps(s, pid, TargetSeen(s.resumes[pid].allocation, s.resumes[pid].sha));
    }
  }

  /** A step of the Web layer that touches no flight. */
  lemma WebKeeps(s: State, w: Web.State)
    requires Inv(s) && Safety.Inv(w) && Safety.Grows(s.web, w) && w.flights == s.web.flights
    ensures Keeps(s, s.(web := w))
  {
    var t := s.(web := w);
    hide Safety.Inv, Safety.Grows, ResumeSound, PublicationSound;
    StatusGrows(s, t);
    StayingKeeps(s, t);
  }

  lemma StatusLookKeeps(s: State, pid: nat, browser: bool)
    requires Inv(s)
    ensures Keeps(s, StatusLookStep(s, pid, browser))
  {
    hide Inv, Grows, Web.ExactReceipt, Web.ReconcileStep, Passes;
    GrowsItself(s);
    if pid in s.resumes && s.resumes[pid].AtContinuation? {
      var r := s.resumes[pid];
      var t := s.(web := Web.ReconcileStep(s.web, r.id));
      WebOf(s);
      Safety.ReconcileKeeps(s.web, r.id);
      hide Safety.Inv, Safety.Grows;
      WebKeeps(s, t.web);
      ResumeFact(t, pid);
      OverKeeps(t, pid);
      PhaseKeeps(t, pid, StatusSeen(r.id, r.sha));
      GrowsTrans(s, t, StatusLookStep(s, pid, browser));
    }
  }

  lemma WebOf(s: State)
    requires Inv(s)
    ensures Safety.Inv(s.web)
  {
  }

  lemma StatusGrows(s: State, t: State)
    requires Safety.Grows(s.web, t.web) && t.checkpoints == s.checkpoints && t.log == s.log
    ensures Grows(s, t)
  {
  }

  // ---------------------------------------------------------------- a resume's own Web steps

  lemma ClaimBegins(w: Web.State, e: Web.Event)
    requires e.ClaimAuthorize? && e.pid !in w.flights && e.pid in Web.Step(w, e).flights
    ensures ClaimOf(Web.Step(w, e), e.pid, e.allocation)
  {
    Safety.ClaimDispatch(w, e);
    hide Web.Step;
  }

  lemma PreparedCheckpoint(w: Web.State, id: Web.ContinuationId, run: string, cp: Web.Checkpoint, target: string)
    ensures var r := Web.PreparedCore(w, id, run, cp, target); r.Some? ==> r.value.checkpoint == cp.id
  {
    hide Web.HasOpen, Web.Bound;
  }

  lemma ClaimProofGoesOn(w: Web.State, pid: nat, browser: bool, x: string)
    requires ClaimOf(w, pid, x) && pid in Web.ClaimProveStep(w, pid, browser).flights
    ensures ClaimOf(Web.ClaimProveStep(w, pid, browser), pid, x)
  {
    hide Web.NewTargetProven, Web.ReceiptOf, PreparedSame;
    if w.flights[pid].ClaimAuthorized? {
    } else {
      assert Web.ClaimProveStep(w, pid, browser) == w;
    }
  }

  lemma ClaimPreparationMoves(w: Web.State, pid: nat, cp: Web.Checkpoint, x: string, a: Web.Allocation, r: Web.Receipt, row: Web.CoreRow)
    requires pid in w.flights && w.flights[pid] == Web.ClaimProven(x, a, r)
    requires cp.id == a.checkpoint && Web.PreparedCore(w, Web.ClaimId(a), a.run, cp, r.conversation) == Some(row)
    ensures Web.ClaimPrepareStep(w, pid, cp) == Web.With(w.(core := w.core[Web.ClaimId(a) := row]), pid, Web.ClaimPrepared(x, a, r))
  {
    hide Web.PreparedCore;
  }

  lemma ClaimPreparationEnds(w: Web.State, pid: nat, cp: Web.Checkpoint)
    requires pid in w.flights && w.flights[pid].ClaimProven? && pid in Web.ClaimPrepareStep(w, pid, cp).flights
    ensures var f := w.flights[pid];
      cp.id == f.a.checkpoint && Web.PreparedCore(w, Web.ClaimId(f.a), f.a.run, cp, f.receipt.conversation).Some?
  {
    hide Web.PreparedCore;
  }

  lemma ClaimPreparationIdles(w: Web.State, pid: nat, cp: Web.Checkpoint)
    requires pid in w.flights && !w.flights[pid].ClaimProven?
    ensures Web.ClaimPrepareStep(w, pid, cp) == w
  {
  }

  lemma ClaimPreparationGoesOn(w: Web.State, pid: nat, cp: Web.Checkpoint, x: string)
    requires ClaimOf(w, pid, x) && pid in Web.ClaimPrepareStep(w, pid, cp).flights
    ensures ClaimOf(Web.ClaimPrepareStep(w, pid, cp), pid, x)
  {
    hide Web.PreparedCore, Web.ClaimPrepareStep;
    var f := w.flights[pid];
    if f.ClaimProven? {
      ClaimPreparationEnds(w, pid, cp);
      var row := Web.PreparedCore(w, Web.ClaimId(f.a), f.a.run, cp, f.receipt.conversation).value;
      PreparedCheckpoint(w, Web.ClaimId(f.a), f.a.run, cp, f.receipt.conversation);
      ClaimPreparationMoves(w, pid, cp, x, f.a, f.receipt, row);
    } else {
      ClaimPreparationIdles(w, pid, cp);
    }
  }

  /** The record ends the claim. */
  lemma RecordingIdles(w: Web.State, pid: nat)
    requires pid in Web.ClaimRecordStep(w, pid).flights
    ensures Web.ClaimRecordStep(w, pid) == w
  {
    hide Web.HasOpenAllocation, Web.JobTaken, Web.TransferFor;
  }

  lemma ClaimRecordGoesOn(w: Web.State, pid: nat, x: string)
    requires ClaimOf(w, pid, x) && pid in Web.ClaimRecordStep(w, pid).flights
    ensures ClaimOf(Web.ClaimRecordStep(w, pid), pid, x)
  {
    RecordingIdles(w, pid);
    hide Web.ClaimRecordStep;
  }

  lemma ClaimGoesOn(w: Web.State, e: Web.Event, x: string)
    requires (e.ClaimProve? || e.ClaimPrepare? || e.ClaimRecord?) && ClaimOf(w, e.pid, x) && e.pid in Web.Step(w, e).flights
    ensures ClaimOf(Web.Step(w, e), e.pid, x)
  {
    Safety.ClaimDispatch(w, e);
    hide Web.Step, Web.ClaimProveStep, Web.ClaimPrepareStep, Web.ClaimRecordStep, ClaimOf;
    match e
    case ClaimProve(pid, browser) => ClaimProofGoesOn(w, pid, browser, x);
    case ClaimPrepare(pid, cp) => ClaimPreparationGoesOn(w, pid, cp, x);
    case ClaimRecord(pid) => ClaimRecordGoesOn(w, pid, x);
  }

  lemma CommitBegins(w: Web.State, e: Web.Event)
    requires e.CommitAuthorize? && e.pid !in w.flights && e.pid in Web.Step(w, e).flights
    ensures CommitOf(Web.Step(w, e), e.pid, e.id)
  {
    Safety.CommitDispatch(w, e);
    hide Web.Step;
  }

  lemma WithCommits(t: Web.State, pid: nat, f: Web.Flight, id: Web.ContinuationId)
    requires Commits(f, id)
    ensures CommitOf(Web.With(t, pid, f), pid, id)
  {
    hide Commits;
  }

  lemma EndedIsGone(t: Web.State, pid: nat)
    ensures pid !in Web.Ended(t, pid).flights
  {
  }

  lemma StatusGoesOn(w: Web.State, pid: nat, id: Web.ContinuationId)
    requires CommitOf(w, pid, id) && pid in Web.CommitStatusStep(w, pid).flights
    ensures CommitOf(Web.CommitStatusStep(w, pid), pid, id)
  {
    hide Web.ExactReceipt, Web.Bound, Web.PublishAllocations, Web.ReconcileStep;
  }

  lemma ProofGoesOn(w: Web.State, pid: nat, browser: bool, id: Web.ContinuationId)
    requires CommitOf(w, pid, id) && pid in Web.CommitProveStep(w, pid, browser).flights
    ensures CommitOf(Web.CommitProveStep(w, pid, browser), pid, id)
  {
    hide Web.ExactReceipt, Web.Bound, Web.PublishAllocations, Web.ReconcileStep;
  }

  lemma LookGoesOn(w: Web.State, pid: nat, cp: Web.Checkpoint, id: Web.ContinuationId)
    requires CommitOf(w, pid, id) && pid in Web.CommitLookStep(w, pid, cp).flights
    ensures CommitOf(Web.CommitLookStep(w, pid, cp), pid, id)
  {
    hide Web.ExactReceipt, Web.Bound, Web.PublishAllocations, Web.ReconcileStep;
    var f, t := w.flights[pid], Web.CommitLookStep(w, pid, cp);
    if !f.CommitProven? {
      assert t == w;
    } else {
      assert t == w || t == Web.Ended(w, pid) || t == Web.With(w, pid, Web.CommitDone(id)) || t == Web.With(w, pid, Web.CommitLooked(id));
    }
  }

  lemma BeginGoesOn(w: Web.State, pid: nat, id: Web.ContinuationId)
    requires CommitOf(w, pid, id) && pid in Web.CommitBeginStep(w, pid).flights
    ensures CommitOf(Web.CommitBeginStep(w, pid), pid, id)
  {
    hide Web.ExactReceipt, Web.Bound, Web.PublishAllocations, Web.ReconcileStep;
    var f, t := w.flights[pid], Web.CommitBeginStep(w, pid);
    if !f.CommitLooked? {
      assert t == w;
    } else {
      assert t == w || t == Web.Ended(w, pid) || t.flights == w.flights[pid := Web.CommitRebinding(id)];
    }
  }

  lemma RebindingMoves(w: Web.State, pid: nat, id: Web.ContinuationId)
    requires pid in w.flights && w.flights[pid] == Web.CommitRebinding(id) && id in w.core
    ensures var t := Web.CommitRebindStep(w, pid);
      var bound := w.(binding := w.binding[Web.ChatKey(id.owner, id.chat) := w.core[id].target], log := w.log + [Web.BoundToTarget(id)]);
      t == Web.With(w, pid, Web.CommitFailed(id)) || t == Web.With(bound, pid, Web.CommitRebound(id))
  {
  }

  lemma RebindingIdles(w: Web.State, pid: nat)
    requires pid in w.flights && !(w.flights[pid].CommitRebinding? && w.flights[pid].id in w.core)
    ensures Web.CommitRebindStep(w, pid) == w
  {
  }

  lemma RebindingGoesOn(w: Web.State, pid: nat, id: Web.ContinuationId)
    requires CommitOf(w, pid, id) && pid in Web.CommitRebindStep(w, pid).flights
    ensures CommitOf(Web.CommitRebindStep(w, pid), pid, id)
  {
    if w.flights[pid].CommitRebinding? && id in w.core {
      var bound := w.(binding := w.binding[Web.ChatKey(id.owner, id.chat) := w.core[id].target], log := w.log + [Web.BoundToTarget(id)]);
      RebindingMoves(w, pid, id);
      WithCommits(w, pid, Web.CommitFailed(id), id);
      WithCommits(bound, pid, Web.CommitRebound(id), id);
      hide *;
    } else {
      RebindingIdles(w, pid);
      hide *;
    }
  }

  lemma SettlingMoves(w: Web.State, pid: nat, id: Web.ContinuationId, done: bool)
    requires pid in w.flights && w.flights[pid] == (if done then Web.CommitRebound(id) else Web.CommitFailed(id)) && id in w.core
    ensures var next := if done then Web.Committed else Web.Uncertain;
      var settled := w.(core := w.core[id := w.core[id].(state := next)]);
      var t := Web.CommitSettleStep(w, pid);
      t == Web.Ended(w, pid) || t == Web.Ended(settled, pid) || (done && t == Web.With(settled, pid, Web.CommitDone(id)))
  {
  }

  lemma SettlingIdles(w: Web.State, pid: nat)
    requires pid in w.flights && !((w.flights[pid].CommitRebound? || w.flights[pid].CommitFailed?) && w.flights[pid].id in w.core)
    ensures Web.CommitSettleStep(w, pid) == w
  {
  }

  lemma SettlingGoesOn(w: Web.State, pid: nat, id: Web.ContinuationId)
    requires CommitOf(w, pid, id) && pid in Web.CommitSettleStep(w, pid).flights
    ensures CommitOf(Web.CommitSettleStep(w, pid), pid, id)
  {
    hide Web.CommitSettleStep, Web.With, Web.Ended, Web.Advances;
    var f := w.flights[pid];
    if (f.CommitRebound? || f.CommitFailed?) && id in w.core {
      var settled := w.(core := w.core[id := w.core[id].(state := if f.CommitRebound? then Web.Committed else Web.Uncertain)]);
      SettlingMoves(w, pid, id, f.CommitRebound?);
      WithCommits(settled, pid, Web.CommitDone(id), id);
      EndedIsGone(w, pid);
      EndedIsGone(settled, pid);
      hide *;
    } else {
      SettlingIdles(w, pid);
      hide *;
    }
  }

  lemma PublicationGoesOn(w: Web.State, pid: nat, id: Web.ContinuationId)
    requires CommitOf(w, pid, id) && pid in Web.CommitPublishStep(w, pid).flights
    ensures CommitOf(Web.CommitPublishStep(w, pid), pid, id)
  {
    hide Web.ExactReceipt, Web.Bound, Web.PublishAllocations, Web.ReconcileStep;
  }

  lemma CommitGoesOn(w: Web.State, e: Web.Event, id: Web.ContinuationId)
    requires Web.CommitEvent(e) && !e.CommitAuthorize? && CommitOf(w, e.pid, id) && e.pid in Web.Step(w, e).flights
    ensures CommitOf(Web.Step(w, e), e.pid, id)
  {
    Safety.CommitDispatch(w, e);
    hide Web.Step, CommitOf, Web.CommitStatusStep, Web.CommitProveStep, Web.CommitLookStep, Web.CommitBeginStep,
         Web.CommitRebindStep, Web.CommitSettleStep, Web.CommitPublishStep;
    match e
    case CommitStatus(pid) => StatusGoesOn(w, pid, id);
    case CommitProve(pid, browser) => ProofGoesOn(w, pid, browser, id);
    case CommitLook(pid, cp) => LookGoesOn(w, pid, cp, id);
    case CommitBegin(pid) => BeginGoesOn(w, pid, id);
    case CommitRebind(pid) => RebindingGoesOn(w, pid, id);
    case CommitSettle(pid) => SettlingGoesOn(w, pid, id);
    case CommitPublish(pid) => PublicationGoesOn(w, pid, id);
  }

  lemma Publishes(w: Web.State, e: Web.Event, id: Web.ContinuationId)
    requires e.CommitPublish? && Publishing(w, e.pid, e) && CommitOf(w, e.pid, id)
    ensures var v := Web.Step(w, e); id in v.transfers && v.transfers[id].stage == Web.Published && e.pid !in v.flights
  {
    Safety.CommitDispatch(w, e);
    hide Web.Step, Web.PublishAllocations;
  }

  lemma ClaimRecorded(w: Web.State, e: Web.Event)
    requires e.ClaimRecord? && Records(w, e.pid)
    ensures Web.Step(w, e).core == w.core
  {
    Safety.ClaimDispatch(w, e);
    hide Web.Step, Web.HasOpenAllocation, Web.JobTaken, Web.TransferFor;
  }

  /** What a resume's Web step makes of it. */
  lemma GoIsSound(s: State, pid: nat, e: Web.Event)
    requires Inv(s) && GoStep(s, pid, e) != s && pid in GoStep(s, pid, e).resumes
    requires Safety.Grows(s.web, GoStep(s, pid, e).web)
    ensures ResumeSound(GoStep(s, pid, e), pid)
  {
    hide Informed, Web.Step, Safety.Inv, Safety.Grows, ClaimOf, CommitOf, Records, Publishing, Passes, PublicationSound;
    ResumeFact(s, pid);
    hide Inv;
    var t := GoStep(s, pid, e);
    match s.resumes[pid]
    case TargetSeen(x, sha) =>
      ClaimBegins(s.web, e);
      Safety.AllocationStays(s.web, t.web, x);
    case Claiming(x, sha) =>
      Safety.AllocationStays(s.web, t.web, x);
      if pid in t.web.flights {
        ClaimGoesOn(s.web, e, x);
      } else {
        ClaimEndsAtCore(s.web, e, x);
      }
    case StatusSeen(id, sha) =>
      CommitBegins(s.web, e);
      Safety.CoreStays(s.web, t.web, id);
    case Committing(id, sha) =>
      CommitGoesOn(s.web, e, id);
      Safety.CoreStays(s.web, t.web, id);
  }

  lemma ClaimEndsAtCore(w: Web.State, e: Web.Event, x: string)
    requires e.ClaimRecord? && Records(w, e.pid) && ClaimOf(w, e.pid, x)
    ensures var a := w.flights[e.pid].a; var v := Web.Step(w, e);
      x in w.allocations && Web.ClaimId(a) in v.core && v.core[Web.ClaimId(a)].checkpoint == w.allocations[x].checkpoint
  {
    ClaimRecorded(w, e);
    hide Web.Step;
  }

  lemma GoPublishes(s: State, pid: nat, e: Web.Event)
    requires Inv(s) && GoStep(s, pid, e).log != s.log && Safety.Grows(s.web, GoStep(s, pid, e).web)
    ensures var log := GoStep(s, pid, e).log;
      |log| > 0 && log == s.log + [log[|log| - 1]] && PublicationSound(GoStep(s, pid, e), log[|log| - 1])
  {
    hide Informed, Web.Step, Safety.Inv, Safety.Grows, ClaimOf, CommitOf, Passes;
    ResumeFact(s, pid);
    hide Inv;
    var t, r := GoStep(s, pid, e), s.resumes[pid];
    Publishes(s.web, e, r.id);
    Safety.CoreStays(s.web, t.web, r.id);
  }

  /** What a step of a resume in the Web layer does to the rest. */
  lemma GoFrames(s: State, pid: nat, e: Web.Event)
    requires GoStep(s, pid, e) != s
    ensures var t := GoStep(s, pid, e);
      && !e.Crash? && !Web.OfNobody(e) && e.pid == pid && t.web == Web.Step(s.web, e) && t.checkpoints == s.checkpoints && s.log <= t.log
      && forall q :: q in t.resumes && q != pid ==> q in s.resumes && t.resumes[q] == s.resumes[q]
  {
    hide Informed, Web.Step, Records, Publishing;
  }

  lemma GoKeeps(s: State, pid: nat, e: Web.Event)
    requires Inv(s)
    ensures Keeps(s, GoStep(s, pid, e))
  {
    hide Safety.Inv, Safety.Grows, Web.Step, Web.OfNobody, ResumeSound, PublicationSound, GoStep;
    GrowsItself(s);
    var t := GoStep(s, pid, e);
    if t != s {
      GoFrames(s, pid, e);
      WebOf(s);
      Safety.StepKeepsInv(s.web, e);
      forall q | q in t.resumes && q != pid ensures Safety.SameFlight(s.web, t.web, q) {
        Safety.OtherLeavesFlight(s.web, e, q);
      }
      if pid in t.resumes {
        GoIsSound(s, pid, e);
      }
      if t.log != s.log {
        GoPublishes(s, pid, e);
      }
      MovingKeeps(s, t, pid);
    }
  }

  lemma AbandonKeeps(s: State, pid: nat)
    requires Inv(s)
    ensures Keeps(s, Step(s, Abandon(pid)))
  {
    hide Safety.Inv, Safety.Grows, ResumeSound, PublicationSound;
    GrowsItself(s);
    if pid in s.resumes {
      var t := Step(s, Abandon(pid));
      WebOf(s);
      Safety.DropFlight(s.web, pid);
      StatusGrows(s, t);
      MovingKeeps(s, t, pid);
    }
  }

  lemma CrashKeeps(s: State)
    requires Inv(s)
    ensures Keeps(s, Step(s, Crash))
  {
    hide Safety.Inv, Safety.Grows, ResumeSound, PublicationSound, Web.Step;
    WebOf(s);
    Safety.StepKeepsInv(s.web, Web.Crash);
    StatusGrows(s, Step(s, Crash));
    StayingKeeps(s, Step(s, Crash));
  }

  /** Every step keeps the resumes sound, and checkpoints and publications for good. */
  lemma StepKeepsInv(s: State, e: Event)
    requires Inv(s)
    ensures Inv(Step(s, e)) && Grows(s, Step(s, e))
  {
    hide Inv, Grows, WriteStep, WebStepStep, GateStep, TargetLookStep, StatusLookStep, GoStep, Preparable;
    GrowsItself(s);
    match e
    case Prepare(_, _, _, _, _, _, transcript, _, id, _) =>
      if Preparable(e) {
        BindingThere(e);
        WriteKeeps(s, id, PreparedRow(s, e, TranscriptBinding(transcript).value));
      }
    case Write(id, row) => WriteKeeps(s, id, row);
    case WebStep(w) => WebStepKeeps(s, w);
    case Gate(_, _, _, _, _, _, _) => GateKeeps(s, e);
    case TargetLook(pid, browser) => TargetLookKeeps(s, pid, browser);
    case StatusLook(pid, browser) => StatusLookKeeps(s, pid, browser);
    case Go(pid, w) => GoKeeps(s, pid, w);
    case Abandon(pid) => AbandonKeeps(s, pid);
    case Crash => CrashKeeps(s);
  }

  lemma BindingThere(e: Event)
    requires e.Prepare? && Preparable(e)
    ensures TranscriptBinding(e.transcript).Some?
  {
  }

  lemma {:induction false} RunKeepsInv(s: State, events: seq<Event>)
    requires Inv(s)
    ensures Inv(Run(s, events)) && Grows(s, Run(s, events))
    decreases |events|
  {
    hide Inv, Grows, Step;
    if events == [] {
      GrowsItself(s);
    } else {
      StepKeepsInv(s, events[0]);
      RunKeepsInv(Step(s, events[0]), events[1..]);
      GrowsTrans(s, Step(s, events[0]), Run(s, events));
    }
  }
}
