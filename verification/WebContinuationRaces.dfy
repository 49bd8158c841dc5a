/** A run of native_bridge/continuation_web.py in which a published allocation is claimed again:
    two claims overlap, and the slower one records after the commit of the other. From empty
    tables the chat is bound to conversation A, an allocation is made and its job submitted,
    delivered and attested. Two claims read the allocation, prove its receipt and prepare the
    same continuation; the second records, and a commit takes its transfer all the way to the
    publication. The first claim still holds what it had prepared, and its record sets the
    allocation back. Each lemma is one step on tables given in full. */
module WebContinuationRaces {
  import opened Basics
  import opened WebContinuation
  import Safety = WebContinuationSafety
  import Reopening = WebContinuationReopening

  const CHAT := ChatKey("owner", "chat")
  const REQUEST := Request("owner", "run", "chat", "item", "principal", "key", "summary", true)
  const CHECKPOINT := Checkpoint("checkpoint", "run", Some("A"), "summary", "sha")
  const X := AllocationId("owner", "run", "chat", "key")
  const ID := ContinuationId("owner", "chat", "key")
  const JOB := JobFor(Target(X))

  function Prompt(): string {
    PREAMBLE + "summary"
  }

  function Reply(): Receipt {
    Receipt("B", "message", Prompt())
  }

  function Row(): Allocation {
    Allocation("owner", "run", "chat", "item", "principal", "grant", "checkpoint", "sha", "key", JOB, Prompt(), Allocating)
  }

  // The tables along the run, whoever is under way.

  function Fresh(): State {
    Init.(binding := map[CHAT := "A"])
  }

  function Allocated(): State {
    Fresh().(allocations := map[X := Row()])
  }

  /** The job of the allocation in some state of its delivery. */
  function Relayed(state: DeliveryState, receipt: Option<Receipt>): State {
    Allocated().(keys := map[Target(X) := JOB], jobs := map[JOB := Delivery(Prompt(), None, state, receipt)], log := [Submitted(JOB)])
  }

  function Delivered(): State {
    Relayed(Sent, Some(Reply())).(attested := map[JOB := Attestation("owner", "run", Reply())])
  }

  function Core(state: CoreState): map<ContinuationId, CoreRow> {
    map[ID := CoreRow("run", "checkpoint", "A", "B", state)]
  }

  function Claimable(): State {
    Delivered().(core := Core(Prepared))
  }

  function ClaimedOnce(): State {
    Claimable().(transfers := map[ID := TransferFor(Row(), "B")], allocations := map[X := Row().(state := Claimed)])
  }

  /** The commit under way, with the core row and the binding as given. */
  function Committing(core: CoreState, bound: string, log: seq<Audit>): State {
    ClaimedOnce().(core := Core(core), binding := map[CHAT := bound], log := log)
  }

  function Finished(log: seq<Audit>): State {
    Committing(Committed, "B", log).(transfers := map[ID := TransferFor(Row(), "B").(stage := Published)],
                                     allocations := map[X := Row().(state := AllocationPublished)])
  }

  const AUTHORIZED := [Submitted(JOB)] + [Authorized(ID, "grant")]
  const REBOUND := AUTHORIZED + [BoundToTarget(ID)]

  /** The claim that has prepared and waits. */
  function Waiting(): map<nat, Flight> {
    map[1 := ClaimPrepared(X, Row(), Reply())]
  }

  function At(s: State, flights: map<nat, Flight>): State {
    s.(flights := flights)
  }

  lemma Allocates()
    ensures TargetInsertStep(Fresh(), 0, REQUEST, CHECKPOINT, Some("grant"))
            == At(Allocated(), map[0 := TargetInserted(X)])
  {
    hide AllocationId;
    assert !HasOpenAllocation(map[], "owner", "chat") && !AllocationKeyTaken(map[], "owner", "chat", "key");
    assert map[][X := Row()] == map[X := Row()];
  }

  lemma Submits()
    ensures TargetSubmitStep(TargetCheckStep(At(Allocated(), map[0 := TargetInserted(X)]), 0), 0) == Relayed(NotSent, None)
  {
    hide AllocationId, Prompt;
    var s := TargetCheckStep(At(Allocated(), map[0 := TargetInserted(X)]), 0);
    assert s == At(Allocated(), map[0 := TargetChecked(X)]);
    var t := TargetSubmitStep(s, 0);
    assert t.flights == map[];
    assert t.keys == map[Target(X) := JOB] && t.jobs == map[JOB := Delivery(Prompt(), None, NotSent, None)];
  }

  lemma Moves()
    ensures RelayMovesStep(Relayed(NotSent, None), JOB, Pending) == Relayed(Pending, None)
  {
    hide AllocationId, Prompt;
    assert RelayMovesStep(Relayed(NotSent, None), JOB, Pending).jobs == Relayed(Pending, None).jobs;
  }

  lemma Receives()
    ensures RelayReceiptStep(Relayed(Pending, None), JOB, Reply()) == Relayed(Sent, Some(Reply()))
  {
    hide AllocationId, Prompt;
    assert RelayReceiptStep(Relayed(Pending, None), JOB, Reply()).jobs == Relayed(Sent, Some(Reply())).jobs;
  }

  lemma Attests()
    ensures AttestStep(Relayed(Sent, Some(Reply())), JOB, "owner", "run") == Delivered()
  {
    hide AllocationId, Prompt;
    assert AttestStep(Relayed(Sent, Some(Reply())), JOB, "owner", "run").attested == Delivered().attested;
  }

  /** A claim up to its prepared continuation; a second one finds the row of the first. */
  lemma Authorizes(s: State, pid: nat, fs: map<nat, Flight>)
    requires s == Delivered() || s == Claimable()
    ensures pid !in fs ==> ClaimAuthorizeStep(At(s, fs), pid, X, CHECKPOINT, Some("grant")) == At(s, fs[pid := ClaimAuthorized(X, Row())])
  {
    hide AllocationId, Prompt;
  }

  lemma Proves(s: State, pid: nat, fs: map<nat, Flight>)
    requires s == Delivered() || s == Claimable()
    ensures ClaimProveStep(At(s, fs[pid := ClaimAuthorized(X, Row())]), pid, true)
            == At(s, fs[pid := ClaimAuthorized(X, Row())][pid := ClaimProven(X, Row(), Reply())])
  {
    hide AllocationId, Prompt;
    assert NewTargetProven(At(s, fs[pid := ClaimAuthorized(X, Row())]), Row());
  }

  lemma ClaimableFacts(s: State)
    requires s == Delivered() || s == Claimable()
    ensures s.(core := Core(Prepared)) == Claimable() && s.core[ID := CoreRow("run", "checkpoint", "A", "B", Prepared)] == Core(Prepared)
  {
    hide AllocationId, Prompt, Row;
  }

  lemma PreparesRow(s: State, fs: map<nat, Flight>)
    requires s == Delivered() || s == Claimable()
    ensures PreparedCore(At(s, fs), ID, "run", CHECKPOINT, "B") == Some(CoreRow("run", "checkpoint", "A", "B", Prepared))
  {
    hide AllocationId, Prompt, Row;
    assert !HasOpen(map[], "owner", "chat");
  }

  lemma Prepares(s: State, pid: nat, fs: map<nat, Flight>)
    requires s == Delivered() || s == Claimable()
    ensures ClaimPrepareStep(At(s, fs[pid := ClaimProven(X, Row(), Reply())]), pid, CHECKPOINT)
            == At(Claimable(), fs[pid := ClaimProven(X, Row(), Reply())][pid := ClaimPrepared(X, Row(), Reply())])
  {
    ClaimableFacts(s);
    PreparesRow(s, fs[pid := ClaimProven(X, Row(), Reply())]);
    hide AllocationId, Prompt, PreparedCore, Delivered, Claimable, Core;
  }

  lemma RowFacts()
    ensures Row().job == JOB && ClaimId(Row()) == ID && Delivered().transfers == map[] && Delivered().allocations == map[X := Row()]
  {
    hide AllocationId, Prompt;
  }

  lemma Records(fs: map<nat, Flight>)
    ensures 2 in fs && fs[2] == ClaimPrepared(X, Row(), Reply()) ==>
              ClaimRecordStep(At(Claimable(), fs), 2) == At(ClaimedOnce(), fs - {2})
  {
    RowFacts();
    hide AllocationId, Prompt, Row, Delivered, TransferFor;
    if 2 in fs && fs[2] == ClaimPrepared(X, Row(), Reply()) {
      assert !JobTaken(map[], JOB);
      var t := ClaimRecordStep(At(Claimable(), fs), 2);
      assert t.transfers == map[ID := TransferFor(Row(), "B")];
      assert t.allocations == map[X := Row().(state := Claimed)];
    }
  }

  lemma ClaimedFacts(core: CoreState, bound: string, log: seq<Audit>)
    ensures Row().job == JOB && Row().owner == "owner" && Row().grant == "grant" && Row().prompt == Prompt() && Row().run == "run"
    ensures ClaimedOnce().core == Core(Prepared) && ClaimedOnce().binding == map[CHAT := "A"]
    ensures ClaimedOnce().log == [Submitted(JOB)] && ClaimedOnce().transfers == map[ID := TransferFor(Row(), "B")]
    ensures Committing(core, bound, log).jobs == map[JOB := Delivery(Prompt(), None, Sent, Some(Reply()))]
    ensures Committing(core, bound, log).attested == map[JOB := Attestation("owner", "run", Reply())]
    ensures Committing(core, bound, log).transfers == map[ID := TransferFor(Row(), "B")]
    ensures Committing(core, bound, log).allocations == ClaimedOnce().allocations
  {
    hide AllocationId, Prompt;
  }

  lemma CommitAuthorizes(fs: map<nat, Flight>)
    ensures 3 !in fs ==>
              CommitAuthorizeStep(At(ClaimedOnce(), fs), 3, ID, true, Some("grant"))
              == At(Committing(Prepared, "A", [Submitted(JOB)] + [Authorized(ID, "grant")]), fs[3 := CommitAuthorized(ID)])
  {
    ClaimedFacts(Prepared, "A", []);
    hide AllocationId, Prompt, Row, ClaimedOnce;
  }

  lemma CommitReads(log: seq<Audit>, fs: map<nat, Flight>)
    ensures CommitStatusStep(At(Committing(Prepared, "A", log), fs[3 := CommitAuthorized(ID)]), 3)
            == At(Committing(Prepared, "A", log), fs[3 := CommitAuthorized(ID)][3 := CommitSeen(ID, Prepared)])
  {
    hide AllocationId, ClaimedOnce;
  }

  lemma CommitProves(log: seq<Audit>, fs: map<nat, Flight>)
    ensures CommitProveStep(At(Committing(Prepared, "A", log), fs[3 := CommitSeen(ID, Prepared)]), 3, true)
            == At(Committing(Prepared, "A", log), fs[3 := CommitSeen(ID, Prepared)][3 := CommitProven(ID, Prepared)])
  {
    ClaimedFacts(Prepared, "A", log);
    hide AllocationId, Prompt, Row, ClaimedOnce;
    assert ExactReceipt(At(Committing(Prepared, "A", log), fs[3 := CommitSeen(ID, Prepared)]), ID);
  }

  lemma CommitLooks(log: seq<Audit>, fs: map<nat, Flight>)
    ensures CommitLookStep(At(Committing(Prepared, "A", log), fs[3 := CommitProven(ID, Prepared)]), 3, CHECKPOINT)
            == At(Committing(Prepared, "A", log), fs[3 := CommitProven(ID, Prepared)][3 := CommitLooked(ID)])
  {
    hide AllocationId, ClaimedOnce;
    var s := At(Committing(Prepared, "A", log), fs[3 := CommitProven(ID, Prepared)]);
    assert s.core[ID] == CoreRow("run", "checkpoint", "A", "B", Prepared) && Bound(s, CHAT) == Some("A");
  }

  lemma CommitBegins(log: seq<Audit>, fs: map<nat, Flight>)
    ensures CommitBeginStep(At(Committing(Prepared, "A", log), fs[3 := CommitLooked(ID)]), 3)
            == At(Committing(Rebinding, "A", log), fs[3 := CommitLooked(ID)][3 := CommitRebinding(ID)])
  {
    hide AllocationId, ClaimedOnce;
    assert Core(Prepared)[ID := CoreRow("run", "checkpoint", "A", "B", Rebinding)] == Core(Rebinding);
  }

  lemma CommitRebinds(log: seq<Audit>, fs: map<nat, Flight>)
    ensures CommitRebindStep(At(Committing(Rebinding, "A", log), fs[3 := CommitRebinding(ID)]), 3)
            == At(Committing(Rebinding, "B", log + [BoundToTarget(ID)]), fs[3 := CommitRebinding(ID)][3 := CommitRebound(ID)])
  {
    hide AllocationId, ClaimedOnce;
    assert map[CHAT := "A"][CHAT := "B"] == map[CHAT := "B"];
  }

  lemma CommitSettles(log: seq<Audit>, fs: map<nat, Flight>)
    ensures CommitSettleStep(At(Committing(Rebinding, "B", log), fs[3 := CommitRebound(ID)]), 3)
            == At(Committing(Committed, "B", log), fs[3 := CommitRebound(ID)][3 := CommitDone(ID)])
  {
    hide AllocationId, ClaimedOnce;
    assert Core(Rebinding)[ID := CoreRow("run", "checkpoint", "A", "B", Committed)] == Core(Committed);
  }

  lemma PublishesTheRow()
    ensures PublishAllocations(ClaimedOnce().allocations, "owner", JOB) == map[X := Row().(state := AllocationPublished)]
  {
    RowFacts();
    hide AllocationId, Prompt, Delivered;
  }

  lemma PublishStep(s: State)
    requires 3 in s.flights && s.flights[3] == CommitDone(ID) && ID in s.transfers && s.transfers[ID].job == JOB
    ensures CommitPublishStep(s, 3)
            == Ended(s.(transfers := s.transfers[ID := s.transfers[ID].(stage := Published)],
                        allocations := PublishAllocations(s.allocations, "owner", JOB)), 3)
  {
    hide AllocationId, PublishAllocations;
  }

  lemma Publishes(log: seq<Audit>, fs: map<nat, Flight>)
    ensures CommitPublishStep(At(Committing(Committed, "B", log), fs[3 := CommitDone(ID)]), 3)
            == At(Finished(log), fs[3 := CommitDone(ID)] - {3})
  {
    ClaimedFacts(Committed, "B", log);
    PublishesTheRow();
    TransferJob();
    hide AllocationId, Prompt, Row, ClaimedOnce, Committing, PublishAllocations, TransferFor, CommitPublishStep;
    PublishStep(At(Committing(Committed, "B", log), fs[3 := CommitDone(ID)]));
    assert map[ID := TransferFor(Row(), "B")][ID := TransferFor(Row(), "B").(stage := Published)]
        == map[ID := TransferFor(Row(), "B").(stage := Published)];
  }

  lemma TransferJob()
    ensures TransferFor(Row(), "B").job == JOB
  {
  }

  lemma Reopens(log: seq<Audit>, fs: map<nat, Flight>)
    ensures 1 in fs && fs[1] == ClaimPrepared(X, Row(), Reply()) ==>
              Reopening.StateOf(ClaimRecordStep(At(Finished(log), fs), 1).allocations, X) == Claimed
  {
    hide AllocationId, Prompt;
    assert !HasOpenAllocation(Finished(log).allocations, "owner", "chat");
  }

  // ---------------------------------------------------------------- the run

  lemma {:induction false} RunThen(s: State, events: seq<Event>, e: Event)
    ensures Run(s, events + [e]) == Step(Run(s, events), e)
    decreases |events|
  {
    hide Step;
    if events == [] {
      assert [e][1..] == [];
      assert events + [e] == [e];
    } else {
      assert (events + [e])[1..] == events[1..] + [e];
      RunThen(Step(s, events[0]), events[1..], e);
    }
  }

  lemma NothingRuns()
    ensures Run(Init, []) == Init
  {
  }

  lemma Played(run: seq<Event>, s: State, e: Event) returns (more: seq<Event>)
    requires Run(Init, run) == s
    ensures more == run + [e] && Run(Init, more) == Step(s, e)
  {
    hide Step;
    more := run + [e];
    RunThen(Init, run, e);
  }

  lemma Delivering() returns (run: seq<Event>)
    ensures Run(Init, run) == At(Delivered(), map[])
  {
    hide Run, Step, AllocationId, Prompt, Row, TargetInsertStep, TargetCheckStep, TargetSubmitStep, RelayMovesStep, RelayReceiptStep,
      AttestStep;
    run := [];
    assert Run(Init, run) == Init by { NothingRuns(); }
    run := Played(run, Init, Rebound(CHAT, "A"));
    Safety.OutsideDispatch(Init, Rebound(CHAT, "A"));
    assert Run(Init, run) == Fresh();
    var insert := TargetInsert(0, REQUEST, CHECKPOINT, Some("grant"));
    Safety.TargetDispatch(Fresh(), insert);
    Allocates();
    run := Played(run, Fresh(), insert);
    var s := At(Allocated(), map[0 := TargetInserted(X)]);
    var t := TargetCheckStep(s, 0);
    Safety.TargetDispatch(s, TargetCheck(0));
    run := Played(run, s, TargetCheck(0));
    Safety.TargetDispatch(t, TargetSubmit(0));
    run := Played(run, t, TargetSubmit(0));
    Submits();
    Safety.OutsideDispatch(Relayed(NotSent, None), RelayMoves(JOB, Pending));
    Moves();
    run := Played(run, Relayed(NotSent, None), RelayMoves(JOB, Pending));
    Safety.OutsideDispatch(Relayed(Pending, None), RelayReceipt(JOB, Reply()));
    Receives();
    run := Played(run, Relayed(Pending, None), RelayReceipt(JOB, Reply()));
    Safety.OutsideDispatch(Relayed(Sent, Some(Reply())), Attest(JOB, "owner", "run"));
    Attests();
    run := Played(run, Relayed(Sent, Some(Reply())), Attest(JOB, "owner", "run"));
  }

  /** A claim of the delivered conversation, up to its prepared continuation. */
  lemma Claiming(before: seq<Event>, s: State, pid: nat, fs: map<nat, Flight>) returns (run: seq<Event>)
    requires (s == Delivered() || s == Claimable()) && pid !in fs && Run(Init, before) == At(s, fs)
    ensures Run(Init, run) == At(Claimable(), fs[pid := ClaimPrepared(X, Row(), Reply())])
  {
    hide Run, Step, AllocationId, Prompt, Row, At, Delivered, Claimable, ClaimAuthorizeStep, ClaimProveStep, ClaimPrepareStep;
    Authorizes(s, pid, fs);
    Proves(s, pid, fs);
    Prepares(s, pid, fs);
    var f0, f1 := ClaimAuthorized(X, Row()), ClaimProven(X, Row(), Reply());
    assert fs[pid := f0][pid := f1] == fs[pid := f1];
    assert fs[pid := f1][pid := ClaimPrepared(X, Row(), Reply())] == fs[pid := ClaimPrepared(X, Row(), Reply())];
    Safety.ClaimDispatch(At(s, fs), ClaimAuthorize(pid, X, CHECKPOINT, Some("grant")));
    run := Played(before, At(s, fs), ClaimAuthorize(pid, X, CHECKPOINT, Some("grant")));
    Safety.ClaimDispatch(At(s, fs[pid := f0]), ClaimProve(pid, true));
    run := Played(run, At(s, fs[pid := f0]), ClaimProve(pid, true));
    Safety.ClaimDispatch(At(s, fs[pid := f1]), ClaimPrepare(pid, CHECKPOINT));
    run := Played(run, At(s, fs[pid := f1]), ClaimPrepare(pid, CHECKPOINT));
  }

  /** Two claims have prepared; the second records. */
  lemma ClaimingTwice() returns (run: seq<Event>)
    ensures Run(Init, run) == At(ClaimedOnce(), Waiting())
  {
    hide Run, Step, AllocationId, Prompt, Row, At, Delivered, Claimable, ClaimedOnce, ClaimRecordStep;
    var f := ClaimPrepared(X, Row(), Reply());
    run := Delivering();
    run := Claiming(run, Delivered(), 1, map[]);
    run := Claiming(run, Claimable(), 2, map[][1 := f]);
    var fs := map[][1 := f][2 := f];
    Records(fs);
    Safety.ClaimDispatch(At(Claimable(), fs), ClaimRecord(2));
    run := Played(run, At(Claimable(), fs), ClaimRecord(2));
    assert fs - {2} == map[1 := f];
  }

  /** One step of the commit, which holds flight 3. */
  lemma CommitPlayed(before: seq<Event>, s: State, f: Flight, e: Event, t: State, g: Flight) returns (run: seq<Event>)
    requires CommitEvent(e) && Run(Init, before) == At(s, Waiting()[3 := f])
    requires CommitStep(At(s, Waiting()[3 := f]), e) == At(t, Waiting()[3 := f][3 := g])
    ensures Run(Init, run) == At(t, Waiting()[3 := g])
  {
    hide Run, Step, At, CommitStep, CommitEvent, Waiting;
    Safety.CommitDispatch(At(s, Waiting()[3 := f]), e);
    run := Played(before, At(s, Waiting()[3 := f]), e);
    assert Waiting()[3 := f][3 := g] == Waiting()[3 := g];
  }

  lemma CommitStarts() returns (run: seq<Event>)
    ensures Run(Init, run) == At(Committing(Prepared, "A", AUTHORIZED), Waiting()[3 := CommitAuthorized(ID)])
  {
    hide Run, Step, AllocationId, Prompt, Row, At, ClaimedOnce, Committing, CommitAuthorizeStep;
    run := ClaimingTwice();
    CommitAuthorizes(Waiting());
    Safety.CommitDispatch(At(ClaimedOnce(), Waiting()), CommitAuthorize(3, ID, true, Some("grant")));
    run := Played(run, At(ClaimedOnce(), Waiting()), CommitAuthorize(3, ID, true, Some("grant")));
  }

  lemma CommitReachesRebinding() returns (run: seq<Event>)
    ensures Run(Init, run) == At(Committing(Rebinding, "A", AUTHORIZED), Waiting()[3 := CommitRebinding(ID)])
  {
    hide Run, Step, AllocationId, Waiting, At, Committing, CommitStatusStep, CommitProveStep, CommitLookStep, CommitBeginStep;
    var s := Committing(Prepared, "A", AUTHORIZED);
    run := CommitStarts();
    CommitReads(AUTHORIZED, Waiting());
    run := CommitPlayed(run, s, CommitAuthorized(ID), CommitStatus(3), s, CommitSeen(ID, Prepared));
    CommitProves(AUTHORIZED, Waiting());
    run := CommitPlayed(run, s, CommitSeen(ID, Prepared), CommitProve(3, true), s, CommitProven(ID, Prepared));
    CommitLooks(AUTHORIZED, Waiting());
    run := CommitPlayed(run, s, CommitProven(ID, Prepared), CommitLook(3, CHECKPOINT), s, CommitLooked(ID));
    CommitBegins(AUTHORIZED, Waiting());
    run := CommitPlayed(run, s, CommitLooked(ID), CommitBegin(3), Committing(Rebinding, "A", AUTHORIZED), CommitRebinding(ID));
  }

  lemma CommitIsDone() returns (run: seq<Event>)
    ensures Run(Init, run) == At(Committing(Committed, "B", REBOUND), Waiting()[3 := CommitDone(ID)])
  {
    hide Run, Step, AllocationId, Waiting, At, Committing, CommitRebindStep, CommitSettleStep;
    var s := Committing(Rebinding, "B", REBOUND);
    run := CommitReachesRebinding();
    CommitRebinds(AUTHORIZED, Waiting());
    run := CommitPlayed(run, Committing(Rebinding, "A", AUTHORIZED), CommitRebinding(ID), CommitRebind(3), s, CommitRebound(ID));
    CommitSettles(REBOUND, Waiting());
    run := CommitPlayed(run, s, CommitRebound(ID), CommitSettle(3), Committing(Committed, "B", REBOUND), CommitDone(ID));
  }

  lemma CommitPublishes() returns (run: seq<Event>)
    ensures Run(Init, run) == At(Finished(REBOUND), Waiting())
  {
    hide Run, Step, AllocationId, Prompt, Row, At, Committing, Finished, CommitPublishStep;
    run := CommitIsDone();
    var s := At(Committing(Committed, "B", REBOUND), Waiting()[3 := CommitDone(ID)]);
    Publishes(REBOUND, Waiting());
    assert Waiting()[3 := CommitDone(ID)] - {3} == Waiting();
    Safety.CommitDispatch(s, CommitPublish(3));
    run := Played(run, s, CommitPublish(3));
  }

  /** A run publishes the allocation, and the claim still waiting reopens it. */
  lemma PublishedAllocationReopens() returns (run: seq<Event>)
    ensures var s := Run(Init, run);
      && ID in s.transfers && s.transfers[ID].stage == Published
      && X in s.allocations && s.allocations[X].state == AllocationPublished
      && Reopening.StateOf(Step(s, ClaimRecord(1)).allocations, X) == Claimed
  {
    hide Run, Step, AllocationId, Prompt, ClaimRecordStep;
    run := CommitPublishes();
    Reopens(REBOUND, Waiting());
    Safety.ClaimDispatch(At(Finished(REBOUND), Waiting()), ClaimRecord(1));
  }

  /** Nor does the claim have to be older than the publication: with no request under way at all,
      one that begins afterwards reopens the allocation, once the chat is bound to A again. */
  lemma LateClaimReopens() returns (run: seq<Event>, later: seq<Event>)
    ensures var s := Run(Init, run);
      && s.flights == map[] && ID in s.transfers && s.transfers[ID].stage == Published
      && X in s.allocations && s.allocations[X].state == AllocationPublished
      && Reopening.StateOf(Run(s, later).allocations, X) == Claimed
  {
    var before := CommitPublishes();
    var s := At(Finished(REBOUND), map[]);
    run := ProcessDies(before);
    FinishedFacts();
    hide Run, Step, AllocationId, Prompt, Row, At, Finished;
    Safety.InitIsSound();
    Safety.RunKeepsInv(Init, run);
    Reopening.PublishedReopens(s, X);
    later := Reopening.WholeClaim(s, X) + [ClaimRecord(0)];
    Safety.RunAppend(s, Reopening.WholeClaim(s, X), [ClaimRecord(0)]);
    Safety.RunOne(Run(s, Reopening.WholeClaim(s, X)), ClaimRecord(0));
  }

  lemma ProcessDies(before: seq<Event>) returns (run: seq<Event>)
    requires Run(Init, before) == At(Finished(REBOUND), Waiting())
    ensures Run(Init, run) == At(Finished(REBOUND), map[])
  {
    hide Run, Step, Finished;
    Safety.OutsideDispatch(At(Finished(REBOUND), Waiting()), Crash);
    run := Played(before, At(Finished(REBOUND), Waiting()), Crash);
  }

  lemma FinishedFacts()
    ensures var s := At(Finished(REBOUND), map[]);
      && s.flights == map[] && ID in s.transfers && s.transfers[ID].stage == Published
      && X in s.allocations && s.allocations[X].state == AllocationPublished && !Reopening.ChatOpen(s, X)
  {
    hide AllocationId, Prompt;
  }
}
