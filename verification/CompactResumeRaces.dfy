/** A run of native_bridge/conversation_continuation.py from empty tables in which a resume that
    names no digest publishes the continuation of a transcript that was pinned with one. The chat
    is bound to conversation A; prepare writes the checkpoint with the digest of the transcript;
    the new chat is allocated, its message submitted, moved on, received and attested; the
    resume passes its gate without a digest, looks at the allocation, claims it, and from there
    goes on as any resume that is ready. The steps of the Web layer are those of the run in
    WebContinuationRaces, each of them asking for the latest checkpoint where the code does. */
module CompactResumeRaces {
  import opened Basics
  import opened CompactResume
  import opened CompactResumeSafety
  import opened CompactResumeTheorems
  import Web = WebContinuation
  import Safety = WebContinuationSafety
  import Races = WebContinuationRaces

  function Digest(): string {
    seq(64, _ => 'a')
  }

  const PREPARE := Prepare("owner", "conversation", "run", "chat", "key", "summary", Transcript(Some(Digest()), None, None), true,
                           "checkpoint", "sha")

  function Pins(): Payload {
    map[TranscriptSha := Text(Digest())]
  }

  function Written(): Row {
    Row("owner", "run", "chat", Some("A"), INSTANCE, Request("owner", "run", "chat", "key"), 0, PreparedPayload(PREPARE, Pins()), "sha")
  }

  /** These tables of the Web layer with the one checkpoint, and the resume where it is. */
  function At(w: Web.State, resumes: map<nat, Resuming>): State {
    State(w, map["checkpoint" := Written()], ["checkpoint"], resumes, [])
  }

  lemma BindingIsPinned()
    ensures TranscriptBinding(PREPARE.transcript) == Some(Pins())
  {
    assert IsDigest(Digest());
    assert map[TranscriptSha := Text(Digest())] + map[] + map[] == Pins();
  }

  lemma Prepares()
    ensures Step(Init.(web := Races.Fresh()), PREPARE) == At(Races.Fresh(), map[])
  {
    var s := Init.(web := Races.Fresh());
    BindingIsPinned();
    hide TranscriptBinding, PreparedPayload;
    assert Preparable(PREPARE);
    assert PreparedRow(s, PREPARE, Pins()) == Written();
    assert WriteStep(s, "checkpoint", Written()) == At(Races.Fresh(), map[]);
  }

  /** The checkpoint is the latest of its chat. */
  lemma Told(w: Web.State, resumes: map<nat, Resuming>)
    ensures Latest(At(w, resumes), "owner", "run", "chat") == Some(Races.CHECKPOINT)
  {
  }

  /** One more step of the Web layer outside a resume. */
  lemma Lifted(run: seq<Event>, w: Web.State, e: Web.Event) returns (more: seq<Event>)
    requires Run(Init, run) == At(w, map[]) && Informed(At(w, map[]), e) && !e.Crash?
    ensures Run(Init, more) == At(Web.Step(w, e), map[])
  {
    hide Run, Web.Step, Informed, Web.OfNobody;
    more := run + [WebStep(e)];
    RunAppend(Init, run, [WebStep(e)]);
    RunOne(At(w, map[]), WebStep(e));
  }

  lemma NothingRuns()
    ensures Run(Init, []) == Init
  {
  }

  /** The prepare, and the allocation it asks for. */
  lemma Allocates() returns (run: seq<Event>)
    ensures Run(Init, run) == At(Races.At(Races.Allocated(), map[0 := Web.TargetInserted(Races.X)]), map[])
  {
    hide Web.Step, Web.AllocationId, Races.Prompt, Races.Row, Web.TargetInsertStep;
    var rebound := Web.Rebound(Races.CHAT, "A");
    NothingRuns();
    RunOne(Init, WebStep(rebound));
    Safety.OutsideDispatch(Web.Init, rebound);
    Prepares();
    RunTwo(Init, WebStep(rebound), PREPARE);
    hide Run, PreparedPayload, Pins, TranscriptBinding, Latest, Written;
    assert Step(Init, WebStep(rebound)) == Init.(web := Races.Fresh());
    var insert := Web.TargetInsert(0, Races.REQUEST, Races.CHECKPOINT, Some("grant"));
    Told(Races.Fresh(), map[]);
    Safety.TargetDispatch(Races.Fresh(), insert);
    Races.Allocates();
    run := Lifted([WebStep(rebound), PREPARE], Races.Fresh(), insert);
  }

  lemma Submits() returns (run: seq<Event>)
    ensures Run(Init, run) == At(Races.Relayed(Web.NotSent, None), map[])
  {
    hide Run, Step, At, Web.Step, Web.AllocationId, Races.Prompt, Races.Row, Races.Relayed, Web.TargetCheckStep, Web.TargetSubmitStep;
    run := Allocates();
    var w := Races.At(Races.Allocated(), map[0 := Web.TargetInserted(Races.X)]);
    Safety.TargetDispatch(w, Web.TargetCheck(0));
    run := Lifted(run, w, Web.TargetCheck(0));
    var v := Web.TargetCheckStep(w, 0);
    Safety.TargetDispatch(v, Web.TargetSubmit(0));
    run := Lifted(run, v, Web.TargetSubmit(0));
    Races.Submits();
  }

  lemma Delivers() returns (run: seq<Event>)
    ensures Run(Init, run) == At(Races.Delivered(), map[])
  {
    hide Run, Step, At, Web.Step, Web.AllocationId, Races.Prompt, Races.Row, Races.Relayed, Races.Delivered, Web.RelayMovesStep,
      Web.RelayReceiptStep, Web.AttestStep;
    run := Submits();
    var a, b := Races.Relayed(Web.NotSent, None), Races.Relayed(Web.Pending, None);
    Safety.OutsideDispatch(a, Web.RelayMoves(Races.JOB, Web.Pending));
    Races.Moves();
    run := Lifted(run, a, Web.RelayMoves(Races.JOB, Web.Pending));
    Safety.OutsideDispatch(b, Web.RelayReceipt(Races.JOB, Races.Reply()));
    Races.Receives();
    run := Lifted(run, b, Web.RelayReceipt(Races.JOB, Races.Reply()));
    var c := Races.Relayed(Web.Sent, Some(Races.Reply()));
    Safety.OutsideDispatch(c, Web.Attest(Races.JOB, "owner", "run"));
    Races.Attests();
    run := Lifted(run, c, Web.Attest(Races.JOB, "owner", "run"));
  }

  // ---------------------------------------------------------------- the resume

  /** The resume of the run, in its place. */
  function R(r: Resuming): map<nat, Resuming> {
    map[2 := r]
  }

  const GATE := Gate(2, "owner", "conversation", OfAllocation(Races.X), true, None, true)

  lemma Opens()
    ensures Step(At(Races.Delivered(), map[]), GATE) == At(Races.Delivered(), R(AtAllocation(Races.X, None)))
  {
    DeliveredFacts();
    hide Web.AllocationId, Races.Prompt, Races.Delivered, Pins;
    var s := At(Races.Delivered(), map[]);
    assert BindingFound(s, "owner", "conversation", OfAllocation(Races.X));
    assert map[][2 := AtAllocation(Races.X, None)] == R(AtAllocation(Races.X, None));
  }

  lemma DeliveredFacts()
    ensures Races.Delivered().allocations == map[Races.X := Races.Row()] && Races.Delivered().flights == map[]
    ensures Races.Row().owner == "owner" && Races.Row().checkpoint == "checkpoint" && Races.Row().state == Web.Allocating
    ensures Races.Row().run == "run" && Races.Row().chat == "chat"
    ensures Web.NewTargetProven(Races.Delivered(), Races.Row())
    ensures Races.At(Races.Delivered(), map[]) == Races.Delivered()
    ensures LogicalConversation in Written().payload && Written().payload[LogicalConversation] == Text("conversation")
  {
    hide Web.AllocationId, Races.Prompt;
  }

  lemma Looks()
    ensures Step(At(Races.Delivered(), R(AtAllocation(Races.X, None))), TargetLook(2, true))
            == At(Races.Delivered(), R(TargetSeen(Races.X, None)))
  {
    DeliveredFacts();
    hide Web.AllocationId, Races.Prompt, Races.Delivered, Races.Row, Web.NewTargetProven, Written;
    assert R(AtAllocation(Races.X, None))[2 := TargetSeen(Races.X, None)] == R(TargetSeen(Races.X, None));
  }

  /** A step of the claim that leaves it under way. */
  lemma ClaimGoes(w: Web.State, v: Web.State, r: Resuming, e: Web.Event)
    requires r == TargetSeen(Races.X, None) || r == Claiming(Races.X, None)
    requires InOrder(r, e) && e.pid == 2 && Informed(At(w, R(r)), e) && Web.Step(w, e) == v && 2 in v.flights
    ensures Step(At(w, R(r)), Go(2, e)) == At(v, R(Claiming(Races.X, None)))
  {
    hide Web.Step, Web.AllocationId, Informed, Records, Publishing, Written;
    assert R(r)[2 := Claiming(Races.X, None)] == R(Claiming(Races.X, None));
  }

  const F0 := Web.ClaimAuthorized(Races.X, Races.Row())
  const F1 := Web.ClaimProven(Races.X, Races.Row(), Races.Reply())
  const F2 := Web.ClaimPrepared(Races.X, Races.Row(), Races.Reply())

  lemma Twice(f: Web.Flight, g: Web.Flight)
    ensures map[][2 := f] == map[2 := f] && map[][2 := f][2 := g] == map[2 := g] && map[2 := f] - {2} == map[]
  {
  }

  lemma Authorizes()
    ensures Step(At(Races.Delivered(), R(TargetSeen(Races.X, None))), Go(2, Web.ClaimAuthorize(2, Races.X, Races.CHECKPOINT, Some("grant"))))
            == At(Races.At(Races.Delivered(), map[2 := F0]), R(Claiming(Races.X, None)))
  {
    var e := Web.ClaimAuthorize(2, Races.X, Races.CHECKPOINT, Some("grant"));
    var w, v := Races.Delivered(), Races.At(Races.Delivered(), map[2 := F0]);
    DeliveredFacts();
    Told(w, R(TargetSeen(Races.X, None)));
    Races.Authorizes(w, 2, map[]);
    Safety.ClaimDispatch(w, e);
    hide Step, Web.Step, Web.AllocationId, Races.Prompt, Races.Delivered, Races.Row, Web.ClaimAuthorizeStep, Latest, Written;
    Twice(F0, F0);
    ClaimGoes(w, v, TargetSeen(Races.X, None), e);
  }

  lemma Proves()
    ensures Step(At(Races.At(Races.Delivered(), map[2 := F0]), R(Claiming(Races.X, None))), Go(2, Web.ClaimProve(2, true)))
            == At(Races.At(Races.Delivered(), map[2 := F1]), R(Claiming(Races.X, None)))
  {
    var w, v := Races.At(Races.Delivered(), map[2 := F0]), Races.At(Races.Delivered(), map[2 := F1]);
    Races.Proves(Races.Delivered(), 2, map[]);
    Safety.ClaimDispatch(w, Web.ClaimProve(2, true));
    hide Step, Web.Step, Web.AllocationId, Races.Prompt, Races.Delivered, Races.Row, Web.ClaimProveStep, Latest, Written;
    Twice(F0, F1);
    ClaimGoes(w, v, Claiming(Races.X, None), Web.ClaimProve(2, true));
  }

  lemma PrepareIsInformed()
    ensures Informed(At(Races.At(Races.Delivered(), map[2 := F1]), R(Claiming(Races.X, None))), Web.ClaimPrepare(2, Races.CHECKPOINT))
  {
    DeliveredFacts();
    Told(Races.At(Races.Delivered(), map[2 := F1]), R(Claiming(Races.X, None)));
    hide Web.AllocationId, Races.Prompt, Races.Delivered, Races.Row, Latest, Written;
  }

  lemma InOrderHere(e: Web.Event)
    requires e.ClaimProve? || e.ClaimPrepare?
    ensures InOrder(Claiming(Races.X, None), e)
  {
  }

  lemma AtFlights(w: Web.State, flights: map<nat, Web.Flight>)
    ensures Races.At(w, flights).flights == flights
  {
  }

  lemma PreparesCore()
    ensures Step(At(Races.At(Races.Delivered(), map[2 := F1]), R(Claiming(Races.X, None))), Go(2, Web.ClaimPrepare(2, Races.CHECKPOINT)))
            == At(Races.At(Races.Claimable(), map[2 := F2]), R(Claiming(Races.X, None)))
  {
    var w, v := Races.At(Races.Delivered(), map[2 := F1]), Races.At(Races.Claimable(), map[2 := F2]);
    var e := Web.ClaimPrepare(2, Races.CHECKPOINT);
    PrepareIsInformed();
    Races.Prepares(Races.Delivered(), 2, map[]);
    Safety.ClaimDispatch(w, e);
    AtFlights(Races.Claimable(), map[2 := F2]);
    InOrderHere(e);
    hide *;
    Twice(F1, F2);
    ClaimGoes(w, v, Claiming(Races.X, None), e);
  }

  lemma RecordGoes(w: Web.State, v: Web.State)
    requires Records(w, 2) && Web.ClaimId(w.flights[2].a) == Races.ID && Web.Step(w, Web.ClaimRecord(2)) == v && 2 !in v.flights
    ensures Step(At(w, R(Claiming(Races.X, None))), Go(2, Web.ClaimRecord(2))) == At(v, R(AtContinuation(Races.ID, None)))
  {
    hide Web.Step, Web.AllocationId, Web.ClaimId, Publishing, Written;
    assert R(Claiming(Races.X, None))[2 := AtContinuation(Races.ID, None)] == R(AtContinuation(Races.ID, None));
  }

  lemma RecordHolds(w: Web.State)
    requires w == Races.At(Races.Claimable(), map[2 := F2])
    ensures Records(w, 2) && Web.ClaimId(w.flights[2].a) == Races.ID
  {
    Races.RowFacts();
    DeliveredFacts();
    hide Web.AllocationId, Races.Prompt, Races.Delivered, Races.Row;
    assert !Web.JobTaken(map[], Races.JOB);
  }

  /** The transaction of the claim: the resume goes on with the continuation. */
  lemma ClaimIsRecorded()
    ensures Step(At(Races.At(Races.Claimable(), map[2 := F2]), R(Claiming(Races.X, None))), Go(2, Web.ClaimRecord(2)))
            == At(Races.ClaimedOnce(), R(AtContinuation(Races.ID, None)))
  {
    var w := Races.At(Races.Claimable(), map[2 := F2]);
    RecordHolds(w);
    Races.Records(map[2 := F2]);
    Safety.ClaimDispatch(w, Web.ClaimRecord(2));
    ClaimedFlights();
    hide Step, At, R, Web.Step, Web.AllocationId, Races.Prompt, Races.At, Races.Claimable, Races.ClaimedOnce, Races.Row, Web.ClaimRecordStep,
      Records;
    Twice(F0, F2);
    RecordGoes(w, Races.ClaimedOnce());
  }

  lemma ClaimedFlights()
    ensures Races.At(Races.ClaimedOnce(), map[]) == Races.ClaimedOnce() && Races.ClaimedOnce().flights == map[]
  {
    hide Web.AllocationId, Races.Prompt, Races.Row;
  }

  lemma IsReady()
    ensures Ready(At(Races.ClaimedOnce(), R(AtContinuation(Races.ID, None))), 2, Races.ID)
  {
    Told(Races.ClaimedOnce(), R(AtContinuation(Races.ID, None)));
    DeliveredFacts();
    Races.ClaimedFacts(Web.Prepared, "A", []);
    hide Web.AllocationId, Races.Prompt, Latest, Written, Races.Delivered;
    assert Web.ExactReceipt(Races.ClaimedOnce(), Races.ID);
  }

  /** One more step of the run. */
  lemma Played(run: seq<Event>, s: State, e: Event, t: State) returns (more: seq<Event>)
    requires Run(Init, run) == s && Step(s, e) == t
    ensures Run(Init, more) == t
  {
    hide Step, Run;
    more := run + [e];
    RunAppend(Init, run, [e]);
    RunOne(s, e);
  }

  lemma Claims() returns (run: seq<Event>)
    ensures Run(Init, run) == At(Races.ClaimedOnce(), R(AtContinuation(Races.ID, None)))
  {
    hide Step, Run, At, R, Web.AllocationId, Races.Delivered, Races.Claimable, Races.ClaimedOnce, Races.Row, Races.Reply, Races.At;
    run := Delivers();
    Opens();
    run := Played(run, At(Races.Delivered(), map[]), GATE, At(Races.Delivered(), R(AtAllocation(Races.X, None))));
    Looks();
    run := Played(run, At(Races.Delivered(), R(AtAllocation(Races.X, None))), TargetLook(2, true),
                  At(Races.Delivered(), R(TargetSeen(Races.X, None))));
    var claiming := R(Claiming(Races.X, None));
    Authorizes();
    run := Played(run, At(Races.Delivered(), R(TargetSeen(Races.X, None))),
                  Go(2, Web.ClaimAuthorize(2, Races.X, Races.CHECKPOINT, Some("grant"))),
                  At(Races.At(Races.Delivered(), map[2 := F0]), claiming));
    Proves();
    run := Played(run, At(Races.At(Races.Delivered(), map[2 := F0]), claiming), Go(2, Web.ClaimProve(2, true)),
                  At(Races.At(Races.Delivered(), map[2 := F1]), claiming));
    PreparesCore();
    run := Played(run, At(Races.At(Races.Delivered(), map[2 := F1]), claiming), Go(2, Web.ClaimPrepare(2, Races.CHECKPOINT)),
                  At(Races.At(Races.Claimable(), map[2 := F2]), claiming));
    ClaimIsRecorded();
    run := Played(run, At(Races.At(Races.Claimable(), map[2 := F2]), claiming), Go(2, Web.ClaimRecord(2)),
                  At(Races.ClaimedOnce(), R(AtContinuation(Races.ID, None))));
  }

  lemma CheckpointNamed()
    ensures Races.ID in Races.ClaimedOnce().core && Races.ClaimedOnce().core[Races.ID].checkpoint == "checkpoint"
    ensures PinnedSha(Written().payload) == Some(Digest())
  {
    BindingIsPinned();
    PayloadReadsBack(PREPARE, Pins());
    hide Web.AllocationId, Races.Prompt, TranscriptBinding, Pinned;
  }

  /** The run: a transcript is pinned by its digest, the message is sent and attested, and a
      resume that says nothing of transcripts publishes. */
  lemma UnnamedTranscriptIsResumed() returns (run: seq<Event>)
    ensures var s := Run(Init, run);
      && s.log == [Publication(None, Races.ID)]
      && Races.ID in s.web.core && s.web.core[Races.ID].checkpoint in s.checkpoints
      && PinnedSha(s.checkpoints[s.web.core[Races.ID].checkpoint].payload) == Some(Digest())
  {
    hide Step, Run, Inv, Ready, Safety.Grows, Web.AllocationId, Races.ClaimedOnce, PinnedSha;
    var before := Claims();
    var s := At(Races.ClaimedOnce(), R(AtContinuation(Races.ID, None)));
    IsReady();
    var rest := ReadyResumePublishes(s, 2, Races.ID, None);
    run := before + rest;
    RunAppend(Init, before, rest);
    InitIsSound();
    RunKeepsInv(Init, before);
    RunKeepsInv(s, rest);
    CheckpointNamed();
    Safety.CoreStays(s.web, Run(s, rest).web, Races.ID);
    assert Run(Init, run).log == [] + [Publication(None, Races.ID)];
  }
}
