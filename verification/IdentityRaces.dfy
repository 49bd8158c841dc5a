/** Two runs in which the identity records of edge_extension/service-worker.js fall short of
    what their comments promise, each from an empty storage. In the first a document is denied
    by two calls that overlap; the faster one's notice is acknowledged and erased, a second
    document is prepared and read by a third denial, the slower one's notice is acknowledged
    again, and the third notice is written between the comparison and the removal of that
    flush. In the second an observation has read a document that is then denied; its notice is
    acknowledged and erased, and the observation writes the document back and proves it. */
module IdentityRaces {
  import opened Basics
  import opened IdentityRevocation
  import Revival = IdentityRevival

  const BUILD := "build"
  const ROUTE := "route-001"
  const FIRST := Doc("document-1", "epoch-1", ROUTE, BUILD, false)
  const SECOND := Doc("document-2", "epoch-2", ROUTE, BUILD, false)
  const NOTICE_1 := NoticeFor(FIRST, BUILD)
  const NOTICE_2 := NoticeFor(SECOND, BUILD)

  /** An unpoisoned state. */
  function Calm(docs: map<nat, Doc>, revokes: map<nat, Notice>, minted: set<string>, fs: map<nat, Flight>, log: seq<Effect>): State {
    State(docs, revokes, false, BUILD, minted, fs, log)
  }

  const Empty := Calm(map[], map[], {}, map[], [])

  lemma RunTwo(s: State, d: Event, e: Event)
    ensures Run(s, [d, e]) == Step(Step(s, d), e)
  {
    hide Step;
    assert [d, e][1..] == [e];
    RunOne(Step(s, d), e);
  }

  // What the calls do, each in a state without poison; tab 1 is the only tab.

  /** Prepare writes a document. */
  function Opening(doc: Doc): seq<Event> {
    [PrepareRead(0, 1, doc.documentId, doc.route), PrepareLook(0)] + [PrepareWrite(0, doc.epoch)]
  }

  lemma Opens(docs: map<nat, Doc>, minted: set<string>, fs: map<nat, Flight>, log: seq<Effect>, doc: Doc)
    requires 0 !in fs && 1 !in docs && doc.epoch !in minted && doc.source == BUILD && !doc.observed
    requires Identifier(doc.documentId) && Identifier(doc.route)
    ensures Run(Calm(docs, map[], minted, fs, log), Opening(doc))
            == Calm(docs[1 := doc], map[], minted + {doc.epoch}, fs[0 := Written(1, doc)], log)
  {
    var s := Calm(docs, map[], minted, fs, log);
    var s1 := With(s, 0, Preparing(1, doc.documentId, doc.route));
    var s2 := With(s1, 0, Fresh(1, doc.documentId, doc.route));
    RunAppend(s, [PrepareRead(0, 1, doc.documentId, doc.route), PrepareLook(0)], [PrepareWrite(0, doc.epoch)]);
    RunTwo(s, PrepareRead(0, 1, doc.documentId, doc.route), PrepareLook(0));
    assert Step(s, PrepareRead(0, 1, doc.documentId, doc.route)) == s1;
    assert Step(s1, PrepareLook(0)) == s2;
    RunOne(s2, PrepareWrite(0, doc.epoch));
    assert s2.flights[0 := Written(1, doc)] == fs[0 := Written(1, doc)];
  }

  /** A flush posts the one notice, is acknowledged and compares. */
  lemma Flushes(docs: map<nat, Doc>, minted: set<string>, fs: map<nat, Flight>, log: seq<Effect>, pid: nat, notice: Notice)
    requires pid !in fs && notice.source == BUILD && forall q :: q in fs ==> !InFlush(fs[q])
    ensures Run(Calm(docs, map[1 := notice], minted, fs, log), [FlushRead(pid, [1]), FlushPost(pid, true)])
            == Calm(docs, map[1 := notice], minted, fs[pid := Acknowledged(1, notice, [])], log + [Acked(notice.epoch)])
  {
    var s := Calm(docs, map[1 := notice], minted, fs, log);
    assert [1][1..] == [];
    assert Snapshot(s.revokes, [1]) == [(1, notice)];
    assert Listing(s.revokes, [1]) && !FlushBusy(s);
    RunTwo(s, FlushRead(pid, [1]), FlushPost(pid, true));
    assert Step(s, FlushRead(pid, [1])) == With(s, pid, Flushing([(1, notice)]));
    assert [(1, notice)][1..] == [];
    assert fs[pid := Flushing([(1, notice)])][pid := Acknowledged(1, notice, [])] == fs[pid := Acknowledged(1, notice, [])];
  }

  /** It removes the key and comes to its end. */
  lemma Erases(docs: map<nat, Doc>, minted: set<string>, fs: map<nat, Flight>, log: seq<Effect>, pid: nat, notice: Notice)
    requires pid in fs && fs[pid] == Acknowledged(1, notice, [])
    ensures Run(Calm(docs, map[1 := notice], minted, fs, log), [FlushCompare(pid), FlushErase(pid)] + [FlushPost(pid, true)])
            == Calm(docs, map[], minted, fs - {pid}, log)
  {
    var s := Calm(docs, map[1 := notice], minted, fs, log);
    RunAppend(s, [FlushCompare(pid), FlushErase(pid)], [FlushPost(pid, true)]);
    RunTwo(s, FlushCompare(pid), FlushErase(pid));
    assert Step(s, FlushCompare(pid)) == With(s, pid, Erasing(1, notice, []));
    assert fs[pid := Erasing(1, notice, [])][pid := Flushing([])] == fs[pid := Flushing([])];
    assert map[1 := notice] - {1} == map[];
    RunOne(Calm(docs, map[], minted, fs[pid := Flushing([])], log), FlushPost(pid, true));
    assert fs[pid := Flushing([])] - {pid} == fs - {pid};
  }

  /** An invalidation reads storage. */
  lemma Reads(minted: set<string>, fs: map<nat, Flight>, log: seq<Effect>, pid: nat, doc: Doc)
    requires pid !in fs
    ensures Run(Calm(map[1 := doc], map[], minted, fs, log), [InvalidateRead(pid, 1, false)])
            == Calm(map[1 := doc], map[], minted, fs[pid := Denying(false, map[1 := NoticeFor(doc, BUILD)], {1})], log)
  {
    RunOne(Calm(map[1 := doc], map[], minted, fs, log), InvalidateRead(pid, 1, false));
    assert NoticesFor(map[1 := doc], map[], {1}, BUILD) == map[1 := NoticeFor(doc, BUILD)];
  }

  lemma WritesNotice(docs: map<nat, Doc>, revokes: map<nat, Notice>, minted: set<string>, fs: map<nat, Flight>,
                     log: seq<Effect>, pid: nat, notice: Notice)
    requires pid in fs && fs[pid] == Denying(false, map[1 := notice], {1}) && revokes.Keys <= {1}
    ensures Run(Calm(docs, revokes, minted, fs, log), [InvalidateWrite(pid)])
            == Calm(docs, map[1 := notice], minted, fs[pid := Removing({1})], log)
  {
    RunOne(Calm(docs, revokes, minted, fs, log), InvalidateWrite(pid));
    assert revokes + map[1 := notice] == map[1 := notice];
  }

  lemma RemovesDoc(docs: map<nat, Doc>, revokes: map<nat, Notice>, minted: set<string>, fs: map<nat, Flight>, log: seq<Effect>, pid: nat)
    requires pid in fs && fs[pid] == Removing({1}) && docs.Keys <= {1}
    ensures Run(Calm(docs, revokes, minted, fs, log), [InvalidateRemove(pid)]) == Calm(map[], revokes, minted, fs - {pid}, log)
  {
    RunOne(Calm(docs, revokes, minted, fs, log), InvalidateRemove(pid));
    assert docs - {1} == map[];
  }

  lemma Dies(docs: map<nat, Doc>, minted: set<string>, fs: map<nat, Flight>, log: seq<Effect>, pid: nat)
    ensures Run(Calm(docs, map[], minted, fs, log), [Die(pid)]) == Calm(docs, map[], minted, fs - {pid}, log)
  {
    RunOne(Calm(docs, map[], minted, fs, log), Die(pid));
  }

  /** A run from the empty storage, continued. */
  lemma Then(before: seq<Event>, part: seq<Event>) returns (run: seq<Event>)
    ensures run == before + part && Run(Empty, run) == Run(Run(Empty, before), part)
  {
    run := before + part;
    RunAppend(Empty, before, part);
  }

  const DENYING := Denying(false, map[1 := NOTICE_1], {1})

  /** The first document is denied twice; one of the two invalidations has gone all the way. */
  lemma FirstDocumentDenied() returns (run: seq<Event>)
    ensures Run(Empty, run) == Calm(map[], map[1 := NOTICE_1], {"epoch-1"}, map[10 := DENYING], [])
  {
    hide Step, Run, Opening;
    NothingRuns(Empty);
    run := Then([], Opening(FIRST));
    Opens(map[], {}, map[], [], FIRST);
    assert Run(Empty, run) == Calm(map[1 := FIRST], map[], {"epoch-1"}, map[0 := Written(1, FIRST)], []) by {
      assert map[][1 := FIRST] == map[1 := FIRST];
      assert {} + {"epoch-1"} == {"epoch-1"};
    }
    run := Then(run, [Die(0)]);
    Dies(map[1 := FIRST], {"epoch-1"}, map[0 := Written(1, FIRST)], [], 0);
    assert map[0 := Written(1, FIRST)] - {0} == map[];
    run := DeniedTwice(run);
  }

  lemma DeniedTwice(before: seq<Event>) returns (run: seq<Event>)
    requires Run(Empty, before) == Calm(map[1 := FIRST], map[], {"epoch-1"}, map[], [])
    ensures Run(Empty, run) == Calm(map[], map[1 := NOTICE_1], {"epoch-1"}, map[10 := DENYING], [])
  {
    hide Step, Run, Calm;
    run := Then(before, [InvalidateRead(10, 1, false)]);
    Reads({"epoch-1"}, map[], [], 10, FIRST);
    run := Then(run, [InvalidateRead(11, 1, false)]);
    Reads({"epoch-1"}, map[10 := DENYING], [], 11, FIRST);
    var fs := map[10 := DENYING][11 := DENYING];
    run := Then(run, [InvalidateWrite(11)]);
    WritesNotice(map[1 := FIRST], map[], {"epoch-1"}, fs, [], 11, NOTICE_1);
    run := Then(run, [InvalidateRemove(11)]);
    RemovesDoc(map[1 := FIRST], map[1 := NOTICE_1], {"epoch-1"}, fs[11 := Removing({1})], [], 11);
    assert fs[11 := Removing({1})] - {11} == map[10 := DENYING];
  }

  lemma FirstNoticeAcknowledged() returns (run: seq<Event>)
    ensures Run(Empty, run)
            == Calm(map[], map[], {"epoch-1"}, map[10 := DENYING], [Acked("epoch-1")])
  {
    hide Step, Run, Calm;
    run := FirstDocumentDenied();
    run := Then(run, [FlushRead(20, [1]), FlushPost(20, true)]);
    Flushes(map[], {"epoch-1"}, map[10 := DENYING], [], 20, NOTICE_1);
    var fs := map[10 := DENYING][20 := Acknowledged(1, NOTICE_1, [])];
    assert [] + [Acked("epoch-1")] == [Acked("epoch-1")];
    run := Then(run, [FlushCompare(20), FlushErase(20)] + [FlushPost(20, true)]);
    Erases(map[], {"epoch-1"}, fs, [Acked("epoch-1")], 20, NOTICE_1);
    assert fs - {20} == map[10 := DENYING];
  }

  const MINTED := {"epoch-1"} + {"epoch-2"}

  /** The second document is read by a third invalidation. */
  function Overlapping(): map<nat, Flight> {
    map[10 := DENYING][0 := Written(1, SECOND)][12 := Denying(false, map[1 := NOTICE_2], {1})]
  }

  lemma SecondDocumentDenied() returns (run: seq<Event>)
    ensures Run(Empty, run) == Calm(map[1 := SECOND], map[], MINTED, Overlapping(), [Acked("epoch-1")])
  {
    hide Step, Run, Opening, Calm;
    var fs := map[10 := DENYING];
    run := FirstNoticeAcknowledged();
    run := Then(run, Opening(SECOND));
    Opens(map[], {"epoch-1"}, fs, [Acked("epoch-1")], SECOND);
    assert map[][1 := SECOND] == map[1 := SECOND];
    run := Then(run, [InvalidateRead(12, 1, false)]);
    Reads(MINTED, fs[0 := Written(1, SECOND)], [Acked("epoch-1")], 12, SECOND);
  }

  /** The notice of the second invalidation is written, and acknowledged again. */
  lemma SecondDocumentRead() returns (run: seq<Event>)
    ensures var s := Run(Empty, run);
      && s.source == BUILD && s.revokes == map[1 := NOTICE_1] && s.log == [Acked("epoch-1"), Acked("epoch-1")]
      && Waits(s, 21, Acknowledged(1, NOTICE_1, [])) && Waits(s, 12, Denying(false, map[1 := NOTICE_2], {1}))
  {
    hide Step, Run;
    var fs, log := Overlapping(), [Acked("epoch-1")];
    run := SecondDocumentDenied();
    run := Then(run, [InvalidateWrite(10)]);
    WritesNotice(map[1 := SECOND], map[], MINTED, fs, log, 10, NOTICE_1);
    fs := fs[10 := Removing({1})];
    run := Then(run, [InvalidateRemove(10)]);
    RemovesDoc(map[1 := SECOND], map[1 := NOTICE_1], MINTED, fs, log, 10);
    fs := fs - {10};
    run := Then(run, [FlushRead(21, [1]), FlushPost(21, true)]);
    Flushes(map[], MINTED, fs, log, 21, NOTICE_1);
  }

  /** A revoke notice can leave storage unacknowledged. Two invalidations of the first
      document overlap; the slower one writes its notice, already acknowledged once, when the
      second document has been read by a third; that one's notice is written between the
      comparison and the removal of a flush, and removed with it. */
  lemma NoticeErasedUnacknowledged() returns (run: seq<Event>)
    ensures var s := Run(Empty, run);
      && AckedFirst(s) && OneFlush(s) && Waits(s, 21, Acknowledged(1, NOTICE_1, [])) && CarriesUnacked(s, 12, 1)
      && var s1 := Step(s, FlushCompare(21));
      && s1.flights[21].Erasing?
      && var s2 := Run(s1, [InvalidateWrite(12)]);
      && Unacked(s2, 1) && s2.revokes[1] == NOTICE_2 && 1 !in Step(s2, FlushErase(21)).revokes
  {
    hide Run;
    run := SecondDocumentRead();
    AckedFirstRun(Empty, run);
    OneFlushRun(Empty, run);
    var s := Run(Empty, run);
    var s1 := Step(s, FlushCompare(21));
    assert Waits(s1, 12, Denying(false, map[1 := NOTICE_2], {1}));
    RunOne(s1, InvalidateWrite(12));
    assert Step(s1, InvalidateWrite(12)).revokes[1] == NOTICE_2;
  }

  // ---------------------------------------------------------------- a revoked epoch proven

  /** The observation of the document is about to publish. */
  lemma ReadyToPublish(minted: set<string>, fs: map<nat, Flight>, log: seq<Effect>, doc: Doc)
    requires 0 in fs && fs[0] == Written(1, doc) && doc.source == BUILD
    ensures Run(Calm(map[1 := doc], map[], minted, fs, log), [PrepareCheck(0), PublishRead(0)])
            == Calm(map[1 := doc], map[], minted, fs[0 := Publishing(1, doc)], log + [Prepared(1, doc)])
  {
    var s := Calm(map[1 := doc], map[], minted, fs, log);
    RunTwo(s, PrepareCheck(0), PublishRead(0));
    assert Step(s, PrepareCheck(0)) == With(Logged(s, Prepared(1, doc)), 0, Tracking(1, doc));
    assert fs[0 := Tracking(1, doc)][0 := Publishing(1, doc)] == fs[0 := Publishing(1, doc)];
  }

  /** It has published and is about to write the document back. */
  lemma ReadyToMark(minted: set<string>, fs: map<nat, Flight>, log: seq<Effect>, doc: Doc)
    requires 0 in fs && fs[0] == Publishing(1, doc)
    ensures Run(Calm(map[1 := doc], map[], minted, fs, log), [PublishPost(0, true), MarkRead(0)])
            == Calm(map[1 := doc], map[], minted, fs[0 := Marking(1, doc)], log + [Observed(1, doc)])
  {
    var s := Calm(map[1 := doc], map[], minted, fs, log);
    RunTwo(s, PublishPost(0, true), MarkRead(0));
    assert Step(s, PublishPost(0, true)) == With(Logged(s, Observed(1, doc)), 0, Replied(1, doc));
    assert fs[0 := Replied(1, doc)][0 := Marking(1, doc)] == fs[0 := Marking(1, doc)];
  }

  const OBSERVED_LOG := [] + [Prepared(1, FIRST)] + [Observed(1, FIRST)]

  /** The first document is observed up to its mark. */
  lemma FirstDocumentRead() returns (run: seq<Event>)
    ensures Run(Empty, run) == Calm(map[1 := FIRST], map[], {"epoch-1"}, map[0 := Marking(1, FIRST)], OBSERVED_LOG)
  {
    hide Step, Run, Opening;
    NothingRuns(Empty);
    run := Then([], Opening(FIRST));
    Opens(map[], {}, map[], [], FIRST);
    assert map[][1 := FIRST] == map[1 := FIRST];
    assert {} + {"epoch-1"} == {"epoch-1"};
    var fs := map[][0 := Written(1, FIRST)];
    run := Then(run, [PrepareCheck(0), PublishRead(0)]);
    ReadyToPublish({"epoch-1"}, fs, [], FIRST);
    fs := fs[0 := Publishing(1, FIRST)];
    run := Then(run, [PublishPost(0, true), MarkRead(0)]);
    ReadyToMark({"epoch-1"}, fs, [] + [Prepared(1, FIRST)], FIRST);
    assert fs[0 := Marking(1, FIRST)] == map[0 := Marking(1, FIRST)];
  }

  /** Meanwhile it is denied. */
  lemma ReadDocumentDenied() returns (run: seq<Event>)
    ensures Run(Empty, run)
            == Calm(map[], map[1 := NOTICE_1], {"epoch-1"}, map[0 := Marking(1, FIRST)], OBSERVED_LOG)
  {
    hide Step, Run, Calm;
    var minted, fs := {"epoch-1"}, map[0 := Marking(1, FIRST)];
    run := FirstDocumentRead();
    run := Then(run, [InvalidateRead(11, 1, false)]);
    Reads(minted, fs, OBSERVED_LOG, 11, FIRST);
    fs := fs[11 := DENYING];
    run := Then(run, [InvalidateWrite(11)]);
    WritesNotice(map[1 := FIRST], map[], minted, fs, OBSERVED_LOG, 11, NOTICE_1);
    fs := fs[11 := Removing({1})];
    run := Then(run, [InvalidateRemove(11)]);
    RemovesDoc(map[1 := FIRST], map[1 := NOTICE_1], minted, fs, OBSERVED_LOG, 11);
    assert fs - {11} == map[0 := Marking(1, FIRST)];
  }

  /** And the denial is acknowledged and erased. */
  lemma FirstDocumentGone() returns (run: seq<Event>)
    ensures var s := Run(Empty, run);
      s.docs == map[] && s.revokes == map[] && !s.poison && s.log == OBSERVED_LOG + [Acked("epoch-1")] && Waits(s, 0, Marking(1, FIRST))
  {
    hide Step, Run;
    var minted, fs := {"epoch-1"}, map[0 := Marking(1, FIRST)];
    run := ReadDocumentDenied();
    run := Then(run, [FlushRead(20, [1]), FlushPost(20, true)]);
    Flushes(map[], minted, fs, OBSERVED_LOG, 20, NOTICE_1);
    fs := fs[20 := Acknowledged(1, NOTICE_1, [])];
    run := Then(run, [FlushCompare(20), FlushErase(20)] + [FlushPost(20, true)]);
    Erases(map[], minted, fs, OBSERVED_LOG + [Acked("epoch-1")], 20, NOTICE_1);
  }

  /** A proof can be returned for an epoch whose revocation the relay has acknowledged. */
  lemma RevokedEpochProven() returns (run: seq<Event>)
    ensures var s := Run(Empty, run);
      && Acked("epoch-1") in s.log && s.docs == map[] && Proof(1, FIRST) !in s.log
      && Proof(1, FIRST) in Run(s, [MarkWrite(0)] + [ProofRead(0, true)]).log
  {
    hide Step, Run;
    run := FirstDocumentGone();
    Revival.MarkedIsProven(Run(Empty, run), 0);
  }

  /** Nor need the notice have been acknowledged when the document is written back: the proof
      comes when it has left. */
  lemma DeniedEpochProvenLater() returns (run: seq<Event>, later: seq<Event>)
    ensures var s := Run(Empty, run);
      s.docs == map[] && s.revokes == map[1 := NOTICE_1] && Revival.NewProof(s, later, "epoch-1")
  {
    hide Step, Run;
    run := ReadDocumentDenied();
    Revival.RunKeepsSound(Empty, run);
    var s := Run(Empty, run);
    Revival.PendingAtLeast(s);
    assert s.flights[0] == Marking(1, FIRST);
    later := Revival.MarkingIsProven(s, 0, "epoch-1");
  }
}
