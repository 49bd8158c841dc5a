/** What the chunked upload promises over whole runs. */
module AttachmentTheorems {
  import opened Basics
  import opened AttachmentUpload
  import opened AttachmentSafety

  /** The acknowledged indices are 0 to chunks - 1, acknowledgement i holds the sum of the first
      i + 1 lengths, and the sum never exceeds the declared total. */
  lemma AcknowledgementsArePrefixSums(events: seq<Event>, id: string, i: nat)
    ensures var s := Run(Init, events);
      id in s.uploads ==>
        var u, at := s.uploads[id], ChunkKey(id, i);
        && (at in s.chunks <==> i < u.chunks)
        && (at in s.chunks ==> s.chunks[at].ack.chunks == i + 1 && s.chunks[at].ack.bytes == |Joined(s.chunks, id, i + 1)|
                               && (s.chunks[at].ack.complete <==> s.chunks[at].ack.bytes >= u.declared.total))
        && u.received == |Joined(s.chunks, id, u.chunks)| <= u.declared.total
  {
    InitIsSound();
    RunKeepsInv(Init, events);
    var s := Run(Init, events);
    if id in s.uploads {
      LedgerFact(s, id);
      var u := s.uploads[id];
      assert Indexed(s.chunks, id, u.chunks, i);
      assert ChunkKey(id, i) in s.chunks ==> ChunkSound(s.chunks, id, u.declared.total, i);
    }
  }

  lemma {:induction false} JoinedAtMost(chunks: map<ChunkKey, ChunkRow>, id: string, u: Upload, n: nat)
    requires LedgerSound(chunks, id, u) && n <= u.chunks
    ensures |Joined(chunks, id, n)| <= n * CHUNK_BYTES
    decreases n
  {
    if n > 0 {
      JoinedAtMost(chunks, id, u, n - 1);
      assert Indexed(chunks, id, u.chunks, n - 1) && ChunkSound(chunks, id, u.declared.total, n - 1);
    }
  }

  /** No run reaches the declared total in fewer chunks than expected, which is at most 40. */
  lemma TotalNeedsExpectedChunks(events: seq<Event>, id: string)
    ensures var s := Run(Init, events);
      id in s.uploads ==>
        && 1 <= ChunksExpected(s.uploads[id].declared.total) <= 40
        && (s.uploads[id].received == s.uploads[id].declared.total ==> ChunksExpected(s.uploads[id].declared.total) <= s.uploads[id].chunks)
  {
    hide Run, ReadParts;
    InitIsSound();
    RunKeepsInv(Init, events);
    var s := Run(Init, events);
    if id in s.uploads {
      LedgerFact(s, id);
      JoinedAtMost(s.chunks, id, s.uploads[id], s.uploads[id].chunks);
    }
  }

  /** In every reachable state, whatever crashed when, an open upload can be read back. */
  lemma OpenUploadLosesNothing(events: seq<Event>, id: string)
    ensures var s := Run(Init, events);
      id in s.uploads && s.uploads[id].state == Open ==>
        ReadParts(s.parts, id, s.uploads[id].chunks) == Some(Joined(s.chunks, id, s.uploads[id].chunks))
  {
    InitIsSound();
    RunKeepsInv(Init, events);
    var s := Run(Init, events);
    if id in s.uploads && s.uploads[id].state == Open {
      PartsAreJoined(s, id, s.uploads[id].chunks);
    }
  }

  lemma SameContent(chunks: map<ChunkKey, ChunkRow>, chunks': map<ChunkKey, ChunkRow>, at: ChunkKey)
    requires SameRow(chunks, chunks', at)
    ensures Content(chunks', at) == Content(chunks, at)
  {
  }

  /** The part file of an acknowledged chunk does not change while the upload is open. */
  lemma CommittedPartsNeverChange(events: seq<Event>, later: seq<Event>, id: string, i: nat)
    ensures var s := Run(Init, events);
      var t := Run(s, later);
      id in s.uploads && i < s.uploads[id].chunks && id in t.uploads && t.uploads[id].state == Open ==>
        ChunkKey(id, i) in s.parts && ChunkKey(id, i) in t.parts && t.parts[ChunkKey(id, i)] == s.parts[ChunkKey(id, i)]
  {
    InitIsSound();
    RunKeepsInv(Init, events);
    var s := Run(Init, events);
    RunKeepsInv(s, later);
    var t := Run(s, later);
    hide Inv, Run, Content;
    if id in s.uploads && i < s.uploads[id].chunks && id in t.uploads && t.uploads[id].state == Open {
      assert UploadKept(s, t, id);
      OnePart(s, id, i);
      OnePart(t, id, i);
      assert SameRow(s.chunks, t.chunks, ChunkKey(id, i));
      SameContent(s.chunks, t.chunks, ChunkKey(id, i));
    }
  }

  /** A completed upload has exactly one blob of its own, and the bytes stored under the
      declared digest are its acknowledged chunks joined in order, of the declared length. */
  lemma CompletedIsItsChunks(events: seq<Event>, id: string)
    ensures var s := Run(Init, events);
      id in s.uploads && s.uploads[id].state == Complete ==>
        var u := s.uploads[id];
        && u.declared.sha in s.files && s.files[u.declared.sha] == Joined(s.chunks, id, u.chunks)
        && |s.files[u.declared.sha]| == u.declared.total && Sha256(s.files[u.declared.sha]) == u.declared.sha
        && (exists i :: MadeFor(s, i, id)) && forall i, j :: MadeFor(s, i, id) && MadeFor(s, j, id) ==> i == j
  {
    InitIsSound();
    RunKeepsInv(Init, events);
    var s := Run(Init, events);
    if id in s.uploads && s.uploads[id].state == Complete {
      LedgerFact(s, id);
      var k :| IsCompletion(s, k, id);
      assert RequestSound(s, k) && MadeOnce(s.log);
      hide Inv, Run, LedgerSound, Joined;
      var i :| 0 <= i < |s.log| && s.log[i] == Made(id, s.requests[k].attachment);
      assert MadeFor(s, i, id);
    }
  }

  /** Entry i of the log is a blob registered by the completion of this upload. */
  predicate MadeFor(s: State, i: int, id: string) {
    0 <= i < |s.log| && s.log[i].upload == id && s.log[i].attachment in s.blobs
  }

  /** Every recorded completion describes the upload and the blob it registered. */
  lemma ReceiptDescribesTheUpload(events: seq<Event>, k: RequestKey)
    ensures var s := Run(Init, events);
      k in s.requests && s.requests[k].purpose.Completion? ==>
        var row := s.requests[k];
        && row.purpose.upload in s.uploads && s.uploads[row.purpose.upload].state == Complete
        && row.attachment in s.blobs && s.blobs[row.attachment] == row.receipt
        && row.receipt.bytes == s.uploads[row.purpose.upload].declared.total
        && row.receipt.sha == s.uploads[row.purpose.upload].declared.sha
  {
    InitIsSound();
    RunKeepsInv(Init, events);
    var s := Run(Init, events);
    if k in s.requests {
      assert RequestSound(s, k);
    }
  }

  /** An upload that is completed or aborted stays exactly what it is: it is never both. */
  lemma ClosedIsFinal(events: seq<Event>, later: seq<Event>, id: string)
    ensures var s := Run(Init, events);
      id in s.uploads && s.uploads[id].state != Open ==>
        id in Run(s, later).uploads && Run(s, later).uploads[id] == s.uploads[id]
  {
    InitIsSound();
    RunKeepsInv(Init, events);
    RunKeepsInv(Run(Init, events), later);
    assert UploadKept(Run(Init, events), Run(Run(Init, events), later), id);
  }

  /** The upload is complete, with this completion on record. */
  predicate OnRecord(s: State, e: Event, receipt: Blob)
    requires e.Finish?
  {
    var k := RequestKey(e.owner, e.project, e.key);
    && e.upload in s.uploads && k in s.requests
    && var u := s.uploads[e.upload];
    && u.state == Complete && u.owner == e.owner && u.project == e.project
    && u.declared.space == e.space && u.declared.conversation == e.conversation
    && s.requests[k] == RequestRow(Completion(e.upload, u.declared.sha, e.operation, e.workItem), e.id, receipt)
  }

  lemma CompletionIsOnRecord(s: State, e: Event)
    requires Inv(s) && e.Finish? && FinishAnswer(s, e).Finished? && e.fault == NoFault && e.id !in s.blobs
    ensures Inv(Step(s, e)) && OnRecord(Step(s, e), e, FinishAnswer(s, e).receipt)
  {
    FinishedFacts(s, e);
    StepKeepsInv(s, e);
    hide Inv, Grows, Joined, MimeOf, Assembled;
  }

  lemma RecordStays(s: State, t: State, e: Event, receipt: Blob)
    requires Grows(s, t) && e.Finish? && OnRecord(s, e, receipt)
    ensures OnRecord(t, e, receipt)
  {
    assert UploadKept(s, t, e.upload);
  }

  /** Repeating the completing request, at any later time, gives the same receipt again. */
  lemma CompletionReplaysItsReceipt(s: State, e: Event, later: seq<Event>, again: Event)
    requires Inv(s) && e.Finish? && FinishAnswer(s, e).Finished? && e.fault == NoFault && e.id !in s.blobs
    requires again.Finish? && again == e.(id := again.id, fault := again.fault) && DurableKey(e.key)
    ensures FinishAnswer(Run(Step(s, e), later), again) == ReplayedReceipt(e.id, FinishAnswer(s, e).receipt)
  {
    hide Inv, Grows, Step, Run;
    CompletionIsOnRecord(s, e);
    RunKeepsInv(Step(s, e), later);
    RecordStays(Step(s, e), Run(Step(s, e), later), e, FinishAnswer(s, e).receipt);
  }

  /** When a completion with matching scope and a fresh key goes through: exactly when all bytes
      are there, they have the declared digest, and they look like what was declared. */
  lemma CompletesIff(s: State, e: Event)
    requires Inv(s) && e.Finish? && e.upload in s.uploads && DurableKey(e.key)
    requires var u := s.uploads[e.upload];
      u.state == Open && u.owner == e.owner && u.project == e.project && u.declared.space == e.space
      && u.declared.conversation == e.conversation
    requires RequestKey(e.owner, e.project, e.key) !in s.requests
    ensures var u := s.uploads[e.upload];
      var raw := Joined(s.chunks, e.upload, u.chunks);
      FinishAnswer(s, e).Finished? <==>
        |raw| == u.declared.total && Sha256(raw) == u.declared.sha && MimeOf(u.declared.kind, raw).Some?
  {
    var u := s.uploads[e.upload];
    LedgerFact(s, e.upload);
    PartsAreJoined(s, e.upload, u.chunks);
    assert u.declared.sha in s.files ==> FileSound(s.files, u.declared.sha);
  }

  /** The row of an accepted chunk, at any later time. */
  lemma ChunkRowStays(s: State, e: Event, later: seq<Event>)
    requires Inv(s) && e.Chunk? && Answer(s, e).Accepted? && e.fault == NoFault
    ensures var t, at := Run(Step(s, e), later), ChunkKey(e.upload, e.index);
      && Inv(t) && at in t.chunks && e.raw.Some? && t.chunks[at] == ChunkRow(e.key, Sha256(e.raw.value), Answer(s, e).ack)
      && e.upload in t.uploads && t.uploads[e.upload].owner == e.owner && e.raw.value != [] && |e.raw.value| <= CHUNK_BYTES
  {
    var t0 := Step(s, e);
    assert ChunkKey(e.upload, e.index) in t0.chunks && t0.uploads[e.upload].owner == e.owner;
    StepKeepsInv(s, e);
    hide Inv, Step, Answer;
    RunKeepsInv(t0, later);
    assert SameRow(t0.chunks, Run(t0, later).chunks, ChunkKey(e.upload, e.index)) && UploadKept(t0, Run(t0, later), e.upload);
  }

  /** The same chunk request at another time. */
  function Again(e: Event, now: int): Event
    requires e.Chunk?
  {
    Chunk(e.owner, e.upload, e.index, e.raw, e.sha, e.key, now, e.fault)
  }

  /** A repeated chunk request gets its stored acknowledgement, as long as the upload takes
      chunks at all. */
  lemma ChunkReplaysItsAck(s: State, e: Event, later: seq<Event>, now: int)
    requires Inv(s) && e.Chunk? && Answer(s, e).Accepted? && e.fault == NoFault
    ensures var t := Run(Step(s, e), later);
      e.upload in t.uploads && t.uploads[e.upload].state == Open && now - t.uploads[e.upload].created <= UPLOAD_TTL_S ==>
        Answer(t, Again(e, now)) == Replayed(Answer(s, e).ack)
  {
    hide Inv, Step, Run;
    ChunkRowStays(s, e, later);
  }

  /** A new key for an acknowledged index, or its key for another chunk, is refused. */
  lemma OtherChunkIntentsAreRefused(s: State, e: Event, later: seq<Event>, again: Event)
    requires Inv(s) && e.Chunk? && Answer(s, e).Accepted? && e.fault == NoFault && again.Chunk?
    requires (again.upload == e.upload && again.index == e.index && again.key != e.key)
             || (again.key == e.key && (again.upload != e.upload || again.index != e.index))
    ensures Answer(Run(Step(s, e), later), again) == Refused
  {
    hide Inv, Step, Run;
    var t := Run(Step(s, e), later);
    ChunkRowStays(s, e, later);
    if again.index >= 0 {
      KeysAreApart(t, ChunkKey(e.upload, e.index), ChunkKey(again.upload, again.index));
    }
  }

  lemma KeysAreApart(t: State, c: ChunkKey, c': ChunkKey)
    requires Inv(t)
    ensures KeysTold(t.chunks, c, c')
  {
  }

  // ---------------------------------------------------------------- how many chunks

  /** A chunk holds at least a byte, so an upload has at most as many chunks as bytes. */
  lemma {:induction false} JoinedAtLeast(chunks: map<ChunkKey, ChunkRow>, id: string, u: Upload, n: nat)
    requires LedgerSound(chunks, id, u) && n <= u.chunks
    ensures n <= |Joined(chunks, id, n)|
    decreases n
  {
    if n > 0 {
      JoinedAtLeast(chunks, id, u, n - 1);
      assert Indexed(chunks, id, u.chunks, n - 1) && ChunkSound(chunks, id, u.declared.total, n - 1);
    }
  }

  const DIGIT := 40_000

  /** The durable key of the i-th chunk of an upload that is sent byte by byte. */
  function ByteKey(i: nat): string
    requires i < DIGIT * DIGIT
  {
    [(i / DIGIT) as char, (i % DIGIT) as char]
  }

  lemma ByteKeysDiffer(i: nat, j: nat)
    requires i < DIGIT * DIGIT && j < DIGIT * DIGIT && ByteKey(i) == ByteKey(j)
    ensures i == j
  {
    assert ByteKey(i)[0] == ByteKey(j)[0] && ByteKey(i)[1] == ByteKey(j)[1];
    assert i / DIGIT == j / DIGIT && i % DIGIT == j % DIGIT;
  }

  /** Byte i of an upload sent on its own. */
  function OneByte(id: string, owner: string, i: nat): Event
    requires i < DIGIT * DIGIT
  {
    Chunk(owner, id, i, Some([0]), None, ByteKey(i), 0, NoFault)
  }

  predicate KeyAt(chunks: map<ChunkKey, ChunkRow>, c: ChunkKey)
    requires c in chunks
  {
    c.index < DIGIT * DIGIT && chunks[c].key == ByteKey(c.index)
  }

  /** n bytes of the one upload there is have arrived, each in a chunk of its own. */
  predicate Arrived(s: State, id: string, owner: string, declared: Declared, n: nat) {
    && id in s.uploads && s.uploads[id] == Upload(owner, s.uploads[id].project, declared, n, n, 0, Open)
    && (forall c :: c in s.chunks ==> c.upload == id && KeyAt(s.chunks, c))
    && n <= declared.total
  }

  lemma OneByteAnswer(s: State, id: string, owner: string, declared: Declared, n: nat)
    requires Inv(s) && Arrived(s, id, owner, declared, n) && n < declared.total <= MAX_DOCUMENT_BYTES
    ensures Answer(s, OneByte(id, owner, n)) == Accepted(Ack(n + 1, n + 1, n + 1 >= declared.total))
  {
    LedgerFact(s, id);
    assert Indexed(s.chunks, id, n, n);
    hide Inv, LedgerSound, UploadSound;
    if KeyElsewhere(s.chunks, ByteKey(n), ChunkKey(id, n)) {
      var c :| c in s.chunks && s.chunks[c].key == ByteKey(n) && c != ChunkKey(id, n);
      assert KeyAt(s.chunks, c);
      ByteKeysDiffer(c.index, n);
    }
  }

  lemma OneByteStep(s: State, id: string, owner: string, declared: Declared, n: nat)
    requires Inv(s) && Arrived(s, id, owner, declared, n) && n < declared.total <= MAX_DOCUMENT_BYTES
    ensures Step(s, OneByte(id, owner, n))
            == s.(parts := s.parts[ChunkKey(id, n) := [0]],
                  uploads := s.uploads[id := s.uploads[id].(received := n + 1, chunks := n + 1)],
                  chunks := s.chunks[ChunkKey(id, n) := ChunkRow(ByteKey(n), Sha256([0]), Ack(n + 1, n + 1, n + 1 >= declared.total))])
  {
    OneByteAnswer(s, id, owner, declared, n);
    hide Inv, Answer, ByteKey, Arrived;
    assert Step(s, OneByte(id, owner, n)) == ChunkStep(s, OneByte(id, owner, n));
  }

  lemma OneByteArrived(s: State, t: State, id: string, owner: string, declared: Declared, n: nat)
    requires Arrived(s, id, owner, declared, n) && n < declared.total <= MAX_DOCUMENT_BYTES && id in t.uploads
    requires t.uploads[id] == s.uploads[id].(received := n + 1, chunks := n + 1)
    requires forall c :: c in t.chunks ==> c == ChunkKey(id, n) || (c in s.chunks && t.chunks[c] == s.chunks[c])
    requires ChunkKey(id, n) in t.chunks && t.chunks[ChunkKey(id, n)].key == ByteKey(n)
    ensures Arrived(t, id, owner, declared, n + 1)
  {
    hide ByteKey;
    forall c | c in t.chunks ensures c.upload == id && KeyAt(t.chunks, c) {
      assert c in s.chunks ==> KeyAt(s.chunks, c);
    }
  }

  lemma OneByteMore(s: State, id: string, owner: string, declared: Declared, n: nat)
    requires Inv(s) && Arrived(s, id, owner, declared, n) && n < declared.total <= MAX_DOCUMENT_BYTES
    ensures Inv(Step(s, OneByte(id, owner, n))) && Arrived(Step(s, OneByte(id, owner, n)), id, owner, declared, n + 1)
  {
    assert id in s.uploads;
    hide Inv, Grows, Step, ByteKey, OneByte, Arrived;
    StepKeepsInv(s, OneByte(id, owner, n));
    OneByteStep(s, id, owner, declared, n);
    OneByteArrived(s, Step(s, OneByte(id, owner, n)), id, owner, declared, n);
  }

  function OneByteRun(id: string, owner: string, n: nat): seq<Event>
    requires n <= DIGIT * DIGIT
  {
    if n == 0 then [] else OneByteRun(id, owner, n - 1) + [OneByte(id, owner, n - 1)]
  }

  lemma {:induction false} RunThen(s: State, events: seq<Event>, e: Event)
    ensures Run(s, events + [e]) == Step(Run(s, events), e)
    decreases |events|
  {
    if events == [] {
      assert [e][1..] == [];
      assert events + [e] == [e];
    } else {
      assert (events + [e])[1..] == events[1..] + [e];
      RunThen(Step(s, events[0]), events[1..], e);
    }
  }

  /** An upload sent byte by byte is accepted, up to its declared total. */
  lemma {:induction false} BytesArriveOneByOne(s: State, id: string, owner: string, declared: Declared, n: nat)
    requires Inv(s) && Arrived(s, id, owner, declared, 0) && n <= declared.total <= MAX_DOCUMENT_BYTES
    ensures Inv(Run(s, OneByteRun(id, owner, n))) && Arrived(Run(s, OneByteRun(id, owner, n)), id, owner, declared, n)
    decreases n
  {
    hide Inv, Arrived, Step, Run, OneByte;
    if n == 0 {
      NothingRuns(s);
    } else {
      BytesArriveOneByOne(s, id, owner, declared, n - 1);
      RunThen(s, OneByteRun(id, owner, n - 1), OneByte(id, owner, n - 1));
      OneByteMore(Run(s, OneByteRun(id, owner, n - 1)), id, owner, declared, n - 1);
    }
  }

  lemma NothingRuns(s: State)
    ensures Run(s, []) == s
  {
  }

  /** What a begin request may declare. */
  predicate Declarable(d: Declared) {
    1 <= |d.name| <= 256 && 1 <= d.total <= Budget(d.kind) && BoundedScope(d.space) && BoundedScope(d.conversation)
  }

  /** The run acknowledges n chunks of an upload that was declared so. */
  predicate Acknowledges(events: seq<Event>, id: string, declared: Declared, n: nat) {
    var s := Run(Init, events);
    id in s.uploads && s.uploads[id].declared == declared && s.uploads[id].chunks == n
  }

  /** Every upload is admissible and acknowledges no more chunks than it declares bytes. */
  lemma AcknowledgedAtMost(events: seq<Event>, id: string)
    ensures var s := Run(Init, events);
      id in s.uploads ==> Declarable(s.uploads[id].declared) && s.uploads[id].chunks <= s.uploads[id].declared.total
  {
    InitIsSound();
    RunKeepsInv(Init, events);
    DeclaredOnly(Init, events);
    var s := Run(Init, events);
    if id in s.uploads {
      LedgerFact(s, id);
      JoinedAtLeast(s.chunks, id, s.uploads[id], s.uploads[id].chunks);
    }
  }

  predicate AllDeclarable(s: State) {
    forall id :: id in s.uploads ==> Declarable(s.uploads[id].declared)
  }

  lemma ChunkNamesUpload(s: State, e: Event)
    ensures e.Chunk? && Answer(s, e).Accepted? ==> e.upload in s.uploads
  {
  }

  lemma DeclaredOnlyStep(s: State, e: Event)
    requires AllDeclarable(s)
    ensures AllDeclarable(Step(s, e))
  {
    hide Answer, Assembled;
    assert e.Chunk? && Answer(s, e).Accepted? ==> e.upload in s.uploads by { ChunkNamesUpload(s, e); }
  }

  lemma {:induction false} DeclaredOnly(s: State, events: seq<Event>)
    requires AllDeclarable(s)
    ensures AllDeclarable(Run(s, events))
    decreases |events|
  {
    hide AllDeclarable, Step;
    if events != [] {
      DeclaredOnlyStep(s, events[0]);
      DeclaredOnly(Step(s, events[0]), events[1..]);
    }
  }

  /** The run that begins an upload and sends n of its bytes one by one. */
  lemma SendsBytes(declared: Declared, n: nat) returns (run: seq<Event>)
    requires Declarable(declared) && n <= declared.total
    ensures Acknowledges(run, "upload", declared, n)
  {
    var begin := Begin("owner", "project", declared, "key", 0, "upload");
    var s := Step(Init, begin);
    assert s.uploads["upload"] == Upload("owner", "project", declared, 0, 0, 0, Open);
    assert Arrived(s, "upload", "owner", declared, 0);
    InitIsSound();
    StepKeepsInv(Init, begin);
    BytesArriveOneByOne(s, "upload", "owner", declared, n);
    run := [begin] + OneByteRun("upload", "owner", n);
    assert run[1..] == OneByteRun("upload", "owner", n);
  }

  /** How many chunks an upload can acknowledge: any number up to its declared total, the
      number of its bytes, and no other. */
  lemma ChunksIff(declared: Declared, n: nat)
    ensures (exists events, id :: Acknowledges(events, id, declared, n)) <==> Declarable(declared) && n <= declared.total
  {
    if Declarable(declared) && n <= declared.total {
      var run := SendsBytes(declared, n);
    }
    if events, id :| Acknowledges(events, id, declared, n) {
      AcknowledgedAtMost(events, id);
    }
  }

  /** The run acknowledges more chunks of an upload declared so than is published as the most. */
  predicate Exceeds(events: seq<Event>, id: string, declared: Declared) {
    var s := Run(Init, events);
    id in s.uploads && s.uploads[id].declared == declared && s.uploads[id].chunks > 40
  }

  /** So the published bound of 40 chunks is exceeded by some run exactly when more than 40 bytes
      are declared. */
  lemma MoreThanFortyIff(declared: Declared)
    ensures (exists events, id :: Exceeds(events, id, declared)) <==> Declarable(declared) && declared.total > 40
  {
    if Declarable(declared) && declared.total > 40 {
      var run := SendsBytes(declared, 41);
      assert Exceeds(run, "upload", declared);
    }
    if events, id :| Exceeds(events, id, declared) {
      AcknowledgedAtMost(events, id);
    }
  }
}
