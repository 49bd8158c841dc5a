/** What every step of a chunked upload keeps, over all orders, replays and crashes.

    A step either leaves an upload's rows and files alone, or is one of those that write for
    it; so every step is shown in three parts. It grows: rows and receipts that were there stay
    as they were. It leaves others: no other upload's parts, blob or acknowledgements move. Its
    news is sound: what it adds stands on the bytes it acknowledged. GrowthKeepsInv puts the
    three together. A file is written before the commit that names it, so a file that no row
    names may hold anything, and a crash in between changes nothing the rows stand on. */
module AttachmentSafety {
  import opened Basics
  import opened AttachmentUpload

  // ---------------------------------------------------------------- the acknowledged bytes

  /** The bytes a chunk row stands for; its digest determines them. */
  function Content(chunks: map<ChunkKey, ChunkRow>, at: ChunkKey): Bytes {
    if at in chunks && chunks[at].sha.Sha256? then chunks[at].sha.content else []
  }

  /** The first n acknowledged chunks of an upload, joined in the order of their indices. */
  function Joined(chunks: map<ChunkKey, ChunkRow>, upload: string, n: nat): Bytes {
    if n == 0 then [] else Joined(chunks, upload, n - 1) + Content(chunks, ChunkKey(upload, n - 1))
  }

  predicate SameRows(chunks: map<ChunkKey, ChunkRow>, chunks': map<ChunkKey, ChunkRow>, upload: string, n: nat) {
    forall i: nat :: i < n ==> SameRow(chunks, chunks', ChunkKey(upload, i))
  }

  predicate SameRow(chunks: map<ChunkKey, ChunkRow>, chunks': map<ChunkKey, ChunkRow>, at: ChunkKey) {
    at in chunks && at in chunks' && chunks'[at] == chunks[at]
  }

  lemma {:induction false} JoinedSame(chunks: map<ChunkKey, ChunkRow>, chunks': map<ChunkKey, ChunkRow>, upload: string, n: nat)
    requires SameRows(chunks, chunks', upload, n)
    ensures Joined(chunks', upload, n) == Joined(chunks, upload, n)
  {
    if n > 0 {
      assert SameRow(chunks, chunks', ChunkKey(upload, n - 1));
      JoinedSame(chunks, chunks', upload, n - 1);
    }
  }

  // ---------------------------------------------------------------- the invariant

  /** Acknowledgement i holds the prefix sum up to its chunk. */
  predicate ChunkSound(chunks: map<ChunkKey, ChunkRow>, upload: string, total: int, i: nat)
    requires ChunkKey(upload, i) in chunks
  {
    var row := chunks[ChunkKey(upload, i)];
    var sum := |Joined(chunks, upload, i + 1)|;
    row.sha.Sha256? && 0 < |row.sha.content| <= CHUNK_BYTES && row.ack == Ack(i + 1, sum, sum >= total)
  }

  predicate Indexed(chunks: map<ChunkKey, ChunkRow>, upload: string, n: nat, i: nat) {
    ChunkKey(upload, i) in chunks <==> i < n
  }

  /** The part file of an acknowledged chunk holds its bytes. */
  predicate PartSound(s: State, upload: string, i: nat) {
    var at := ChunkKey(upload, i);
    at in s.parts && at in s.chunks && s.chunks[at].sha == Sha256(s.parts[at])
  }

  /** The ledger of an upload: indices 0 to chunks - 1, each with its prefix sum. */
  ghost predicate LedgerSound(chunks: map<ChunkKey, ChunkRow>, upload: string, u: Upload) {
    && (forall i: nat :: Indexed(chunks, upload, u.chunks, i))
    && (forall i: nat :: i < u.chunks && ChunkKey(upload, i) in chunks ==> ChunkSound(chunks, upload, u.declared.total, i))
    && u.received == |Joined(chunks, upload, u.chunks)| <= u.declared.total
    && 1 <= u.declared.total <= Budget(u.declared.kind)
  }

  predicate PartsSound(s: State, upload: string)
    requires upload in s.uploads
  {
    s.uploads[upload].state == Open ==> forall i: nat :: i < s.uploads[upload].chunks ==> PartSound(s, upload, i)
  }

  /** A completed upload is its acknowledged bytes, stored under the declared digest. */
  predicate CompleteSound(s: State, upload: string)
    requires upload in s.uploads
  {
    var u := s.uploads[upload];
    u.state == Complete ==>
      && u.received == u.declared.total
      && Sha256(Joined(s.chunks, upload, u.chunks)) == u.declared.sha
      && u.declared.sha in s.files && s.files[u.declared.sha] == Joined(s.chunks, upload, u.chunks)
  }

  predicate UploadSound(s: State, upload: string)
    requires upload in s.uploads
  {
    PartsSound(s, upload) && CompleteSound(s, upload)
  }

  predicate IsCompletion(s: State, k: RequestKey, upload: string) {
    k in s.requests && s.requests[k].purpose.Completion? && s.requests[k].purpose.upload == upload
  }

  /** A completion is recorded with the one blob it registered. */
  predicate RequestSound(s: State, k: RequestKey)
    requires k in s.requests
  {
    var row := s.requests[k];
    row.purpose.Completion? ==>
      && row.purpose.upload in s.uploads
      && var u := s.uploads[row.purpose.upload];
      && u.state == Complete && u.owner == k.owner && u.project == k.project
      && row.attachment in s.blobs && s.blobs[row.attachment] == row.receipt
      && row.receipt.bytes == u.declared.total && row.receipt.sha == u.declared.sha == row.purpose.sha
      && row.receipt.kind == u.declared.kind && row.receipt.name == u.declared.name
      && row.receipt.owner == u.owner && row.receipt.project == u.project
      && Made(row.purpose.upload, row.attachment) in s.log
  }

  predicate MadeSound(s: State, i: nat)
    requires i < |s.log|
  {
    s.log[i].upload in s.uploads && s.uploads[s.log[i].upload].state == Complete && s.log[i].attachment in s.blobs
  }

  predicate MadeOnce(log: seq<Made>) {
    forall i, j :: 0 <= i < j < |log| ==> log[i].upload != log[j].upload
  }

  predicate FileSound(files: map<Digest, Bytes>, d: Digest)
    requires d in files
  {
    d == Sha256(files[d])
  }

  ghost predicate Completed(s: State, upload: string) {
    exists k :: IsCompletion(s, k, upload)
  }

  predicate KeysTold(chunks: map<ChunkKey, ChunkRow>, c: ChunkKey, c': ChunkKey) {
    c in chunks && c' in chunks && chunks[c].key == chunks[c'].key ==> c == c'
  }

  ghost predicate Inv(s: State) {
    && (forall id :: id in s.uploads ==> LedgerSound(s.chunks, id, s.uploads[id]))
    && (forall id :: id in s.uploads ==> UploadSound(s, id))
    && (forall id :: id in s.uploads && s.uploads[id].state == Complete ==> Completed(s, id))
    && Owned(s)
    && KeysApart(s.chunks)
    && (forall k :: k in s.requests ==> RequestSound(s, k))
    && (forall d :: d in s.files ==> FileSound(s.files, d))
    && (forall i :: 0 <= i < |s.log| ==> MadeSound(s, i))
    && MadeOnce(s.log)
  }

  // ---------------------------------------------------------------- what never changes

  predicate UploadKept(s: State, t: State, id: string) {
    id in s.uploads ==>
      && id in t.uploads && t.uploads[id].owner == s.uploads[id].owner && t.uploads[id].project == s.uploads[id].project
      && t.uploads[id].declared == s.uploads[id].declared && s.uploads[id].chunks <= t.uploads[id].chunks
      && (s.uploads[id].state != Open ==> t.uploads[id] == s.uploads[id])
  }

  /** Uploads keep what they declared and a closed one does not change; chunk rows, requests,
      blobs and blob files are for good. */
  ghost predicate Grows(s: State, t: State) {
    && (forall id :: UploadKept(s, t, id))
    && (forall c :: c in s.chunks ==> SameRow(s.chunks, t.chunks, c))
    && (forall k :: k in s.requests ==> k in t.requests && t.requests[k] == s.requests[k])
    && (forall a :: a in s.blobs ==> a in t.blobs && t.blobs[a] == s.blobs[a])
    && (forall d :: d in s.files ==> d in t.files && t.files[d] == s.files[d])
    && s.log <= t.log
  }

  lemma GrowsItself(s: State)
    ensures Grows(s, s)
  {
  }

  lemma GrowsTrans(s: State, t: State, u: State)
    requires Grows(s, t) && Grows(t, u)
    ensures Grows(s, u)
  {
    forall id ensures UploadKept(s, u, id) {
      assert UploadKept(s, t, id) && UploadKept(t, u, id);
    }
    forall c | c in s.chunks ensures SameRow(s.chunks, u.chunks, c) {
      assert SameRow(s.chunks, t.chunks, c) && SameRow(t.chunks, u.chunks, c);
    }
  }

  // ---------------------------------------------------------------- frames

  /** The ledger of an upload depends on its own rows only. */
  lemma LedgerFrame(chunks: map<ChunkKey, ChunkRow>, chunks': map<ChunkKey, ChunkRow>, id: string, u: Upload, u': Upload)
    requires LedgerSound(chunks, id, u) && u'.declared == u.declared && u'.chunks == u.chunks && u'.received == u.received
    requires forall c: ChunkKey :: c.upload == id ==> (c in chunks <==> c in chunks')
    requires forall c: ChunkKey :: c.upload == id && c in chunks ==> SameRow(chunks, chunks', c)
    ensures LedgerSound(chunks', id, u')
    ensures Joined(chunks', id, u.chunks) == Joined(chunks, id, u.chunks)
  {
    forall i: nat | i <= u.chunks ensures Joined(chunks', id, i) == Joined(chunks, id, i) {
      PrefixSame(chunks, chunks', id, u.chunks, i);
    }
    forall i: nat ensures Indexed(chunks', id, u'.chunks, i) {
      assert Indexed(chunks, id, u.chunks, i);
    }
    forall i: nat | i < u'.chunks && ChunkKey(id, i) in chunks' ensures ChunkSound(chunks', id, u'.declared.total, i) {
      assert ChunkSound(chunks, id, u.declared.total, i);
      var end := i + 1;
      assert Joined(chunks', id, end) == Joined(chunks, id, end);
      assert SameRow(chunks, chunks', ChunkKey(id, i));
    }
  }

  lemma PrefixSame(chunks: map<ChunkKey, ChunkRow>, chunks': map<ChunkKey, ChunkRow>, id: string, n: nat, i: nat)
    requires i <= n && forall j: nat :: Indexed(chunks, id, n, j)
    requires forall c: ChunkKey :: c.upload == id && c in chunks ==> SameRow(chunks, chunks', c)
    ensures Joined(chunks', id, i) == Joined(chunks, id, i)
  {
    forall j: nat | j < i ensures SameRow(chunks, chunks', ChunkKey(id, j)) {
      assert Indexed(chunks, id, n, j);
    }
    JoinedSame(chunks, chunks', id, i);
  }

  predicate SamePart(parts: map<ChunkKey, Bytes>, parts': map<ChunkKey, Bytes>, at: ChunkKey) {
    at in parts ==> at in parts' && parts'[at] == parts[at]
  }

  /** An upload that is not touched, with its rows, the parts it needs and the blob files. */
  ghost predicate Untouched(s: State, t: State, id: string) {
    && id in s.uploads && id in t.uploads && t.uploads[id] == s.uploads[id]
    && (forall c: ChunkKey :: c.upload == id ==> (c in s.chunks <==> c in t.chunks))
    && (forall c: ChunkKey :: c.upload == id && c in s.chunks ==> SameRow(s.chunks, t.chunks, c))
    && (forall i: nat :: s.uploads[id].state == Open && i < s.uploads[id].chunks ==> SamePart(s.parts, t.parts, ChunkKey(id, i)))
    && (forall d :: d in s.files ==> d in t.files && t.files[d] == s.files[d])
  }

  lemma UntouchedStaysSound(s: State, t: State, id: string)
    requires Untouched(s, t, id) && LedgerSound(s.chunks, id, s.uploads[id]) && UploadSound(s, id)
    ensures LedgerSound(t.chunks, id, t.uploads[id]) && UploadSound(t, id)
  {
    var u := s.uploads[id];
    LedgerFrame(s.chunks, t.chunks, id, u, u);
    if u.state == Open {
      forall i: nat | i < u.chunks ensures PartSound(t, id, i) {
        assert PartSound(s, id, i) && SamePart(s.parts, t.parts, ChunkKey(id, i));
        assert SameRow(s.chunks, t.chunks, ChunkKey(id, i));
      }
    }
  }

  lemma RequestStaysSound(s: State, t: State, k: RequestKey)
    requires Grows(s, t) && k in s.requests && RequestSound(s, k)
    ensures k in t.requests && RequestSound(t, k)
  {
    if s.requests[k].purpose.Completion? {
      assert UploadKept(s, t, s.requests[k].purpose.upload);
    }
  }

  lemma CompletedStays(s: State, t: State, id: string)
    requires Grows(s, t) && Completed(s, id)
    ensures Completed(t, id)
  {
    var k :| IsCompletion(s, k, id);
    assert IsCompletion(t, k, id);
  }

  lemma MadeStaysSound(s: State, t: State, i: nat)
    requires Grows(s, t) && i < |s.log| && MadeSound(s, i)
    ensures i < |t.log| && t.log[i] == s.log[i] && MadeSound(t, i)
  {
    assert UploadKept(s, t, s.log[i].upload);
  }

  // What a step must show of the rows it touches.

  ghost predicate NewUploads(s: State, t: State) {
    forall id :: id in t.uploads ==> Untouched(s, t, id) || (LedgerSound(t.chunks, id, t.uploads[id]) && UploadSound(t, id))
  }

  ghost predicate NewCompleted(s: State, t: State) {
    forall id :: id in t.uploads && t.uploads[id].state == Complete ==>
      (id in s.uploads && s.uploads[id].state == Complete) || Completed(t, id)
  }

  ghost predicate Owned(t: State) {
    forall c :: c in t.chunks ==> c.upload in t.uploads
  }

  ghost predicate KeysApart(chunks: map<ChunkKey, ChunkRow>) {
    forall c, c' :: KeysTold(chunks, c, c')
  }

  ghost predicate NewRequests(s: State, t: State) {
    forall k :: k in t.requests ==> k in s.requests || RequestSound(t, k)
  }

  ghost predicate NewFiles(s: State, t: State) {
    forall d :: d in t.files ==> d in s.files || FileSound(t.files, d)
  }

  ghost predicate NewMade(s: State, t: State) {
    MadeOnce(t.log) && forall i :: |s.log| <= i < |t.log| ==> MadeSound(t, i)
  }

  ghost predicate NewSound(s: State, t: State) {
    NewUploads(s, t) && NewCompleted(s, t) && Owned(t) && KeysApart(t.chunks) && NewRequests(s, t) && NewFiles(s, t) && NewMade(s, t)
  }

  /** What carries over by itself when the components it speaks of are the same. */
  lemma SameIsSound(s: State, t: State)
    requires Inv(s)
    ensures t.chunks == s.chunks && s.uploads.Keys <= t.uploads.Keys ==> Owned(t)
    ensures t.chunks == s.chunks ==> KeysApart(t.chunks)
    ensures t.requests == s.requests ==> NewRequests(s, t)
    ensures t.files == s.files ==> NewFiles(s, t)
    ensures t.log == s.log ==> NewMade(s, t)
  {
    if t.chunks == s.chunks && s.uploads.Keys <= t.uploads.Keys {
      forall c | c in t.chunks ensures c.upload in t.uploads {
        assert c.upload in s.uploads.Keys;
      }
    }
  }

  lemma GrowthKeepsInv(s: State, t: State)
    requires Inv(s) && Grows(s, t) && NewSound(s, t)
    ensures Inv(t)
  {
    hide LedgerSound, UploadSound, RequestSound, Completed, MadeOnce, Untouched, KeysApart, Owned;
    forall id | id in t.uploads ensures LedgerSound(t.chunks, id, t.uploads[id]) && UploadSound(t, id) {
      if Untouched(s, t, id) {
        UntouchedWasThere(s, t, id);
        UntouchedStaysSound(s, t, id);
      }
    }
    forall id | id in t.uploads && t.uploads[id].state == Complete ensures Completed(t, id) {
      if id in s.uploads && s.uploads[id].state == Complete {
        CompletedStays(s, t, id);
      }
    }
    forall k | k in t.requests ensures RequestSound(t, k) {
      if k in s.requests {
        RequestStaysSound(s, t, k);
      }
    }
    forall i | 0 <= i < |t.log| ensures MadeSound(t, i) {
      if i < |s.log| {
        MadeStaysSound(s, t, i);
      }
    }
  }

  lemma UntouchedWasThere(s: State, t: State, id: string)
    requires Untouched(s, t, id)
    ensures id in s.uploads
  {
  }

  // ---------------------------------------------------------------- one chunk more

  lemma LedgerAppend(chunks: map<ChunkKey, ChunkRow>, id: string, u: Upload, raw: Bytes, key: string)
    requires LedgerSound(chunks, id, u) && 0 < |raw| <= CHUNK_BYTES && u.received + |raw| <= u.declared.total
    ensures var at, sum := ChunkKey(id, u.chunks), u.received + |raw|;
      var chunks' := chunks[at := ChunkRow(key, Sha256(raw), Ack(u.chunks + 1, sum, sum >= u.declared.total))];
      && at !in chunks && Joined(chunks', id, u.chunks + 1) == Joined(chunks, id, u.chunks) + raw
      && LedgerSound(chunks', id, u.(received := sum, chunks := u.chunks + 1))
  {
    var n, sum := u.chunks, u.received + |raw|;
    var at := ChunkKey(id, n);
    var row := ChunkRow(key, Sha256(raw), Ack(n + 1, sum, sum >= u.declared.total));
    var chunks' := chunks[at := row];
    var u' := u.(received := sum, chunks := n + 1);
    assert at !in chunks by {
      assert Indexed(chunks, id, n, n);
    }
    forall i: nat | i <= n ensures Joined(chunks', id, i) == Joined(chunks, id, i) {
      PrefixBelow(chunks, chunks', id, n, i);
    }
    assert Content(chunks', at) == raw;
    assert Joined(chunks', id, u'.chunks) == Joined(chunks', id, n) + raw;
    forall i: nat ensures Indexed(chunks', id, u'.chunks, i) {
      assert Indexed(chunks, id, n, i);
    }
    forall i: nat | i < u'.chunks && ChunkKey(id, i) in chunks' ensures ChunkSound(chunks', id, u'.declared.total, i) {
      if i < n {
        assert Indexed(chunks, id, n, i);
        assert ChunkSound(chunks, id, u.declared.total, i);
        var end := i + 1;
        assert Joined(chunks', id, end) == Joined(chunks, id, end);
      }
    }
  }

  lemma PrefixBelow(chunks: map<ChunkKey, ChunkRow>, chunks': map<ChunkKey, ChunkRow>, id: string, n: nat, i: nat)
    requires i <= n && forall j: nat :: Indexed(chunks, id, n, j)
    requires forall c :: c in chunks && c != ChunkKey(id, n) ==> SameRow(chunks, chunks', c)
    ensures Joined(chunks', id, i) == Joined(chunks, id, i)
  {
    forall j: nat | j < i ensures SameRow(chunks, chunks', ChunkKey(id, j)) {
      assert Indexed(chunks, id, n, j);
    }
    JoinedSame(chunks, chunks', id, i);
  }

  /** The parts of an open upload can all be read, and are what was acknowledged. */
  lemma {:induction false} PartsAreJoined(s: State, id: string, n: nat)
    requires Inv(s) && id in s.uploads && s.uploads[id].state == Open && n <= s.uploads[id].chunks
    ensures ReadParts(s.parts, id, n) == Some(Joined(s.chunks, id, n))
    decreases n
  {
    if n > 0 {
      PartsAreJoined(s, id, n - 1);
      OnePart(s, id, n - 1);
    }
  }

  lemma OnePart(s: State, id: string, i: nat)
    requires Inv(s) && id in s.uploads && s.uploads[id].state == Open && i < s.uploads[id].chunks
    ensures var at := ChunkKey(id, i);
      at in s.chunks && at in s.parts && 0 < |s.parts[at]| <= CHUNK_BYTES && Content(s.chunks, at) == s.parts[at]
  {
    assert LedgerSound(s.chunks, id, s.uploads[id]) && UploadSound(s, id);
    assert PartSound(s, id, i);
    assert ChunkSound(s.chunks, id, s.uploads[id].declared.total, i);
  }

  // ---------------------------------------------------------------- the steps

  lemma BeginGrows(s: State, e: Event)
    requires e.Begin? && BeginStep(s, e) != s
    ensures var t := BeginStep(s, e);
      && Grows(s, t) && t.uploads.Keys == s.uploads.Keys + {e.id} && t.chunks == s.chunks && t.requests == s.requests
      && t.files == s.files && t.log == s.log
  {
    hide Admissible;
  }

  lemma BeginNews(s: State, e: Event)
    requires Inv(s) && e.Begin? && BeginStep(s, e) != s
    ensures NewUploads(s, BeginStep(s, e)) && NewCompleted(s, BeginStep(s, e))
  {
    hide Admissible;
    var t := BeginStep(s, e);
    NewUploadIsSound(s, t, e);
    hide Inv, LedgerSound, UploadSound, Completed;
    forall x | x in t.uploads && x != e.id ensures Untouched(s, t, x) {
    }
  }

  lemma BeginKeeps(s: State, e: Event)
    requires Inv(s) && e.Begin?
    ensures Inv(BeginStep(s, e)) && Grows(s, BeginStep(s, e))
  {
    hide Inv, Grows, NewUploads, NewCompleted, Owned, KeysApart, NewRequests, NewFiles, NewMade;
    hide BeginStep;
    GrowsItself(s);
    var t := BeginStep(s, e);
    if t != s {
      BeginGrows(s, e);
      BeginNews(s, e);
      SameIsSound(s, t);
      GrowthKeepsInv(s, t);
    }
  }

  lemma NewUploadIsSound(s: State, t: State, e: Event)
    requires Inv(s) && e.Begin? && t == BeginStep(s, e) && t != s
    ensures LedgerSound(t.chunks, e.id, t.uploads[e.id]) && UploadSound(t, e.id)
  {
    forall i: nat ensures Indexed(t.chunks, e.id, 0, i) {
      assert ChunkKey(e.id, i) !in s.chunks;
    }
  }

  /** What Answer has checked when it accepts. */
  lemma AcceptedFacts(s: State, e: Event)
    requires Inv(s) && e.Chunk? && Answer(s, e).Accepted?
    ensures e.upload in s.uploads && e.raw.Some? && e.index == s.uploads[e.upload].chunks
    ensures var u := s.uploads[e.upload];
      && u.state == Open && 0 < |e.raw.value| <= CHUNK_BYTES && u.received + |e.raw.value| <= u.declared.total
      && Answer(s, e).ack == Ack(u.chunks + 1, u.received + |e.raw.value|, u.received + |e.raw.value| >= u.declared.total)
      && !KeyElsewhere(s.chunks, e.key, ChunkKey(e.upload, u.chunks))
      && LedgerSound(s.chunks, e.upload, u) && UploadSound(s, e.upload)
  {
    hide LedgerSound, UploadSound;
  }

  lemma PartWrittenLeaves(s: State, at: ChunkKey, raw: Bytes, x: string)
    requires Inv(s) && at !in s.chunks && x in s.uploads
    ensures Untouched(s, s.(parts := s.parts[at := raw]), x)
  {
    var t := s.(parts := s.parts[at := raw]);
    forall i: nat | s.uploads[x].state == Open && i < s.uploads[x].chunks ensures SamePart(s.parts, t.parts, ChunkKey(x, i)) {
      OnePart(s, x, i);
    }
  }

  lemma PartWrittenNews(s: State, at: ChunkKey, raw: Bytes)
    requires Inv(s) && at !in s.chunks
    ensures var t := s.(parts := s.parts[at := raw]); NewUploads(s, t) && NewCompleted(s, t)
  {
    hide Inv, LedgerSound, UploadSound, Completed, Untouched;
    var t := s.(parts := s.parts[at := raw]);
    forall x | x in t.uploads ensures Untouched(s, t, x) {
      PartWrittenLeaves(s, at, raw, x);
    }
  }

  /** A part file written before its chunk row changes nothing the ledger stands on. */
  lemma PartWrittenKeeps(s: State, at: ChunkKey, raw: Bytes)
    requires Inv(s) && at !in s.chunks
    ensures var t := s.(parts := s.parts[at := raw]); Inv(t) && Grows(s, t)
  {
    hide Inv, Grows, NewUploads, NewCompleted, Owned, KeysApart, NewRequests, NewFiles, NewMade;
    var t := s.(parts := s.parts[at := raw]);
    PartsGrow(s, t.parts);
    PartWrittenNews(s, at, raw);
    SameIsSound(s, t);
    GrowthKeepsInv(s, t);
  }

  lemma ChunkKeeps(s: State, e: Event)
    requires Inv(s) && e.Chunk?
    ensures Inv(ChunkStep(s, e)) && Grows(s, ChunkStep(s, e))
  {
    hide Inv, Grows, Answer;
    GrowsItself(s);
    if Answer(s, e).Accepted? && e.fault != BeforeFile {
      AcceptedFacts(s, e);
      var at := ChunkKey(e.upload, e.index);
      LedgerAppend(s.chunks, e.upload, s.uploads[e.upload], e.raw.value, e.key);
      PartWrittenKeeps(s, at, e.raw.value);
      if e.fault == NoFault {
        var s1 := s.(parts := s.parts[at := e.raw.value]);
        ChunkCommitKeeps(s1, e.upload, e.raw.value, e.key);
        GrowsTrans(s, s1, ChunkStep(s, e));
      }
    }
  }

  /** The rows a chunk's commit writes. */
  function ChunkCommitted(s: State, id: string, raw: Bytes, key: string): State
    requires id in s.uploads
  {
    var u := s.uploads[id];
    var sum := u.received + |raw|;
    s.(uploads := s.uploads[id := u.(received := sum, chunks := u.chunks + 1)],
       chunks := s.chunks[ChunkKey(id, u.chunks) := ChunkRow(key, Sha256(raw), Ack(u.chunks + 1, sum, sum >= u.declared.total))])
  }

  predicate ReadyToCommit(s: State, id: string, raw: Bytes, key: string) {
    && id in s.uploads && s.uploads[id].state == Open && 0 < |raw| <= CHUNK_BYTES
    && s.uploads[id].received + |raw| <= s.uploads[id].declared.total
    && var at := ChunkKey(id, s.uploads[id].chunks);
    at !in s.chunks && at in s.parts && s.parts[at] == raw && !KeyElsewhere(s.chunks, key, at)
  }

  lemma CommitGrows(s: State, id: string, raw: Bytes, key: string)
    requires ReadyToCommit(s, id, raw, key)
    ensures Grows(s, ChunkCommitted(s, id, raw, key))
  {
    var t := ChunkCommitted(s, id, raw, key);
    forall x ensures UploadKept(s, t, x) {
    }
  }

  lemma CommitKeepsParts(s: State, id: string, raw: Bytes, key: string)
    requires Inv(s) && ReadyToCommit(s, id, raw, key)
    ensures UploadSound(ChunkCommitted(s, id, raw, key), id)
  {
    var t := ChunkCommitted(s, id, raw, key);
    assert UploadSound(s, id);
    hide Inv;
    forall i: nat | i < t.uploads[id].chunks ensures PartSound(t, id, i) {
      if i < s.uploads[id].chunks {
        assert PartSound(s, id, i);
      }
    }
  }

  lemma CommitLeavesOthers(s: State, id: string, raw: Bytes, key: string, x: string)
    requires ReadyToCommit(s, id, raw, key) && x in s.uploads && x != id
    ensures Untouched(s, ChunkCommitted(s, id, raw, key), x)
  {
  }

  lemma CommitShape(s: State, id: string, raw: Bytes, key: string)
    requires id in s.uploads
    ensures var t := ChunkCommitted(s, id, raw, key);
      && t.uploads.Keys == s.uploads.Keys && t.uploads[id].state == s.uploads[id].state
      && t.requests == s.requests && t.files == s.files && t.log == s.log
  {
  }

  lemma CommitLedger(s: State, id: string, raw: Bytes, key: string)
    requires Inv(s) && ReadyToCommit(s, id, raw, key)
    ensures var t := ChunkCommitted(s, id, raw, key); LedgerSound(t.chunks, id, t.uploads[id])
  {
    LedgerFact(s, id);
    hide Inv, LedgerSound, UploadSound;
    LedgerAppend(s.chunks, id, s.uploads[id], raw, key);
  }

  lemma CommitKeys(s: State, id: string, raw: Bytes, key: string)
    requires Inv(s) && ReadyToCommit(s, id, raw, key)
    ensures KeysApart(ChunkCommitted(s, id, raw, key).chunks)
  {
    hide Inv, KeysApart;
    KeysStayTold(s, ChunkCommitted(s, id, raw, key).chunks, ChunkKey(id, s.uploads[id].chunks), key);
  }

  lemma CommitOwned(s: State, id: string, raw: Bytes, key: string)
    requires Inv(s) && id in s.uploads
    ensures Owned(ChunkCommitted(s, id, raw, key))
  {
    assert Owned(s);
    hide Inv;
  }

  lemma CommitNews(s: State, id: string, raw: Bytes, key: string)
    requires Inv(s) && ReadyToCommit(s, id, raw, key)
    ensures var t := ChunkCommitted(s, id, raw, key);
      NewUploads(s, t) && NewCompleted(s, t) && Owned(t) && KeysApart(t.chunks)
  {
    hide Inv, LedgerSound, UploadSound, Completed, Untouched, KeysApart;
    var t := ChunkCommitted(s, id, raw, key);
    CommitLedger(s, id, raw, key);
    CommitKeepsParts(s, id, raw, key);
    CommitKeys(s, id, raw, key);
    CommitOwned(s, id, raw, key);
    forall x | x in t.uploads && x != id ensures Untouched(s, t, x) {
      CommitLeavesOthers(s, id, raw, key, x);
    }
  }

  /** The commit of a chunk whose part file is in place. */
  lemma ChunkCommitKeeps(s: State, id: string, raw: Bytes, key: string)
    requires Inv(s) && ReadyToCommit(s, id, raw, key)
    ensures Inv(ChunkCommitted(s, id, raw, key)) && Grows(s, ChunkCommitted(s, id, raw, key))
  {
    hide Inv, Grows, NewUploads, NewCompleted, Owned, KeysApart, NewRequests, NewFiles, NewMade;
    hide ChunkCommitted;
    var t := ChunkCommitted(s, id, raw, key);
    hide ReadyToCommit;
    CommitGrows(s, id, raw, key);
    CommitNews(s, id, raw, key);
    CommitShape(s, id, raw, key);
    SameIsSound(s, t);
    GrowthKeepsInv(s, t);
  }

  lemma LedgerFact(s: State, id: string)
    requires Inv(s) && id in s.uploads
    ensures LedgerSound(s.chunks, id, s.uploads[id]) && UploadSound(s, id)
  {
  }

  lemma KeysStayTold(s: State, chunks': map<ChunkKey, ChunkRow>, at: ChunkKey, key: string)
    requires Inv(s) && at.upload in s.uploads && !KeyElsewhere(s.chunks, key, at)
    requires at in chunks' && chunks'[at].key == key && chunks' == s.chunks[at := chunks'[at]]
    ensures KeysApart(chunks') && forall c :: c in chunks' ==> c.upload in s.uploads
  {
    forall c, c' ensures KeysTold(chunks', c, c') {
      assert KeysTold(s.chunks, c, c');
    }
  }

  /** What FinishAnswer has checked when it finishes. */
  lemma FinishedFacts(s: State, e: Event)
    requires Inv(s) && e.Finish? && FinishAnswer(s, e).Finished?
    ensures e.upload in s.uploads && RequestKey(e.owner, e.project, e.key) !in s.requests
    ensures var u, answer := s.uploads[e.upload], FinishAnswer(s, e);
      && u.state == Open && u.owner == e.owner && u.project == e.project && u.received == u.declared.total
      && answer.raw == Joined(s.chunks, e.upload, u.chunks) && Sha256(answer.raw) == u.declared.sha
      && |answer.raw| == u.declared.total && MimeOf(u.declared.kind, answer.raw) == Some(answer.receipt.mime)
      && answer.receipt == Blob(u.owner, u.project, u.declared.kind, u.declared.name, answer.receipt.mime, u.declared.total,
                                u.declared.sha, u.declared.space, u.declared.conversation, e.operation, e.workItem)
      && (u.declared.sha in s.files ==> s.files[u.declared.sha] == answer.raw)
  {
    var u := s.uploads[e.upload];
    assert u.state == Open;
    PartsAreJoined(s, e.upload, u.chunks);
  }

  lemma FileGrows(s: State, raw: Bytes)
    requires Sha256(raw) in s.files ==> s.files[Sha256(raw)] == raw
    ensures Grows(s, s.(files := s.files[Sha256(raw) := raw]))
  {
  }

  lemma FileLeaves(s: State, raw: Bytes, x: string)
    requires (Sha256(raw) in s.files ==> s.files[Sha256(raw)] == raw) && x in s.uploads
    ensures Untouched(s, s.(files := s.files[Sha256(raw) := raw]), x)
  {
  }

  lemma FileNews(s: State, raw: Bytes)
    requires Sha256(raw) in s.files ==> s.files[Sha256(raw)] == raw
    ensures var t := s.(files := s.files[Sha256(raw) := raw]); NewUploads(s, t) && NewCompleted(s, t) && NewFiles(s, t)
  {
    hide LedgerSound, UploadSound, Completed, Untouched;
    var t := s.(files := s.files[Sha256(raw) := raw]);
    forall x | x in t.uploads ensures Untouched(s, t, x) {
      FileLeaves(s, raw, x);
    }
  }

  /** A blob file appears under the digest of its bytes. */
  lemma FileWrittenKeeps(s: State, raw: Bytes)
    requires Inv(s) && (Sha256(raw) in s.files ==> s.files[Sha256(raw)] == raw)
    ensures var t := s.(files := s.files[Sha256(raw) := raw]); Inv(t) && Grows(s, t)
  {
    hide Inv, Grows, NewUploads, NewCompleted, Owned, KeysApart, NewRequests, NewFiles, NewMade;
    var t := s.(files := s.files[Sha256(raw) := raw]);
    FileGrows(s, raw);
    FileNews(s, raw);
    SameIsSound(s, t);
    GrowthKeepsInv(s, t);
  }

  /** The rows a completion's commit writes. */
  function FinishCommitted(s: State, upload: string, receipt: Blob, purpose: Purpose, k: RequestKey, id: string): State
    requires upload in s.uploads
  {
    s.(blobs := s.blobs[id := receipt], requests := s.requests[k := RequestRow(purpose, id, receipt)],
       uploads := s.uploads[upload := s.uploads[upload].(state := Complete)], log := s.log + [Made(upload, id)])
  }

  predicate ReadyToFinish(s: State, upload: string, receipt: Blob, purpose: Purpose, k: RequestKey, id: string) {
    && upload in s.uploads && k !in s.requests && id !in s.blobs
    && var u := s.uploads[upload];
    && u.state == Open && u.received == u.declared.total && u.owner == k.owner && u.project == k.project
    && Sha256(Joined(s.chunks, upload, u.chunks)) == u.declared.sha
    && u.declared.sha in s.files && s.files[u.declared.sha] == Joined(s.chunks, upload, u.chunks)
    && purpose.Completion? && purpose.upload == upload && purpose.sha == u.declared.sha
    && receipt.bytes == u.declared.total && receipt.sha == u.declared.sha && receipt.kind == u.declared.kind
    && receipt.name == u.declared.name && receipt.owner == u.owner && receipt.project == u.project
  }

  lemma FinishGrows(s: State, upload: string, receipt: Blob, purpose: Purpose, k: RequestKey, id: string)
    requires ReadyToFinish(s, upload, receipt, purpose, k, id)
    ensures Grows(s, FinishCommitted(s, upload, receipt, purpose, k, id))
  {
    var t := FinishCommitted(s, upload, receipt, purpose, k, id);
    forall x ensures UploadKept(s, t, x) {
    }
  }

  lemma FinishMakesOnce(s: State, upload: string, id: string)
    requires Inv(s) && upload in s.uploads && s.uploads[upload].state == Open
    ensures MadeOnce(s.log + [Made(upload, id)])
  {
    forall i | 0 <= i < |s.log| ensures s.log[i].upload != upload {
      assert MadeSound(s, i);
    }
  }

  lemma FinishLeavesOthers(s: State, upload: string, receipt: Blob, purpose: Purpose, k: RequestKey, id: string, x: string)
    requires upload in s.uploads && x in s.uploads && x != upload
    ensures Untouched(s, FinishCommitted(s, upload, receipt, purpose, k, id), x)
  {
  }

  lemma FinishIsSound(s: State, upload: string, receipt: Blob, purpose: Purpose, k: RequestKey, id: string)
    requires ReadyToFinish(s, upload, receipt, purpose, k, id) && LedgerSound(s.chunks, upload, s.uploads[upload])
    ensures var t := FinishCommitted(s, upload, receipt, purpose, k, id);
      && LedgerSound(t.chunks, upload, t.uploads[upload]) && UploadSound(t, upload) && RequestSound(t, k)
      && Completed(t, upload) && t.log == s.log + [Made(upload, id)] && MadeSound(t, |s.log|)
      && t.uploads.Keys == s.uploads.Keys && t.chunks == s.chunks && t.files == s.files && t.requests.Keys == s.requests.Keys + {k}
  {
    var t := FinishCommitted(s, upload, receipt, purpose, k, id);
    LedgerFrame(s.chunks, t.chunks, upload, s.uploads[upload], t.uploads[upload]);
    hide LedgerSound;
    assert IsCompletion(t, k, upload);
    assert Made(upload, id) in t.log;
  }

  lemma FinishShape(s: State, upload: string, receipt: Blob, purpose: Purpose, k: RequestKey, id: string)
    requires upload in s.uploads
    ensures var t := FinishCommitted(s, upload, receipt, purpose, k, id);
      t.uploads.Keys == s.uploads.Keys && t.chunks == s.chunks && t.files == s.files
  {
  }

  lemma FinishNews(s: State, upload: string, receipt: Blob, purpose: Purpose, k: RequestKey, id: string)
    requires Inv(s) && ReadyToFinish(s, upload, receipt, purpose, k, id)
    ensures var t := FinishCommitted(s, upload, receipt, purpose, k, id);
      NewUploads(s, t) && NewCompleted(s, t) && NewRequests(s, t) && NewMade(s, t)
  {
    var t := FinishCommitted(s, upload, receipt, purpose, k, id);
    FinishMakesOnce(s, upload, id);
    LedgerFact(s, upload);
    hide Inv, LedgerSound, UploadSound, RequestSound, Completed, MadeOnce, MadeSound, Untouched;
    FinishIsSound(s, upload, receipt, purpose, k, id);
    forall x | x in t.uploads && x != upload ensures Untouched(s, t, x) {
      FinishLeavesOthers(s, upload, receipt, purpose, k, id, x);
    }
  }

  lemma FinishCommitKeeps(s: State, upload: string, receipt: Blob, purpose: Purpose, k: RequestKey, id: string)
    requires Inv(s) && ReadyToFinish(s, upload, receipt, purpose, k, id)
    ensures var t := FinishCommitted(s, upload, receipt, purpose, k, id); Inv(t) && Grows(s, t)
  {
    hide Inv, Grows, NewUploads, NewCompleted, Owned, KeysApart, NewRequests, NewFiles, NewMade;
    hide FinishCommitted;
    var t := FinishCommitted(s, upload, receipt, purpose, k, id);
    hide ReadyToFinish;
    FinishGrows(s, upload, receipt, purpose, k, id);
    FinishNews(s, upload, receipt, purpose, k, id);
    FinishShape(s, upload, receipt, purpose, k, id);
    SameIsSound(s, t);
    GrowthKeepsInv(s, t);
  }

  lemma FinishKeeps(s: State, e: Event)
    requires Inv(s) && e.Finish?
    ensures Inv(FinishStep(s, e)) && Grows(s, FinishStep(s, e))
  {
    hide Inv, Grows, FinishAnswer;
    GrowsItself(s);
    var answer := FinishAnswer(s, e);
    if answer.Finished? && e.fault != BeforeFile && e.id !in s.blobs {
      FinishedFacts(s, e);
      var u := s.uploads[e.upload];
      FileWrittenKeeps(s, answer.raw);
      if e.fault == NoFault {
        var s1 := s.(files := s.files[u.declared.sha := answer.raw]);
        var k := RequestKey(e.owner, e.project, e.key);
        var purpose := Completion(e.upload, u.declared.sha, e.operation, e.workItem);
        FinishCommitKeeps(s1, e.upload, answer.receipt, purpose, k, e.id);
        GrowsTrans(s, s1, FinishStep(s, e));
      }
    }
  }

  lemma AbortIsSound(s: State, upload: string)
    requires upload in s.uploads && s.uploads[upload].state == Open && LedgerSound(s.chunks, upload, s.uploads[upload])
    ensures var t := s.(uploads := s.uploads[upload := s.uploads[upload].(state := Aborted)]);
      Grows(s, t) && LedgerSound(t.chunks, upload, t.uploads[upload]) && UploadSound(t, upload)
  {
    var t := s.(uploads := s.uploads[upload := s.uploads[upload].(state := Aborted)]);
    LedgerFrame(s.chunks, t.chunks, upload, s.uploads[upload], t.uploads[upload]);
    hide LedgerSound;
    forall x ensures UploadKept(s, t, x) {
    }
  }

  lemma AbortLeavesOthers(s: State, upload: string, u: Upload, x: string)
    requires x in s.uploads && x != upload
    ensures Untouched(s, s.(uploads := s.uploads[upload := u]), x)
  {
  }

  lemma AbortNews(s: State, upload: string)
    requires Inv(s) && upload in s.uploads && s.uploads[upload].state == Open
    ensures var t := s.(uploads := s.uploads[upload := s.uploads[upload].(state := Aborted)]);
      Grows(s, t) && NewUploads(s, t) && NewCompleted(s, t)
  {
    var t := s.(uploads := s.uploads[upload := s.uploads[upload].(state := Aborted)]);
    LedgerFact(s, upload);
    hide Inv, LedgerSound, UploadSound, Completed, Untouched, Grows;
    AbortIsSound(s, upload);
    forall x | x in t.uploads && x != upload ensures Untouched(s, t, x) {
      AbortLeavesOthers(s, upload, t.uploads[upload], x);
    }
  }

  lemma AbortKeeps(s: State, owner: string, project: string, upload: string)
    requires Inv(s)
    ensures Inv(AbortStep(s, owner, project, upload)) && Grows(s, AbortStep(s, owner, project, upload))
  {
    hide Inv, Grows, NewUploads, NewCompleted, Owned, KeysApart, NewRequests, NewFiles, NewMade;
    GrowsItself(s);
    var t := AbortStep(s, owner, project, upload);
    if t != s {
      AbortNews(s, upload);
      SameIsSound(s, t);
      GrowthKeepsInv(s, t);
    }
  }

  lemma CleanupLeaves(s: State, upload: string, indices: set<nat>, x: string)
    requires upload in s.uploads && s.uploads[upload].state != Open && x in s.uploads
    ensures Untouched(s, s.(parts := s.parts - Removed(upload, indices)), x)
  {
    var t := s.(parts := s.parts - Removed(upload, indices));
    forall i: nat | s.uploads[x].state == Open && i < s.uploads[x].chunks ensures SamePart(s.parts, t.parts, ChunkKey(x, i)) {
      assert ChunkKey(x, i) !in Removed(upload, indices);
    }
  }

  lemma PartsGrow(s: State, parts: map<ChunkKey, Bytes>)
    ensures Grows(s, s.(parts := parts))
  {
  }

  lemma CleanupNews(s: State, upload: string, indices: set<nat>)
    requires upload in s.uploads && s.uploads[upload].state != Open
    ensures var t := s.(parts := s.parts - Removed(upload, indices)); NewUploads(s, t) && NewCompleted(s, t)
  {
    hide LedgerSound, UploadSound, Completed, Untouched, Removed;
    var t := s.(parts := s.parts - Removed(upload, indices));
    forall x | x in t.uploads ensures Untouched(s, t, x) {
      CleanupLeaves(s, upload, indices, x);
    }
  }

  lemma CleanupKeeps(s: State, upload: string, indices: set<nat>)
    requires Inv(s)
    ensures Inv(CleanupStep(s, upload, indices)) && Grows(s, CleanupStep(s, upload, indices))
  {
    hide Inv, Grows, NewUploads, NewCompleted, Owned, KeysApart, NewRequests, NewFiles, NewMade;
    GrowsItself(s);
    if upload in s.uploads && s.uploads[upload].state != Open {
      var t := s.(parts := s.parts - Removed(upload, indices));
      PartsGrow(s, t.parts);
      CleanupNews(s, upload, indices);
      SameIsSound(s, t);
      GrowthKeepsInv(s, t);
    }
  }

  lemma RegisterGrows(s: State, e: Event)
    requires e.Register? && RegisterStep(s, e) != s
    ensures Grows(s, RegisterStep(s, e))
  {
  }

  lemma RegisterLeaves(s: State, e: Event, x: string)
    requires e.Register? && x in s.uploads
    ensures Untouched(s, RegisterStep(s, e), x)
  {
  }

  lemma RegisterIsSound(s: State, e: Event)
    requires e.Register? && RegisterStep(s, e) != s
    ensures var t := RegisterStep(s, e);
      && t.uploads == s.uploads && t.chunks == s.chunks && t.log == s.log
      && NewUploads(s, t) && NewCompleted(s, t) && NewRequests(s, t) && NewFiles(s, t)
  {
    var t := RegisterStep(s, e);
    assert RequestSound(t, e.request);
    hide LedgerSound, UploadSound, Completed, Untouched, RequestSound;
    forall x | x in t.uploads ensures Untouched(s, t, x) {
      RegisterLeaves(s, e, x);
    }
  }

  lemma RegisterKeeps(s: State, e: Event)
    requires Inv(s) && e.Register?
    ensures Inv(RegisterStep(s, e)) && Grows(s, RegisterStep(s, e))
  {
    hide Inv, Grows, NewUploads, NewCompleted, Owned, KeysApart, NewRequests, NewFiles, NewMade;
    hide RegisterStep;
    GrowsItself(s);
    var t := RegisterStep(s, e);
    if t != s {
      RegisterGrows(s, e);
      RegisterIsSound(s, e);
      SameIsSound(s, t);
      GrowthKeepsInv(s, t);
    }
  }

  lemma StepKeepsInv(s: State, e: Event)
    requires Inv(s)
    ensures Inv(Step(s, e)) && Grows(s, Step(s, e))
  {
    hide Inv, Grows, BeginStep, ChunkStep, FinishStep, AbortStep, CleanupStep, RegisterStep;
    match e
    case Begin(_, _, _, _, _, _) => BeginKeeps(s, e);
    case Chunk(_, _, _, _, _, _, _, _) => ChunkKeeps(s, e);
    case Finish(_, _, _, _, _, _, _, _, _, _) => FinishKeeps(s, e);
    case Abort(owner, project, upload) => AbortKeeps(s, owner, project, upload);
    case Cleanup(upload, indices) => CleanupKeeps(s, upload, indices);
    case Register(_, _, _, _, _) => RegisterKeeps(s, e);
  }

  lemma {:induction false} RunKeepsInv(s: State, events: seq<Event>)
    requires Inv(s)
    ensures Inv(Run(s, events)) && Grows(s, Run(s, events))
    decreases |events|
  {
    hide Inv, Grows, Step;
    if events == [] {
      GrowsItself(s);
    } else {
      StepKeepsInv(s, events[0]);
      RunKeepsInv(Step(s, events[0]), events[1..]);
      GrowsTrans(s, Step(s, events[0]), Run(s, events));
    }
  }

  lemma InitIsSound()
    ensures Inv(Init)
  {
  }
}
