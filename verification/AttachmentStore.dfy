/** The upload methods of browser/attachments.py on their tables and files. A fault parameter
    says where a crash or an exception cuts the transaction short. */
module AttachmentStore {
  import opened Basics
  import opened AttachmentUpload
  import Safety = AttachmentSafety

  datatype View = View(state: UploadState, chunks: nat, bytes: nat, complete: bool, expired: bool)

  // ---------------------------------------------------------------- what each request asks, said outright

  /** 8 MiB for an image, 20 MiB for anything else. */
  function Limit(kind: Kind): nat {
    if kind == Image then 8388608 else 20971520
  }

  predicate Bounded(v: Option<string>) {
    v.None? || 1 <= |v.value| <= 200
  }

  /** An upload that may begin. */
  predicate MayBegin(project: string, d: Declared, key: string) {
    && project != "" && 1 <= |d.name| <= 256 && 1 <= d.total <= Limit(d.kind) && 1 <= |key| <= 200
    && Bounded(d.space) && Bounded(d.conversation)
  }

  /** A chunk of 1 to 524288 bytes that has its digest, if it comes with one, under a bounded key. */
  predicate ProperChunk(index: int, raw: Option<Bytes>, sha: Option<Digest>, key: string) {
    && index >= 0 && 1 <= |key| <= 200 && raw.Some? && 1 <= |raw.value| <= 524288
    && (sha.Some? ==> sha.value == Sha256(raw.value))
  }

  /** The owner's upload, still open, and not older than half an hour. */
  predicate TakesChunks(s: State, owner: string, upload: string, now: int) {
    && upload in s.uploads && s.uploads[upload].owner == owner && s.uploads[upload].state == Open
    && now - s.uploads[upload].created <= 1800
  }

  /** The chunk is the next one, under a new key, and does not exceed the total. */
  predicate FitsNext(s: State, upload: string, index: int, raw: Bytes, key: string)
    requires upload in s.uploads && index >= 0
  {
    && ChunkKey(upload, index) !in s.chunks && (forall c :: c in s.chunks ==> s.chunks[c].key != key)
    && index == s.uploads[upload].chunks && s.uploads[upload].received + |raw| <= s.uploads[upload].declared.total
  }

  /** The answer to a chunk: its acknowledgement if it is on record with this key and content, a
      new one if it fits, and a refusal otherwise. */
  predicate AnswersChunk(s: State, owner: string, upload: string, index: int, raw: Option<Bytes>, sha: Option<Digest>, key: string,
                         now: int, r: ChunkReply)
  {
    if !ProperChunk(index, raw, sha, key) || !TakesChunks(s, owner, upload, now) then r == Refused
    else
      var u, at := s.uploads[upload], ChunkKey(upload, index);
      if at in s.chunks then
        r == if s.chunks[at].key == key && s.chunks[at].sha == Sha256(raw.value) then Replayed(s.chunks[at].ack) else Refused
      else if FitsNext(s, upload, index, raw.value, key) then
        r == Accepted(Ack(index + 1, u.received + |raw.value|, u.received + |raw.value| == u.declared.total))
      else r == Refused
  }

  /** The bytes are the first n parts of the upload, one after the other, each of 1 to 524288. */
  ghost predicate Joins(parts: map<ChunkKey, Bytes>, upload: string, n: nat, raw: Bytes) {
    exists cuts: seq<nat> ::
      && |cuts| == n + 1 && cuts[0] == 0 && cuts[n] == |raw|
      && forall i :: 0 <= i < n ==> PartAt(parts, upload, raw, cuts, i)
  }

  predicate PartAt(parts: map<ChunkKey, Bytes>, upload: string, raw: Bytes, cuts: seq<nat>, i: nat)
    requires i + 1 < |cuts|
  {
    && cuts[i] < cuts[i + 1] <= |raw| && cuts[i + 1] - cuts[i] <= 524288
    && ChunkKey(upload, i) in parts && parts[ChunkKey(upload, i)] == raw[cuts[i]..cuts[i + 1]]
  }

  predicate Readable(parts: map<ChunkKey, Bytes>, upload: string, n: nat) {
    forall i :: 0 <= i < n ==> ChunkKey(upload, i) in parts && 1 <= |parts[ChunkKey(upload, i)]| <= 524288
  }

  /** The bytes look like this kind, as this MIME type: a JPEG or PNG header for an image, a PDF
      header for a PDF, anything for text and code. */
  predicate Shows(kind: Kind, raw: Bytes, mime: Mime) {
    match kind
    case Image =>
      (mime == ImageJpeg && |raw| >= 3 && raw[..3] == [0xff, 0xd8, 0xff])
      || (mime == ImagePng && |raw| >= 8 && raw[..8] == [0x89, 0x50, 0x4e, 0x47, 0x0d, 0x0a, 0x1a, 0x0a])
    case Pdf => mime == ApplicationPdf && |raw| >= 5 && raw[..5] == [0x25, 0x50, 0x44, 0x46, 0x2d]
    case Text => mime == TextPlain
    case Code => mime == TextPlain
  }

  lemma ShowsIff(kind: Kind, raw: Bytes, mime: Mime)
    ensures Shows(kind, raw, mime) <==> MimeOf(kind, raw) == Some(mime)
  {
    assert |raw| >= 3 && raw[..3] == [0xff, 0xd8, 0xff] ==> JPEG <= raw;
    assert |raw| >= 8 && raw[..8] == [0x89, 0x50, 0x4e, 0x47, 0x0d, 0x0a, 0x1a, 0x0a] ==> PNG <= raw;
    assert |raw| >= 5 && raw[..5] == [0x25, 0x50, 0x44, 0x46, 0x2d] ==> PDF <= raw;
    if |raw| >= 8 && raw[..8] == [0x89, 0x50, 0x4e, 0x47, 0x0d, 0x0a, 0x1a, 0x0a] {
      assert raw[0] == raw[..8][0];
    }
  }

  /** The assembled bytes pass: all parts can be read, and they have the declared length, digest
      and kind, are within its limit, and are what a file of this digest holds already, if there
      is one. */
  ghost predicate Passes(s: State, upload: string, u: Upload, raw: Bytes, mime: Mime) {
    && Joins(s.parts, upload, u.chunks, raw) && |raw| == u.declared.total && Sha256(raw) == u.declared.sha
    && Shows(u.declared.kind, raw, mime) && |raw| <= Limit(u.declared.kind)
    && (u.declared.sha in s.files ==> s.files[u.declared.sha] == raw)
  }

  /** The owner's upload of this project and scope, not aborted. */
  predicate MayFinish(s: State, owner: string, project: string, upload: string, space: Option<string>, conversation: Option<string>) {
    && upload in s.uploads && s.uploads[upload].owner == owner && s.uploads[upload].project == project
    && s.uploads[upload].declared.space == space && s.uploads[upload].declared.conversation == conversation
    && s.uploads[upload].state != Aborted
  }

  /** The answer to a completion: the receipt on record under its key, if that is of this very
      completion and it went through; under a new key, if the upload is open and has all its
      bytes and they pass, the receipt that describes them; and nothing otherwise. */
  ghost predicate AnswersFinish(s: State, owner: string, project: string, upload: string, space: Option<string>,
                                conversation: Option<string>, operation: Option<string>, workItem: Option<string>, key: string,
                                r: FinishReply)
  {
    if !MayFinish(s, owner, project, upload, space, conversation) then r == NotFinished
    else
      var u, k := s.uploads[upload], RequestKey(owner, project, key);
      if k in s.requests then
        r == if s.requests[k].purpose == Completion(upload, u.declared.sha, operation, workItem) && u.state == Complete
             then ReplayedReceipt(s.requests[k].attachment, s.requests[k].receipt) else NotFinished
      else if u.state == Complete || u.received != u.declared.total then r == NotFinished
      else if r.Finished? then
        && Passes(s, upload, u, r.raw, r.receipt.mime)
        && r.receipt == Blob(owner, project, u.declared.kind, u.declared.name, r.receipt.mime, |r.raw|, u.declared.sha,
                             space, conversation, operation, workItem)
      else r == NotFinished && forall raw, mime :: !Passes(s, upload, u, raw, mime)
  }

  /** The store after a completion: the file, and unless it is cut short after that, the blob, its
      receipt under the key of the request, and the closed upload, in one commit. */
  function Completed(s: State, owner: string, project: string, upload: string, operation: Option<string>, workItem: Option<string>,
                     key: string, id: string, answer: FinishReply, fault: Fault): State
    requires upload in s.uploads && answer.Finished?
  {
    var u := s.uploads[upload];
    var filed := s.(files := s.files[u.declared.sha := answer.raw]);
    if fault == AfterFile then filed
    else filed.(blobs := s.blobs[id := answer.receipt],
                requests := s.requests[RequestKey(owner, project, key) :=
                  RequestRow(Completion(upload, u.declared.sha, operation, workItem), id, answer.receipt)],
                uploads := s.uploads[upload := u.(state := Complete)], log := s.log + [Made(upload, id)])
  }

  /** The parts of an upload can be joined in one way only. */
  lemma {:induction false} JoinedOnce(parts: map<ChunkKey, Bytes>, upload: string, n: nat, raw: Bytes)
    requires Joins(parts, upload, n, raw)
    ensures ReadParts(parts, upload, n) == Some(raw)
    decreases n
  {
    var cuts: seq<nat> :| && |cuts| == n + 1 && cuts[0] == 0 && cuts[n] == |raw|
                          && forall i :: 0 <= i < n ==> PartAt(parts, upload, raw, cuts, i);
    if n > 0 {
      var c := cuts[n - 1];
      assert PartAt(parts, upload, raw, cuts, n - 1);
      forall i | 0 <= i < n - 1 ensures PartAt(parts, upload, raw[..c], cuts[..n], i) {
        assert PartAt(parts, upload, raw, cuts, i);
        CutsRise(parts, upload, raw, cuts, i + 1, n - 1);
        assert raw[..c][cuts[i]..cuts[i + 1]] == raw[cuts[i]..cuts[i + 1]];
      }
      assert |cuts[..n]| == n && cuts[..n][0] == 0 && cuts[..n][n - 1] == |raw[..c]|;
      JoinedOnce(parts, upload, n - 1, raw[..c]);
      assert parts[ChunkKey(upload, n - 1)] == raw[c..];
      assert raw == raw[..c] + raw[c..];
    }
  }

  lemma {:induction false} CutsRise(parts: map<ChunkKey, Bytes>, upload: string, raw: Bytes, cuts: seq<nat>, i: nat, j: nat)
    requires i <= j < |cuts| && forall k :: 0 <= k < |cuts| - 1 ==> PartAt(parts, upload, raw, cuts, k)
    ensures cuts[i] <= cuts[j]
    decreases j
  {
    if i < j {
      CutsRise(parts, upload, raw, cuts, i, j - 1);
      assert PartAt(parts, upload, raw, cuts, j - 1);
    }
  }

  class AttachmentStore {
    var uploads: map<string, Upload>            // browser_attachment_uploads
    var intents: map<RequestKey, Intent>        // browser_attachment_upload_intents
    var chunks: map<ChunkKey, ChunkRow>         // browser_attachment_chunk_requests
    var requests: map<RequestKey, RequestRow>   // browser_attachment_requests
    var blobs: map<string, Blob>                // browser_attachment_blobs
    var parts: map<ChunkKey, Bytes>             // attachments/uploads/<upload>/<index>.part
    var files: map<Digest, Bytes>               // attachments/<digest>
    ghost var log: seq<Made>

    ghost function Store(): State
      reads this
    {
      State(uploads, intents, chunks, requests, blobs, parts, files, log)
    }

    constructor ()
      ensures Store() == Init
    {
      uploads, intents, chunks, requests, blobs, parts, files, log := map[], map[], map[], map[], map[], map[], map[], [];
    }

    /** upload_begin; expected is the number of chunks it announces. */
    method UploadBegin(owner: string, project: string, declared: Declared, key: string, now: int, id: string)
      returns (r: Option<string>, expected: int)
      requires id !in uploads
      modifies this
      ensures Store() == Step(old(Store()), Begin(owner, project, declared, key, now, id))
      ensures var k, ok := RequestKey(owner, project, key), MayBegin(project, declared, key);
        && (!ok ==> r.None?)
        && (ok && k in old(intents) ==> r == if old(intents)[k].declared == declared then Some(old(intents)[k].upload) else None)
        && (ok && k !in old(intents) ==> r == Some(id))
        && Store() == if ok && k !in old(intents)
                      then old(Store()).(uploads := old(uploads)[id := Upload(owner, project, declared, 0, 0, now, Open)],
                                         intents := old(intents)[k := Intent(declared, id)])
                      else old(Store())
      ensures r.Some? ==> 1 <= expected <= 40 && (expected - 1) * 524288 < declared.total <= expected * 524288
    {
      expected := 0;
      if !Admissible(project, declared, key) {
        return None, expected;
      }
      expected := (declared.total + CHUNK_BYTES - 1) / CHUNK_BYTES;
      var k := RequestKey(owner, project, key);
      if k in intents {
        return if intents[k].declared == declared then Some(intents[k].upload) else None, expected;
      }
      uploads := uploads[id := Upload(owner, project, declared, 0, 0, now, Open)];
      intents := intents[k := Intent(declared, id)];
      return Some(id), expected;
    }

    /** upload_chunk, with the checks in their order. */
    method UploadChunk(owner: string, upload: string, index: int, raw: Option<Bytes>, sha: Option<Digest>, key: string,
                       now: int, fault: Fault)
      returns (r: ChunkReply)
      modifies this
      ensures Store() == Step(old(Store()), Chunk(owner, upload, index, raw, sha, key, now, fault))
      ensures fault == NoFault ==> AnswersChunk(old(Store()), owner, upload, index, raw, sha, key, now, r)
      ensures fault != NoFault ==> !r.Accepted?
      ensures var fits := ProperChunk(index, raw, sha, key) && TakesChunks(old(Store()), owner, upload, now)
                          && FitsNext(old(Store()), upload, index, raw.value, key);
        Store() == if !fits || fault == BeforeFile then old(Store())
                   else if fault == AfterFile then old(Store()).(parts := old(parts)[ChunkKey(upload, index) := raw.value])
                   else
                     var u, at := old(uploads)[upload], ChunkKey(upload, index);
                     old(Store()).(parts := old(parts)[at := raw.value],
                                   uploads := old(uploads)[upload := u.(received := u.received + |raw.value|, chunks := index + 1)],
                                   chunks := old(chunks)[at := ChunkRow(key, Sha256(raw.value), r.ack)])
    {
      if index < 0 || !DurableKey(key) || raw.None? || raw.value == [] || |raw.value| > CHUNK_BYTES {
        return Refused;
      }
      var digest := Sha256(raw.value);
      if sha.Some? && sha.value != digest {
        return Refused;
      }
      if upload !in uploads || uploads[upload].owner != owner || uploads[upload].state != Open
         || now - uploads[upload].created > UPLOAD_TTL_S {
        return Refused;
      }
      var u, at := uploads[upload], ChunkKey(upload, index);
      if at in chunks {
        return if chunks[at].key != key || chunks[at].sha != digest then Refused else Replayed(chunks[at].ack);
      }
      if KeyElsewhere(chunks, key, at) || index != u.chunks || u.received + |raw.value| > u.declared.total || fault == BeforeFile {
        return Refused;
      }
      parts := parts[at := raw.value];
      if fault == AfterFile {
        return Refused;
      }
      var received := u.received + |raw.value|;
      var ack := Ack(index + 1, received, received >= u.declared.total);
      uploads := uploads[upload := u.(received := received, chunks := index + 1)];
      chunks := chunks[at := ChunkRow(key, digest, ack)];
      return Accepted(ack);
    }

    /** Reads and joins the parts of an upload. */
    method JoinParts(upload: string, n: nat) returns (r: Option<Bytes>)
      ensures r == ReadParts(parts, upload, n)
      ensures r.Some? <==> Readable(parts, upload, n)
      ensures r.Some? ==> Joins(parts, upload, n, r.value)
    {
      var joined, i := [], 0;
      ghost var cuts: seq<nat> := [0];
      while i < n
        invariant 0 <= i <= n
        invariant ReadParts(parts, upload, i) == Some(joined) && Readable(parts, upload, i)
        invariant |cuts| == i + 1 && cuts[0] == 0 && cuts[i] == |joined|
        invariant forall j :: 0 <= j < i ==> PartAt(parts, upload, joined, cuts, j)
      {
        var at := ChunkKey(upload, i);
        if at !in parts || parts[at] == [] || |parts[at]| > CHUNK_BYTES {
          UnreadableStays(upload, i, n);
          return None;
        }
        ghost var before := cuts;
        cuts := cuts + [|joined| + |parts[at]|];
        OneMorePart(upload, joined, before, cuts, i);
        joined := joined + parts[at];
        i := i + 1;
      }
      return Some(joined);
    }

    lemma OneMorePart(upload: string, joined: Bytes, before: seq<nat>, cuts: seq<nat>, i: nat)
      requires ChunkKey(upload, i) in parts && 1 <= |parts[ChunkKey(upload, i)]| <= 524288
      requires |before| == i + 1 && before[i] == |joined| && cuts == before + [|joined| + |parts[ChunkKey(upload, i)]|]
      requires forall j :: 0 <= j < i ==> PartAt(parts, upload, joined, before, j)
      ensures forall j :: 0 <= j < i + 1 ==> PartAt(parts, upload, joined + parts[ChunkKey(upload, i)], cuts, j)
    {
      var more := joined + parts[ChunkKey(upload, i)];
      forall j | 0 <= j < i + 1 ensures PartAt(parts, upload, more, cuts, j) {
        if j < i {
          assert PartAt(parts, upload, joined, before, j);
          assert more[cuts[j]..cuts[j + 1]] == joined[before[j]..before[j + 1]];
        } else {
          assert more[cuts[j]..cuts[j + 1]] == parts[ChunkKey(upload, i)];
        }
      }
    }

    lemma {:induction false} UnreadableStays(upload: string, i: nat, n: nat)
      requires i < n && ReadParts(parts, upload, i + 1).None?
      ensures ReadParts(parts, upload, n).None?
      decreases n
    {
      if i + 1 < n {
        UnreadableStays(upload, i, n - 1);
      }
    }

    /** The checks of upload_complete on the bytes it has put together. */
    method Verify(upload: string, u: Upload, ghost e: Event) returns (r: Option<(Bytes, Mime)>)
      requires e.Finish? && e.upload == upload
      ensures r.None? ==> Assembled(Store(), e, u) == NotFinished
      ensures r.Some? ==>
                Assembled(Store(), e, u)
                == Finished(Blob(e.owner, e.project, u.declared.kind, u.declared.name, r.value.1, |r.value.0|, u.declared.sha, e.space,
                                 e.conversation, e.operation, e.workItem), r.value.0)
      ensures r.Some? ==> Passes(Store(), upload, u, r.value.0, r.value.1)
      ensures r.None? ==> forall raw, mime :: !Passes(Store(), upload, u, raw, mime)
    {
      forall raw, mime | Passes(Store(), upload, u, raw, mime)
        ensures ReadParts(parts, upload, u.chunks) == Some(raw) && MimeOf(u.declared.kind, raw) == Some(mime)
      {
        JoinedOnce(parts, upload, u.chunks, raw);
        ShowsIff(u.declared.kind, raw, mime);
      }
      hide Joins, Shows;
      var raw := JoinParts(upload, u.chunks);
      if raw.None? || |raw.value| != u.declared.total || Sha256(raw.value) != u.declared.sha {
        return None;
      }
      var mime := MimeOf(u.declared.kind, raw.value);
      if mime.Some? {
        ShowsIff(u.declared.kind, raw.value, mime.value);
      }
      if mime.None? || |raw.value| > Budget(u.declared.kind) {
        return None;
      }
      if u.declared.sha in files && files[u.declared.sha] != raw.value {
        return None;
      }
      return Some((raw.value, mime.value));
    }

    /** All the checks of upload_complete, in their order; nothing is written yet. */
    method Decide(owner: string, project: string, upload: string, space: Option<string>, conversation: Option<string>,
                  operation: Option<string>, workItem: Option<string>, key: string, ghost e: Event)
      returns (r: FinishReply)
      requires DurableKey(key) && e.Finish?
      requires e == Finish(owner, project, upload, space, conversation, operation, workItem, key, e.id, e.fault)
      ensures r == FinishAnswer(Store(), e)
      ensures AnswersFinish(Store(), owner, project, upload, space, conversation, operation, workItem, key, r)
    {
      hide Passes, Assembled;
      if upload !in uploads || uploads[upload].owner != owner || uploads[upload].project != project {
        return NotFinished;
      }
      var u, k := uploads[upload], RequestKey(owner, project, key);
      if u.declared.space != space || u.declared.conversation != conversation || u.state == Aborted {
        return NotFinished;
      }
      if k in requests {
        if requests[k].purpose == Completion(upload, u.declared.sha, operation, workItem) && u.state == Complete {
          return ReplayedReceipt(requests[k].attachment, requests[k].receipt);
        }
        return NotFinished;
      }
      if u.state == Complete || u.received != u.declared.total {
        return NotFinished;
      }
      var verified := Verify(upload, u, e);
      if verified.None? {
        return NotFinished;
      }
      var (raw, mime) := verified.value;
      return Finished(Blob(owner, project, u.declared.kind, u.declared.name, mime, |raw|, u.declared.sha, space, conversation,
                           operation, workItem), raw);
    }

    /** upload_complete: the blob file first, then the rows in one commit. */
    method UploadComplete(owner: string, project: string, upload: string, space: Option<string>, conversation: Option<string>,
                          operation: Option<string>, workItem: Option<string>, key: string, id: string, fault: Fault)
      returns (r: Option<Blob>)
      requires DurableKey(key) && id !in blobs
      modifies this
      ensures var e := Finish(owner, project, upload, space, conversation, operation, workItem, key, id, fault);
        Store() == Step(old(Store()), e)
      ensures exists answer ::
                && AnswersFinish(old(Store()), owner, project, upload, space, conversation, operation, workItem, key, answer)
                && r == (match answer
                         case NotFinished => None
                         case ReplayedReceipt(_, receipt) => Some(receipt)
                         case Finished(receipt, _) => if fault == NoFault then Some(receipt) else None)
                && Store() == if !answer.Finished? || fault == BeforeFile then old(Store())
                              else Completed(old(Store()), owner, project, upload, operation, workItem, key, id, answer, fault)
    {
      ghost var e := Finish(owner, project, upload, space, conversation, operation, workItem, key, id, fault);
      var answer := Decide(owner, project, upload, space, conversation, operation, workItem, key, e);
      hide Assembled, AnswersFinish;
      match answer
      case NotFinished => return None;
      case ReplayedReceipt(_, receipt) => return Some(receipt);
      case Finished(receipt, raw) =>
        if fault == BeforeFile {
          return None;
        }
        var sha := uploads[upload].declared.sha;
        files := files[sha := raw];
        if fault == AfterFile {
          return None;
        }
        blobs := blobs[id := receipt];
        requests := requests[RequestKey(owner, project, key) := RequestRow(Completion(upload, sha, operation, workItem), id, receipt)];
        uploads := uploads[upload := uploads[upload].(state := Complete)];
        log := log + [Made(upload, id)];
        return Some(receipt);
    }

    /** upload_abort up to its commit; the staging directory is removed afterwards. */
    method UploadAbort(owner: string, project: string, upload: string) returns (aborted: bool)
      modifies this
      ensures Store() == Step(old(Store()), Abort(owner, project, upload))
      ensures var mine := upload in old(uploads) && old(uploads)[upload].owner == owner && old(uploads)[upload].project == project;
        && (aborted <==> mine && old(uploads)[upload].state != Complete)
        && Store() == if aborted then old(Store()).(uploads := old(uploads)[upload := old(uploads)[upload].(state := Aborted)])
                      else old(Store())
    {
      if upload !in uploads || uploads[upload].owner != owner || uploads[upload].project != project {
        return false;
      }
      if uploads[upload].state == Open {
        uploads := uploads[upload := uploads[upload].(state := Aborted)];
      }
      return uploads[upload].state == Aborted;
    }

    /** _upload_view: complete is read off the byte count, not off the state. */
    method UploadView(upload: string, now: int) returns (r: Option<View>)
      ensures r.Some? <==> upload in uploads
      ensures r.Some? ==>
                var u := uploads[upload];
                r.value == View(u.state, u.chunks, u.received, u.received >= u.declared.total, now - u.created > 1800)
      ensures r.Some? && Safety.Inv(Store()) ==>
        (r.value.complete <==> |Safety.Joined(chunks, upload, r.value.chunks)| == uploads[upload].declared.total)
      ensures r.Some? && Safety.Inv(Store()) && r.value.state == Complete ==> r.value.complete
    {
      if upload !in uploads {
        return None;
      }
      var u := uploads[upload];
      return Some(View(u.state, u.chunks, u.received, u.received >= u.declared.total, now - u.created > UPLOAD_TTL_S));
    }
  }
}
