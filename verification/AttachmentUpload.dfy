/** The chunked upload of browser/attachments.py: the ledger in the database, the part and blob
    files beside it, and the moments at which a crash can separate the two. */
module AttachmentUpload {
  import opened Basics

  const CHUNK_BYTES := 512 * 1024
  const MAX_IMAGE_BYTES := 8 * 1024 * 1024
  const MAX_DOCUMENT_BYTES := 20 * 1024 * 1024
  const UPLOAD_TTL_S := 1800

  datatype Kind = Image | Pdf | Text | Code

  datatype UploadState = Open | Complete | Aborted

  /** What an upload declares; the fingerprint of its begin request. */
  datatype Declared = Declared(kind: Kind, name: string, total: int, sha: Digest, space: Option<string>, conversation: Option<string>)

  /** A row of browser_attachment_uploads. */
  datatype Upload = Upload(owner: string, project: string, declared: Declared, received: nat, chunks: nat,
                           created: int, state: UploadState)

  datatype Intent = Intent(declared: Declared, upload: string)

  datatype Ack = Ack(chunks: nat, bytes: nat, complete: bool)

  /** The primary key and a row of browser_attachment_chunk_requests. */
  datatype ChunkKey = ChunkKey(upload: string, index: nat)
  datatype ChunkRow = ChunkRow(key: string, sha: Digest, ack: Ack)

  datatype Mime = ImagePng | ImageJpeg | ApplicationPdf | TextPlain

  /** A row of browser_attachment_blobs, which is also the receipt of its registration. */
  datatype Blob = Blob(owner: string, project: string, kind: Kind, name: string, mime: Mime, bytes: nat, sha: Digest,
                       space: Option<string>, conversation: Option<string>, operation: Option<string>, workItem: Option<string>)

  /** What the fingerprint of a browser_attachment_requests row digests. */
  datatype Purpose =
    | Completion(upload: string, sha: Digest, operation: Option<string>, workItem: Option<string>)
    | Registration(text: string)

  datatype RequestRow = RequestRow(purpose: Purpose, attachment: string, receipt: Blob)

  /** A blob that the completion of an upload registered. */
  datatype Made = Made(upload: string, attachment: string)

  datatype State = State(uploads: map<string, Upload>, intents: map<RequestKey, Intent>, chunks: map<ChunkKey, ChunkRow>,
                         requests: map<RequestKey, RequestRow>, blobs: map<string, Blob>,
                         parts: map<ChunkKey, Bytes>, files: map<Digest, Bytes>, log: seq<Made>)

  const Init := State(map[], map[], map[], map[], map[], map[], map[], [])

  /** Where a transaction is cut short by a crash or an exception. */
  datatype Fault = NoFault | BeforeFile | AfterFile

  datatype Event =
    | Begin(owner: string, project: string, declared: Declared, key: string, now: int, id: string)
    | Chunk(owner: string, upload: string, index: int, raw: Option<Bytes>, sha: Option<Digest>, key: string, now: int, fault: Fault)
    | Finish(owner: string, project: string, upload: string, space: Option<string>, conversation: Option<string>,
             operation: Option<string>, workItem: Option<string>, key: string, id: string, fault: Fault)
    | Abort(owner: string, project: string, upload: string)
    | Cleanup(upload: string, indices: set<nat>)          // of a closed upload, as far as it gets
    | Register(request: RequestKey, text: string, id: string, blob: Blob, bytes: Bytes)   // the single-shot route

  function Budget(kind: Kind): nat {
    if kind == Image then MAX_IMAGE_BYTES else MAX_DOCUMENT_BYTES
  }

  predicate BoundedScope(v: Option<string>) {
    v.None? || 1 <= |v.value| <= 200
  }

  predicate DurableKey(key: string) {
    1 <= |key| <= 200
  }

  predicate Admissible(project: string, d: Declared, key: string) {
    && project != "" && 1 <= |d.name| <= 256 && 1 <= d.total <= Budget(d.kind)
    && DurableKey(key) && BoundedScope(d.space) && BoundedScope(d.conversation)
  }

  function ChunksExpected(total: int): int {
    (total + CHUNK_BYTES - 1) / CHUNK_BYTES
  }

  // ---------------------------------------------------------------- begin

  function BeginStep(s: State, e: Event): State
    requires e.Begin?
  {
    var k := RequestKey(e.owner, e.project, e.key);
    if !Admissible(e.project, e.declared, e.key) || k in s.intents || e.id in s.uploads then s
    else s.(uploads := s.uploads[e.id := Upload(e.owner, e.project, e.declared, 0, 0, e.now, Open)],
            intents := s.intents[k := Intent(e.declared, e.id)])
  }

  // ---------------------------------------------------------------- chunks

  predicate KeyElsewhere(chunks: map<ChunkKey, ChunkRow>, key: string, at: ChunkKey) {
    exists c :: c in chunks && chunks[c].key == key && c != at
  }

  datatype ChunkReply = Refused | Replayed(ack: Ack) | Accepted(ack: Ack)

  /** What upload_chunk answers, before anything is written. */
  function Answer(s: State, e: Event): ChunkReply
    requires e.Chunk?
  {
    if e.index < 0 || !DurableKey(e.key) || e.raw.None? || e.raw.value == [] || |e.raw.value| > CHUNK_BYTES
       || (e.sha.Some? && e.sha.value != Sha256(e.raw.value)) || e.upload !in s.uploads || s.uploads[e.upload].owner != e.owner
       || s.uploads[e.upload].state != Open || e.now - s.uploads[e.upload].created > UPLOAD_TTL_S
    then Refused
    else
      var u, at := s.uploads[e.upload], ChunkKey(e.upload, e.index);
      if at in s.chunks then
        if s.chunks[at].key == e.key && s.chunks[at].sha == Sha256(e.raw.value) then Replayed(s.chunks[at].ack) else Refused
      else if KeyElsewhere(s.chunks, e.key, at) || e.index != u.chunks || u.received + |e.raw.value| > u.declared.total then Refused
      else Accepted(Ack(u.chunks + 1, u.received + |e.raw.value|, u.received + |e.raw.value| >= u.declared.total))
  }

  function ChunkStep(s: State, e: Event): State
    requires e.Chunk?
  {
    if !Answer(s, e).Accepted? || e.fault == BeforeFile then s
    else
      var at, ack := ChunkKey(e.upload, e.index), Answer(s, e).ack;
      var written := s.(parts := s.parts[at := e.raw.value]);
      if e.fault == AfterFile then written
      else written.(uploads := s.uploads[e.upload := s.uploads[e.upload].(received := ack.bytes, chunks := ack.chunks)],
                    chunks := s.chunks[at := ChunkRow(e.key, Sha256(e.raw.value), ack)])
  }

  // ---------------------------------------------------------------- completion

  /** The first n parts of an upload, read and joined; None if one of them cannot be read. */
  function ReadParts(parts: map<ChunkKey, Bytes>, upload: string, n: nat): Option<Bytes> {
    if n == 0 then Some([])
    else
      var before, at := ReadParts(parts, upload, n - 1), ChunkKey(upload, n - 1);
      if before.None? || at !in parts || !(0 < |parts[at]| <= CHUNK_BYTES) then None
      else Some(before.value + parts[at])
  }

  const JPEG: Bytes := [0xff, 0xd8, 0xff]
  const PNG: Bytes := [0x89, 0x50, 0x4e, 0x47, 0x0d, 0x0a, 0x1a, 0x0a]
  const PDF: Bytes := [0x25, 0x50, 0x44, 0x46, 0x2d]

  /** The MIME type the bytes themselves show; None if the kind refuses them. */
  function MimeOf(kind: Kind, raw: Bytes): Option<Mime> {
    match kind
    case Image => if JPEG <= raw then Some(ImageJpeg) else if PNG <= raw then Some(ImagePng) else None
    case Pdf => if PDF <= raw then Some(ApplicationPdf) else None
    case Text => Some(TextPlain)
    case Code => Some(TextPlain)
  }

  datatype FinishReply =
    | NotFinished
    | ReplayedReceipt(attachment: string, receipt: Blob)
    | Finished(receipt: Blob, raw: Bytes)

  function FinishAnswer(s: State, e: Event): FinishReply
    requires e.Finish?
  {
    if !DurableKey(e.key) || e.upload !in s.uploads || s.uploads[e.upload].owner != e.owner || s.uploads[e.upload].project != e.project
       || s.uploads[e.upload].declared.space != e.space || s.uploads[e.upload].declared.conversation != e.conversation
       || s.uploads[e.upload].state == Aborted
    then NotFinished
    else
      var u, k := s.uploads[e.upload], RequestKey(e.owner, e.project, e.key);
      if k in s.requests then
        if s.requests[k].purpose == Completion(e.upload, u.declared.sha, e.operation, e.workItem) && u.state == Complete
        then ReplayedReceipt(s.requests[k].attachment, s.requests[k].receipt) else NotFinished
      else if u.state == Complete || u.received != u.declared.total then NotFinished
      else Assembled(s, e, u)
  }

  /** The checks on the assembled bytes. */
  function Assembled(s: State, e: Event, u: Upload): FinishReply
    requires e.Finish?
  {
    var raw := ReadParts(s.parts, e.upload, u.chunks);
    if raw.None? || |raw.value| != u.declared.total || Sha256(raw.value) != u.declared.sha
       || MimeOf(u.declared.kind, raw.value).None? || |raw.value| > Budget(u.declared.kind)
       || (u.declared.sha in s.files && s.files[u.declared.sha] != raw.value)
    then NotFinished
    else Finished(Blob(e.owner, e.project, u.declared.kind, u.declared.name, MimeOf(u.declared.kind, raw.value).value, |raw.value|,
                       u.declared.sha, e.space, e.conversation, e.operation, e.workItem), raw.value)
  }

  function FinishStep(s: State, e: Event): State
    requires e.Finish?
  {
    var answer := FinishAnswer(s, e);
    if !answer.Finished? || e.fault == BeforeFile || e.id in s.blobs then s
    else
      var u := s.uploads[e.upload];
      var written := s.(files := s.files[u.declared.sha := answer.raw]);
      if e.fault == AfterFile then written
      else written.(blobs := s.blobs[e.id := answer.receipt],
                    requests := s.requests[RequestKey(e.owner, e.project, e.key) :=
                      RequestRow(Completion(e.upload, u.declared.sha, e.operation, e.workItem), e.id, answer.receipt)],
                    uploads := s.uploads[e.upload := u.(state := Complete)],
                    log := s.log + [Made(e.upload, e.id)])
  }

  // ---------------------------------------------------------------- abort and the rest

  function AbortStep(s: State, owner: string, project: string, upload: string): State {
    if upload !in s.uploads || s.uploads[upload].owner != owner || s.uploads[upload].project != project
       || s.uploads[upload].state != Open then s
    else s.(uploads := s.uploads[upload := s.uploads[upload].(state := Aborted)])
  }

  /** The part files of a closed upload that a cleanup removes. */
  function Removed(upload: string, indices: set<nat>): set<ChunkKey> {
    set i | i in indices :: ChunkKey(upload, i)
  }

  function CleanupStep(s: State, upload: string, indices: set<nat>): State {
    if upload !in s.uploads || s.uploads[upload].state == Open then s
    else s.(parts := s.parts - Removed(upload, indices))
  }

  /** attachment_register stores and registers bytes under a request of its own. */
  function RegisterStep(s: State, e: Event): State
    requires e.Register?
  {
    if e.request in s.requests || e.id in s.blobs || e.blob.sha != Sha256(e.bytes) then s
    else s.(files := if e.blob.sha in s.files then s.files else s.files[e.blob.sha := e.bytes],
            blobs := s.blobs[e.id := e.blob],
            requests := s.requests[e.request := RequestRow(Registration(e.text), e.id, e.blob)])
  }

  function Step(s: State, e: Event): State {
    match e
    case Begin(_, _, _, _, _, _) => BeginStep(s, e)
    case Chunk(_, _, _, _, _, _, _, _) => ChunkStep(s, e)
    case Finish(_, _, _, _, _, _, _, _, _, _) => FinishStep(s, e)
    case Abort(owner, project, upload) => AbortStep(s, owner, project, upload)
    case Cleanup(upload, indices) => CleanupStep(s, upload, indices)
    case Register(_, _, _, _, _) => RegisterStep(s, e)
  }

  function Run(s: State, events: seq<Event>): State
    decreases |events|
  {
    if events == [] then s else Run(Step(s, events[0]), events[1..])
  }
}
