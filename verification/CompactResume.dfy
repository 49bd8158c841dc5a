/** native_bridge/conversation_continuation.py on the tables of a Web continuation: prepare pins
    a transcript into a checkpoint, and resume goes past its gates to the claim and the commit
    of the Web layer. Checkpoints are rows of session_checkpoints, written by anybody and never
    changed. */
module CompactResume {
  import opened Basics
  import Web = WebContinuation

  const MAX_IDS := 500
  const MAX_CHILDREN := 200_000
  const MAX_SUMMARY := 16_000
  const MAX_KEY := 128
  const MAX_CONVERSATION := 512
  const INSTANCE := "conversation-compact-resume"

  // ---------------------------------------------------------------- what a checkpoint holds

  datatype Key = Summary | LogicalConversation | TranscriptSha | MessageIds | ChildrenSnapshot | Named(name: string)

  /** A value of a payload; an object is given by its compact JSON encoding. */
  datatype Json = Text(text: string) | Texts(items: seq<string>) | Object(encoding: string)

  type Payload = map<Key, Json>

  /** The transcript arguments of prepare. */
  datatype Transcript = Transcript(sha: Option<string>, ids: Option<seq<string>>, children: Option<string>)

  predicate HexDigit(c: char) {
    '0' <= c <= '9' || 'a' <= c <= 'f'
  }

  predicate IsDigest(s: string) {
    |s| == 64 && forall i :: 0 <= i < |s| ==> HexDigit(s[i])
  }

  predicate BoundedIds(ids: seq<string>) {
    1 <= |ids| <= MAX_IDS && forall i :: 0 <= i < |ids| ==> 8 <= |ids[i]| <= 160
  }

  /** _transcript_binding: what is absent is not pinned, what is malformed is refused. */
  function TranscriptBinding(t: Transcript): Option<Payload> {
    if (t.sha.Some? && !IsDigest(t.sha.value)) || (t.ids.Some? && !BoundedIds(t.ids.value))
       || (t.children.Some? && |t.children.value| > MAX_CHILDREN) then None
    else
      var sha := if t.sha.Some? then map[TranscriptSha := Text(t.sha.value)] else map[];
      var ids := if t.ids.Some? then map[MessageIds := Texts(t.ids.value)] else map[];
      var children := if t.children.Some? then map[ChildrenSnapshot := Object(t.children.value)] else map[];
      Some(sha + ids + children)
  }

  /** The arguments a prepare accepts: an approval, a key, a summary and a conversation within
      their bounds, a digest of 64 lower-case hexadecimal digits if there is one, 1 to 500 message
      identifiers of 8 to 160 characters, and children whose encoding has at most 200000. */
  predicate Acceptable(approved: bool, key: string, summary: string, conversation: string, t: Transcript) {
    && approved && 1 <= |key| <= 128 && 1 <= |summary| <= 16000 && 1 <= |conversation| <= 512
    && (t.sha.Some? ==>
          |t.sha.value| == 64 && forall i :: 0 <= i < 64 ==> '0' <= t.sha.value[i] <= '9' || 'a' <= t.sha.value[i] <= 'f')
    && (t.ids.Some? ==> 1 <= |t.ids.value| <= 500 && forall i :: 0 <= i < |t.ids.value| ==> 8 <= |t.ids.value[i]| <= 160)
    && (t.children.Some? ==> |t.children.value| <= 200000)
  }

  /** The payload holds the summary, the conversation and each part of the transcript as it was
      given, and no part that was not given. */
  predicate Holds(p: Payload, summary: string, conversation: string, t: Transcript) {
    && Summary in p && p[Summary] == Text(summary)
    && LogicalConversation in p && p[LogicalConversation] == Text(conversation)
    && (TranscriptSha in p <==> t.sha.Some?) && (t.sha.Some? ==> p[TranscriptSha] == Text(t.sha.value))
    && (MessageIds in p <==> t.ids.Some?) && (t.ids.Some? ==> p[MessageIds] == Texts(t.ids.value))
    && (ChildrenSnapshot in p <==> t.children.Some?) && (t.children.Some? ==> p[ChildrenSnapshot] == Object(t.children.value))
  }

  lemma AcceptableIff(e: Event)
    requires e.Prepare?
    ensures Preparable(e) <==> Acceptable(e.approved, e.key, e.summary, e.conversation, e.transcript)
  {
  }

  lemma HeldAsGiven(e: Event)
    requires e.Prepare? && TranscriptBinding(e.transcript).Some?
    ensures Holds(PreparedPayload(e, TranscriptBinding(e.transcript).value), e.summary, e.conversation, e.transcript)
  {
    hide IsDigest, BoundedIds;
  }

  const PINNED := {TranscriptSha, MessageIds, ChildrenSnapshot}

  /** _pinned_transcript. */
  function Pinned(p: Payload): Payload {
    map k | k in p && k in PINNED :: p[k]
  }

  /** pinned.get("transcript_sha256"). */
  function PinnedSha(p: Payload): Option<string> {
    if TranscriptSha in p && p[TranscriptSha].Text? then Some(p[TranscriptSha].text) else None
  }

  function TextAt(p: Payload, k: Key): string {
    if k in p && p[k].Text? then p[k].text else ""
  }

  /** The source epoch of a checkpoint; that of prepare digests the identity of its request. */
  datatype Epoch = Request(owner: string, run: string, chat: string, key: string) | Epoch(name: string)

  /** A row of session_checkpoints. */
  datatype Row = Row(owner: string, run: string, chat: string, conversation: Option<string>,
                     instance: string, epoch: Epoch, seqNo: nat, payload: Payload, sha: string)

  /** The unique key of the table. */
  predicate SameStream(a: Row, b: Row) {
    a.owner == b.owner && a.chat == b.chat && a.instance == b.instance && a.epoch == b.epoch
  }

  predicate SameSource(a: Row, b: Row) {
    SameStream(a, b) && a.seqNo == b.seqNo
  }

  // ---------------------------------------------------------------- the state

  /** What a resume is about. */
  datatype Handle = OfAllocation(allocation: string) | OfContinuation(id: Web.ContinuationId)

  /** Where a resume is, with the digest its caller named; its Web steps have a flight of their
      own among those of the Web layer. */
  datatype Resuming =
    | AtAllocation(allocation: string, sha: Option<string>)
    | TargetSeen(allocation: string, sha: Option<string>)
    | Claiming(allocation: string, sha: Option<string>)
    | AtContinuation(id: Web.ContinuationId, sha: Option<string>)
    | StatusSeen(id: Web.ContinuationId, sha: Option<string>)
    | Committing(id: Web.ContinuationId, sha: Option<string>)

  /** A resume that named this digest has published this continuation. */
  datatype Publication = Publication(sha: Option<string>, id: Web.ContinuationId)

  datatype State = State(web: Web.State, checkpoints: map<string, Row>, written: seq<string>,
                         resumes: map<nat, Resuming>, log: seq<Publication>)

  const Init := State(Web.Init, map[], [], map[], [])

  datatype Event =
    | Prepare(owner: string, conversation: string, run: string, chat: string, key: string, summary: string,
              transcript: Transcript, approved: bool, id: string, sha: string)
    | Write(id: string, row: Row)                 // any other checkpoint
    | WebStep(e: Web.Event)                       // a call of the Web layer outside a resume, or its surroundings
    | Gate(pid: nat, owner: string, conversation: string, handle: Handle, approved: bool, named: Option<string>, account: bool)
    | TargetLook(pid: nat, browser: bool)
    | StatusLook(pid: nat, browser: bool)
    | Go(pid: nat, e: Web.Event)                  // the next step of a resume in the Web layer
    | Abandon(pid: nat)
    | Crash

  // ---------------------------------------------------------------- checkpoints

  /** The insert of a checkpoint. A source met again is a replay or a conflict, and nothing is
      written; nor is anything behind the newest of its stream. */
  function WriteStep(s: State, id: string, row: Row): State {
    if id in s.checkpoints || exists c :: c in s.checkpoints && SameStream(s.checkpoints[c], row) && row.seqNo <= s.checkpoints[c].seqNo
    then s
    else s.(checkpoints := s.checkpoints[id := row], written := s.written + [id])
  }

  /** The payload prepare writes; Named keys stand for what else is in it. */
  function PreparedPayload(e: Event, binding: Payload): Payload
    requires e.Prepare?
  {
    map[Summary := Text(e.summary), LogicalConversation := Text(e.conversation)] + binding
  }

  function PreparedRow(s: State, e: Event, binding: Payload): Row
    requires e.Prepare?
  {
    Row(e.owner, e.run, e.chat, Web.Bound(s.web, Web.ChatKey(e.owner, e.chat)), INSTANCE, Request(e.owner, e.run, e.chat, e.key), 0,
        PreparedPayload(e, binding), e.sha)
  }

  predicate Preparable(e: Event)
    requires e.Prepare?
  {
    e.approved && 1 <= |e.key| <= MAX_KEY && 1 <= |e.summary| <= MAX_SUMMARY && 1 <= |e.conversation| <= MAX_CONVERSATION
    && TranscriptBinding(e.transcript).Some?
  }

  /** prepare up to its checkpoint. The Web call that follows is one like any other. */
  function PrepareStep(s: State, e: Event): State
    requires e.Prepare?
  {
    if !Preparable(e) then s else WriteStep(s, e.id, PreparedRow(s, e, TranscriptBinding(e.transcript).value))
  }

  /** The newest of these checkpoints of a chat. */
  function LatestOf(checkpoints: map<string, Row>, written: seq<string>, owner: string, chat: string): Option<string> {
    if written == [] then None
    else
      var last := written[|written| - 1];
      if last in checkpoints && checkpoints[last].owner == owner && checkpoints[last].chat == chat then Some(last)
      else LatestOf(checkpoints, written[..|written| - 1], owner, chat)
  }

  /** Entry i of those written is a checkpoint of this chat, and no later one is. */
  predicate NewestAt(checkpoints: map<string, Row>, written: seq<string>, owner: string, chat: string, i: nat) {
    && i < |written| && OfChat(checkpoints, written[i], owner, chat)
    && forall j :: i < j < |written| ==> !OfChat(checkpoints, written[j], owner, chat)
  }

  predicate OfChat(checkpoints: map<string, Row>, id: string, owner: string, chat: string) {
    id in checkpoints && checkpoints[id].owner == owner && checkpoints[id].chat == chat
  }

  lemma {:induction false} NewestIsLatest(checkpoints: map<string, Row>, written: seq<string>, owner: string, chat: string, i: nat)
    requires NewestAt(checkpoints, written, owner, chat, i)
    ensures LatestOf(checkpoints, written, owner, chat) == Some(written[i])
    decreases |written|
  {
    var n := |written| - 1;
    if i < n {
      assert !OfChat(checkpoints, written[n], owner, chat);
      NewestIsLatest(checkpoints, written[..n], owner, chat, i);
    }
  }

  lemma {:induction false} LatestStands(checkpoints: map<string, Row>, written: seq<string>, owner: string, chat: string) returns (i: nat)
    requires LatestOf(checkpoints, written, owner, chat).Some?
    ensures NewestAt(checkpoints, written, owner, chat, i) && written[i] == LatestOf(checkpoints, written, owner, chat).value
    decreases |written|
  {
    i := |written| - 1;
    if !OfChat(checkpoints, written[i], owner, chat) {
      i := LatestStands(checkpoints, written[..i], owner, chat);
    }
  }

  lemma {:induction false} NoneOfChat(checkpoints: map<string, Row>, written: seq<string>, owner: string, chat: string, i: nat)
    requires LatestOf(checkpoints, written, owner, chat).None? && i < |written|
    ensures !OfChat(checkpoints, written[i], owner, chat)
    decreases |written|
  {
    var n := |written| - 1;
    if i < n {
      NoneOfChat(checkpoints, written[..n], owner, chat, i);
    }
  }

  /** LatestOf is the newest, and it is there as soon as any is. */
  lemma LatestIsNewest(checkpoints: map<string, Row>, written: seq<string>, owner: string, chat: string)
    ensures var r := LatestOf(checkpoints, written, owner, chat);
      && (r.None? <==> forall i :: 0 <= i < |written| ==> !OfChat(checkpoints, written[i], owner, chat))
      && (r.Some? ==> exists i: nat :: NewestAt(checkpoints, written, owner, chat, i) && written[i] == r.value)
      && (forall i: nat :: NewestAt(checkpoints, written, owner, chat, i) ==> r == Some(written[i]))
  {
    hide LatestOf, OfChat;
    if LatestOf(checkpoints, written, owner, chat).Some? {
      var i := LatestStands(checkpoints, written, owner, chat);
    } else {
      forall i | 0 <= i < |written| ensures !OfChat(checkpoints, written[i], owner, chat) {
        NoneOfChat(checkpoints, written, owner, chat, i);
      }
    }
    forall i: nat | NewestAt(checkpoints, written, owner, chat, i)
      ensures LatestOf(checkpoints, written, owner, chat) == Some(written[i])
    {
      NewestIsLatest(checkpoints, written, owner, chat, i);
    }
  }

  /** latest_session_checkpoint as the Web layer sees it; None if it belongs to another run. */
  function Latest(s: State, owner: string, run: string, chat: string): Option<Web.Checkpoint> {
    var id := LatestOf(s.checkpoints, s.written, owner, chat);
    if id.None? || id.value !in s.checkpoints || s.checkpoints[id.value].run != run then None
    else
      var row := s.checkpoints[id.value];
      Some(Web.Checkpoint(id.value, row.run, row.conversation, TextAt(row.payload, Summary), row.sha))
  }

  /** A Web step that asks for the latest checkpoint gets it. */
  predicate Informed(s: State, e: Web.Event) {
    match e
    case StagePrepare(_, req, _, cp, _) => Latest(s, req.owner, req.run, req.chat) == Some(cp)
    case TargetInsert(_, req, cp, _) => Latest(s, req.owner, req.run, req.chat) == Some(cp)
    case ClaimAuthorize(_, x, cp, _) =>
      x in s.web.allocations
      && var a := s.web.allocations[x]; Latest(s, a.owner, a.run, a.chat) == Some(cp)
    case ClaimPrepare(pid, cp) =>
      pid in s.web.flights && s.web.flights[pid].ClaimProven?
      && var a := s.web.flights[pid].a; Latest(s, a.owner, a.run, a.chat) == Some(cp)
    case CommitLook(pid, cp) =>
      pid in s.web.flights && s.web.flights[pid].CommitProven? && s.web.flights[pid].id in s.web.core
      && var id := s.web.flights[pid].id; Latest(s, id.owner, s.web.core[id].run, id.chat) == Some(cp)
    case _ => true
  }

  // ---------------------------------------------------------------- resume

  /** The checkpoint the row of a handle names, if the row is there. */
  function CheckpointOf(s: State, handle: Handle): Option<string> {
    match handle
    case OfAllocation(x) => if x in s.web.allocations then Some(s.web.allocations[x].checkpoint) else None
    case OfContinuation(id) => if id in s.web.transfers && id in s.web.core then Some(s.web.core[id].checkpoint) else None
  }

  function OwnerOf(s: State, handle: Handle): string {
    match handle
    case OfAllocation(x) => if x in s.web.allocations then s.web.allocations[x].owner else ""
    case OfContinuation(id) => id.owner
  }

  /** _binding: the row belongs to the owner, and its checkpoint to the conversation. */
  predicate BindingFound(s: State, owner: string, conversation: string, handle: Handle) {
    var c := CheckpointOf(s, handle);
    && c.Some? && OwnerOf(s, handle) == owner && c.value in s.checkpoints && s.checkpoints[c.value].owner == owner
    && LogicalConversation in s.checkpoints[c.value].payload
    && s.checkpoints[c.value].payload[LogicalConversation] == Text(conversation)
  }

  /** The comparison a resume makes: only if its caller named a digest. */
  predicate Passes(checkpoints: map<string, Row>, checkpoint: string, sha: Option<string>) {
    checkpoint in checkpoints && (sha.None? || PinnedSha(checkpoints[checkpoint].payload) == sha)
  }

  /** Approval, binding, transcript and account, before anything else happens. */
  function GateStep(s: State, e: Event): State
    requires e.Gate?
  {
    if e.pid in s.resumes || e.pid in s.web.flights || !e.approved || !BindingFound(s, e.owner, e.conversation, e.handle)
       || !Passes(s.checkpoints, CheckpointOf(s, e.handle).value, e.named) || !e.account
    then s
    else s.(resumes := s.resumes[e.pid := if e.handle.OfAllocation? then AtAllocation(e.handle.allocation, e.named)
                                          else AtContinuation(e.handle.id, e.named)])
  }

  function Phase(s: State, pid: nat, r: Resuming): State {
    s.(resumes := s.resumes[pid := r])
  }

  function Over(s: State, pid: nat): State {
    s.(resumes := s.resumes - {pid})
  }

  /** target_status: a published allocation ends the resume, as does a receipt that is not
      exact and attested. */
  function TargetLookStep(s: State, pid: nat, browser: bool): State {
    if pid !in s.resumes || !s.resumes[pid].AtAllocation? then s
    else
      var r := s.resumes[pid];
      if r.allocation !in s.web.allocations || s.web.allocations[r.allocation].state == Web.AllocationPublished
         || !browser || !Web.NewTargetProven(s.web, s.web.allocations[r.allocation])
      then Over(s, pid)
      else Phase(s, pid, TargetSeen(r.allocation, r.sha))
  }

  /** status, which reconciles: the resume ends without an exact and attested receipt. */
  function StatusLookStep(s: State, pid: nat, browser: bool): State {
    if pid !in s.resumes || !s.resumes[pid].AtContinuation? then s
    else
      var r := s.resumes[pid];
      var t := s.(web := Web.ReconcileStep(s.web, r.id));
      if !browser || !Web.ExactReceipt(t.web, r.id) then Over(t, pid) else Phase(t, pid, StatusSeen(r.id, r.sha))
  }

  /** The Web steps a resume makes, in its order: claim_new_target, then commit. */
  predicate InOrder(r: Resuming, e: Web.Event) {
    match r
    case TargetSeen(x, _) => e.ClaimAuthorize? && e.allocation == x
    case Claiming(_, _) => e.ClaimProve? || e.ClaimPrepare? || e.ClaimRecord?
    case StatusSeen(id, _) => e.CommitAuthorize? && e.id == id && e.approved
    case Committing(_, _) => Web.CommitEvent(e) && !e.CommitAuthorize?
    case _ => false
  }

  /** Whether the transaction that records a claim goes through. */
  predicate Records(w: Web.State, pid: nat) {
    pid in w.flights && w.flights[pid].ClaimPrepared? && Web.CanRecord(w, w.flights[pid].allocation, w.flights[pid].a)
  }

  /** Where a resume is after its Web step; None when it is over. */
  function Next(before: Web.State, after: Web.State, pid: nat, r: Resuming, e: Web.Event): Option<Resuming> {
    match r
    case TargetSeen(x, sha) => if pid in after.flights then Some(Claiming(x, sha)) else None
    case Claiming(x, sha) =>
      if pid in after.flights then Some(r)
      else if e.ClaimRecord? && Records(before, pid) then Some(AtContinuation(Web.ClaimId(before.flights[pid].a), sha))
      else None
    case StatusSeen(id, sha) => if pid in after.flights then Some(Committing(id, sha)) else None
    case Committing(id, sha) => if pid in after.flights then Some(r) else None
    case _ => Some(r)
  }

  predicate Publishing(w: Web.State, pid: nat, e: Web.Event) {
    e.CommitPublish? && pid in w.flights && w.flights[pid].CommitDone? && w.flights[pid].id in w.transfers
  }

  function GoStep(s: State, pid: nat, e: Web.Event): State {
    if pid !in s.resumes || !InOrder(s.resumes[pid], e) || e.pid != pid || !Informed(s, e) then s
    else
      var w := Web.Step(s.web, e);
      var r := s.resumes[pid];
      var next := Next(s.web, w, pid, r, e);
      var t := s.(web := w, log := if r.Committing? && Publishing(s.web, pid, e) then s.log + [Publication(r.sha, r.id)] else s.log);
      if next.Some? then Phase(t, pid, next.value) else Over(t, pid)
  }

  function WebStepStep(s: State, e: Web.Event): State {
    if e.Crash? || !Informed(s, e) then s
    else if !Web.OfNobody(e) && e.pid in s.resumes then s
    else s.(web := Web.Step(s.web, e))
  }

  function Step(s: State, e: Event): State {
    match e
    case Prepare(_, _, _, _, _, _, _, _, _, _) => PrepareStep(s, e)
    case Write(id, row) => WriteStep(s, id, row)
    case WebStep(e) => WebStepStep(s, e)
    case Gate(_, _, _, _, _, _, _) => GateStep(s, e)
    case TargetLook(pid, browser) => TargetLookStep(s, pid, browser)
    case StatusLook(pid, browser) => StatusLookStep(s, pid, browser)
    case Go(pid, e) => GoStep(s, pid, e)
    case Abandon(pid) => if pid in s.resumes then Over(s.(web := Web.Ended(s.web, pid)), pid) else s
    case Crash => s.(web := Web.Step(s.web, Web.Crash), resumes := map[])
  }

  /** Any number of steps in any order. */
  function Run(s: State, events: seq<Event>): State
    decreases |events|
  {
    if events == [] then s else Run(Step(s, events[0]), events[1..])
  }
}
