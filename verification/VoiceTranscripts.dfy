/** The two ways a transcript row of browser/voice.py comes to be: events the provider's
    sideband delivered, and segments the renderer reports. Each arrival is one transaction
    that takes all of it or nothing. */
module VoiceTranscripts {
  import opened Basics
  import opened JsonText
  import Ledger = VoiceLedger
  import Maxima
  import Runtime = VoiceRuntime

  const MAX_SEGMENTS := 2_000
  const MAX_SEGMENT_CHARS := 8_000
  const MAX_EVENT_CHARS := 32_000
  const MAX_RECEIPT_CHARS := 400
  const MAX_SIGNAL_SEGMENTS := 64
  const MAX_INTEGER := 0x7FFF_FFFF_FFFF_FFFF   // the widest integer a table column holds

  datatype Role = User | Assistant | Tool

  /** The primary key and the contents of voice_transcripts. */
  datatype RowKey = RowKey(callId: string, messageId: string, revision: int)
  datatype Row = Row(role: Role, content: string, truncated: bool, receipt: string, verified: bool)

  /** An event as the sideband hands it over; contentIndex is the JSON text of its content_index,
      "0" if it has none, and rest stands for its other fields. */
  datatype ProviderEvent = ProviderEvent(eventId: string, kind: string, transcript: Option<string>,
                                         itemId: Option<string>, contentIndex: string, rest: string)

  /** The primary key and the protected contents of voice_provider_events. */
  datatype EventKey = EventKey(owner: string, callId: string, generation: nat, eventId: string)
  datatype Envelope = Envelope(project: string, ref: string, conversation: string, run: Option<string>,
                               workItem: Option<string>, event: ProviderEvent)

  datatype Tables = Tables(rows: map<RowKey, Row>, events: map<EventKey, Envelope>)

  datatype Fault = Inactive | Conflict | OverBudget | IntegerOverflow | Malformed | NotIncreasing | ToolDenied

  /** What a heartbeat read of a call before it drained the sideband. */
  datatype Session = Session(owner: string, callId: string, row: Ledger.CallRow, ref: string)

  datatype Spoken = Spoken(role: Role, content: string, item: string)

  /** RealtimeSideband.transcript: the events that carry speech, and what they say. */
  function Transcript(e: ProviderEvent): (r: Option<Spoken>)
    ensures r.Some? <==>
            && (e.kind == "conversation.item.input_audio_transcription.completed"
                || e.kind == "response.output_audio_transcript.done" || e.kind == "response.audio_transcript.done")
            && e.itemId.Some? && e.transcript.Some? && 1 <= |e.transcript.value| <= 32000
    ensures r.Some? ==>
              && r.value.content == e.transcript.value
              && (r.value.role == User <==> e.kind == "conversation.item.input_audio_transcription.completed")
              && (r.value.role == Assistant <==>
                    e.kind == "response.output_audio_transcript.done" || e.kind == "response.audio_transcript.done")
  {
    var role :=
      if e.kind == "conversation.item.input_audio_transcription.completed" then Some(User)
      else if e.kind == "response.output_audio_transcript.done" || e.kind == "response.audio_transcript.done" then Some(Assistant)
      else None;
    if role.None? || e.transcript.None? || e.itemId.None? || !(0 < |e.transcript.value| <= MAX_EVENT_CHARS) then None
    else Some(Spoken(role.value, e.transcript.value, ItemText(e.itemId.value, e.contentIndex)))
  }

  /** The JSON text of an item and a content index. */
  function ItemText(itemId: string, contentIndex: string): string {
    "[" + Quoted(itemId) + "," + contentIndex + "]"
  }

  lemma ItemTextsTellApart(a: string, x: string, b: string, y: string)
    requires ItemText(a, x) == ItemText(b, y)
    ensures a == b && x == y
  {
    hide Quoted;
    ItemTextTail(a, x);
    ItemTextTail(b, y);
    QuotedReads(a, b, "," + x + "]", "," + y + "]");
    Enclosed(x);
    Enclosed(y);
  }

  lemma ItemTextTail(a: string, x: string)
    ensures |ItemText(a, x)| > 0 && ItemText(a, x)[1..] == Quoted(a) + ("," + x + "]")
  {
    hide Quoted;
  }

  lemma Enclosed(x: string)
    ensures var u := "," + x + "]"; |u| >= 2 && u[1..|u| - 1] == x
  {
  }

  /** The item text tells apart what comes from different items or content parts. */
  lemma ItemsTellApart(e: ProviderEvent, f: ProviderEvent)
    requires Transcript(e).Some? && Transcript(f).Some? && Transcript(e).value.item == Transcript(f).value.item
    ensures e.itemId == f.itemId && e.contentIndex == f.contentIndex
  {
    hide ItemText;
    ItemTextsTellApart(e.itemId.value, e.contentIndex, f.itemId.value, f.contentIndex);
  }

  function KeyOf(c: Session, e: ProviderEvent): EventKey {
    EventKey(c.owner, c.callId, c.row.generation, e.eventId)
  }

  function EnvelopeOf(c: Session, e: ProviderEvent): Envelope {
    Envelope(c.row.project, c.ref, c.row.binding.conversation, c.row.binding.run, c.row.binding.workItem, e)
  }

  /** digest is the truncated hexadecimal SHA-256 of a text. */
  function MessageId(digest: string -> string, ref: string, spoken: Spoken): string {
    "voice-" + digest(ref + ":voice-" + digest(spoken.item))
  }

  function Kept(content: string): (r: string)
    ensures |r| <= MAX_SEGMENT_CHARS && r <= content
  {
    if |content| <= MAX_SEGMENT_CHARS then content else content[..MAX_SEGMENT_CHARS]
  }

  function RowsOf(rows: map<RowKey, Row>, callId: string): set<RowKey> {
    set k | k in rows && k.callId == callId
  }

  function Held(rows: map<RowKey, Row>, callId: string): nat {
    |RowsOf(rows, callId)|
  }

  function Revisions(rows: map<RowKey, Row>, callId: string, messageId: string): set<int> {
    set k | k in rows && k.callId == callId && k.messageId == messageId :: k.revision
  }

  /** SELECT MAX(revision), with 0 for no rows. */
  function Latest(rows: map<RowKey, Row>, callId: string, messageId: string): (r: int)
    ensures forall k :: k in rows && k.callId == callId && k.messageId == messageId ==> k.revision <= r
    ensures r == 0 || r in Revisions(rows, callId, messageId)
  {
    var s := Revisions(rows, callId, messageId);
    assert forall k :: k in rows && k.callId == callId && k.messageId == messageId ==> k.revision in s;
    if s == {} then 0 else Maxima.Max(s)
  }

  /** One event within the transaction. */
  function Absorb(t: Tables, c: Session, digest: string -> string, e: ProviderEvent): Result<Tables, Fault> {
    var spoken := Transcript(e);
    if spoken.None? then Ok(t)
    else if KeyOf(c, e) in t.events then
      if t.events[KeyOf(c, e)] != EnvelopeOf(c, e) then Err(Conflict) else Ok(t)
    else if Held(t.rows, c.callId) >= MAX_SEGMENTS then Err(OverBudget)
    else
      var id := MessageId(digest, c.ref, spoken.value);
      var revision := Latest(t.rows, c.callId, id) + 1;
      if revision > MAX_INTEGER then Err(IntegerOverflow)
      else Ok(Tables(t.rows[RowKey(c.callId, id, revision) := VerifiedRow(spoken.value, e.eventId)],
                     t.events[KeyOf(c, e) := EnvelopeOf(c, e)]))
  }

  function VerifiedRow(spoken: Spoken, eventId: string): Row {
    Row(spoken.role, Kept(spoken.content), |spoken.content| > MAX_SEGMENT_CHARS, eventId, true)
  }

  /** The events of one delivery in order; the first fault undoes them all. */
  function AbsorbAll(t: Tables, c: Session, digest: string -> string, es: seq<ProviderEvent>): Result<Tables, Fault>
    decreases |es|
  {
    if es == [] then Ok(t)
    else
      var before := AbsorbAll(t, c, digest, es[..|es| - 1]);
      if before.Err? then before else Absorb(before.value, c, digest, es[|es| - 1])
  }

  /** A segment the renderer reports. */
  datatype Segment = Segment(messageId: string, role: string, content: string, receipt: string, revision: int)

  /** One reported segment within the transaction. The provider has no receipt check for it, so
      it is never verified and a tool segment is always denied. */
  function Report(t: Tables, callId: string, seg: Segment): Result<Tables, Fault> {
    if !Identifier(seg.messageId) || seg.role !in {"user", "assistant", "tool"} || seg.content == ""
       || seg.receipt == "" || seg.revision < 1
    then Err(Malformed)
    else if seg.revision <= Latest(t.rows, callId, seg.messageId) then Err(NotIncreasing)
    else if Held(t.rows, callId) >= MAX_SEGMENTS then Err(OverBudget)
    else if seg.role == "tool" then Err(ToolDenied)
    else if seg.revision > MAX_INTEGER then Err(IntegerOverflow)
    else Ok(t.(rows := t.rows[RowKey(callId, seg.messageId, seg.revision) := ProvisionalRow(seg)]))
  }

  function ProvisionalRow(seg: Segment): Row {
    Row(if seg.role == "user" then User else Assistant, Kept(seg.content), |seg.content| > MAX_SEGMENT_CHARS,
        if |seg.receipt| <= MAX_RECEIPT_CHARS then seg.receipt else seg.receipt[..MAX_RECEIPT_CHARS], false)
  }

  function ReportAll(t: Tables, callId: string, segs: seq<Segment>): Result<Tables, Fault>
    decreases |segs|
  {
    if segs == [] then Ok(t)
    else
      var before := ReportAll(t, callId, segs[..|segs| - 1]);
      if before.Err? then before else Report(before.value, callId, segs[|segs| - 1])
  }

  datatype State = State(calls: map<string, Ledger.CallRow>, tables: Tables)

  /** The call is still the one the sideband was read for. */
  predicate Current(s: State, c: Session, now: int) {
    && c.callId in s.calls
    && var row := s.calls[c.callId];
    && row.owner == c.owner && row.generation == c.row.generation && row.ref == Some(c.ref)
    && row.status == Ledger.Active && now <= row.expires
  }

  predicate MayReport(s: State, owner: string, project: string, callId: string, scope: Ledger.Scope,
                      generation: Option<nat>, segs: seq<Segment>) {
    Ledger.Signalable(Ledger.State(s.calls, map[], map[], map[], []), owner, project, callId, scope, generation)
    && 1 <= |segs| <= MAX_SIGNAL_SEGMENTS
  }

  datatype Event =
    | Sideband(c: Session, delivered: seq<ProviderEvent>, now: int)
    | Renderer(owner: string, project: string, callId: string, scope: Ledger.Scope, generation: Option<nat>, segs: seq<Segment>)
    | Elsewhere(calls: map<string, Ledger.CallRow>)   // any other transaction, on the call rows

  function Outcome(s: State, digest: string -> string, e: Event): Result<Tables, Fault>
  {
    match e
    case Sideband(c, delivered, now) =>
      if Current(s, c, now) then AbsorbAll(s.tables, c, digest, delivered) else Err(Inactive)
    case Renderer(owner, project, callId, scope, generation, segs) =>
      if MayReport(s, owner, project, callId, scope, generation, segs) then ReportAll(s.tables, callId, segs) else Err(Inactive)
    case Elsewhere(_) => Ok(s.tables)
  }

  /** A transaction that faults is rolled back. */
  function Step(s: State, digest: string -> string, e: Event): State {
    var calls := if e.Elsewhere? then e.calls else s.calls;
    State(calls, if Outcome(s, digest, e).Ok? then Outcome(s, digest, e).value else s.tables)
  }

  function Run(s: State, digest: string -> string, events: seq<Event>): State
    decreases |events|
  {
    if events == [] then s else Run(Step(s, digest, events[0]), digest, events[1..])
  }

  const Init := State(map[], Tables(map[], map[]))

  // ---------------------------------------------------------------- what every step keeps

  /** The verified row that stands for a recorded event. */
  predicate StandsFor(t: Tables, k: EventKey, r: RowKey)
  {
    && k in t.events && r in t.rows && t.events[k].event.eventId == k.eventId && r.callId == k.callId
    && Transcript(t.events[k].event).Some?
    && t.rows[r] == VerifiedRow(Transcript(t.events[k].event).value, k.eventId)
  }

  /** p and q are inverse pairings of the recorded events and the verified rows. */
  ghost predicate Paired(t: Tables, p: map<EventKey, RowKey>, q: map<RowKey, EventKey>) {
    && p.Keys == t.events.Keys
    && q.Keys == Verified(t)
    && (forall k :: k in p ==> There(t, p, q, k))
    && (forall r :: r in q ==> Back(p, q, r))
  }

  function Verified(t: Tables): set<RowKey> {
    set r | r in t.rows && t.rows[r].verified
  }

  predicate There(t: Tables, p: map<EventKey, RowKey>, q: map<RowKey, EventKey>, k: EventKey)
    requires k in p
  {
    StandsFor(t, k, p[k]) && p[k] in q && q[p[k]] == k
  }

  predicate Back(p: map<EventKey, RowKey>, q: map<RowKey, EventKey>, r: RowKey)
    requires r in q
  {
    q[r] in p && p[q[r]] == r
  }

  ghost predicate OneToOne(t: Tables) {
    exists p, q :: Paired(t, p, q)
  }

  predicate RowsSound(t: Tables) {
    forall r :: r in t.rows ==> 1 <= r.revision <= MAX_INTEGER && t.rows[r].role != Tool
                                && |t.rows[r].content| <= MAX_SEGMENT_CHARS
  }

  ghost predicate WithinBudget(t: Tables) {
    forall callId :: Held(t.rows, callId) <= MAX_SEGMENTS
  }

  ghost predicate Inv(t: Tables) {
    OneToOne(t) && RowsSound(t) && WithinBudget(t)
  }

  /** Nothing recorded is altered, and a new row is the newest revision of its message. */
  predicate Extends(t: Tables, u: Tables) {
    && (forall r :: r in t.rows ==> r in u.rows && u.rows[r] == t.rows[r])
    && (forall k :: k in t.events ==> k in u.events && u.events[k] == t.events[k])
    && (forall r, r' :: r in t.rows && r' in u.rows && r' !in t.rows && r.callId == r'.callId && r.messageId == r'.messageId
          ==> r.revision < r'.revision)
  }

  lemma HeldAfter(rows: map<RowKey, Row>, k: RowKey, row: Row, callId: string)
    requires k !in rows
    ensures Held(rows[k := row], callId) == Held(rows, callId) + if k.callId == callId then 1 else 0
  {
    if k.callId == callId {
      assert RowsOf(rows[k := row], callId) == RowsOf(rows, callId) + {k};
    } else {
      assert RowsOf(rows[k := row], callId) == RowsOf(rows, callId);
    }
  }

  lemma InsertKeeps(t: Tables, k: RowKey, row: Row)
    requires RowsSound(t) && WithinBudget(t) && Held(t.rows, k.callId) < MAX_SEGMENTS
    requires 1 <= k.revision <= MAX_INTEGER && row.role != Tool && |row.content| <= MAX_SEGMENT_CHARS
    requires Latest(t.rows, k.callId, k.messageId) < k.revision
    ensures var u := t.(rows := t.rows[k := row]); k !in t.rows && RowsSound(u) && WithinBudget(u) && Extends(t, u)
  {
    var u := t.(rows := t.rows[k := row]);
    forall callId ensures Held(u.rows, callId) <= MAX_SEGMENTS {
      HeldAfter(t.rows, k, row, callId);
    }
  }

  /** What Absorb writes when it writes. */
  predicate Written(t: Tables, u: Tables, c: Session, digest: string -> string, e: ProviderEvent, r: RowKey) {
    && Transcript(e).Some? && KeyOf(c, e) !in t.events && Held(t.rows, c.callId) < MAX_SEGMENTS
    && r.callId == c.callId && r.revision == Latest(t.rows, c.callId, r.messageId) + 1 <= MAX_INTEGER
    && u == Tables(t.rows[r := VerifiedRow(Transcript(e).value, e.eventId)], t.events[KeyOf(c, e) := EnvelopeOf(c, e)])
  }

  lemma AbsorbWrites(t: Tables, c: Session, digest: string -> string, e: ProviderEvent) returns (r: RowKey)
    requires Absorb(t, c, digest, e).Ok?
    ensures Absorb(t, c, digest, e).value == t || Written(t, Absorb(t, c, digest, e).value, c, digest, e, r)
  {
    if Transcript(e).None? {
      r := RowKey("", "", 0);
    } else {
      var id := MessageId(digest, c.ref, Transcript(e).value);
      r := RowKey(c.callId, id, Latest(t.rows, c.callId, id) + 1);
    }
  }

  lemma WrittenKeeps(t: Tables, u: Tables, c: Session, digest: string -> string, e: ProviderEvent, r: RowKey)
    requires Inv(t) && Written(t, u, c, digest, e, r)
    ensures Inv(u) && Extends(t, u)
  {
    hide Written, WithinBudget, RowsSound, Extends, KeyOf, Paired;
    WrittenRow(t, u, c, digest, e, r);
    WrittenStands(t, u, c, digest, e, r);
    var p, q :| Paired(t, p, q);
    PairMore(t, u, p, q, KeyOf(c, e), r);
  }

  /** The new row and event of Absorb, apart from the pairing. */
  lemma WrittenRow(t: Tables, u: Tables, c: Session, digest: string -> string, e: ProviderEvent, r: RowKey)
    requires RowsSound(t) && WithinBudget(t) && Written(t, u, c, digest, e, r)
    ensures RowsSound(u) && WithinBudget(u) && Extends(t, u) && r !in t.rows
  {
    var row := VerifiedRow(Transcript(e).value, e.eventId);
    LatestNonNegative(t, c.callId, r.messageId);
    InsertKeeps(t, r, row);
    var mid := t.(rows := t.rows[r := row]);
    assert u.rows == mid.rows;
  }

  lemma WrittenStands(t: Tables, u: Tables, c: Session, digest: string -> string, e: ProviderEvent, r: RowKey)
    requires Written(t, u, c, digest, e, r)
    ensures KeyOf(c, e) !in t.events && u.rows.Keys == t.rows.Keys + {r} && u.events.Keys == t.events.Keys + {KeyOf(c, e)}
    ensures r in u.rows && u.rows[r].verified && StandsFor(u, KeyOf(c, e), r)
  {
    hide Latest, Held, Transcript;
  }

  lemma AbsorbKeeps(t: Tables, c: Session, digest: string -> string, e: ProviderEvent)
    requires Inv(t) && Absorb(t, c, digest, e).Ok?
    ensures Inv(Absorb(t, c, digest, e).value) && Extends(t, Absorb(t, c, digest, e).value)
  {
    hide Absorb, Inv, Extends, Written;
    var r := AbsorbWrites(t, c, digest, e);
    if Absorb(t, c, digest, e).value == t {
      ExtendsItself(t);
    } else {
      WrittenKeeps(t, Absorb(t, c, digest, e).value, c, digest, e, r);
    }
  }

  lemma ExtendsItself(t: Tables)
    ensures Extends(t, t)
  {
  }

  lemma LatestNonNegative(t: Tables, callId: string, id: string)
    requires RowsSound(t)
    ensures 0 <= Latest(t.rows, callId, id)
  {
  }

  lemma StillStandsFor(t: Tables, u: Tables, k: EventKey, r: RowKey)
    requires StandsFor(t, k, r) && Extends(t, u)
    ensures StandsFor(u, k, r)
  {
  }

  lemma PairMore(t: Tables, u: Tables, p: map<EventKey, RowKey>, q: map<RowKey, EventKey>, k: EventKey, r: RowKey)
    requires Paired(t, p, q) && Extends(t, u) && k !in t.events && r !in t.rows
    requires u.rows.Keys == t.rows.Keys + {r} && u.events.Keys == t.events.Keys + {k}
    requires r in u.rows && u.rows[r].verified && StandsFor(u, k, r)
    ensures Paired(u, p[k := r], q[r := k])
  {
    hide StandsFor;
    var p', q' := p[k := r], q[r := k];
    assert Verified(u) == Verified(t) + {r} && r !in Verified(t) by {
      hide Extends, There, Back;
      StillVerified(t, u, r);
    }
    forall x | x in p' ensures There(u, p', q', x) {
      if x != k {
        assert There(t, p, q, x);
        StillStandsFor(t, u, x, p[x]);
      }
    }
    forall y | y in q' ensures Back(p', q', y) {
      if y != r {
        assert Back(p, q, y);
      }
    }
  }

  lemma StillVerified(t: Tables, u: Tables, r: RowKey)
    requires Extends(t, u) && r !in t.rows && r in u.rows && u.rows.Keys == t.rows.Keys + {r}
    ensures Verified(u) == Verified(t) + if u.rows[r].verified then {r} else {}
    ensures r !in Verified(t)
  {
    assert forall x :: x in u.rows ==> x in u.rows.Keys;
    assert forall x :: x in t.rows.Keys ==> x in t.rows;
  }

  lemma PairSame(t: Tables, u: Tables, p: map<EventKey, RowKey>, q: map<RowKey, EventKey>, r: RowKey)
    requires Paired(t, p, q) && Extends(t, u) && r !in t.rows && r in u.rows && !u.rows[r].verified
    requires u.rows.Keys == t.rows.Keys + {r} && u.events == t.events
    ensures Paired(u, p, q)
  {
    hide StandsFor, Extends;
    StillVerified(t, u, r);
    forall x | x in p ensures There(u, p, q, x) {
      assert There(t, p, q, x);
      StillStandsFor(t, u, x, p[x]);
    }
  }

  lemma ReportKeeps(t: Tables, callId: string, seg: Segment)
    requires Inv(t) && Report(t, callId, seg).Ok?
    ensures Inv(Report(t, callId, seg).value) && Extends(t, Report(t, callId, seg).value)
  {
    var r := RowKey(callId, seg.messageId, seg.revision);
    ReportWrites(t, callId, seg);
    hide Report, Paired, ProvisionalRow, RowsSound, WithinBudget, Extends, Latest, Held;
    InsertKeeps(t, r, ProvisionalRow(seg));
    var p, q :| Paired(t, p, q);
    PairSame(t, Report(t, callId, seg).value, p, q, r);
  }

  lemma ReportWrites(t: Tables, callId: string, seg: Segment)
    requires Report(t, callId, seg).Ok?
    ensures var r := RowKey(callId, seg.messageId, seg.revision);
      && Report(t, callId, seg).value == t.(rows := t.rows[r := ProvisionalRow(seg)])
      && Held(t.rows, callId) < MAX_SEGMENTS && Latest(t.rows, callId, seg.messageId) < seg.revision && 1 <= seg.revision <= MAX_INTEGER
      && ProvisionalRow(seg).role != Tool && |ProvisionalRow(seg).content| <= MAX_SEGMENT_CHARS && !ProvisionalRow(seg).verified
  {
    hide Latest, Held, Identifier;
  }

  lemma {:induction false} AbsorbAllKeeps(t: Tables, c: Session, digest: string -> string, es: seq<ProviderEvent>)
    requires Inv(t) && AbsorbAll(t, c, digest, es).Ok?
    ensures Inv(AbsorbAll(t, c, digest, es).value) && Extends(t, AbsorbAll(t, c, digest, es).value)
    decreases |es|
  {
    if es != [] {
      AbsorbAllKeeps(t, c, digest, es[..|es| - 1]);
      AbsorbKeeps(AbsorbAll(t, c, digest, es[..|es| - 1]).value, c, digest, es[|es| - 1]);
    }
  }

  lemma {:induction false} ReportAllKeeps(t: Tables, callId: string, segs: seq<Segment>)
    requires Inv(t) && ReportAll(t, callId, segs).Ok?
    ensures Inv(ReportAll(t, callId, segs).value) && Extends(t, ReportAll(t, callId, segs).value)
    decreases |segs|
  {
    if segs != [] {
      ReportAllKeeps(t, callId, segs[..|segs| - 1]);
      ReportKeeps(ReportAll(t, callId, segs[..|segs| - 1]).value, callId, segs[|segs| - 1]);
    }
  }

  lemma StepKeeps(s: State, digest: string -> string, e: Event)
    requires Inv(s.tables)
    ensures Inv(Step(s, digest, e).tables) && Extends(s.tables, Step(s, digest, e).tables)
  {
    if Outcome(s, digest, e).Ok? {
      match e
      case Sideband(c, delivered, _) => AbsorbAllKeeps(s.tables, c, digest, delivered);
      case Renderer(_, _, callId, _, _, segs) => ReportAllKeeps(s.tables, callId, segs);
      case Elsewhere(_) =>
    }
  }

  lemma {:induction false} RunKeeps(s: State, digest: string -> string, events: seq<Event>)
    requires Inv(s.tables)
    ensures Inv(Run(s, digest, events).tables) && Extends(s.tables, Run(s, digest, events).tables)
    decreases |events|
  {
    if events != [] {
      StepKeeps(s, digest, events[0]);
      RunKeeps(Step(s, digest, events[0]), digest, events[1..]);
    }
  }

  lemma InitIsSound()
    ensures Inv(Init.tables)
  {
    assert Paired(Init.tables, map[], map[]);
    forall callId ensures Held(Init.tables.rows, callId) <= MAX_SEGMENTS {
      assert RowsOf(Init.tables.rows, callId) == {};
    }
  }

  /** Over every run: verified rows stay one-to-one with the recorded events, no call holds
      more than 2000 rows whichever way they came, no row has the role tool, nothing recorded
      changes, and a later row of a message always has a higher revision than an earlier one. */
  lemma TranscriptsStaySound(digest: string -> string, events: seq<Event>, later: seq<Event>)
    ensures var s := Run(Init, digest, events);
      Inv(s.tables) && Inv(Run(s, digest, later).tables) && Extends(s.tables, Run(s, digest, later).tables)
  {
    hide Inv, Extends, Run;
    InitIsSound();
    RunKeeps(Init, digest, events);
    RunKeeps(Run(Init, digest, events), digest, later);
  }

  // ---------------------------------------------------------------- delivering again

  /** The event says nothing, or is on record exactly as it is delivered now. */
  predicate Settled(t: Tables, c: Session, e: ProviderEvent) {
    Transcript(e).None? || (KeyOf(c, e) in t.events && t.events[KeyOf(c, e)] == EnvelopeOf(c, e))
  }

  lemma SettledStays(t: Tables, c: Session, digest: string -> string, next: ProviderEvent, e: ProviderEvent)
    requires Settled(t, c, e) && Absorb(t, c, digest, next).Ok?
    ensures Settled(Absorb(t, c, digest, next).value, c, e)
  {
    hide Transcript, MessageId, Held, Latest, EnvelopeOf, VerifiedRow;
  }

  lemma {:induction false} AbsorbedIsSettled(t: Tables, c: Session, digest: string -> string, es: seq<ProviderEvent>, e: ProviderEvent)
    requires AbsorbAll(t, c, digest, es).Ok? && e in es
    ensures Settled(AbsorbAll(t, c, digest, es).value, c, e)
    decreases |es|
  {
    var before := AbsorbAll(t, c, digest, es[..|es| - 1]).value;
    if e != es[|es| - 1] {
      assert e in es[..|es| - 1];
      AbsorbedIsSettled(t, c, digest, es[..|es| - 1], e);
      SettledStays(before, c, digest, es[|es| - 1], e);
    }
  }

  lemma {:induction false} SettledChangesNothing(t: Tables, c: Session, digest: string -> string, es: seq<ProviderEvent>)
    requires forall e :: e in es ==> Settled(t, c, e)
    ensures AbsorbAll(t, c, digest, es) == Ok(t)
    decreases |es|
  {
    if es != [] {
      SettledChangesNothing(t, c, digest, es[..|es| - 1]);
      assert Settled(t, c, es[|es| - 1]);
    }
  }

  /** Whatever the same session delivers again, in any order and after anything else has
      happened, is accepted and records nothing. */
  lemma RedeliveryChangesNothing(s: State, digest: string -> string, c: Session, delivered: seq<ProviderEvent>, now: int,
                                 between: seq<Event>, again: seq<ProviderEvent>)
    requires Inv(s.tables) && Outcome(s, digest, Sideband(c, delivered, now)).Ok?
    requires forall e :: e in again ==> e in delivered
    ensures var t := Run(Step(s, digest, Sideband(c, delivered, now)), digest, between).tables;
      AbsorbAll(t, c, digest, again) == Ok(t)
  {
    var s1 := Step(s, digest, Sideband(c, delivered, now));
    StepKeeps(s, digest, Sideband(c, delivered, now));
    RunKeeps(s1, digest, between);
    forall e | e in again ensures Settled(Run(s1, digest, between).tables, c, e) {
      AbsorbedIsSettled(s.tables, c, digest, delivered, e);
    }
    SettledChangesNothing(Run(s1, digest, between).tables, c, digest, again);
  }

  /** The keys of the events that a delivery adds. */
  function NewKeys(t: Tables, c: Session, es: seq<ProviderEvent>): set<EventKey> {
    set e | e in es && Transcript(e).Some? && KeyOf(c, e) !in t.events :: KeyOf(c, e)
  }

  /** An accepted delivery records exactly the events that are new, each with one row. */
  lemma {:induction false} EachNewEventOnce(t: Tables, c: Session, digest: string -> string, es: seq<ProviderEvent>)
    requires AbsorbAll(t, c, digest, es).Ok?
    ensures var u := AbsorbAll(t, c, digest, es).value;
      && u.events.Keys == t.events.Keys + NewKeys(t, c, es)
      && Held(u.rows, c.callId) - Held(t.rows, c.callId) == |u.events| - |t.events|
    decreases |es|
  {
    hide Absorb, NewKeys, Transcript, KeyOf, Held;
    if es == [] {
      NoNewKeys(t, c);
    } else {
      var front, e := es[..|es| - 1], es[|es| - 1];
      EachNewEventOnce(t, c, digest, front);
      OneMoreKey(t, c, es);
      OneMoreRecorded(AbsorbAll(t, c, digest, front).value, c, digest, e);
      UnionWith(t.events.Keys, NewKeys(t, c, front), KeyOf(c, e));
    }
  }

  /** The events of a delivery that speak, under the keys of a session. */
  function SpeakingKeys(c: Session, es: seq<ProviderEvent>): set<EventKey> {
    set e | e in es && Transcript(e).Some? :: KeyOf(c, e)
  }

  lemma {:induction false} AbsorbAllUses(t: Tables, c: Session, digest: string -> string, es: seq<ProviderEvent>, k: EventKey)
    requires AbsorbAll(t, c, digest, es).Ok? && k in AbsorbAll(t, c, digest, es).value.events
    ensures k in t.events || (k.generation == c.row.generation && k.callId == c.callId)
    decreases |es|
  {
    if es != [] {
      hide MessageId, Held, Latest, Transcript;
      var before := AbsorbAll(t, c, digest, es[..|es| - 1]).value;
      if k in before.events {
        AbsorbAllUses(t, c, digest, es[..|es| - 1], k);
      }
    }
  }

  /** Events are on record per generation: what an earlier generation delivered is recorded
      once more when a later one delivers it, each speaking event with a row of its own. */
  lemma LaterGenerationRecordsAnew(s: State, digest: string -> string, c: Session, delivered: seq<ProviderEvent>, now: int,
                                   later: Session, again: seq<ProviderEvent>)
    requires Outcome(s, digest, Sideband(c, delivered, now)).Ok?
    requires later.callId == c.callId && later.row.generation > c.row.generation
    requires forall k :: k in s.tables.events ==> !(k.callId == later.callId && k.generation == later.row.generation)
    requires AbsorbAll(Step(s, digest, Sideband(c, delivered, now)).tables, later, digest, again).Ok?
    ensures var t := Step(s, digest, Sideband(c, delivered, now)).tables;
      var u := AbsorbAll(t, later, digest, again).value;
      && SpeakingKeys(later, again) !! t.events.Keys && u.events.Keys == t.events.Keys + SpeakingKeys(later, again)
      && Held(u.rows, c.callId) == Held(t.rows, c.callId) + |SpeakingKeys(later, again)|
  {
    hide Absorb, Transcript, Held, MessageId;
    var t := Step(s, digest, Sideband(c, delivered, now)).tables;
    var u := AbsorbAll(t, later, digest, again).value;
    forall e | e in again ensures KeyOf(later, e) !in t.events {
      if KeyOf(later, e) in t.events {
        AbsorbAllUses(s.tables, c, digest, delivered, KeyOf(later, e));
      }
    }
    EachNewEventOnce(t, later, digest, again);
    assert NewKeys(t, later, again) == SpeakingKeys(later, again);
    assert |u.events.Keys| == |t.events.Keys| + |SpeakingKeys(later, again)|;
    assert |u.events| == |u.events.Keys| && |t.events| == |t.events.Keys|;
  }

  lemma UnionWith<T>(a: set<T>, b: set<T>, k: T)
    ensures a + (b + {k}) == (a + b) + {k}
    ensures k in a + b ==> (a + b) + {k} == a + b
    ensures b + {} == b
  {
  }

  lemma NoNewKeys(t: Tables, c: Session)
    ensures NewKeys(t, c, []) == {}
  {
  }

  lemma OneMoreKey(t: Tables, c: Session, es: seq<ProviderEvent>)
    requires es != []
    ensures var e := es[|es| - 1];
      NewKeys(t, c, es) == NewKeys(t, c, es[..|es| - 1])
                           + if Transcript(e).Some? && KeyOf(c, e) !in t.events then {KeyOf(c, e)} else {}
  {
    hide Transcript, KeyOf;
    assert es == es[..|es| - 1] + [es[|es| - 1]];
  }

  lemma OneMoreRecorded(m: Tables, c: Session, digest: string -> string, e: ProviderEvent)
    requires Absorb(m, c, digest, e).Ok?
    ensures var u := Absorb(m, c, digest, e).value;
      if Transcript(e).Some? && KeyOf(c, e) !in m.events
      then u.events.Keys == m.events.Keys + {KeyOf(c, e)} && |u.events| == |m.events| + 1
           && Held(u.rows, c.callId) == Held(m.rows, c.callId) + 1
      else u == m
  {
    Absorbed(m, c, digest, e);
    hide *;
    if Transcript(e).Some? && KeyOf(c, e) !in m.events {
      HeldAfter(m.rows, NextRow(m, c, digest, e), VerifiedRow(Transcript(e).value, e.eventId), c.callId);
      OneMoreEvent(m.events, KeyOf(c, e), EnvelopeOf(c, e));
    }
  }

  /** The key of the row that a new speaking event gets. */
  function NextRow(m: Tables, c: Session, digest: string -> string, e: ProviderEvent): RowKey
    requires Transcript(e).Some?
  {
    var id := MessageId(digest, c.ref, Transcript(e).value);
    RowKey(c.callId, id, Latest(m.rows, c.callId, id) + 1)
  }

  lemma Absorbed(m: Tables, c: Session, digest: string -> string, e: ProviderEvent)
    requires Absorb(m, c, digest, e).Ok?
    ensures var u := Absorb(m, c, digest, e).value;
      if Transcript(e).Some? && KeyOf(c, e) !in m.events
      then var r := NextRow(m, c, digest, e);
           && u == Tables(m.rows[r := VerifiedRow(Transcript(e).value, e.eventId)], m.events[KeyOf(c, e) := EnvelopeOf(c, e)])
           && r !in m.rows && r.callId == c.callId
      else u == m
  {
    hide Transcript, MessageId, Held, VerifiedRow, EnvelopeOf, Latest, KeyOf;
  }

  lemma OneMoreEvent(events: map<EventKey, Envelope>, k: EventKey, v: Envelope)
    requires k !in events
    ensures events[k := v].Keys == events.Keys + {k} && |events[k := v]| == |events| + 1
  {
    assert |events[k := v].Keys| == |events[k := v]|;
  }

  // ---------------------------------------------------------------- the two ingest loops

  lemma {:induction false} FaultSticks(t: Tables, c: Session, digest: string -> string, es: seq<ProviderEvent>, i: nat)
    requires i <= |es| && AbsorbAll(t, c, digest, es[..i]).Err?
    ensures AbsorbAll(t, c, digest, es) == AbsorbAll(t, c, digest, es[..i])
    decreases |es|
  {
    if i < |es| {
      assert es[..|es| - 1][..i] == es[..i];
      FaultSticks(t, c, digest, es[..|es| - 1], i);
    } else {
      assert es[..i] == es;
    }
  }

  lemma {:induction false} ReportFaultSticks(t: Tables, callId: string, segs: seq<Segment>, i: nat)
    requires i <= |segs| && ReportAll(t, callId, segs[..i]).Err?
    ensures ReportAll(t, callId, segs) == ReportAll(t, callId, segs[..i])
    decreases |segs|
  {
    if i < |segs| {
      assert segs[..|segs| - 1][..i] == segs[..i];
      ReportFaultSticks(t, callId, segs[..|segs| - 1], i);
    } else {
      assert segs[..i] == segs;
    }
  }

  lemma AbsorbCounts(t: Tables, c: Session, digest: string -> string, e: ProviderEvent)
    requires Absorb(t, c, digest, e).Ok?
    ensures var u := Absorb(t, c, digest, e).value;
      Held(u.rows, c.callId) == Held(t.rows, c.callId) + if u.events == t.events then 0 else 1
  {
    OneMoreRecorded(t, c, digest, e);
    if Transcript(e).Some? && KeyOf(c, e) !in t.events {
      assert KeyOf(c, e) in Absorb(t, c, digest, e).value.events;
    }
  }

  lemma ReportCounts(t: Tables, callId: string, seg: Segment)
    requires Report(t, callId, seg).Ok?
    ensures Report(t, callId, seg).value == t.(rows := t.rows[RowKey(callId, seg.messageId, seg.revision) := ProvisionalRow(seg)])
    ensures Held(Report(t, callId, seg).value.rows, callId) == Held(t.rows, callId) + 1
  {
    HeldAfter(t.rows, RowKey(callId, seg.messageId, seg.revision), ProvisionalRow(seg), callId);
  }

  // ---------------------------------------------------------------- what one arrival does, said outright

  /** The greatest revision of a message, 0 if it has none. */
  ghost predicate Top(rows: map<RowKey, Row>, callId: string, messageId: string, n: int) {
    && (forall k :: k in rows && k.callId == callId && k.messageId == messageId ==> k.revision <= n)
    && (RowKey(callId, messageId, n) in rows
        || (n == 0 && forall k :: k in rows ==> k.callId != callId || k.messageId != messageId))
  }

  lemma LatestIsTop(rows: map<RowKey, Row>, callId: string, messageId: string)
    ensures Top(rows, callId, messageId, Latest(rows, callId, messageId))
  {
    var s := Revisions(rows, callId, messageId);
    assert forall k :: k in rows && k.callId == callId && k.messageId == messageId ==> k.revision in s;
  }

  /** One more call row is too many. */
  predicate Full(rows: map<RowKey, Row>, callId: string) {
    |set k | k in rows && k.callId == callId| >= 2000
  }

  lemma FullIff(rows: map<RowKey, Row>, callId: string)
    ensures Full(rows, callId) <==> Held(rows, callId) >= MAX_SEGMENTS
  {
    assert RowsOf(rows, callId) == set k | k in rows && k.callId == callId;
  }

  /** The first 8000 characters. */
  function First(content: string): string {
    if |content| <= 8000 then content else content[..8000]
  }

  /** The row a speaking event gets. */
  function RowOf(e: ProviderEvent): Row
    requires e.transcript.Some?
  {
    Row(if e.kind == "conversation.item.input_audio_transcription.completed" then User else Assistant, First(e.transcript.value),
        |e.transcript.value| > 8000, e.eventId, true)
  }

  /** The envelope it is recorded in. */
  function Sealed(c: Session, e: ProviderEvent): Envelope {
    Envelope(c.row.project, c.ref, c.row.binding.conversation, c.row.binding.run, c.row.binding.workItem, e)
  }

  /** The message an event belongs to. */
  function MessageOf(c: Session, digest: string -> string, e: ProviderEvent): string
    requires e.itemId.Some?
  {
    "voice-" + digest(c.ref + ":voice-" + digest("[" + Quoted(e.itemId.value) + "," + e.contentIndex + "]"))
  }

  /** One event that is accepted: nothing if it does not speak or is on record as it is, else its
      row, at the next revision of its message, and its envelope. */
  ghost predicate Takes(t: Tables, u: Tables, c: Session, digest: string -> string, e: ProviderEvent) {
    var key := EventKey(c.owner, c.callId, c.row.generation, e.eventId);
    if Transcript(e).None? then u == t
    else if key in t.events then t.events[key] == Sealed(c, e) && u == t
    else
      && !Full(t.rows, c.callId)
      && exists top ::
           && Top(t.rows, c.callId, MessageOf(c, digest, e), top) && top < 0x7FFF_FFFF_FFFF_FFFF
           && u == Tables(t.rows[RowKey(c.callId, MessageOf(c, digest, e), top + 1) := RowOf(e)], t.events[key := Sealed(c, e)])
  }

  /** One event that is refused, and why. */
  ghost predicate Refuses(t: Tables, c: Session, digest: string -> string, e: ProviderEvent, f: Fault) {
    var key := EventKey(c.owner, c.callId, c.row.generation, e.eventId);
    && Transcript(e).Some?
    && if key in t.events then t.events[key] != Sealed(c, e) && f == Conflict
       else if Full(t.rows, c.callId) then f == OverBudget
       else f == IntegerOverflow && exists top :: Top(t.rows, c.callId, MessageOf(c, digest, e), top) && top >= 0x7FFF_FFFF_FFFF_FFFF
  }

  lemma AbsorbIs(t: Tables, c: Session, digest: string -> string, e: ProviderEvent)
    ensures var r := Absorb(t, c, digest, e);
      if r.Ok? then Takes(t, r.value, c, digest, e) else Refuses(t, c, digest, e, r.error)
  {
    hide Quoted, Held, Full, Latest, Top, RowOf, VerifiedRow;
    FullIff(t.rows, c.callId);
    if Transcript(e).Some? {
      var id := MessageOf(c, digest, e);
      assert id == MessageId(digest, c.ref, Transcript(e).value);
      LatestIsTop(t.rows, c.callId, id);
      RowIs(e);
    }
  }

  lemma RowIs(e: ProviderEvent)
    requires Transcript(e).Some?
    ensures RowOf(e) == VerifiedRow(Transcript(e).value, e.eventId)
  {
    hide ItemText;
  }

  /** The tables after each event of a delivery. */
  ghost predicate TakesAll(ts: seq<Tables>, c: Session, digest: string -> string, es: seq<ProviderEvent>) {
    |ts| == |es| + 1 && forall i :: 0 <= i < |es| ==> Takes(ts[i], ts[i + 1], c, digest, es[i])
  }

  /** The row of a message was not there before, and is that of this event. */
  predicate HasNewRow(t: Tables, u: Tables, c: Session, digest: string -> string, e: ProviderEvent, k: RowKey) {
    && e.itemId.Some? && e.transcript.Some?
    && k.callId == c.callId && k.messageId == MessageOf(c, digest, e)
    && k !in t.rows && k in u.rows && u.rows[k] == RowOf(e)
  }

  lemma TakingKeepsRows(t: Tables, u: Tables, c: Session, digest: string -> string, e: ProviderEvent)
    requires Takes(t, u, c, digest, e)
    ensures forall k :: k in t.rows ==> k in u.rows && u.rows[k] == t.rows[k]
    ensures forall k :: k in t.events ==> k in u.events && u.events[k] == t.events[k]
    ensures forall k :: k in u.events && k !in t.events ==> u.events[k] == Sealed(c, e) && k.eventId == e.eventId
  {
    hide MessageOf, RowOf, Full, Transcript;
  }

  lemma TakingAddsRow(t: Tables, u: Tables, c: Session, digest: string -> string, e: ProviderEvent) returns (k: RowKey)
    requires Takes(t, u, c, digest, e) && Transcript(e).Some? && EventKey(c.owner, c.callId, c.row.generation, e.eventId) !in t.events
    ensures HasNewRow(t, u, c, digest, e, k)
  {
    hide MessageOf, RowOf, Full;
    var id := MessageOf(c, digest, e);
    var key := EventKey(c.owner, c.callId, c.row.generation, e.eventId);
    var top :| Top(t.rows, c.callId, id, top)
               && u == Tables(t.rows[RowKey(c.callId, id, top + 1) := RowOf(e)], t.events[key := Sealed(c, e)]);
    k := RowKey(c.callId, id, top + 1);
  }

  lemma {:induction false} TakingAllKeepsRows(ts: seq<Tables>, c: Session, digest: string -> string, es: seq<ProviderEvent>)
    requires TakesAll(ts, c, digest, es)
    ensures forall k :: k in ts[0].rows ==> k in ts[|es|].rows && ts[|es|].rows[k] == ts[0].rows[k]
    ensures forall k :: k in ts[|es|].events && k !in ts[0].events ==> exists e :: e in es && ts[|es|].events[k] == Sealed(c, e)
    decreases |es|
  {
    hide Takes, Sealed;
    if es != [] {
      var n := |es| - 1;
      TakingAllKeepsRows(ts[..n + 1], c, digest, es[..n]);
      TakingKeepsRows(ts[n], ts[n + 1], c, digest, es[n]);
      forall k | k in ts[n + 1].events && k !in ts[0].events ensures exists e :: e in es && ts[n + 1].events[k] == Sealed(c, e) {
        if k in ts[n].events {
          var e :| e in es[..n] && ts[n].events[k] == Sealed(c, e);
          assert e in es;
        } else {
          assert es[n] in es;
        }
      }
    }
  }

  /** Every speaking event of an accepted delivery whose key is new has its row. */
  lemma {:induction false} SpokenHasRow(ts: seq<Tables>, c: Session, digest: string -> string, es: seq<ProviderEvent>, e: ProviderEvent)
    returns (k: RowKey)
    requires TakesAll(ts, c, digest, es) && e in es && Transcript(e).Some?
    requires EventKey(c.owner, c.callId, c.row.generation, e.eventId) !in ts[0].events
    ensures HasNewRow(ts[0], ts[|es|], c, digest, e, k)
    decreases |es|
  {
    var n := |es| - 1;
    if e in es[..n] {
      k := SpokenHasRow(ts[..n + 1], c, digest, es[..n], e);
      TakingKeepsRows(ts[n], ts[n + 1], c, digest, es[n]);
      hide Takes, MessageOf, RowOf;
    } else {
      TakingAllKeepsRows(ts[..n + 1], c, digest, es[..n]);
      NotKnownYet(ts[0], ts[n], ts[n + 1], c, digest, es[..n], e);
      k := TakingAddsRow(ts[n], ts[n + 1], c, digest, e);
      hide Takes, MessageOf, RowOf;
    }
  }

  lemma NotKnownYet(start: Tables, t: Tables, u: Tables, c: Session, digest: string -> string, front: seq<ProviderEvent>, e: ProviderEvent)
    requires Takes(t, u, c, digest, e) && Transcript(e).Some? && e !in front
    requires EventKey(c.owner, c.callId, c.row.generation, e.eventId) !in start.events
    requires forall k :: k in t.events && k !in start.events ==> exists x :: x in front && t.events[k] == Sealed(c, x)
    ensures EventKey(c.owner, c.callId, c.row.generation, e.eventId) !in t.events
  {
  }

  /** A delivery that is accepted, event by event. */
  ghost predicate Accepted(t: Tables, u: Tables, c: Session, digest: string -> string, es: seq<ProviderEvent>) {
    exists ts :: TakesAll(ts, c, digest, es) && ts[0] == t && ts[|es|] == u
  }

  /** A delivery that is refused at one of its events, with those before it acceptable. */
  ghost predicate Refused(t: Tables, c: Session, digest: string -> string, es: seq<ProviderEvent>, f: Fault) {
    exists ts, n: nat ::
      n < |es| && TakesAll(ts, c, digest, es[..n]) && ts[0] == t && Refuses(ts[n], c, digest, es[n], f)
  }

  /** The rows of the events that are new in a delivery. */
  ghost predicate NewOnesHaveRows(t: Tables, u: Tables, c: Session, digest: string -> string, es: seq<ProviderEvent>) {
    forall e :: e in es && Transcript(e).Some? && EventKey(c.owner, c.callId, c.row.generation, e.eventId) !in t.events ==>
      exists k :: HasNewRow(t, u, c, digest, e, k)
  }

  lemma {:induction false} AbsorbAllTakes(t: Tables, c: Session, digest: string -> string, es: seq<ProviderEvent>) returns (ts: seq<Tables>)
    requires AbsorbAll(t, c, digest, es).Ok?
    ensures TakesAll(ts, c, digest, es) && ts[0] == t && ts[|es|] == AbsorbAll(t, c, digest, es).value
    decreases |es|
  {
    hide Absorb, Takes;
    if es == [] {
      ts := [t];
    } else {
      var n := |es| - 1;
      var front := AbsorbAllTakes(t, c, digest, es[..n]);
      AbsorbIs(front[n], c, digest, es[n]);
      ts := front + [AbsorbAll(t, c, digest, es).value];
      forall i | 0 <= i < |es| ensures Takes(ts[i], ts[i + 1], c, digest, es[i]) {
        if i < n {
          assert Takes(front[i], front[i + 1], c, digest, es[..n][i]);
        }
      }
    }
  }

  lemma AcceptedAll(t: Tables, c: Session, digest: string -> string, es: seq<ProviderEvent>)
    requires AbsorbAll(t, c, digest, es).Ok?
    ensures var u := AbsorbAll(t, c, digest, es).value; Accepted(t, u, c, digest, es) && NewOnesHaveRows(t, u, c, digest, es)
  {
    hide AbsorbAll, TakesAll;
    var u := AbsorbAll(t, c, digest, es).value;
    var ts := AbsorbAllTakes(t, c, digest, es);
    forall e | e in es && Transcript(e).Some? && EventKey(c.owner, c.callId, c.row.generation, e.eventId) !in t.events
      ensures exists k :: HasNewRow(t, u, c, digest, e, k)
    {
      var k := SpokenHasRow(ts, c, digest, es, e);
    }
  }

  lemma RefusedThere(t: Tables, c: Session, digest: string -> string, es: seq<ProviderEvent>, n: nat, draft: Tables, f: Fault)
    requires n < |es| && AbsorbAll(t, c, digest, es[..n]) == Ok(draft) && Absorb(draft, c, digest, es[n]) == Err(f)
    ensures Refused(t, c, digest, es, f)
  {
    hide AbsorbAll, Absorb, TakesAll, Refuses;
    var ts := AbsorbAllTakes(t, c, digest, es[..n]);
    AbsorbIs(draft, c, digest, es[n]);
  }

  /** A segment with a message identifier of 8 to 160 letters, digits, underscores and hyphens,
      one of the three roles, and neither content nor receipt empty nor revision below 1. */
  predicate Proper(seg: Segment) {
    && 8 <= |seg.messageId| <= 160
    && (forall i :: 0 <= i < |seg.messageId| ==>
          var ch := seg.messageId[i]; 'A' <= ch <= 'Z' || 'a' <= ch <= 'z' || '0' <= ch <= '9' || ch == '_' || ch == '-')
    && (seg.role == "user" || seg.role == "assistant" || seg.role == "tool")
    && |seg.content| > 0 && |seg.receipt| > 0 && seg.revision >= 1
  }

  lemma MayReportIff(s: State, owner: string, project: string, callId: string, scope: Ledger.Scope, generation: Option<nat>,
                     segs: seq<Segment>)
    ensures MayReport(s, owner, project, callId, scope, generation, segs) <==>
            Runtime.InReach(Ledger.State(s.calls, map[], map[], map[], []), owner, project, callId, scope)
            && Runtime.Live(s.calls[callId], generation) && 1 <= |segs| <= 64
  {
  }

  /** One segment that is accepted: its row, at its own revision, which is higher than any. */
  ghost predicate Adds(t: Tables, u: Tables, callId: string, seg: Segment) {
    && Proper(seg) && seg.role != "tool" && !Full(t.rows, callId) && seg.revision <= 0x7FFF_FFFF_FFFF_FFFF
    && (exists top :: Top(t.rows, callId, seg.messageId, top) && top < seg.revision)
    && u == t.(rows := t.rows[RowKey(callId, seg.messageId, seg.revision) :=
                 Row(if seg.role == "user" then User else Assistant, First(seg.content), |seg.content| > 8000,
                     if |seg.receipt| <= 400 then seg.receipt else seg.receipt[..400], false)])
  }

  /** One segment that is refused, and why: the checks come in this order. */
  ghost predicate Denies(t: Tables, callId: string, seg: Segment, f: Fault) {
    if !Proper(seg) then f == Malformed
    else if exists top :: Top(t.rows, callId, seg.messageId, top) && seg.revision <= top then f == NotIncreasing
    else if Full(t.rows, callId) then f == OverBudget
    else if seg.role == "tool" then f == ToolDenied
    else f == IntegerOverflow && seg.revision > 0x7FFF_FFFF_FFFF_FFFF
  }

  lemma OneTop(rows: map<RowKey, Row>, callId: string, messageId: string, m: int, n: int)
    requires Top(rows, callId, messageId, m) && Top(rows, callId, messageId, n)
    ensures m == n
  {
  }

  lemma ProperIff(seg: Segment)
    ensures Proper(seg) <==> !(!Identifier(seg.messageId) || seg.role !in {"user", "assistant", "tool"} || seg.content == ""
                               || seg.receipt == "" || seg.revision < 1)
  {
    assert Identifier(seg.messageId) <==>
      8 <= |seg.messageId| <= 160
      && forall i :: 0 <= i < |seg.messageId| ==>
           var ch := seg.messageId[i]; 'A' <= ch <= 'Z' || 'a' <= ch <= 'z' || '0' <= ch <= '9' || ch == '_' || ch == '-';
  }

  lemma ReportIs(t: Tables, callId: string, seg: Segment)
    ensures var r := Report(t, callId, seg);
      if r.Ok? then Adds(t, r.value, callId, seg) else Denies(t, callId, seg, r.error)
  {
    FullIff(t.rows, callId);
    LatestIsTop(t.rows, callId, seg.messageId);
    ProperIff(seg);
    forall top | Top(t.rows, callId, seg.messageId, top) ensures top == Latest(t.rows, callId, seg.messageId) {
      OneTop(t.rows, callId, seg.messageId, top, Latest(t.rows, callId, seg.messageId));
    }
    hide Proper, Identifier, Held, Full, Latest, Top;
  }

  ghost predicate AddsAll(ts: seq<Tables>, callId: string, segs: seq<Segment>) {
    |ts| == |segs| + 1 && forall i :: 0 <= i < |segs| ==> Adds(ts[i], ts[i + 1], callId, segs[i])
  }

  /** A signal whose segments are all accepted, one after the other. */
  ghost predicate SegmentsAccepted(t: Tables, u: Tables, callId: string, segs: seq<Segment>) {
    exists ts :: AddsAll(ts, callId, segs) && ts[0] == t && ts[|segs|] == u
  }

  /** A signal that is refused at one of its segments, with those before it acceptable. */
  ghost predicate SegmentsDenied(t: Tables, callId: string, segs: seq<Segment>, f: Fault) {
    exists ts, n: nat :: n < |segs| && AddsAll(ts, callId, segs[..n]) && ts[0] == t && Denies(ts[n], callId, segs[n], f)
  }

  lemma {:induction false} ReportAllAdds(t: Tables, callId: string, segs: seq<Segment>) returns (ts: seq<Tables>)
    requires ReportAll(t, callId, segs).Ok?
    ensures AddsAll(ts, callId, segs) && ts[0] == t && ts[|segs|] == ReportAll(t, callId, segs).value
    decreases |segs|
  {
    hide Report, Adds;
    if segs == [] {
      ts := [t];
    } else {
      var n := |segs| - 1;
      var front := ReportAllAdds(t, callId, segs[..n]);
      ReportIs(front[n], callId, segs[n]);
      ts := front + [ReportAll(t, callId, segs).value];
      forall i | 0 <= i < |segs| ensures Adds(ts[i], ts[i + 1], callId, segs[i]) {
        if i < n {
          assert Adds(front[i], front[i + 1], callId, segs[..n][i]);
        }
      }
    }
  }

  lemma ReportedAll(t: Tables, callId: string, segs: seq<Segment>)
    requires ReportAll(t, callId, segs).Ok?
    ensures SegmentsAccepted(t, ReportAll(t, callId, segs).value, callId, segs)
  {
    hide ReportAll, AddsAll;
    var ts := ReportAllAdds(t, callId, segs);
  }

  lemma DeniedThere(t: Tables, callId: string, segs: seq<Segment>, n: nat, draft: Tables, f: Fault)
    requires n < |segs| && ReportAll(t, callId, segs[..n]) == Ok(draft) && Report(draft, callId, segs[n]) == Err(f)
    ensures SegmentsDenied(t, callId, segs, f)
  {
    hide ReportAll, Report, AddsAll, Denies;
    var ts := ReportAllAdds(t, callId, segs[..n]);
    ReportIs(draft, callId, segs[n]);
  }

  class TranscriptIngress {
    var calls: map<string, Ledger.CallRow>   // voice_calls
    var rows: map<RowKey, Row>               // voice_transcripts
    var events: map<EventKey, Envelope>      // voice_provider_events

    ghost function Ingress(): State
      reads this
    {
      State(calls, Records())
    }

    ghost function Records(): Tables
      reads this
    {
      Tables(rows, events)
    }

    constructor ()
      ensures Ingress() == Init
    {
      calls, rows, events := map[], map[], map[];
    }

    /** The transaction of _ingest_sideband. It counts the rows once and keeps count itself. */
    method IngestSideband(c: Session, digest: string -> string, delivered: seq<ProviderEvent>, now: int)
      returns (r: Result<nat, Fault>)
      modifies this
      ensures Ingress() == Step(old(Ingress()), digest, Sideband(c, delivered, now))
      ensures r.Ok? <==> Outcome(old(Ingress()), digest, Sideband(c, delivered, now)).Ok?
      ensures var open := c.callId in calls && calls[c.callId].owner == c.owner && calls[c.callId].generation == c.row.generation
                && calls[c.callId].ref == Some(c.ref) && calls[c.callId].status == Ledger.Active && now <= calls[c.callId].expires;
        && (r == Err(Inactive) <==> !open)
        && (r.Err? && open ==> Refused(old(Records()), c, digest, delivered, r.error))
      ensures r.Ok? ==> Accepted(old(Records()), Records(), c, digest, delivered) && calls == old(calls)
      ensures r.Ok? ==> NewOnesHaveRows(old(Records()), Records(), c, digest, delivered)
      ensures r.Ok? ==> Held(rows, c.callId) == Held(old(rows), c.callId) + r.value && |events| == |old(events)| + r.value
      ensures r.Err? ==> Ingress() == old(Ingress())
    {
      if c.callId !in calls || calls[c.callId].owner != c.owner || calls[c.callId].generation != c.row.generation
         || calls[c.callId].ref != Some(c.ref) || calls[c.callId].status != Ledger.Active || now > calls[c.callId].expires {
        return Err(Inactive);
      }
      hide AbsorbAll, Accepted, Refused, NewOnesHaveRows, Held;
      r := AbsorbDelivery(c, digest, delivered);
    }

    /** The loop over a delivery, which is written at its end. */
    method AbsorbDelivery(c: Session, digest: string -> string, delivered: seq<ProviderEvent>) returns (r: Result<nat, Fault>)
      modifies this`rows, this`events
      ensures r.Ok? ==> AbsorbAll(old(Records()), c, digest, delivered) == Ok(Records())
      ensures r.Ok? ==> Accepted(old(Records()), Records(), c, digest, delivered)
                        && NewOnesHaveRows(old(Records()), Records(), c, digest, delivered)
      ensures r.Ok? ==> Held(rows, c.callId) == Held(old(rows), c.callId) + r.value && |events| == |old(events)| + r.value
      ensures r.Err? ==> AbsorbAll(old(Records()), c, digest, delivered) == Err(r.error) && Records() == old(Records())
      ensures r.Err? ==> Refused(old(Records()), c, digest, delivered, r.error) && r.error != Inactive
    {
      hide Accepted, Refused, NewOnesHaveRows, Absorb;
      var count, recorded := Held(rows, c.callId), 0;
      var draft := Tables(rows, events);
      ghost var start := draft;
      var i := 0;
      while i < |delivered|
        invariant 0 <= i <= |delivered|
        invariant AbsorbAll(start, c, digest, delivered[..i]) == Ok(draft)
        invariant Held(draft.rows, c.callId) == count + recorded
        invariant Records() == old(Records())
      {
        assert delivered[..i + 1][..i] == delivered[..i];
        assert AbsorbAll(start, c, digest, delivered[..i + 1]) == Absorb(draft, c, digest, delivered[i]);
        var next, added := AbsorbOne(draft, c, digest, delivered[i], count + recorded);
        if next.Err? {
          FaultSticks(start, c, digest, delivered, i + 1);
          RefusedThere(start, c, digest, delivered, i, draft, next.error);
          return Err(next.error);
        }
        draft, recorded := next.value, recorded + added;
        i := i + 1;
      }
      assert delivered[..i] == delivered;
      AcceptedAll(start, c, digest, delivered);
      EachNewEventOnce(start, c, digest, delivered);
      rows, events := draft.rows, draft.events;
      return Ok(recorded);
    }

    /** One event, with the count the loop keeps; added: 1 if it was recorded. */
    static method AbsorbOne(t: Tables, c: Session, digest: string -> string, e: ProviderEvent, held: nat)
      returns (r: Result<Tables, Fault>, added: nat)
      requires held == Held(t.rows, c.callId)
      ensures r == Absorb(t, c, digest, e)
      ensures r.Ok? ==> Held(r.value.rows, c.callId) == held + added
      ensures r.Err? ==> r.error != Inactive
    {
      var spoken := Transcript(e);
      if spoken.None? {
        return Ok(t), 0;
      }
      var key := KeyOf(c, e);
      if key in t.events {
        return if t.events[key] != EnvelopeOf(c, e) then Err(Conflict) else Ok(t), 0;
      }
      if held >= MAX_SEGMENTS {
        return Err(OverBudget), 0;
      }
      var id := MessageId(digest, c.ref, spoken.value);
      var revision := Latest(t.rows, c.callId, id) + 1;
      if revision > MAX_INTEGER {
        return Err(IntegerOverflow), 0;
      }
      AbsorbCounts(t, c, digest, e);
      return Ok(Tables(t.rows[RowKey(c.callId, id, revision) := VerifiedRow(spoken.value, e.eventId)],
                       t.events[key := EnvelopeOf(c, e)])), 1;
    }

    /** The transaction of a transcript signal. */
    method RecordSegments(owner: string, project: string, callId: string, scope: Ledger.Scope, generation: Option<nat>,
                          segs: seq<Segment>, digest: string -> string)
      returns (r: Result<nat, Fault>)
      modifies this
      ensures Ingress() == Step(old(Ingress()), digest, Renderer(owner, project, callId, scope, generation, segs))
      ensures r.Ok? <==> Outcome(old(Ingress()), digest, Renderer(owner, project, callId, scope, generation, segs)).Ok?
      ensures var calling := Ledger.State(calls, map[], map[], map[], []);
        var open := Runtime.InReach(calling, owner, project, callId, scope) && Runtime.Live(calls[callId], generation) && 1 <= |segs| <= 64;
        && (r == Err(Inactive) <==> !open)
        && (r.Err? && open ==> SegmentsDenied(old(Records()), callId, segs, r.error))
      ensures r.Ok? ==> SegmentsAccepted(old(Records()), Records(), callId, segs) && events == old(events) && calls == old(calls)
      ensures r.Ok? ==> r.value == |segs| && Held(rows, callId) == Held(old(rows), callId) + |segs|
      ensures r.Err? ==> Ingress() == old(Ingress())
    {
      MayReportIff(State(calls, Tables(rows, events)), owner, project, callId, scope, generation, segs);
      hide Report, Held, ProvisionalRow, MayReport, SegmentsAccepted, SegmentsDenied, Runtime.InReach, Runtime.Live;
      if !MayReport(State(calls, Tables(rows, events)), owner, project, callId, scope, generation, segs) {
        return Err(Inactive);
      }
      var count, recorded := Held(rows, callId), 0;
      var draft := Tables(rows, events);
      ghost var start := draft;
      while recorded < |segs|
        invariant 0 <= recorded <= |segs|
        invariant ReportAll(start, callId, segs[..recorded]) == Ok(draft)
        invariant draft.events == events
        invariant Held(draft.rows, callId) == count + recorded
        invariant Ingress() == old(Ingress())
      {
        var seg := segs[recorded];
        assert segs[..recorded + 1][..recorded] == segs[..recorded];
        assert ReportAll(start, callId, segs[..recorded + 1]) == Report(draft, callId, seg);
        var fault := Rejection(draft, callId, seg, count + recorded);
        if fault.Some? {
          ReportFaultSticks(start, callId, segs, recorded + 1);
          DeniedThere(start, callId, segs, recorded, draft, fault.value);
          return Err(fault.value);
        }
        ReportCounts(draft, callId, seg);
        draft := draft.(rows := draft.rows[RowKey(callId, seg.messageId, seg.revision) := ProvisionalRow(seg)]);
        recorded := recorded + 1;
      }
      assert segs[..recorded] == segs;
      ReportedAll(start, callId, segs);
      rows, events := draft.rows, draft.events;
      return Ok(recorded);
    }

    /** The checks on one segment, with the count the loop keeps. */
    static function Rejection(t: Tables, callId: string, seg: Segment, held: nat): (r: Option<Fault>)
      requires held == Held(t.rows, callId)
      ensures r.Some? <==> Report(t, callId, seg).Err?
      ensures r.Some? ==> Report(t, callId, seg) == Err(r.value) && r.value != Inactive
    {
      if !Identifier(seg.messageId) || seg.role !in {"user", "assistant", "tool"} || seg.content == ""
         || seg.receipt == "" || seg.revision < 1
      then Some(Malformed)
      else if seg.revision <= Latest(t.rows, callId, seg.messageId) then Some(NotIncreasing)
      else if held >= MAX_SEGMENTS then Some(OverBudget)
      else if seg.role == "tool" then Some(ToolDenied)
      else if seg.revision > MAX_INTEGER then Some(IntegerOverflow)
      else None
    }
  }
}
