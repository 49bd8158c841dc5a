/** The streaming ledger of browser/streaming.py: two tables of bounded history per observed
    message, kept equal to a window on an unbounded log.

    Full text and prefix are compared by SHA-256 in the source; a digest is modelled by the
    text it was taken of. Encoding and decoding of protected text cancel. */
module StreamingLedger {
  import opened Basics
  import Maxima

  const MAX_PREFIX_CHARS: nat := 32_000
  const MAX_FRAMES_PER_MESSAGE: nat := 512
  const MAX_BODY_BYTES: nat := 1_500_000

  /** The message a frame belongs to. */
  datatype Scope = Scope(principal: string, conversation: string, message: string)

  /** A row of browser_stream_frames. */
  datatype FrameRow = FrameRow(prefixDigest: string, prefixChars: nat, truncated: bool, overflow: Option<string>,
                               observed: int)

  /** One accepted frame of the unbounded log. */
  datatype Frame = Frame(revision: nat, text: string, observed: int)

  type FrameTable = map<(Scope, nat), FrameRow>
  type ContentTable = map<(Scope, nat), string>

  /** The answer to record_frame: the frame's fingerprint, or why it was refused. */
  datatype Reply =
    | Recorded(revision: nat, prefixDigest: string, prefixChars: nat, truncated: bool, overflow: Option<string>,
               replay: bool)
    | Conflict          // another body for the newest revision
    | NotIncreasing     // a revision below the newest
    | TooLarge          // the body exceeds the content budget

  /** The row that stands for a full text. */
  function RowOf(text: string, observed: int): (r: FrameRow)
    ensures r.truncated <==> |text| > 32000
    ensures r.prefixDigest == (if |text| > 32000 then text[..32000] else text) && r.prefixChars == |r.prefixDigest|
    ensures r.overflow == (if |text| > 32000 then Some(text) else None) && r.observed == observed
  {
    var truncated := |text| > MAX_PREFIX_CHARS;
    var prefix := if truncated then text[..MAX_PREFIX_CHARS] else text;
    FrameRow(prefix, |prefix|, truncated, if truncated then Some(text) else None, observed)
  }

  /** The length of a text in UTF-8. */
  function Utf8Length(text: string): nat {
    if text == "" then 0 else Utf8Length(text[..|text| - 1]) + Utf8Width(text[|text| - 1])
  }

  function Utf8Width(c: char): nat {
    if c < 0x80 as char then 1 else if c < 0x800 as char then 2 else if c < 0x1_0000 as char then 3 else 4
  }

  /** A character takes 1 to 4 bytes, and the bytes of a text are those of its characters. */
  lemma {:induction false} Utf8LengthIs(a: string, b: string)
    ensures Utf8Length(a + b) == Utf8Length(a) + Utf8Length(b)
    ensures |a| == 1 ==> Utf8Length(a) == if a[0] as int <= 0x7F then 1 else if a[0] as int <= 0x7FF then 2
                                          else if a[0] as int <= 0xFFFF then 3 else 4
    decreases |b|
  {
    if b == [] {
      assert a + b == a;
    } else {
      var n := |b| - 1;
      Utf8LengthIs(a, b[..n]);
      assert (a + b)[..|a + b| - 1] == a + b[..n];
    }
    if |a| == 1 {
      assert a[..0] == "";
    }
  }

  /** The revisions a table holds for a message. */
  function Revisions<V>(table: map<(Scope, nat), V>, scope: Scope): (r: set<nat>)
    ensures forall v :: v in r <==> (scope, v) in table
  {
    set key | key in table && key.0 == scope :: key.1
  }

  /** ORDER BY revision DESC. LIMIT n is its first n, OFFSET k drops k of it. */
  function Descending(s: set<nat>): (r: seq<nat>)
    ensures |r| == |s|
    decreases |s|
  {
    if s == {} then [] else
      var m := Maxima.Max(s);
      [m] + Descending(s - {m})
  }

  /** Revisions strictly increase along a log. */
  ghost predicate Increasing(log: seq<Frame>) {
    forall i, j :: 0 <= i < j < |log| ==> log[i].revision < log[j].revision
  }

  /** The last frames of a log, at most `n` of them. */
  function Last<T>(log: seq<T>, n: nat): (r: seq<T>)
    ensures |r| == if |log| <= n then |log| else n
  {
    if |log| <= n then log else log[|log| - n..]
  }

  /** The rows of the given revisions, in that order. */
  function Rows(frames: FrameTable, scope: Scope, revisions: seq<nat>): (r: seq<(nat, FrameRow)>)
    requires forall i :: 0 <= i < |revisions| ==> (scope, revisions[i]) in frames
    ensures |r| == |revisions|
    ensures forall i :: 0 <= i < |revisions| ==> r[i] == (revisions[i], frames[(scope, revisions[i])])
  {
    if revisions == [] then []
    else [(revisions[0], frames[(scope, revisions[0])])] + Rows(frames, scope, revisions[1..])
  }

  /** The revisions of a list of frames. */
  function RevisionsOf(window: seq<Frame>): set<nat> {
    if window == [] then {} else RevisionsOf(window[..|window| - 1]) + {window[|window| - 1].revision}
  }

  /** A table holds, for one message, exactly the given frames, each with its value. */
  ghost predicate Holds<V>(table: map<(Scope, nat), V>, scope: Scope, window: seq<Frame>, value: Frame -> V) {
    && Revisions(table, scope) == RevisionsOf(window)
    && forall i :: 0 <= i < |window| ==> ValueAt(table, scope, window[i], value)
  }

  ghost predicate ValueAt<V>(table: map<(Scope, nat), V>, scope: Scope, f: Frame, value: Frame -> V) {
    (scope, f.revision) in table && table[(scope, f.revision)] == value(f)
  }

  /** INSERT, then DELETE WHERE revision < cutoff for that message. */
  function Insert<V>(table: map<(Scope, nat), V>, scope: Scope, revision: nat, v: V): map<(Scope, nat), V> {
    table[(scope, revision) := v]
  }

  function DeleteBelow<V>(table: map<(Scope, nat), V>, scope: Scope, cutoff: nat): map<(Scope, nat), V> {
    map key | key in table && !(key.0 == scope && key.1 < cutoff) :: table[key]
  }

  lemma {:induction false} RevisionsBelow(window: seq<Frame>, bound: nat)
    requires Increasing(window) && (window != [] ==> window[|window| - 1].revision < bound)
    ensures forall v :: v in RevisionsOf(window) ==> v < bound
  {
    if window != [] {
      var n := |window| - 1;
      RevisionsBelow(window[..n], window[n].revision);
    }
  }

  lemma PopNewest(window: seq<Frame>)
    requires Increasing(window) && window != []
    ensures var n, s := |window| - 1, RevisionsOf(window);
      Descending(s) == [window[n].revision] + Descending(RevisionsOf(window[..n]))
  {
    var n, s := |window| - 1, RevisionsOf(window);
    RevisionsBelow(window[..n], window[n].revision);
    assert s == RevisionsOf(window[..n]) + {window[n].revision};
    assert Maxima.Max(s) == window[n].revision && s - {window[n].revision} == RevisionsOf(window[..n]);
  }

  /** The revisions of a window, newest first, are the window's reversed. */
  lemma {:induction false} DescendingOfWindow(window: seq<Frame>)
    requires Increasing(window)
    ensures |Descending(RevisionsOf(window))| == |window|
    ensures forall i :: 0 <= i < |window| ==> Descending(RevisionsOf(window))[i] == window[|window| - 1 - i].revision
  {
    if window != [] {
      var n := |window| - 1;
      DescendingOfWindow(window[..n]);
      PopNewest(window);
    }
  }

  lemma InsertExtends<V>(table: map<(Scope, nat), V>, scope: Scope, window: seq<Frame>, f: Frame, value: Frame -> V)
    requires Holds(table, scope, window, value) && Increasing(window + [f])
    ensures Holds(Insert(table, scope, f.revision, value(f)), scope, window + [f], value)
  {
    var t, more := Insert(table, scope, f.revision, value(f)), window + [f];
    assert more[..|window|] == window;
    assert Revisions(t, scope) == Revisions(table, scope) + {f.revision};
    forall i | 0 <= i < |more|
      ensures ValueAt(t, scope, more[i], value)
    {
      if i < |window| {
        assert ValueAt(table, scope, window[i], value) && more[i].revision < more[|window|].revision;
      }
    }
  }

  lemma DeleteDropsOldest<V>(table: map<(Scope, nat), V>, scope: Scope, window: seq<Frame>, value: Frame -> V)
    requires Holds(table, scope, window, value) && Increasing(window) && |window| >= 2
    ensures Holds(DeleteBelow(table, scope, window[1].revision), scope, window[1..], value)
  {
    var cutoff, kept := window[1].revision, window[1..];
    var t := DeleteBelow(table, scope, cutoff);
    RevisionsTail(window);
    assert forall v :: v in RevisionsOf(window) && v < cutoff ==> v == window[0].revision by {
      RevisionsAbove(kept);
    }
    RevisionsAbove(kept);
    assert Revisions(t, scope) == RevisionsOf(kept);
    forall i | 0 <= i < |kept|
      ensures ValueAt(t, scope, kept[i], value)
    {
      assert ValueAt(table, scope, window[i + 1], value) && cutoff <= kept[i].revision;
    }
  }

  lemma {:induction false} RevisionsTail(window: seq<Frame>)
    requires window != []
    ensures RevisionsOf(window) == {window[0].revision} + RevisionsOf(window[1..])
  {
    var n := |window| - 1;
    if n > 0 {
      RevisionsTail(window[..n]);
      assert window[..n][1..] == window[1..][..n - 1];
    }
  }

  lemma {:induction false} RevisionsAbove(window: seq<Frame>)
    requires Increasing(window) && window != []
    ensures forall v :: v in RevisionsOf(window) ==> window[0].revision <= v
  {
    var n := |window| - 1;
    if n > 0 {
      RevisionsAbove(window[..n]);
    }
  }

  /** Two tables agree on every message but one. */
  ghost predicate SameElsewhere<V(!new)>(table: map<(Scope, nat), V>, t: map<(Scope, nat), V>, scope: Scope) {
    forall key: (Scope, nat) :: key.0 != scope ==> (key in t <==> key in table) && (key in t ==> t[key] == table[key])
  }

  lemma OtherScopeKept<V(!new)>(table: map<(Scope, nat), V>, t: map<(Scope, nat), V>, scope: Scope, other: Scope,
                                window: seq<Frame>, value: Frame -> V)
    requires SameElsewhere(table, t, scope) && other != scope && Holds(table, other, window, value)
    ensures Holds(t, other, window, value)
  {
    assert Revisions(t, other) == Revisions(table, other);
    forall i | 0 <= i < |window|
      ensures ValueAt(t, other, window[i], value)
    {
      assert ValueAt(table, other, window[i], value);
    }
  }

  function FrameValue(f: Frame): FrameRow {
    RowOf(f.text, f.observed)
  }

  function ContentValue(f: Frame): string {
    f.text
  }

  /** What record_frame does to a table once a frame is accepted: insert it and, when there
      were already as many frames as are kept, delete what is older than the cutoff. */
  function Pruned<V>(table: map<(Scope, nat), V>, scope: Scope, count: nat, f: Frame, v: V): map<(Scope, nat), V>
    requires count == |Revisions(table, scope)| && f.revision !in Revisions(table, scope)
  {
    var t := Insert(table, scope, f.revision, v);
    if count < MAX_FRAMES_PER_MESSAGE then t
    else
      assert Revisions(t, scope) == Revisions(table, scope) + {f.revision};
      DeleteBelow(t, scope, Descending(Revisions(t, scope))[MAX_FRAMES_PER_MESSAGE - 1])
  }

  /** The heart of the refinement: accepting a frame turns a table that holds the last 512
      frames of a log into one that holds the last 512 frames of the extended log. */
  lemma PrunedHoldsLast<V>(table: map<(Scope, nat), V>, scope: Scope, log: seq<Frame>, f: Frame, value: Frame -> V)
    requires Increasing(log + [f])
    requires Holds(table, scope, Last(log, MAX_FRAMES_PER_MESSAGE), value)
    ensures |Revisions(table, scope)| == |Last(log, MAX_FRAMES_PER_MESSAGE)|
    ensures f.revision !in Revisions(table, scope)
    ensures Holds(Pruned(table, scope, |Revisions(table, scope)|, f, value(f)), scope,
                  Last(log + [f], MAX_FRAMES_PER_MESSAGE), value)
  {
    var window := Last(log, MAX_FRAMES_PER_MESSAGE);
    LastOfLast(log, f, MAX_FRAMES_PER_MESSAGE);
    PrunedHoldsWindow(table, scope, window, f, value);
  }

  lemma LastOfLast(log: seq<Frame>, f: Frame, n: nat)
    requires Increasing(log + [f])
    ensures Increasing(Last(log, n) + [f]) && Increasing(Last(log, n))
    ensures Last(Last(log, n) + [f], n) == Last(log + [f], n)
  {
    var window, skip := Last(log, n), |log| - |Last(log, n)|;
    assert window + [f] == (log + [f])[skip..];
    assert window == (log + [f])[skip..|log|];
  }

  lemma PrunedHoldsWindow<V>(table: map<(Scope, nat), V>, scope: Scope, window: seq<Frame>, f: Frame, value: Frame -> V)
    requires |window| <= MAX_FRAMES_PER_MESSAGE && Increasing(window + [f]) && Increasing(window)
    requires Holds(table, scope, window, value)
    ensures |Revisions(table, scope)| == |window| && f.revision !in Revisions(table, scope)
    ensures Holds(Pruned(table, scope, |window|, f, value(f)), scope, Last(window + [f], MAX_FRAMES_PER_MESSAGE), value)
  {
    var more := window + [f];
    CountOfWindow(window, f);
    InsertExtends(table, scope, window, f, value);
    if |window| == MAX_FRAMES_PER_MESSAGE {
      DescendingOfWindow(more);
      DeleteDropsOldest(Insert(table, scope, f.revision, value(f)), scope, more, value);
    }
  }

  lemma CountOfWindow(window: seq<Frame>, f: Frame)
    requires Increasing(window + [f]) && Increasing(window)
    ensures |RevisionsOf(window)| == |window| && f.revision !in RevisionsOf(window)
  {
    DescendingOfWindow(window);
    assert window != [] ==> (window + [f])[|window| - 1].revision < (window + [f])[|window|].revision;
    RevisionsBelow(window, f.revision);
  }

  /** The transaction of record_frame: both tables take the new frame and, once the message
      has 512 older ones, lose what lies below one cutoff read from the frame table. */
  lemma StoreKeepsWindows(frames: FrameTable, contents: ContentTable, scope: Scope, log: seq<Frame>, f: Frame)
    requires Increasing(log + [f])
    requires Holds(frames, scope, Last(log, MAX_FRAMES_PER_MESSAGE), FrameValue)
    requires Holds(contents, scope, Last(log, MAX_FRAMES_PER_MESSAGE), ContentValue)
    ensures var count, window := |Revisions(frames, scope)|, Last(log + [f], MAX_FRAMES_PER_MESSAGE);
      var fs := Insert(frames, scope, f.revision, RowOf(f.text, f.observed));
      var cs := Insert(contents, scope, f.revision, f.text);
      if count < MAX_FRAMES_PER_MESSAGE then
        Holds(fs, scope, window, FrameValue) && Holds(cs, scope, window, ContentValue)
      else
        && MAX_FRAMES_PER_MESSAGE < |Revisions(fs, scope)|
        && var cutoff := Descending(Revisions(fs, scope))[MAX_FRAMES_PER_MESSAGE - 1];
        && Holds(DeleteBelow(fs, scope, cutoff), scope, window, FrameValue)
        && Holds(DeleteBelow(cs, scope, cutoff), scope, window, ContentValue)
  {
    PrunedHoldsLast(frames, scope, log, f, FrameValue);
    PrunedHoldsLast(contents, scope, log, f, ContentValue);
    RevisionsInserted(frames, scope, f.revision, FrameValue(f));
    RevisionsInserted(contents, scope, f.revision, ContentValue(f));
  }

  lemma RevisionsInserted<V>(table: map<(Scope, nat), V>, scope: Scope, revision: nat, v: V)
    ensures Revisions(Insert(table, scope, revision, v), scope) == Revisions(table, scope) + {revision}
  {
  }

  /** The log of a message, empty before its first frame. */
  ghost function LogOf(logs: map<Scope, seq<Frame>>, scope: Scope): seq<Frame> {
    if scope in logs then logs[scope] else []
  }

  ghost predicate AllKept(frames: FrameTable, contents: ContentTable, logs: map<Scope, seq<Frame>>) {
    forall scope :: Keeps(frames, contents, scope, LogOf(logs, scope))
  }

  lemma StoreKeepsAll(fs0: FrameTable, cs0: ContentTable, logs: map<Scope, seq<Frame>>, fs: FrameTable,
                      cs: ContentTable, scope: Scope, f: Frame)
    requires AllKept(fs0, cs0, logs) && SameElsewhere(fs0, fs, scope) && SameElsewhere(cs0, cs, scope)
    requires Keeps(fs, cs, scope, LogOf(logs, scope) + [f])
    ensures AllKept(fs, cs, logs[scope := LogOf(logs, scope) + [f]])
  {
    var after := logs[scope := LogOf(logs, scope) + [f]];
    forall other ensures Keeps(fs, cs, other, LogOf(after, other)) {
      assert Keeps(fs0, cs0, other, LogOf(logs, other));
      if other != scope {
        KeepsElsewhere(fs0, cs0, fs, cs, scope, other, LogOf(logs, other));
      }
    }
  }

  /** Both tables hold exactly the newest frames of a message's log. */
  ghost predicate Keeps(frames: FrameTable, contents: ContentTable, scope: Scope, log: seq<Frame>) {
    && Increasing(log)
    && Holds(frames, scope, Last(log, MAX_FRAMES_PER_MESSAGE), FrameValue)
    && Holds(contents, scope, Last(log, MAX_FRAMES_PER_MESSAGE), ContentValue)
  }

  lemma KeepsElsewhere(fs0: FrameTable, cs0: ContentTable, fs: FrameTable, cs: ContentTable, scope: Scope, other: Scope,
                       log: seq<Frame>)
    requires SameElsewhere(fs0, fs, scope) && SameElsewhere(cs0, cs, scope) && other != scope
    requires Keeps(fs0, cs0, other, log)
    ensures Keeps(fs, cs, other, log)
  {
    OtherScopeKept(fs0, fs, scope, other, Last(log, MAX_FRAMES_PER_MESSAGE), FrameValue);
    OtherScopeKept(cs0, cs, scope, other, Last(log, MAX_FRAMES_PER_MESSAGE), ContentValue);
  }

  /** The reply the source builds for an accepted or replayed frame. */
  function ReplyFor(revision: nat, text: string, replay: bool): Reply {
    var row := RowOf(text, 0);
    Recorded(revision, row.prefixDigest, row.prefixChars, row.truncated, row.overflow, replay)
  }

  /** record_frame as the unbounded append-only log would answer it. */
  function LogReply(log: seq<Frame>, revision: nat, text: string): Reply {
    if Utf8Length(text) > MAX_BODY_BYTES then TooLarge
    else if log == [] || log[|log| - 1].revision < revision then ReplyFor(revision, text, false)
    else if revision < log[|log| - 1].revision then NotIncreasing
    else if log[|log| - 1].text == text then ReplyFor(revision, text, true)
    else Conflict
  }

  predicate Accepts(log: seq<Frame>, revision: nat, text: string) {
    var reply := LogReply(log, revision, text);
    reply.Recorded? && !reply.replay
  }

  function Clamp(limit: int): nat {
    if limit < 1 then 1 else if limit > MAX_FRAMES_PER_MESSAGE then MAX_FRAMES_PER_MESSAGE else limit
  }

  /** A list of frames as the rows history returns for it: newest first. */
  function Backwards(window: seq<Frame>): (r: seq<(nat, FrameRow)>)
    ensures |r| == |window|
  {
    if window == [] then [] else
      var f := window[|window| - 1];
      [(f.revision, FrameValue(f))] + Backwards(window[..|window| - 1])
  }

  lemma {:induction false} RowsOfWindow(frames: FrameTable, scope: Scope, window: seq<Frame>)
    requires Increasing(window) && forall i :: 0 <= i < |window| ==> ValueAt(frames, scope, window[i], FrameValue)
    ensures var order := Descending(RevisionsOf(window));
      && (forall i :: 0 <= i < |order| ==> (scope, order[i]) in frames)
      && Rows(frames, scope, order) == Backwards(window)
  {
    if window != [] {
      var n := |window| - 1;
      RowsOfWindow(frames, scope, window[..n]);
      PopNewest(window);
      assert ValueAt(frames, scope, window[n], FrameValue);
    }
  }

  lemma {:induction false} BackwardsOfLast(window: seq<Frame>, n: nat)
    ensures Backwards(Last(window, n)) == if |window| <= n then Backwards(window) else Backwards(window)[..n]
  {
    hide FrameValue;
    if |window| > n && n > 0 {
      var k := |window| - 1;
      BackwardsOfLast(window[..k], n - 1);
      var newest := Last(window, n);
      assert newest[n - 1] == window[k] && newest[..n - 1] == Last(window[..k], n - 1);
      ConsTake((window[k].revision, FrameValue(window[k])), Backwards(window[..k]), n);
    }
  }

  lemma ConsTake<T>(x: T, s: seq<T>, n: nat)
    requires 0 < n <= |s| + 1
    ensures ([x] + s)[..n] == [x] + s[..n - 1]
  {
  }

  // ---------------------------------------------------------------- what a caller sees, said outright

  /** The answer to record_frame, by the newest frame of the log. */
  predicate AnswersFrame(log: seq<Frame>, revision: nat, text: string, r: Reply) {
    var fits := Utf8Length(text) <= 1500000;
    var newest := if log == [] then None else Some(log[|log| - 1]);
    && (r.TooLarge? <==> !fits)
    && (r.NotIncreasing? <==> fits && newest.Some? && revision < newest.value.revision)
    && (r.Conflict? <==> fits && newest.Some? && revision == newest.value.revision && text != newest.value.text)
    && (r.Recorded? ==>
          && r.revision == revision && (r.replay <==> newest.Some? && newest.value.revision == revision)
          && r == Recorded(revision, if |text| > 32000 then text[..32000] else text, if |text| > 32000 then 32000 else |text|,
                           |text| > 32000, if |text| > 32000 then Some(text) else None, r.replay))
  }

  /** A frame of the log is among the newest n. */
  predicate Among(log: seq<Frame>, n: nat, i: int) {
    0 <= i < |log| && |log| - n <= i
  }

  /** The two tables hold for a message what its log says: the newest 512 frames and no other. */
  ghost predicate ShowsLog(frames: FrameTable, contents: ContentTable, scope: Scope, log: seq<Frame>) {
    && (forall v :: (scope, v) in frames ==> exists i :: Among(log, 512, i) && log[i].revision == v)
    && (forall v :: (scope, v) in contents ==> exists i :: Among(log, 512, i) && log[i].revision == v)
    && forall i :: Among(log, 512, i) ==>
         && (scope, log[i].revision) in frames && frames[(scope, log[i].revision)] == RowOf(log[i].text, log[i].observed)
         && (scope, log[i].revision) in contents && contents[(scope, log[i].revision)] == log[i].text
  }

  lemma {:induction false} RevisionsFrom(window: seq<Frame>, v: nat)
    ensures v in RevisionsOf(window) <==> exists i :: 0 <= i < |window| && window[i].revision == v
  {
    if window != [] {
      var n := |window| - 1;
      RevisionsFrom(window[..n], v);
      if v in RevisionsOf(window[..n]) {
        var i :| 0 <= i < n && window[..n][i].revision == v;
        assert window[i].revision == v;
      }
    }
  }

  lemma WindowShows<V>(table: map<(Scope, nat), V>, scope: Scope, log: seq<Frame>, value: Frame -> V)
    requires Holds(table, scope, Last(log, MAX_FRAMES_PER_MESSAGE), value)
    ensures forall v :: (scope, v) in table ==> exists i :: Among(log, 512, i) && log[i].revision == v
    ensures forall i :: Among(log, 512, i) ==> (scope, log[i].revision) in table && table[(scope, log[i].revision)] == value(log[i])
  {
    var window := Last(log, MAX_FRAMES_PER_MESSAGE);
    var skip := |log| - |window|;
    forall v | (scope, v) in table ensures exists i :: Among(log, 512, i) && log[i].revision == v {
      assert v in Revisions(table, scope);
      RevisionsFrom(window, v);
      var i :| 0 <= i < |window| && window[i].revision == v;
      assert Among(log, 512, skip + i) && log[skip + i] == window[i];
    }
    forall i | Among(log, 512, i)
      ensures (scope, log[i].revision) in table && table[(scope, log[i].revision)] == value(log[i])
    {
      assert window[i - skip] == log[i];
      assert ValueAt(table, scope, window[i - skip], value);
    }
  }

  lemma LogShows(frames: FrameTable, contents: ContentTable, scope: Scope, log: seq<Frame>)
    requires Keeps(frames, contents, scope, log)
    ensures ShowsLog(frames, contents, scope, log)
  {
    WindowShows(frames, scope, log, FrameValue);
    WindowShows(contents, scope, log, ContentValue);
  }

  /** The tables hold for every message what its log says. */
  ghost predicate AllShown(frames: FrameTable, contents: ContentTable, logs: map<Scope, seq<Frame>>) {
    forall scope :: ShowsLog(frames, contents, scope, LogOf(logs, scope))
  }

  lemma AllShow(frames: FrameTable, contents: ContentTable, logs: map<Scope, seq<Frame>>)
    requires AllKept(frames, contents, logs)
    ensures AllShown(frames, contents, logs)
  {
    hide Keeps, ShowsLog;
    forall scope ensures ShowsLog(frames, contents, scope, LogOf(logs, scope)) {
      LogShows(frames, contents, scope, LogOf(logs, scope));
    }
  }

  lemma AnswerIs(log: seq<Frame>, revision: nat, text: string)
    ensures AnswersFrame(log, revision, text, LogReply(log, revision, text))
  {
    hide Utf8Length;
  }

  /** As many of the newest frames as asked for, with the limit forced into 1 to 512, newest
      first. */
  predicate ShowsNewest(log: seq<Frame>, limit: int, rows: seq<(nat, FrameRow)>) {
    var kept := if limit < 1 then 1 else if limit > 512 then 512 else limit;
    && |rows| == (if |log| <= kept then |log| else kept)
    && forall i :: 0 <= i < |rows| ==>
         var f := log[|log| - 1 - i]; rows[i] == (f.revision, RowOf(f.text, f.observed))
  }

  lemma HistoryIs(log: seq<Frame>, limit: int)
    ensures ShowsNewest(log, limit, Backwards(Last(log, Clamp(limit))))
  {
    var window := Last(log, Clamp(limit));
    forall i | 0 <= i < |window|
      ensures var f := log[|log| - 1 - i]; Backwards(window)[i] == (f.revision, RowOf(f.text, f.observed))
    {
      BackwardsAt(window, i);
    }
    hide Backwards;
  }

  lemma {:induction false} BackwardsAt(window: seq<Frame>, i: nat)
    requires i < |window|
    ensures var f := window[|window| - 1 - i]; Backwards(window)[i] == (f.revision, RowOf(f.text, f.observed))
  {
    if i > 0 {
      BackwardsAt(window[..|window| - 1], i - 1);
    }
  }

  class StreamingLedger {
    var frames: FrameTable      // browser_stream_frames
    var contents: ContentTable  // browser_stream_content
    ghost var log: map<Scope, seq<Frame>>  // every frame ever accepted

    ghost function Log(scope: Scope): seq<Frame>
      reads this
    {
      LogOf(log, scope)
    }

    ghost function Window(scope: Scope): seq<Frame>
      reads this
    {
      Last(Log(scope), MAX_FRAMES_PER_MESSAGE)
    }

    /** Both tables hold exactly the newest frames of every message's log. */
    ghost predicate Valid()
      reads this
    {
      AllKept(frames, contents, log)
    }

    constructor ()
      ensures Valid() && log == map[]
    {
      frames, contents, log := map[], map[], map[];
    }

    /** record_frame. The answer is the unbounded log's; an accepted frame is appended to the
        message's log and everything else, in particular a replay, leaves both tables alone. */
    method RecordFrame(scope: Scope, revision: nat, text: string, now: int) returns (r: Reply)
      requires Valid()
      modifies this
      ensures Valid()
      ensures r == LogReply(old(Log(scope)), revision, text)
      ensures if Accepts(old(Log(scope)), revision, text)
              then log == old(log)[scope := old(Log(scope)) + [Frame(revision, text, now)]]
              else log == old(log) && frames == old(frames) && contents == old(contents)
      ensures AnswersFrame(old(Log(scope)), revision, text, r)
      ensures log == if r.Recorded? && !r.replay then old(log)[scope := old(Log(scope)) + [Frame(revision, text, now)]] else old(log)
      ensures AllShown(frames, contents, log)
    {
      AnswerIs(Log(scope), revision, text);
      AllShow(frames, contents, log);
      hide AnswersFrame, AllShown, Utf8Length;
      if Utf8Length(text) > MAX_BODY_BYTES {
        return TooLarge;
      }
      assert Keeps(frames, contents, scope, Log(scope));
      var revisions := Revisions(frames, scope);
      var count := |revisions|;
      NewestOfWindow(Log(scope));
      if count > 0 {
        var newest := Maxima.Max(revisions);
        if newest == revision {
          assert ValueAt(contents, scope, Log(scope)[|Log(scope)| - 1], ContentValue);
          if (scope, revision) !in contents || contents[(scope, revision)] != text {
            return Conflict;
          }
          return ReplyFor(revision, text, true);
        }
        if revision < newest {
          return NotIncreasing;
        }
      }
      IncreasingAppend(Log(scope), Frame(revision, text, now));
      Store(scope, revision, text, now);
      AllShow(frames, contents, log);
      r := ReplyFor(revision, text, false);
    }

    /** The writing half of record_frame. */
    method Store(scope: Scope, revision: nat, text: string, now: int)
      requires Valid() && Increasing(Log(scope) + [Frame(revision, text, now)])
      modifies this
      ensures Valid() && log == old(log)[scope := old(Log(scope)) + [Frame(revision, text, now)]]
    {
      assert Keeps(frames, contents, scope, Log(scope));
      StoreKeepsWindows(frames, contents, scope, Log(scope), Frame(revision, text, now));
      var count := |Revisions(frames, scope)|;
      frames := Insert(frames, scope, revision, RowOf(text, now));
      contents := Insert(contents, scope, revision, text);
      if count >= MAX_FRAMES_PER_MESSAGE {
        var cutoff := Descending(Revisions(frames, scope))[MAX_FRAMES_PER_MESSAGE - 1];
        frames := DeleteBelow(frames, scope, cutoff);
        contents := DeleteBelow(contents, scope, cutoff);
      }
      StoreKeepsAll(old(frames), old(contents), log, frames, contents, scope, Frame(revision, text, now));
      log := log[scope := Log(scope) + [Frame(revision, text, now)]];
    }

    /** latest: the newest frame of the unbounded log. */
    method Latest(scope: Scope) returns (r: Option<(nat, FrameRow)>)
      requires Valid()
      ensures r == if Log(scope) == [] then None
                   else var f := Log(scope)[|Log(scope)| - 1]; Some((f.revision, RowOf(f.text, f.observed)))
    {
      assert Keeps(frames, contents, scope, Log(scope));
      NewestOfWindow(Log(scope));
      var revisions := Revisions(frames, scope);
      if revisions == {} {
        return None;
      }
      assert ValueAt(frames, scope, Window(scope)[|Window(scope)| - 1], FrameValue);
      var newest := Maxima.Max(revisions);
      r := Some((newest, frames[(scope, newest)]));
    }

    /** history: the newest frames of the unbounded log, newest first. The limit is forced
        into the range the ledger keeps. */
    method History(scope: Scope, limit: int) returns (rows: seq<(nat, FrameRow)>)
      requires Valid()
      ensures rows == Backwards(Last(Log(scope), Clamp(limit)))
      ensures ShowsNewest(Log(scope), limit, rows)
    {
      hide ShowsNewest;
      assert Keeps(frames, contents, scope, Log(scope));
      ghost var window := Window(scope);
      LastIncreasing(Log(scope), MAX_FRAMES_PER_MESSAGE);
      RowsOfWindow(frames, scope, window);
      BackwardsOfLast(window, Clamp(limit));
      assert Last(window, Clamp(limit)) == Last(Log(scope), Clamp(limit));
      rows := Rows(frames, scope, Descending(Revisions(frames, scope)));
      if |rows| > Clamp(limit) {
        rows := rows[..Clamp(limit)];
      }
      HistoryIs(Log(scope), limit);
    }

    /** read_content: the full text of a frame among the newest 512, and nothing for any other
        revision of the log. */
    method ReadContent(scope: Scope, revision: nat) returns (r: Option<string>)
      requires Valid()
      ensures r.Some? ==> exists i :: Among(Log(scope), 512, i) && Log(scope)[i].revision == revision
      ensures forall i :: Among(Log(scope), 512, i) && Log(scope)[i].revision == revision ==> r == Some(Log(scope)[i].text)
    {
      assert Keeps(frames, contents, scope, Log(scope));
      r := if (scope, revision) in contents then Some(contents[(scope, revision)]) else None;
      WindowShows(contents, scope, Log(scope), ContentValue);
    }
  }

  lemma LastIncreasing(log: seq<Frame>, n: nat)
    requires Increasing(log)
    ensures Increasing(Last(log, n))
  {
  }

  lemma IncreasingAppend(log: seq<Frame>, f: Frame)
    requires Increasing(log) && (log == [] || log[|log| - 1].revision < f.revision)
    ensures Increasing(log + [f])
  {
  }

  /** What MAX(revision) and COUNT(*) see of a log through its window. */
  lemma NewestOfWindow(log: seq<Frame>)
    requires Increasing(log)
    ensures var s := RevisionsOf(Last(log, MAX_FRAMES_PER_MESSAGE));
      && |s| == |Last(log, MAX_FRAMES_PER_MESSAGE)| && (s == {} <==> log == [])
      && (log != [] ==> Maxima.Max(s) == log[|log| - 1].revision)
  {
    var window := Last(log, MAX_FRAMES_PER_MESSAGE);
    LastIncreasing(log, MAX_FRAMES_PER_MESSAGE);
    DescendingOfWindow(window);
    if log != [] {
      PopNewest(window);
      assert Descending(RevisionsOf(window))[0] == Maxima.Max(RevisionsOf(window));
    }
  }
}
