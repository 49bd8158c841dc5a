/** The deny-only identity records of edge_extension/service-worker.js: documents, revoke
    notices and the poison mark in chrome.storage.local, with the calls that read and write
    them interleaved at their awaits. */
module IdentityRevocation {
  import opened Basics

  const MAX_PENDING := 128
  const FLUSH_BATCH := 16

  datatype Doc = Doc(documentId: string, epoch: string, route: string, source: string, observed: bool)
  datatype Notice = Notice(documentId: string, epoch: string, source: string)

  /** A call waiting at an await, with what it carries across. */
  datatype Flight =
    // omaIdFlushInvalidations
    | Flushing(todo: seq<(nat, Notice)>)
    | Acknowledged(tab: nat, notice: Notice, rest: seq<(nat, Notice)>)
    | Erasing(tab: nat, notice: Notice, rest: seq<(nat, Notice)>)
    // omaIdInvalidate
    | Denying(poison: bool, notices: map<nat, Notice>, removals: set<nat>)
    | Removing(removals: set<nat>)
    // omaIdPrepare
    | Preparing(tab: nat, documentId: string, route: string)
    | Known(tab: nat, doc: Doc)
    | Fresh(tab: nat, documentId: string, route: string)
    | Written(tab: nat, doc: Doc)
    // omaObserveConversation
    | Tracking(tab: nat, doc: Doc)
    | Publishing(tab: nat, doc: Doc)
    | Replied(tab: nat, doc: Doc)
    | Marking(tab: nat, doc: Doc)
    | Proving(tab: nat, doc: Doc)

  /** What the calls hand out and what the relay has been told. */
  datatype Effect =
    | Prepared(tab: nat, doc: Doc)   // a document returned by omaIdPrepare
    | Observed(tab: nat, doc: Doc)   // an observation published to the relay
    | Proof(tab: nat, doc: Doc)      // a proof returned by omaObserveConversation
    | Acked(epoch: string)           // the relay acknowledged the invalidation of an epoch

  datatype State = State(docs: map<nat, Doc>, revokes: map<nat, Notice>, poison: bool,
                         source: string, minted: set<string>, flights: map<nat, Flight>, log: seq<Effect>)

  datatype Event =
    | FlushRead(pid: nat, tabs: seq<nat>)
    | FlushPost(pid: nat, accepted: bool)
    | FlushCompare(pid: nat)
    | FlushErase(pid: nat)
    | InvalidateRead(pid: nat, tab: nat, global: bool)
    | InvalidateWrite(pid: nat)
    | InvalidateRemove(pid: nat)
    | PrepareRead(pid: nat, tab: nat, documentId: string, route: string)
    | PrepareLook(pid: nat)
    | PrepareKnown(pid: nat)
    | PrepareWrite(pid: nat, epoch: string)
    | PrepareCheck(pid: nat)
    | PublishRead(pid: nat)
    | PublishPost(pid: nat, accepted: bool)
    | MarkRead(pid: nat)
    | MarkWrite(pid: nat)
    | ProofRead(pid: nat, witnessed: bool)
    | Die(pid: nat)                    // a rejected await, or the worker going down
    | Restart(source: string)          // a new worker, perhaps of a new build

  function With(s: State, pid: nat, f: Flight): State {
    s.(flights := s.flights[pid := f])
  }

  function Ended(s: State, pid: nat): State {
    s.(flights := s.flights - {pid})
  }

  function Logged(s: State, e: Effect): State {
    s.(log := s.log + [e])
  }

  // ---------------------------------------------------------------- flushing

  /** The snapshot of at most 16 notices; too many pending notices end the flush. */
  function Snapshot(revokes: map<nat, Notice>, order: seq<nat>): seq<(nat, Notice)>
    decreases |order|
  {
    if order == [] then []
    else if order[0] in revokes then [(order[0], revokes[order[0]])] + Snapshot(revokes, order[1..])
    else Snapshot(revokes, order[1..])
  }

  function Decimal(n: nat): string {
    if n < 10 then [('0' as int + n) as char] else Decimal(n / 10) + [('0' as int + n % 10) as char]
  }

  /** The order in which JavaScript sorts strings. */
  predicate Before(a: string, b: string) {
    if a == [] then b != []
    else b != [] && (a[0] < b[0] || (a[0] == b[0] && Before(a[1..], b[1..])))
  }

  /** The tabs of the pending notices in the order of their sorted storage keys. */
  predicate Listing(revokes: map<nat, Notice>, tabs: seq<nat>) {
    && (forall t :: t in tabs ==> t in revokes) && (forall t :: t in revokes ==> t in tabs)
    && (forall i, j :: 0 <= i < j < |tabs| ==> Before(Decimal(tabs[i]), Decimal(tabs[j])))
  }

  function FirstBatch(tabs: seq<nat>): seq<nat> {
    if |tabs| <= FLUSH_BATCH then tabs else tabs[..FLUSH_BATCH]
  }

  predicate InFlush(f: Flight) {
    f.Flushing? || f.Acknowledged? || f.Erasing?
  }

  /** omaIdFlushPromise: a flush is on its way, and another call joins it. */
  predicate FlushBusy(s: State) {
    exists pid :: pid in s.flights && InFlush(s.flights[pid])
  }

  function FlushReadStep(s: State, pid: nat, tabs: seq<nat>): State {
    if pid in s.flights || FlushBusy(s) || |s.revokes| > MAX_PENDING || !Listing(s.revokes, tabs) then s
    else With(s, pid, Flushing(Snapshot(s.revokes, FirstBatch(tabs))))
  }

  /** A notice of another build is skipped, any other is posted. The relay accepts when it
      reports the epoch invalidated or unchanged and created no grants. */
  function FlushPostStep(s: State, pid: nat, accepted: bool): State {
    if pid !in s.flights || !s.flights[pid].Flushing? then s
    else if s.flights[pid].todo == [] then Ended(s, pid)
    else
      var (tab, notice) := s.flights[pid].todo[0];
      var rest := s.flights[pid].todo[1..];
      if notice.source != s.source || !accepted then With(s, pid, Flushing(rest))
      else With(Logged(s, Acked(notice.epoch)), pid, Acknowledged(tab, notice, rest))
  }

  function FlushCompareStep(s: State, pid: nat): State {
    if pid !in s.flights || !s.flights[pid].Acknowledged? then s
    else
      var f := s.flights[pid];
      if f.tab in s.revokes && s.revokes[f.tab].epoch == f.notice.epoch then With(s, pid, Erasing(f.tab, f.notice, f.rest))
      else With(s, pid, Flushing(f.rest))
  }

  /** The remove takes away whatever the key holds by now. */
  function FlushEraseStep(s: State, pid: nat): State {
    if pid !in s.flights || !s.flights[pid].Erasing? then s
    else
      var f := s.flights[pid];
      With(s.(revokes := s.revokes - {f.tab}), pid, Flushing(f.rest))
  }

  // ---------------------------------------------------------------- invalidating

  function NoticeFor(doc: Doc, source: string): Notice {
    Notice(doc.documentId, doc.epoch, source)
  }

  /** The notices for the given tabs; one that is pending already is left as it is. */
  function NoticesFor(docs: map<nat, Doc>, revokes: map<nat, Notice>, tabs: set<nat>, source: string): map<nat, Notice> {
    map t | t in tabs && t in docs && t !in revokes :: NoticeFor(docs[t], source)
  }

  /** A global reason denies every tracked tab and poisons the profile. */
  function InvalidateReadStep(s: State, pid: nat, tab: nat, global: bool): State {
    if pid in s.flights then s
    else
      var removals := if global then s.docs.Keys else if tab in s.docs then {tab} else {};
      With(s, pid, Denying(global, NoticesFor(s.docs, s.revokes, removals, s.source), removals))
  }

  function InvalidateWriteStep(s: State, pid: nat): State {
    if pid !in s.flights || !s.flights[pid].Denying? then s
    else
      var f := s.flights[pid];
      With(s.(poison := s.poison || f.poison, revokes := s.revokes + f.notices), pid, Removing(f.removals))
  }

  function InvalidateRemoveStep(s: State, pid: nat): State {
    if pid !in s.flights || !s.flights[pid].Removing? then s
    else Ended(s.(docs := s.docs - s.flights[pid].removals), pid)
  }

  // ---------------------------------------------------------------- preparing a document

  function PrepareReadStep(s: State, pid: nat, tab: nat, documentId: string, route: string): State {
    if pid in s.flights || !Identifier(documentId) || !Identifier(route) || s.poison || |s.revokes| > MAX_PENDING then s
    else With(s, pid, Preparing(tab, documentId, route))
  }

  function PrepareLookStep(s: State, pid: nat): State {
    if pid !in s.flights || !s.flights[pid].Preparing? then s
    else
      var f := s.flights[pid];
      if f.tab in s.revokes then Ended(s, pid)
      else if f.tab !in s.docs then With(s, pid, Fresh(f.tab, f.documentId, f.route))
      else if s.docs[f.tab].documentId != f.documentId || s.docs[f.tab].route != f.route then Ended(s, pid)
      else With(s, pid, Known(f.tab, s.docs[f.tab]))
  }

  function PrepareKnownStep(s: State, pid: nat): State {
    if pid !in s.flights || !s.flights[pid].Known? then s
    else if s.poison then Ended(s, pid)
    else
      var f := s.flights[pid];
      With(Logged(s, Prepared(f.tab, f.doc)), pid, Tracking(f.tab, f.doc))
  }

  /** An epoch is a fresh random UUID. */
  function PrepareWriteStep(s: State, pid: nat, epoch: string): State {
    if pid !in s.flights || !s.flights[pid].Fresh? || epoch in s.minted then s
    else
      var f := s.flights[pid];
      var doc := Doc(f.documentId, epoch, f.route, s.source, false);
      With(s.(docs := s.docs[f.tab := doc], minted := s.minted + {epoch}), pid, Written(f.tab, doc))
  }

  function PrepareCheckStep(s: State, pid: nat): State {
    if pid !in s.flights || !s.flights[pid].Written? then s
    else
      var f := s.flights[pid];
      if s.poison || !Holds(s, f.tab, f.doc.epoch) then Ended(s, pid)
      else With(Logged(s, Prepared(f.tab, f.doc)), pid, Tracking(f.tab, f.doc))
  }

  predicate Holds(s: State, tab: nat, epoch: string) {
    tab in s.docs && s.docs[tab].epoch == epoch
  }

  // ---------------------------------------------------------------- observing

  /** The three checks a publication, a mark and a proof share. */
  predicate Clear(s: State, tab: nat, doc: Doc) {
    !s.poison && tab !in s.revokes && Holds(s, tab, doc.epoch)
  }

  function PublishReadStep(s: State, pid: nat): State {
    if pid !in s.flights || !s.flights[pid].Tracking? then s
    else
      var f := s.flights[pid];
      if !Clear(s, f.tab, f.doc) || s.docs[f.tab].documentId != f.doc.documentId || s.docs[f.tab].source != s.source
      then Ended(s, pid)
      else With(s, pid, Publishing(f.tab, f.doc))
  }

  function PublishPostStep(s: State, pid: nat, accepted: bool): State {
    if pid !in s.flights || !s.flights[pid].Publishing? then s
    else
      var f := s.flights[pid];
      var t := Logged(s, Observed(f.tab, f.doc));
      if accepted then With(t, pid, Replied(f.tab, f.doc)) else Ended(t, pid)
  }

  function MarkReadStep(s: State, pid: nat): State {
    if pid !in s.flights || !s.flights[pid].Replied? then s
    else
      var f := s.flights[pid];
      if Clear(s, f.tab, f.doc) then With(s, pid, Marking(f.tab, f.doc)) else Ended(s, pid)
  }

  /** The document is written back as observed, whatever became of it since it was read. */
  function MarkWriteStep(s: State, pid: nat): State {
    if pid !in s.flights || !s.flights[pid].Marking? then s
    else
      var f := s.flights[pid];
      With(s.(docs := s.docs[f.tab := f.doc.(observed := true)]), pid, Proving(f.tab, f.doc))
  }

  function ProofReadStep(s: State, pid: nat, witnessed: bool): State {
    if pid !in s.flights || !s.flights[pid].Proving? then s
    else
      var f := s.flights[pid];
      if witnessed && Clear(s, f.tab, f.doc) then Ended(Logged(s, Proof(f.tab, f.doc)), pid) else Ended(s, pid)
  }

  function Step(s: State, e: Event): State {
    match e
    case FlushRead(pid, tabs) => FlushReadStep(s, pid, tabs)
    case FlushPost(pid, accepted) => FlushPostStep(s, pid, accepted)
    case FlushCompare(pid) => FlushCompareStep(s, pid)
    case FlushErase(pid) => FlushEraseStep(s, pid)
    case InvalidateRead(pid, tab, global) => InvalidateReadStep(s, pid, tab, global)
    case InvalidateWrite(pid) => InvalidateWriteStep(s, pid)
    case InvalidateRemove(pid) => InvalidateRemoveStep(s, pid)
    case PrepareRead(pid, tab, documentId, route) => PrepareReadStep(s, pid, tab, documentId, route)
    case PrepareLook(pid) => PrepareLookStep(s, pid)
    case PrepareKnown(pid) => PrepareKnownStep(s, pid)
    case PrepareWrite(pid, epoch) => PrepareWriteStep(s, pid, epoch)
    case PrepareCheck(pid) => PrepareCheckStep(s, pid)
    case PublishRead(pid) => PublishReadStep(s, pid)
    case PublishPost(pid, accepted) => PublishPostStep(s, pid, accepted)
    case MarkRead(pid) => MarkReadStep(s, pid)
    case MarkWrite(pid) => MarkWriteStep(s, pid)
    case ProofRead(pid, witnessed) => ProofReadStep(s, pid, witnessed)
    case Die(pid) => Ended(s, pid)
    case Restart(source) => s.(source := source, flights := map[])
  }

  function Run(s: State, events: seq<Event>): State
    decreases |events|
  {
    if events == [] then s else Run(Step(s, events[0]), events[1..])
  }

  /** None of the steps is one of this call, and the worker lives on. */
  predicate OfOthers(events: seq<Event>, pid: nat) {
    forall e :: e in events ==> !e.Restart? && e.pid != pid
  }

  predicate SameFlight(s: State, t: State, pid: nat) {
    (pid in t.flights <==> pid in s.flights) && (pid in s.flights ==> t.flights[pid] == s.flights[pid])
  }

  lemma FlushLeavesFlight(s: State, e: Event, pid: nat)
    requires e.FlushRead? || e.FlushPost? || e.FlushCompare? || e.FlushErase?
    requires e.pid != pid
    ensures SameFlight(s, Step(s, e), pid)
  {
    hide Listing, Clear, Holds, FlushBusy, Snapshot, NoticesFor, Identifier;
  }

  lemma InvalidateLeavesFlight(s: State, e: Event, pid: nat)
    requires e.InvalidateRead? || e.InvalidateWrite? || e.InvalidateRemove? || e.Die?
    requires e.pid != pid
    ensures SameFlight(s, Step(s, e), pid)
  {
    hide Listing, Clear, Holds, FlushBusy, Snapshot, NoticesFor, Identifier;
  }

  lemma PrepareReadsLeaveFlight(s: State, e: Event, pid: nat)
    requires e.PrepareRead? || e.PrepareLook? || e.PrepareKnown?
    requires e.pid != pid
    ensures SameFlight(s, Step(s, e), pid)
  {
    hide Listing, Clear, Holds, FlushBusy, Snapshot, NoticesFor, Identifier;
  }

  lemma PrepareWritesLeaveFlight(s: State, e: Event, pid: nat)
    requires e.PrepareWrite? || e.PrepareCheck?
    requires e.pid != pid
    ensures SameFlight(s, Step(s, e), pid)
  {
    hide Listing, Clear, Holds, FlushBusy, Snapshot, NoticesFor, Identifier;
  }

  lemma ObserveLeavesFlight(s: State, e: Event, pid: nat)
    requires e.PublishRead? || e.PublishPost? || e.MarkRead? || e.MarkWrite? || e.ProofRead?
    requires e.pid != pid
    ensures SameFlight(s, Step(s, e), pid)
  {
    hide Listing, Clear, Holds, FlushBusy, Snapshot, NoticesFor, Identifier;
  }

  lemma OthersLeaveFlight(s: State, e: Event, pid: nat)
    requires !e.Restart? && e.pid != pid
    ensures SameFlight(s, Step(s, e), pid)
  {
    hide Step, SameFlight;
    if e.FlushRead? || e.FlushPost? || e.FlushCompare? || e.FlushErase? {
      FlushLeavesFlight(s, e, pid);
    } else if e.InvalidateRead? || e.InvalidateWrite? || e.InvalidateRemove? || e.Die? {
      InvalidateLeavesFlight(s, e, pid);
    } else if e.PrepareRead? || e.PrepareLook? || e.PrepareKnown? {
      PrepareReadsLeaveFlight(s, e, pid);
    } else if e.PrepareWrite? || e.PrepareCheck? {
      PrepareWritesLeaveFlight(s, e, pid);
    } else {
      ObserveLeavesFlight(s, e, pid);
    }
  }

  lemma {:induction false} OthersLeaveFlights(s: State, events: seq<Event>, pid: nat)
    requires OfOthers(events, pid)
    ensures SameFlight(s, Run(s, events), pid)
    decreases |events|
  {
    hide Step;
    if events != [] {
      OthersLeaveFlight(s, events[0], pid);
      OthersLeaveFlights(Step(s, events[0]), events[1..], pid);
    }
  }

  lemma {:induction false} RunAppend(s: State, a: seq<Event>, b: seq<Event>)
    ensures Run(s, a + b) == Run(Run(s, a), b)
    decreases |a|
  {
    hide Step;
    if a == [] {
      assert a + b == b;
    } else {
      assert (a + b)[0] == a[0] && (a + b)[1..] == a[1..] + b;
      RunAppend(Step(s, a[0]), a[1..], b);
    }
  }

  lemma NothingRuns(s: State)
    ensures Run(s, []) == s
  {
  }

  lemma RunOne(s: State, e: Event)
    ensures Run(s, [e]) == Step(s, e)
  {
    hide Step;
    assert [e][1..] == [];
  }

  /** a and b agree up to n, where a ends before b does or has the smaller character. */
  predicate PartAt(a: string, b: string, n: nat) {
    n <= |a| && n < |b| && a[..n] == b[..n] && (n < |a| ==> a[n] < b[n])
  }

  lemma SharedStart(a: string, b: string, n: nat)
    requires 0 < n <= |a| && n <= |b| && a[..n] == b[..n]
    ensures a[0] == b[0]
  {
    assert a[..n][0] == b[..n][0];
  }

  /** The order is the lexicographic one. */
  lemma {:induction false} BeforeIff(a: string, b: string)
    ensures Before(a, b) <==> exists n: nat :: PartAt(a, b, n)
    decreases |a|
  {
    if a == [] || b == [] {
      if b != [] {
        assert PartAt(a, b, 0);
      }
    } else if a[0] == b[0] {
      BeforeIff(a[1..], b[1..]);
      if Before(a[1..], b[1..]) {
        var n: nat :| PartAt(a[1..], b[1..], n);
        assert a[..n + 1] == [a[0]] + a[1..][..n] && b[..n + 1] == [b[0]] + b[1..][..n];
        assert PartAt(a, b, n + 1);
      }
      forall n: nat | PartAt(a, b, n) ensures n > 0 && PartAt(a[1..], b[1..], n - 1) {
        assert a[1..][..n - 1] == a[..n][1..] && b[1..][..n - 1] == b[..n][1..];
      }
    } else {
      assert PartAt(a, b, 0) <==> a[0] < b[0];
      forall n: nat | PartAt(a, b, n) ensures n == 0 {
        if n > 0 {
          SharedStart(a, b, n);
        }
      }
    }
  }

  function ValueOf(digits: string): int {
    if digits == [] then 0 else 10 * ValueOf(digits[..|digits| - 1]) + (digits[|digits| - 1] as int - '0' as int)
  }

  /** A tab's key ends in its decimal digits, without leading zeros. */
  lemma {:induction false} DecimalReads(n: nat)
    ensures var d := Decimal(n);
      && |d| > 0 && (n > 0 ==> d[0] != '0') && (n == 0 ==> d == "0")
      && (forall i :: 0 <= i < |d| ==> '0' <= d[i] <= '9') && ValueOf(d) == n
  {
    if n >= 10 {
      DecimalReads(n / 10);
      assert Decimal(n)[..|Decimal(n)| - 1] == Decimal(n / 10);
    }
  }

  lemma {:induction false} NotBeforeItself(a: string)
    ensures !Before(a, a)
  {
    if a != [] {
      NotBeforeItself(a[1..]);
    }
  }

  lemma ListedOnce(revokes: map<nat, Notice>, tabs: seq<nat>)
    requires Listing(revokes, tabs)
    ensures forall i, j :: 0 <= i < j < |tabs| ==> tabs[i] != tabs[j]
  {
    forall i, j | 0 <= i < j < |tabs| ensures tabs[i] != tabs[j] {
      NotBeforeItself(Decimal(tabs[i]));
    }
  }

  lemma {:induction false} SnapshotIs(revokes: map<nat, Notice>, order: seq<nat>)
    requires forall t :: t in order ==> t in revokes
    ensures |Snapshot(revokes, order)| == |order|
    ensures forall i :: 0 <= i < |order| ==> Snapshot(revokes, order)[i] == (order[i], revokes[order[i]])
    decreases |order|
  {
    if order != [] {
      SnapshotIs(revokes, order[1..]);
    }
  }

  // ---------------------------------------------------------------- poison

  /** The effects that hand out attribution. */
  predicate Granted(e: Effect) {
    e.Prepared? || e.Proof?
  }

  function Grants(log: seq<Effect>): (r: seq<Effect>)
    ensures forall e :: e in r <==> e in log && Granted(e)
  {
    if log == [] then []
    else Grants(log[..|log| - 1]) + if Granted(log[|log| - 1]) then [log[|log| - 1]] else []
  }

  /** The effect a step may have on the log, and what made it possible. */
  predicate Justified(s: State, e: Event, x: Effect) {
    match x
    case Prepared(tab, doc) =>
      !s.poison && ((e.PrepareKnown? && Waits(s, e.pid, Known(tab, doc))) || (e.PrepareCheck? && Waits(s, e.pid, Written(tab, doc))))
    case Observed(tab, doc) => e.PublishPost? && Waits(s, e.pid, Publishing(tab, doc))
    case Proof(tab, doc) => e.ProofRead? && Waits(s, e.pid, Proving(tab, doc)) && Clear(s, tab, doc)
    case Acked(epoch) => e.FlushPost? && e.pid in s.flights && s.flights[e.pid].Flushing? && s.flights[e.pid].todo != []
                         && s.flights[e.pid].todo[0].1.epoch == epoch
  }

  predicate Waits(s: State, pid: nat, f: Flight) {
    pid in s.flights && s.flights[pid] == f
  }

  /** How the flights that matter below come about. */
  predicate Arises(s: State, e: Event, pid: nat, f: Flight)
    requires pid in s.flights
  {
    match f
    case Acknowledged(_, notice, _) =>
      e.FlushPost? && s.flights[pid].Flushing? && s.flights[pid].todo != [] && s.flights[pid].todo[0].1 == notice
      && Acked(notice.epoch) in Step(s, e).log
    case Erasing(tab, notice, rest) => e.FlushCompare? && s.flights[pid] == Acknowledged(tab, notice, rest)
    case Publishing(tab, doc) => e.PublishRead? && s.flights[pid] == Tracking(tab, doc) && Clear(s, tab, doc)
    case Marking(tab, doc) => e.MarkRead? && s.flights[pid] == Replied(tab, doc) && Clear(s, tab, doc)
    case _ => true
  }

  predicate FromBefore(s: State, e: Event, pid: nat) {
    var t := Step(s, e);
    pid in t.flights ==>
      (pid in s.flights && s.flights[pid] == t.flights[pid])
      || (pid in s.flights && Arises(s, e, pid, t.flights[pid]))
      || (pid !in s.flights && !Awaiting(t.flights[pid]) && !t.flights[pid].Publishing? && !t.flights[pid].Marking?)
  }

  predicate Awaiting(f: Flight) {
    f.Acknowledged? || f.Erasing?
  }

  lemma FlushFlights(s: State, e: Event, pid: nat)
    requires e.FlushRead? || e.FlushPost? || e.FlushCompare? || e.FlushErase?
    ensures FromBefore(s, e, pid)
  {
    match e
    case FlushRead(_, _) =>
    case FlushPost(_, _) =>
    case FlushCompare(_) =>
    case FlushErase(_) =>
  }

  lemma InvalidateFlights(s: State, e: Event, pid: nat)
    requires e.InvalidateRead? || e.InvalidateWrite? || e.InvalidateRemove? || e.Die? || e.Restart?
    ensures FromBefore(s, e, pid)
  {
  }

  lemma PrepareFlights(s: State, e: Event, pid: nat)
    requires e.PrepareRead? || e.PrepareLook? || e.PrepareKnown? || e.PrepareWrite? || e.PrepareCheck?
    ensures FromBefore(s, e, pid)
  {
  }

  lemma ObserveFlights(s: State, e: Event, pid: nat)
    requires e.PublishRead? || e.PublishPost? || e.MarkRead? || e.MarkWrite? || e.ProofRead?
    ensures FromBefore(s, e, pid)
  {
  }

  lemma FlightsFromBefore(s: State, e: Event, pid: nat)
    ensures FromBefore(s, e, pid)
  {
    hide FromBefore, Step;
    match e
    case FlushRead(_, _) => FlushFlights(s, e, pid);
    case FlushPost(_, _) => FlushFlights(s, e, pid);
    case FlushCompare(_) => FlushFlights(s, e, pid);
    case FlushErase(_) => FlushFlights(s, e, pid);
    case PrepareRead(_, _, _, _) => PrepareFlights(s, e, pid);
    case PrepareLook(_) => PrepareFlights(s, e, pid);
    case PrepareKnown(_) => PrepareFlights(s, e, pid);
    case PrepareWrite(_, _) => PrepareFlights(s, e, pid);
    case PrepareCheck(_) => PrepareFlights(s, e, pid);
    case PublishRead(_) => ObserveFlights(s, e, pid);
    case PublishPost(_, _) => ObserveFlights(s, e, pid);
    case MarkRead(_) => ObserveFlights(s, e, pid);
    case MarkWrite(_) => ObserveFlights(s, e, pid);
    case ProofRead(_, _) => ObserveFlights(s, e, pid);
    case _ => InvalidateFlights(s, e, pid);
  }

  predicate LogGrows(s: State, e: Event) {
    var log := Step(s, e).log;
    log == s.log || (log != [] && log == s.log + [log[|log| - 1]] && Justified(s, e, log[|log| - 1]))
  }

  lemma FlushLog(s: State, e: Event)
    requires e.FlushRead? || e.FlushPost? || e.FlushCompare? || e.FlushErase?
    ensures LogGrows(s, e)
  {
  }

  lemma PrepareLog(s: State, e: Event)
    requires e.PrepareRead? || e.PrepareLook? || e.PrepareKnown? || e.PrepareWrite? || e.PrepareCheck?
    ensures LogGrows(s, e)
  {
  }

  lemma ObserveLog(s: State, e: Event)
    requires e.PublishRead? || e.PublishPost? || e.MarkRead? || e.MarkWrite? || e.ProofRead?
    ensures LogGrows(s, e)
  {
  }

  lemma StepLog(s: State, e: Event)
    ensures LogGrows(s, e)
  {
    if e.FlushRead? || e.FlushPost? || e.FlushCompare? || e.FlushErase? {
      FlushLog(s, e);
    } else if e.PrepareRead? || e.PrepareLook? || e.PrepareKnown? || e.PrepareWrite? || e.PrepareCheck? {
      PrepareLog(s, e);
    } else if e.PublishRead? || e.PublishPost? || e.MarkRead? || e.MarkWrite? || e.ProofRead? {
      ObserveLog(s, e);
    }
  }

  lemma GrantsMore(log: seq<Effect>, x: Effect)
    ensures Grants(log + [x]) == Grants(log) + if Granted(x) then [x] else []
  {
    assert (log + [x])[..|log|] == log;
  }

  lemma {:induction false} LogOnlyGrows(s: State, events: seq<Event>)
    ensures s.log <= Run(s, events).log
    decreases |events|
  {
    hide Step, Justified;
    if events != [] {
      StepLog(s, events[0]);
      LogOnlyGrows(Step(s, events[0]), events[1..]);
    }
  }

  /** Some call is about to publish this document: it passed its read of storage before. */
  ghost predicate SomePublishing(s: State, tab: nat, doc: Doc) {
    exists pid :: Waits(s, pid, Publishing(tab, doc))
  }

  lemma PoisonStays(s: State, e: Event)
    requires s.poison
    ensures Step(s, e).poison
  {
  }

  lemma {:induction false} PoisonStaysOn(s: State, events: seq<Event>)
    requires s.poison
    ensures Run(s, events).poison
    decreases |events|
  {
    hide Step;
    if events != [] {
      PoisonStays(s, events[0]);
      PoisonStaysOn(Step(s, events[0]), events[1..]);
    }
  }

  lemma NoNewPublishing(s: State, e: Event, pid: nat, tab: nat, doc: Doc)
    requires s.poison && Waits(Step(s, e), pid, Publishing(tab, doc))
    ensures Waits(s, pid, Publishing(tab, doc))
  {
    hide Step;
    FlightsFromBefore(s, e, pid);
  }

  /** Poison is absorbing. Once it is written no call hands out a document or a proof any
      more, and an observation reaches the relay only if it had been cleared before. */
  lemma {:induction false} PoisonIsAbsorbing(s: State, events: seq<Event>)
    requires s.poison
    ensures Run(s, events).poison && Grants(Run(s, events).log) == Grants(s.log)
    ensures forall tab, doc :: Observed(tab, doc) in Run(s, events).log ==> Observed(tab, doc) in s.log || SomePublishing(s, tab, doc)
    decreases |events|
  {
    if events != [] {
      hide Step, Grants, Clear;
      var e, t := events[0], Step(s, events[0]);
      PoisonStays(s, e);
      StepLog(s, e);
      if t.log != s.log {
        GrantsMore(s.log, t.log[|t.log| - 1]);
      }
      PoisonIsAbsorbing(t, events[1..]);
      forall tab, doc | SomePublishing(t, tab, doc) ensures SomePublishing(s, tab, doc) {
        var pid :| Waits(t, pid, Publishing(tab, doc));
        NoNewPublishing(s, e, pid, tab, doc);
      }
    }
  }

  // ---------------------------------------------------------------- one flush at a time

  predicate OneFlush(s: State) {
    forall p, q :: p in s.flights && q in s.flights && InFlush(s.flights[p]) && InFlush(s.flights[q]) ==> p == q
  }

  /** A flush in flight was one before, or is the one that has just begun. */
  predicate FlushFrom(s: State, e: Event, pid: nat) {
    var t := Step(s, e);
    pid in t.flights && InFlush(t.flights[pid]) ==>
      (pid in s.flights && InFlush(s.flights[pid])) || (e.FlushRead? && e.pid == pid && !FlushBusy(s))
  }

  lemma FlushesFromOwn(s: State, e: Event)
    requires e.FlushRead? || e.FlushPost? || e.FlushCompare? || e.FlushErase?
    ensures FlushFrom(s, e, e.pid)
  {
    hide Listing, Holds;
  }

  lemma FlushesFromDenial(s: State, e: Event)
    requires e.InvalidateRead? || e.InvalidateWrite? || e.InvalidateRemove? || e.Die?
    ensures FlushFrom(s, e, e.pid)
  {
    hide Listing, Clear, Holds, FlushBusy, Snapshot, NoticesFor;
  }

  lemma FlushesFromPreparation(s: State, e: Event)
    requires e.PrepareRead? || e.PrepareLook? || e.PrepareKnown? || e.PrepareWrite? || e.PrepareCheck?
    ensures FlushFrom(s, e, e.pid)
  {
    hide Listing, Clear, Holds, FlushBusy, Identifier;
  }

  lemma FlushesFromObservation(s: State, e: Event)
    requires e.PublishRead? || e.PublishPost? || e.MarkRead? || e.MarkWrite? || e.ProofRead?
    ensures FlushFrom(s, e, e.pid)
  {
    hide Listing, Clear, Holds, FlushBusy;
  }

  lemma FlushesFrom(s: State, e: Event, pid: nat)
    ensures FlushFrom(s, e, pid)
  {
    if !e.Restart? {
      hide Step, FlushFrom;
      if e.pid != pid {
        OthersLeaveFlight(s, e, pid);
        UnmovedFrom(s, e, pid);
      } else if e.FlushRead? || e.FlushPost? || e.FlushCompare? || e.FlushErase? {
        FlushesFromOwn(s, e);
      } else if e.InvalidateRead? || e.InvalidateWrite? || e.InvalidateRemove? || e.Die? {
        FlushesFromDenial(s, e);
      } else if e.PrepareRead? || e.PrepareLook? || e.PrepareKnown? || e.PrepareWrite? || e.PrepareCheck? {
        FlushesFromPreparation(s, e);
      } else {
        FlushesFromObservation(s, e);
      }
    }
  }

  lemma UnmovedFrom(s: State, e: Event, pid: nat)
    requires SameFlight(s, Step(s, e), pid)
    ensures FlushFrom(s, e, pid)
  {
    hide Step;
  }

  lemma OneFlushStep(s: State, e: Event)
    requires OneFlush(s)
    ensures OneFlush(Step(s, e))
  {
    hide Step;
    var t := Step(s, e);
    forall p, q | p in t.flights && q in t.flights && InFlush(t.flights[p]) && InFlush(t.flights[q]) ensures p == q {
      FlushesFrom(s, e, p);
      FlushesFrom(s, e, q);
    }
  }

  lemma {:induction false} OneFlushRun(s: State, events: seq<Event>)
    requires OneFlush(s)
    ensures OneFlush(Run(s, events))
    decreases |events|
  {
    hide Step, OneFlush;
    if events != [] {
      OneFlushStep(s, events[0]);
      OneFlushRun(Step(s, events[0]), events[1..]);
    }
  }

  // ---------------------------------------------------------------- revoke notices

  /** The relay has acknowledged what a flush is about to erase. */
  predicate FlightAcked(s: State, pid: nat)
    requires pid in s.flights
  {
    var f := s.flights[pid];
    f.Acknowledged? || f.Erasing? ==> Acked(f.notice.epoch) in s.log
  }

  predicate AckedFirst(s: State) {
    forall pid :: pid in s.flights ==> FlightAcked(s, pid)
  }

  lemma AckedFirstStep(s: State, e: Event)
    requires AckedFirst(s)
    ensures AckedFirst(Step(s, e)) && s.log <= Step(s, e).log
  {
    hide Step;
    var t := Step(s, e);
    StepLog(s, e);
    forall pid | pid in t.flights ensures FlightAcked(t, pid) {
      if Awaiting(t.flights[pid]) {
        FlightsFromBefore(s, e, pid);
        assert pid in s.flights ==> FlightAcked(s, pid);
      }
    }
  }

  lemma {:induction false} AckedFirstRun(s: State, events: seq<Event>)
    requires AckedFirst(s)
    ensures AckedFirst(Run(s, events)) && s.log <= Run(s, events).log
    decreases |events|
  {
    if events != [] {
      AckedFirstStep(s, events[0]);
      AckedFirstRun(Step(s, events[0]), events[1..]);
    }
  }

  lemma NoticeLeavesByRemoval(s: State, e: Event, tab: nat)
    requires AckedFirst(s) && tab in s.revokes && tab !in Step(s, e).revokes
    ensures RemovesAcked(s, e, tab)
  {
    assert e.FlushErase? ==> FlightAcked(s, e.pid);
  }

  /** The step removes the notice of the tab, for which its flush had an acknowledgement. */
  predicate RemovesAcked(s: State, e: Event, tab: nat) {
    && e.FlushErase? && e.pid in s.flights && s.flights[e.pid].Erasing? && s.flights[e.pid].tab == tab
    && Acked(s.flights[e.pid].notice.epoch) in s.log
  }

  /** In any run, a notice that is gone was removed by a flush that had an acknowledgement for
      its tab. */
  lemma {:induction false} NoticeLeavesOnlyAfterAck(s: State, events: seq<Event>, tab: nat)
    requires AckedFirst(s) && tab in s.revokes && tab !in Run(s, events).revokes
    ensures exists k :: 0 <= k < |events| && RemovesAcked(Run(s, events[..k]), events[k], tab)
    decreases |events|
  {
    hide Step, RemovesAcked;
    var t := Step(s, events[0]);
    if tab !in t.revokes {
      NoticeLeavesByRemoval(s, events[0], tab);
      NothingRuns(s);
      assert events[..0] == [];
    } else {
      AckedFirstStep(s, events[0]);
      NoticeLeavesOnlyAfterAck(t, events[1..], tab);
      var k :| 0 <= k < |events| - 1 && RemovesAcked(Run(t, events[1..][..k]), events[1..][k], tab);
      assert events[..k + 1][0] == events[0] && events[..k + 1][1..] == events[1..][..k];
      assert RemovesAcked(Run(s, events[..k + 1]), events[k + 1], tab);
    }
  }

  function Lookup(m: map<nat, Notice>, tab: nat): Option<Notice> {
    if tab in m then Some(m[tab]) else None
  }

  /** What a step writes under the revoke key of a tab, if it writes it. */
  function Touch(s: State, e: Event, tab: nat): Option<Option<Notice>> {
    match e
    case InvalidateWrite(pid) =>
      if pid in s.flights && s.flights[pid].Denying? && tab in s.flights[pid].notices
      then Some(Some(s.flights[pid].notices[tab])) else None
    case FlushErase(pid) =>
      if pid in s.flights && s.flights[pid].Erasing? && s.flights[pid].tab == tab then Some(None) else None
    case _ => None
  }

  function LastTouch(s: State, events: seq<Event>, tab: nat): Option<Option<Notice>>
    decreases |events|
  {
    if events == [] then None
    else
      var later := LastTouch(Step(s, events[0]), events[1..], tab);
      if later.Some? then later else Touch(s, events[0], tab)
  }

  lemma KeyHoldsTouch(s: State, e: Event, tab: nat)
    ensures Lookup(Step(s, e).revokes, tab) == if Touch(s, e, tab).Some? then Touch(s, e, tab).value else Lookup(s.revokes, tab)
  {
  }

  lemma {:induction false} KeyHoldsLastTouch(s: State, events: seq<Event>, tab: nat)
    ensures Lookup(Run(s, events).revokes, tab)
            == if LastTouch(s, events, tab).Some? then LastTouch(s, events, tab).value else Lookup(s.revokes, tab)
    decreases |events|
  {
    if events != [] {
      hide Step, Touch, Lookup;
      KeyHoldsTouch(s, events[0], tab);
      KeyHoldsLastTouch(Step(s, events[0]), events[1..], tab);
    }
  }

  predicate Unacked(s: State, tab: nat) {
    tab in s.revokes && Acked(s.revokes[tab].epoch) !in s.log
  }

  /** An invalidation that has read storage is about to write an unacknowledged notice for the
      tab. */
  predicate CarriesUnacked(s: State, q: nat, tab: nat) {
    q in s.flights && s.flights[q].Denying? && tab in s.flights[q].notices && Acked(s.flights[q].notices[tab].epoch) !in s.log
  }

  /** The call is neither cut short nor does it take its next step. */
  predicate Spares(events: seq<Event>, pid: nat) {
    forall e :: e in events ==> !e.Restart? && !(e.Die? && e.pid == pid) && !(e.FlushErase? && e.pid == pid)
  }

  /** After these steps of other calls, the removal that the flush is about to make takes away
      an unacknowledged notice. */
  predicate DropsUnacked(s: State, pid: nat, tab: nat, between: seq<Event>) {
    Spares(between, pid) && Unacked(Run(s, between), tab)
  }

  /** The flush is about to erase the key of the tab, which holds an acknowledged notice, and
      nobody carries an unacknowledged one. */
  ghost predicate SafeToErase(s: State, pid: nat, tab: nat) {
    && OneFlush(s) && pid in s.flights && s.flights[pid].Erasing? && s.flights[pid].tab == tab
    && tab in s.revokes && Acked(s.revokes[tab].epoch) in s.log
    && forall q :: !CarriesUnacked(s, q, tab)
  }

  /** How a notice for a tab comes to be carried. */
  predicate CarriedFrom(s: State, e: Event, q: nat, tab: nat) {
    var t := Step(s, e);
    q in t.flights && t.flights[q].Denying? && tab in t.flights[q].notices ==>
      (q in s.flights && s.flights[q] == t.flights[q]) || tab !in s.revokes
  }

  lemma CarryingFrom(s: State, e: Event, q: nat, tab: nat)
    ensures CarriedFrom(s, e, q, tab)
  {
    hide Listing, Clear, Holds, FlushBusy;
  }

  lemma ErasingStays(s: State, e: Event, pid: nat)
    requires OneFlush(s) && pid in s.flights && s.flights[pid].Erasing? && Spares([e], pid)
    ensures pid in Step(s, e).flights && Step(s, e).flights[pid] == s.flights[pid]
  {
    assert e in [e];
    if e.pid != pid {
      hide Step;
      OthersLeaveFlight(s, e, pid);
    }
  }

  lemma KeyStaysAcked(s: State, e: Event, pid: nat, tab: nat)
    requires SafeToErase(s, pid, tab) && Spares([e], pid)
    ensures tab in Step(s, e).revokes && Acked(Step(s, e).revokes[tab].epoch) in Step(s, e).log
  {
    hide Listing, Clear, Holds, FlushBusy;
    assert e in [e];
    if e.InvalidateWrite? {
      assert !CarriesUnacked(s, e.pid, tab);
    }
  }

  lemma SafeStays(s: State, e: Event, pid: nat, tab: nat)
    requires SafeToErase(s, pid, tab) && Spares([e], pid)
    ensures SafeToErase(Step(s, e), pid, tab)
  {
    var t := Step(s, e);
    OneFlushStep(s, e);
    ErasingStays(s, e, pid);
    KeyStaysAcked(s, e, pid, tab);
    StepLog(s, e);
    hide Step;
    forall q ensures !CarriesUnacked(t, q, tab) {
      CarryingFrom(s, e, q, tab);
      assert !CarriesUnacked(s, q, tab);
    }
  }

  lemma {:induction false} SafeRun(s: State, events: seq<Event>, pid: nat, tab: nat)
    requires SafeToErase(s, pid, tab) && Spares(events, pid)
    ensures !Unacked(Run(s, events), tab)
    decreases |events|
  {
    if events != [] {
      hide Step, SafeToErase;
      SafeStays(s, events[0], pid, tab);
      SafeRun(Step(s, events[0]), events[1..], pid, tab);
    }
  }

  /** When a removal that the comparison has allowed can take away a notice the relay has not
      acknowledged: exactly when, at the comparison, an invalidation is in flight that carries
      an unacknowledged notice for the tab. None can come up later, since the key is taken. */
  lemma EraseDropsUnackedIff(s: State, pid: nat)
    requires AckedFirst(s) && OneFlush(s) && pid in s.flights && s.flights[pid].Acknowledged?
    requires Step(s, FlushCompare(pid)).flights[pid].Erasing?
    ensures var tab := s.flights[pid].tab;
      (exists between :: DropsUnacked(Step(s, FlushCompare(pid)), pid, tab, between)) <==> exists q :: CarriesUnacked(s, q, tab)
  {
    var tab, s1 := s.flights[pid].tab, Step(s, FlushCompare(pid));
    assert FlightAcked(s, pid);
    OneFlushStep(s, FlushCompare(pid));
    if q :| CarriesUnacked(s, q, tab) {
      CarriedLands(s1, pid, q, tab);
    } else {
      forall q ensures !CarriesUnacked(s1, q, tab) {
        assert !CarriesUnacked(s, q, tab);
      }
      assert SafeToErase(s1, pid, tab);
      hide Step, SafeToErase;
      forall between ensures !DropsUnacked(s1, pid, tab, between) {
        if Spares(between, pid) {
          SafeRun(s1, between, pid, tab);
        }
      }
    }
  }

  lemma CarriedLands(s: State, pid: nat, q: nat, tab: nat)
    requires CarriesUnacked(s, q, tab)
    ensures DropsUnacked(s, pid, tab, [InvalidateWrite(q)])
  {
    assert [InvalidateWrite(q)][1..] == [];
    assert Run(s, [InvalidateWrite(q)]) == Step(s, InvalidateWrite(q));
  }

  // ---------------------------------------------------------------- revoked epochs

  /** No document with this epoch is left, and no call is about to write one back. */
  predicate Gone(s: State, epoch: string) {
    && epoch in s.minted
    && (forall tab :: tab in s.docs ==> s.docs[tab].epoch != epoch)
    && (forall pid :: pid in s.flights && s.flights[pid].Marking? ==> s.flights[pid].doc.epoch != epoch)
  }

  predicate ForEpoch(x: Effect, epoch: string) {
    x.Proof? && x.doc.epoch == epoch
  }

  lemma DocFrom(s: State, e: Event, tab: nat)
    requires tab in Step(s, e).docs
    ensures var epoch := Step(s, e).docs[tab].epoch;
      Holds(s, tab, epoch) || epoch !in s.minted
      || (e.MarkWrite? && e.pid in s.flights && s.flights[e.pid].Marking? && s.flights[e.pid].doc.epoch == epoch)
  {
  }

  lemma GoneStep(s: State, e: Event, epoch: string)
    requires Gone(s, epoch)
    ensures Gone(Step(s, e), epoch)
  {
    hide Step;
    var t := Step(s, e);
    forall tab | tab in t.docs ensures t.docs[tab].epoch != epoch {
      DocFrom(s, e, tab);
    }
    forall pid | pid in t.flights && t.flights[pid].Marking? ensures t.flights[pid].doc.epoch != epoch {
      FlightsFromBefore(s, e, pid);
    }
    MintedStays(s, e, epoch);
  }

  lemma MintedStays(s: State, e: Event, epoch: string)
    requires epoch in s.minted
    ensures epoch in Step(s, e).minted
  {
  }

  /** An epoch that is gone stays gone, and is never proven again. */
  lemma {:induction false} GoneIsNeverProven(s: State, events: seq<Event>, epoch: string)
    requires Gone(s, epoch)
    ensures Gone(Run(s, events), epoch) && s.log <= Run(s, events).log
    ensures forall i :: |s.log| <= i < |Run(s, events).log| ==> !ForEpoch(Run(s, events).log[i], epoch)
    decreases |events|
  {
    if events != [] {
      hide Step, Gone;
      var t := Step(s, events[0]);
      GoneStep(s, events[0], epoch);
      StepLog(s, events[0]);
      NoProofOfGone(s, events[0], epoch);
      GoneIsNeverProven(t, events[1..], epoch);
    }
  }

  lemma NoProofOfGone(s: State, e: Event, epoch: string)
    requires Gone(s, epoch) && LogGrows(s, e)
    ensures |Step(s, e).log| > |s.log| ==> !ForEpoch(Step(s, e).log[|s.log|], epoch)
  {
    hide Step;
  }
}
