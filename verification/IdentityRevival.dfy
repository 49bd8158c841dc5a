/** When an epoch whose document has gone can be proven once more. */
module IdentityRevival {
  import opened Basics
  import opened IdentityRevocation

  // ---------------------------------------------------------------- the order of the keys

  lemma {:induction false} BeforeTrans(a: string, b: string, c: string)
    requires Before(a, b) && Before(b, c)
    ensures Before(a, c)
  {
    if a != [] && a[0] == b[0] && b[0] == c[0] {
      BeforeTrans(a[1..], b[1..], c[1..]);
    }
  }

  lemma {:induction false} BeforeTotal(a: string, b: string)
    requires a != b
    ensures Before(a, b) || Before(b, a)
  {
    if a != [] && b != [] && a[0] == b[0] {
      assert a == [a[0]] + a[1..] && b == [b[0]] + b[1..];
      BeforeTotal(a[1..], b[1..]);
    }
  }

  lemma {:induction false} DecimalsTellApart(n: nat, m: nat)
    requires Decimal(n) == Decimal(m)
    ensures n == m
  {
    var a, b := Decimal(n), Decimal(m);
    assert |a| == 1 <==> n < 10;
    assert |b| == 1 <==> m < 10;
    assert a[|a| - 1] == ('0' as int + n % 10) as char && b[|b| - 1] == ('0' as int + m % 10) as char;
    if n >= 10 && m >= 10 {
      assert a[..|a| - 1] == Decimal(n / 10) && b[..|b| - 1] == Decimal(m / 10);
      DecimalsTellApart(n / 10, m / 10);
    }
  }

  predicate First(keys: set<nat>, tab: nat) {
    tab in keys && forall k :: k in keys && k != tab ==> Before(Decimal(tab), Decimal(k))
  }

  lemma {:induction false} FirstExists(keys: set<nat>) returns (tab: nat)
    requires keys != {}
    ensures First(keys, tab)
    decreases |keys|
  {
    var one :| one in keys;
    var rest := keys - {one};
    if rest == {} {
      tab := one;
      assert forall k :: k in keys ==> k in rest || k == one;
    } else {
      var other := FirstExists(rest);
      if Decimal(one) == Decimal(other) {
        DecimalsTellApart(one, other);
      }
      BeforeTotal(Decimal(one), Decimal(other));
      tab := if Before(Decimal(one), Decimal(other)) then one else other;
      hide Before, Decimal;
      forall k | k in keys && k != tab ensures Before(Decimal(tab), Decimal(k)) {
        if tab == one && k != other {
          assert k in rest;
          BeforeTrans(Decimal(one), Decimal(other), Decimal(k));
        }
      }
    }
  }

  /** The pending keys can be listed in the order in which the flush sorts them. */
  lemma {:induction false} ListingExists(revokes: map<nat, Notice>) returns (tabs: seq<nat>)
    ensures Listing(revokes, tabs)
    decreases |revokes|
  {
    if revokes == map[] {
      tabs := [];
    } else {
      assert revokes.Keys != {};
      var tab := FirstExists(revokes.Keys);
      var rest := ListingExists(revokes - {tab});
      tabs := [tab] + rest;
      forall i, j | 0 <= i < j < |tabs| ensures Before(Decimal(tabs[i]), Decimal(tabs[j])) {
        assert tabs[j] == rest[j - 1] && tabs[j] in rest;
      }
    }
  }

  // ---------------------------------------------------------------- a queue that has not overflown

  lemma RunThen(s: State, events: seq<Event>, e: Event)
    ensures Run(s, events + [e]) == Step(Run(s, events), e)
  {
    RunAppend(s, events, [e]);
    RunOne(Run(s, events), e);
  }

  lemma FlushTakesFirst(s: State, tabs: seq<nat>)
    requires s.flights == map[] && |s.revokes| <= MAX_PENDING && Listing(s.revokes, tabs) && tabs != []
    ensures tabs[0] in s.revokes
    ensures var rest := Snapshot(s.revokes, FirstBatch(tabs)[1..]);
      Step(s, FlushRead(0, tabs)) == With(s, 0, Flushing([(tabs[0], s.revokes[tabs[0]])] + rest))
  {
    assert tabs[0] in tabs && FirstBatch(tabs)[0] == tabs[0];
    hide Listing;
  }

  lemma HeadIsPosted(s: State, tab: nat, notice: Notice, rest: seq<(nat, Notice)>)
    requires 0 in s.flights && s.flights[0] == Flushing([(tab, notice)] + rest) && notice.source == s.source
    ensures Step(s, FlushPost(0, true)) == With(Logged(s, Acked(notice.epoch)), 0, Acknowledged(tab, notice, rest))
  {
    assert ([(tab, notice)] + rest)[0] == (tab, notice) && ([(tab, notice)] + rest)[1..] == rest;
  }

  lemma HeadIsCompared(s: State, tab: nat, notice: Notice, rest: seq<(nat, Notice)>)
    requires 0 in s.flights && s.flights[0] == Acknowledged(tab, notice, rest) && tab in s.revokes && s.revokes[tab] == notice
    ensures Step(s, FlushCompare(0)) == With(s, 0, Erasing(tab, notice, rest))
  {
  }

  lemma HeadIsErased(s: State, tab: nat, notice: Notice, rest: seq<(nat, Notice)>)
    requires 0 in s.flights && s.flights[0] == Erasing(tab, notice, rest)
    ensures Step(s, FlushErase(0)) == With(s.(revokes := s.revokes - {tab}), 0, Flushing(rest))
  {
  }

  lemma Restarts(s: State, source: string)
    ensures Step(s, Restart(source)) == s.(source := source, flights := map[])
  {
  }

  lemma ListsAll(revokes: map<nat, Notice>, tabs: seq<nat>)
    requires Listing(revokes, tabs) && tabs != []
    ensures tabs[0] in revokes
  {
    assert tabs[0] in tabs;
  }

  lemma ListsSome(revokes: map<nat, Notice>, tabs: seq<nat>, tab: nat)
    requires Listing(revokes, tabs) && tab in revokes
    ensures tabs != []
  {
    assert tab in tabs;
  }

  /** A worker of the notice's build takes away the first notice. */
  lemma FirstLeaves(s: State, tabs: seq<nat>) returns (events: seq<Event>)
    requires |s.revokes| <= MAX_PENDING && Listing(s.revokes, tabs) && tabs != []
    ensures var t := Run(s, events);
      t.docs == s.docs && t.poison == s.poison && t.revokes == s.revokes - {tabs[0]}
  {
    hide Run, Step, Snapshot;
    ListsAll(s.revokes, tabs);
    var tab, notice := tabs[0], s.revokes[tabs[0]];
    var rest := Snapshot(s.revokes, FirstBatch(tabs)[1..]);
    hide Listing, FirstBatch;
    var s0 := s.(source := notice.source, flights := map[]);
    Restarts(s, notice.source);
    FlushTakesFirst(s0, tabs);
    var s1 := With(s0, 0, Flushing([(tab, notice)] + rest));
    HeadIsPosted(s1, tab, notice, rest);
    var s2 := With(Logged(s1, Acked(notice.epoch)), 0, Acknowledged(tab, notice, rest));
    HeadIsCompared(s2, tab, notice, rest);
    HeadIsErased(With(s2, 0, Erasing(tab, notice, rest)), tab, notice, rest);
    var s3 := With(s2, 0, Erasing(tab, notice, rest));
    var s4 := With(s3.(revokes := s3.revokes - {tab}), 0, Flushing(rest));
    NothingRuns(s);
    events := Played(s, [], s, Restart(notice.source), s0);
    events := Played(s, events, s0, FlushRead(0, tabs), s1);
    events := Played(s, events, s1, FlushPost(0, true), s2);
    events := Played(s, events, s2, FlushCompare(0), s3);
    events := Played(s, events, s3, FlushErase(0), s4);
  }

  /** One more step of a run. */
  lemma Played(start: State, run: seq<Event>, s: State, e: Event, t: State) returns (more: seq<Event>)
    requires Run(start, run) == s && Step(s, e) == t
    ensures Run(start, more) == t
  {
    hide Run, Step;
    more := run + [e];
    RunThen(start, run, e);
  }

  /** Any notice leaves, as long as no more than 128 are pending. */
  lemma {:induction false} NoticeLeaves(s: State, tab: nat) returns (events: seq<Event>)
    requires |s.revokes| <= MAX_PENDING
    ensures var t := Run(s, events);
      t.docs == s.docs && t.poison == s.poison && t.revokes.Keys <= s.revokes.Keys - {tab}
    decreases |s.revokes|
  {
    hide Run, Step, Listing;
    if tab !in s.revokes {
      NothingRuns(s);
      events := [];
    } else {
      var tabs := ListingExists(s.revokes);
      assert tabs != [] by { ListsSome(s.revokes, tabs, tab); }
      ListsAll(s.revokes, tabs);
      var first := FirstLeaves(s, tabs);
      var t := Run(s, first);
      assert |t.revokes| < |s.revokes| by {
        assert t.revokes.Keys == s.revokes.Keys - {tabs[0]};
        assert |t.revokes| == |t.revokes.Keys| && |s.revokes| == |s.revokes.Keys|;
      }
      var rest := NoticeLeaves(t, tab);
      RunAppend(s, first, rest);
      events := first + rest;
    }
  }

  // ---------------------------------------------------------------- a document proven

  lemma StoredIsPrepared(s: State, tab: nat, d: Doc)
    requires 0 !in s.flights && !s.poison && tab !in s.revokes && |s.revokes| <= MAX_PENDING && tab in s.docs && s.docs[tab] == d
    requires Identifier(d.documentId) && Identifier(d.route)
    ensures Run(s, [PrepareRead(0, tab, d.documentId, d.route)] + [PrepareLook(0)] + [PrepareKnown(0)])
            == With(Logged(s, Prepared(tab, d)), 0, Tracking(tab, d))
  {
    hide Identifier, Run;
    var e := PrepareRead(0, tab, d.documentId, d.route);
    RunOne(s, e);
    RunThen(s, [e], PrepareLook(0));
    RunThen(s, [e] + [PrepareLook(0)], PrepareKnown(0));
    var s1 := With(s, 0, Preparing(tab, d.documentId, d.route));
    assert Step(s, e) == s1;
    assert Step(s1, PrepareLook(0)) == With(s1, 0, Known(tab, d));
    assert With(With(s1, 0, Known(tab, d)), 0, Tracking(tab, d)).flights == s.flights[0 := Tracking(tab, d)];
  }

  lemma ClearIsRead(s: State, tab: nat, d: Doc)
    requires 0 in s.flights && Clear(s, tab, d)
    ensures s.flights[0] == Tracking(tab, d) && s.docs[tab] == d && d.source == s.source ==>
              Step(s, PublishRead(0)) == With(s, 0, Publishing(tab, d))
    ensures s.flights[0] == Replied(tab, d) ==> Step(s, MarkRead(0)) == With(s, 0, Marking(tab, d))
  {
  }

  lemma PreparedIsPublished(s: State, tab: nat, d: Doc)
    requires 0 in s.flights && s.flights[0] == Tracking(tab, d) && Clear(s, tab, d) && s.docs[tab] == d && d.source == s.source
    ensures Run(s, [PublishRead(0)] + [PublishPost(0, true)] + [MarkRead(0)])
            == With(Logged(s, Observed(tab, d)), 0, Marking(tab, d))
  {
    var s1 := With(s, 0, Publishing(tab, d));
    var s2 := With(Logged(s1, Observed(tab, d)), 0, Replied(tab, d));
    ClearIsRead(s, tab, d);
    assert Step(s1, PublishPost(0, true)) == s2;
    hide Run, Step;
    ClearIsRead(s2, tab, d);
    RunOne(s, PublishRead(0));
    RunThen(s, [PublishRead(0)], PublishPost(0, true));
    RunThen(s, [PublishRead(0)] + [PublishPost(0, true)], MarkRead(0));
    assert With(s2, 0, Marking(tab, d)).flights == s.flights[0 := Marking(tab, d)];
  }

  function Marked(s: State, pid: nat, tab: nat, doc: Doc): State {
    With(s.(docs := s.docs[tab := doc.(observed := true)]), pid, Proving(tab, doc))
  }

  lemma Marks(s: State, pid: nat, tab: nat, doc: Doc)
    requires pid in s.flights && s.flights[pid] == Marking(tab, doc)
    ensures Step(s, MarkWrite(pid)) == Marked(s, pid, tab, doc)
    ensures !s.poison && tab !in s.revokes ==> Clear(Marked(s, pid, tab, doc), tab, doc)
  {
  }

  lemma Proves(s: State, pid: nat, tab: nat, doc: Doc)
    requires pid in s.flights && s.flights[pid] == Proving(tab, doc) && Clear(s, tab, doc)
    ensures Step(s, ProofRead(pid, true)) == Ended(Logged(s, Proof(tab, doc)), pid)
  {
    hide Clear;
  }

  lemma MarkedIsProven(s: State, pid: nat)
    requires pid in s.flights && s.flights[pid].Marking? && !s.poison && s.flights[pid].tab !in s.revokes
    ensures Run(s, [MarkWrite(pid)] + [ProofRead(pid, true)]).log == s.log + [Proof(s.flights[pid].tab, s.flights[pid].doc)]
  {
    var f := s.flights[pid];
    Marks(s, pid, f.tab, f.doc);
    Proves(Marked(s, pid, f.tab, f.doc), pid, f.tab, f.doc);
    hide Run, Step, Clear;
    RunOne(s, MarkWrite(pid));
    RunThen(s, [MarkWrite(pid)], ProofRead(pid, true));
  }

  /** A new worker of the document's build observes and proves a document that is stored. */
  lemma StoredIsProven(s: State, tab: nat) returns (events: seq<Event>)
    requires !s.poison && tab !in s.revokes && |s.revokes| <= MAX_PENDING && tab in s.docs
    requires Identifier(s.docs[tab].documentId) && Identifier(s.docs[tab].route)
    ensures Run(s, events).log == s.log + [Prepared(tab, s.docs[tab])] + [Observed(tab, s.docs[tab])] + [Proof(tab, s.docs[tab])]
  {
    var d := s.docs[tab];
    var s0 := s.(source := d.source, flights := map[]);
    hide Run, Step, Identifier;
    Restarts(s, d.source);
    var a := [Restart(d.source)];
    RunOne(s, Restart(d.source));
    var b := [PrepareRead(0, tab, d.documentId, d.route)] + [PrepareLook(0)] + [PrepareKnown(0)];
    var s1 := With(Logged(s0, Prepared(tab, d)), 0, Tracking(tab, d));
    StoredIsPrepared(s0, tab, d);
    RunAppend(s, a, b);
    var c := [PublishRead(0)] + [PublishPost(0, true)] + [MarkRead(0)];
    PreparedIsPublished(s1, tab, d);
    RunAppend(s, a + b, c);
    var e := [MarkWrite(0)] + [ProofRead(0, true)];
    MarkedIsProven(With(Logged(s1, Observed(tab, d)), 0, Marking(tab, d)), 0);
    RunAppend(s, a + b + c, e);
    events := a + b + c + e;
  }

  // ---------------------------------------------------------------- what holds in every run

  predicate DocNamed(d: Doc) {
    Identifier(d.documentId) && Identifier(d.route)
  }

  /** Whatever a call carries has passed the checks on identifiers, and a denial of one tab
      carries at most one notice. */
  predicate FlightSound(f: Flight) {
    match f
    case Denying(poison, notices, _) => poison || forall a, b :: a in notices && b in notices ==> a == b
    case Preparing(_, documentId, route) => Identifier(documentId) && Identifier(route)
    case Fresh(_, documentId, route) => Identifier(documentId) && Identifier(route)
    case Known(_, doc) => DocNamed(doc)
    case Written(_, doc) => DocNamed(doc)
    case Tracking(_, doc) => DocNamed(doc)
    case Publishing(_, doc) => DocNamed(doc)
    case Replied(_, doc) => DocNamed(doc)
    case Marking(_, doc) => DocNamed(doc)
    case Proving(_, doc) => DocNamed(doc)
    case _ => true
  }

  predicate Named(s: State) {
    && (forall tab :: tab in s.docs ==> DocNamed(s.docs[tab]))
    && (forall pid :: pid in s.flights ==> FlightSound(s.flights[pid]))
  }

  predicate Sound(s: State) {
    OneFlush(s) && Named(s)
  }

  lemma FlushNames(s: State, e: Event)
    requires Named(s) && (e.FlushRead? || e.FlushPost? || e.FlushCompare? || e.FlushErase?)
    ensures Named(Step(s, e))
  {
    hide Listing, FlushBusy, Snapshot, DocNamed;
  }

  lemma DenialNames(s: State, e: Event)
    requires Named(s) && (e.InvalidateRead? || e.InvalidateWrite? || e.InvalidateRemove? || e.Die? || e.Restart?)
    ensures Named(Step(s, e))
  {
    hide DocNamed;
  }

  lemma PreparationNames(s: State, e: Event)
    requires Named(s) && (e.PrepareRead? || e.PrepareLook? || e.PrepareKnown? || e.PrepareWrite? || e.PrepareCheck?)
    ensures Named(Step(s, e))
  {
    hide Identifier, Holds;
  }

  lemma ObservationNames(s: State, e: Event)
    requires Named(s) && (e.PublishRead? || e.PublishPost? || e.MarkRead? || e.MarkWrite? || e.ProofRead?)
    ensures Named(Step(s, e))
  {
    hide Identifier, Clear;
  }

  lemma StepKeepsSound(s: State, e: Event)
    requires Sound(s)
    ensures Sound(Step(s, e))
  {
    OneFlushStep(s, e);
    hide Step, Named, OneFlush;
    if e.FlushRead? || e.FlushPost? || e.FlushCompare? || e.FlushErase? {
      FlushNames(s, e);
    } else if e.PrepareRead? || e.PrepareLook? || e.PrepareKnown? || e.PrepareWrite? || e.PrepareCheck? {
      PreparationNames(s, e);
    } else if e.PublishRead? || e.PublishPost? || e.MarkRead? || e.MarkWrite? || e.ProofRead? {
      ObservationNames(s, e);
    } else {
      DenialNames(s, e);
    }
  }

  lemma {:induction false} RunKeepsSound(s: State, events: seq<Event>)
    requires Sound(s)
    ensures Sound(Run(s, events))
    decreases |events|
  {
    hide Step, Sound;
    if events != [] {
      StepKeepsSound(s, events[0]);
      RunKeepsSound(Step(s, events[0]), events[1..]);
    }
  }

  // ---------------------------------------------------------------- what the flush in flight can take

  /** A denial in flight is about to write a notice of this epoch for the tab. */
  predicate Rewrites(s: State, q: nat, tab: nat, epoch: string) {
    && q in s.flights && s.flights[q].Denying? && !s.flights[q].poison
    && tab in s.flights[q].notices && s.flights[q].notices[tab].epoch == epoch
  }

  /** The notice of the tab has the epoch, or can come to have it. */
  ghost predicate Matches(s: State, tab: nat, epoch: string) {
    tab in s.revokes && (s.revokes[tab].epoch == epoch || exists q :: Rewrites(s, q, tab, epoch))
  }

  ghost predicate Due(s: State, entry: (nat, Notice), tab: nat) {
    entry.0 == tab && entry.1.source == s.source && Matches(s, tab, entry.1.epoch)
  }

  ghost predicate Listed(s: State, todo: seq<(nat, Notice)>, tab: nat) {
    exists i :: 0 <= i < |todo| && Due(s, todo[i], tab)
  }

  ghost predicate Takes(s: State, f: Flight, tab: nat) {
    match f
    case Flushing(todo) => Listed(s, todo, tab)
    case Acknowledged(t, notice, rest) => (t == tab && Matches(s, tab, notice.epoch)) || Listed(s, rest, tab)
    case Erasing(t, _, rest) => (t == tab && tab in s.revokes) || Listed(s, rest, tab)
    case _ => false
  }

  /** A flush that is on its way can still take the notice of the tab away. */
  ghost predicate Erasable(s: State, tab: nat) {
    exists p :: p in s.flights && Takes(s, s.flights[p], tab)
  }

  ghost predicate Pinned(s: State, tab: nat) {
    tab in s.revokes && !Erasable(s, tab)
  }

  ghost function PinnedSet(s: State): (r: set<nat>)
    ensures forall tab :: tab in r <==> Pinned(s, tab)
  {
    set tab | tab in s.revokes && Pinned(s, tab)
  }

  /** More notices are pending than a flush will read, whatever the one in flight does. */
  ghost predicate Overflown(s: State) {
    |PinnedSet(s)| > MAX_PENDING
  }

  lemma SubsetSize(a: set<nat>, b: set<nat>)
    requires a <= b
    ensures |a| <= |b|
  {
    assert b == a + (b - a);
  }

  // ---------------------------------------------------------------- once overflown, for good

  /** What can match afterwards could before. */
  ghost predicate Fades(s: State, t: State, tab: nat) {
    && tab in s.revokes && tab in t.revokes && t.source == s.source
    && forall epoch :: Matches(t, tab, epoch) ==> Matches(s, tab, epoch)
  }

  lemma ListedFades(s: State, t: State, todo: seq<(nat, Notice)>, tab: nat)
    requires Fades(s, t, tab) && Listed(t, todo, tab)
    ensures Listed(s, todo, tab)
  {
    hide Matches;
    var i :| 0 <= i < |todo| && Due(t, todo[i], tab);
    assert Due(s, todo[i], tab);
  }

  lemma TakesFades(s: State, t: State, f: Flight, tab: nat)
    requires Fades(s, t, tab) && Takes(t, f, tab)
    ensures Takes(s, f, tab)
  {
    hide Matches, Listed;
    match f
    case Flushing(todo) => ListedFades(s, t, todo, tab);
    case Acknowledged(_, _, rest) =>
      if Listed(t, rest, tab) {
        ListedFades(s, t, rest, tab);
      }
    case Erasing(_, _, rest) =>
      if Listed(t, rest, tab) {
        ListedFades(s, t, rest, tab);
      }
    case _ =>
  }

  lemma MatchFades(s: State, e: Event, tab: nat)
    requires !e.Restart? && tab in s.revokes && tab in Step(s, e).revokes && !Step(s, e).poison
    ensures Fades(s, Step(s, e), tab)
  {
    var t := Step(s, e);
    SourceStays(s, e);
    KeyHoldsTouch(s, e, tab);
    DenialIsUnpoisoned(s, e);
    hide Step;
    forall epoch | Matches(t, tab, epoch) ensures Matches(s, tab, epoch) {
      if t.revokes[tab].epoch != epoch {
        var q :| Rewrites(t, q, tab, epoch);
        CarryingFrom(s, e, q, tab);
        assert Rewrites(s, q, tab, epoch);
      } else if s.revokes[tab].epoch != epoch {
        assert Rewrites(s, e.pid, tab, epoch);
      }
    }
  }

  lemma SourceStays(s: State, e: Event)
    requires !e.Restart?
    ensures Step(s, e).source == s.source
  {
  }

  lemma DenialIsUnpoisoned(s: State, e: Event)
    requires !Step(s, e).poison
    ensures e.InvalidateWrite? && e.pid in s.flights && s.flights[e.pid].Denying? ==> !s.flights[e.pid].poison
  {
  }

  /** The flush p has after the step comes from what it had before. */
  ghost predicate Descends(s: State, e: Event, p: nat, tab: nat) {
    var t := Step(s, e);
    p in t.flights && Takes(s, t.flights[p], tab) ==> p in s.flights && Takes(s, s.flights[p], tab)
  }

  lemma HeadListed(s: State, todo: seq<(nat, Notice)>, tab: nat)
    requires todo != [] && (Due(s, todo[0], tab) || Listed(s, todo[1..], tab))
    ensures Listed(s, todo, tab)
  {
    hide Due;
    if !Due(s, todo[0], tab) {
      var i :| 0 <= i < |todo| - 1 && Due(s, todo[1..][i], tab);
      assert Due(s, todo[i + 1], tab);
    }
  }

  lemma PostDescends(s: State, p: nat, accepted: bool, tab: nat)
    ensures Descends(s, FlushPost(p, accepted), p, tab)
  {
    hide Matches, Listed;
    if p in s.flights && s.flights[p].Flushing? && s.flights[p].todo != [] {
      var todo := s.flights[p].todo;
      if Due(s, todo[0], tab) || Listed(s, todo[1..], tab) {
        HeadListed(s, todo, tab);
      }
    }
  }

  lemma CompareDescends(s: State, p: nat, tab: nat)
    ensures Descends(s, FlushCompare(p), p, tab)
  {
    hide Listed;
  }

  lemma EraseDescends(s: State, p: nat, tab: nat)
    ensures Descends(s, FlushErase(p), p, tab)
  {
    hide Listed, Matches;
  }

  lemma IdleDenial(s: State, e: Event)
    requires e.InvalidateRead? || e.InvalidateWrite? || e.InvalidateRemove? || e.Die?
    requires e.pid in Step(s, e).flights && InFlush(Step(s, e).flights[e.pid])
    ensures SameFlight(s, Step(s, e), e.pid)
  {
    hide NoticesFor;
  }

  lemma IdlePreparation(s: State, e: Event)
    requires e.PrepareRead? || e.PrepareLook? || e.PrepareKnown? || e.PrepareWrite? || e.PrepareCheck?
    requires e.pid in Step(s, e).flights && InFlush(Step(s, e).flights[e.pid])
    ensures SameFlight(s, Step(s, e), e.pid)
  {
    hide Identifier, Holds;
  }

  lemma IdleObservation(s: State, e: Event)
    requires e.PublishRead? || e.PublishPost? || e.MarkRead? || e.MarkWrite? || e.ProofRead?
    requires e.pid in Step(s, e).flights && InFlush(Step(s, e).flights[e.pid])
    ensures SameFlight(s, Step(s, e), e.pid)
  {
    hide Clear;
  }

  lemma FlushIsFull(s: State, e: Event)
    requires e.FlushRead? && |s.revokes| > MAX_PENDING
    ensures Step(s, e) == s
  {
    hide Listing, Snapshot;
  }

  lemma FlushDescends(s: State, e: Event, p: nat, tab: nat)
    requires !e.Restart? && |s.revokes| > MAX_PENDING
    ensures Descends(s, e, p, tab)
  {
    var t := Step(s, e);
    if p in t.flights && Takes(s, t.flights[p], tab) {
      assert InFlush(t.flights[p]);
      if e.pid != p {
        OthersLeaveFlight(s, e, p);
      } else if e.FlushRead? {
        FlushIsFull(s, e);
      } else if e.FlushPost? {
        PostDescends(s, p, e.accepted, tab);
      } else if e.FlushCompare? {
        CompareDescends(s, p, tab);
      } else if e.FlushErase? {
        EraseDescends(s, p, tab);
      } else if e.PrepareRead? || e.PrepareLook? || e.PrepareKnown? || e.PrepareWrite? || e.PrepareCheck? {
        hide Step, Takes;
        IdlePreparation(s, e);
      } else if e.PublishRead? || e.PublishPost? || e.MarkRead? || e.MarkWrite? || e.ProofRead? {
        hide Step, Takes;
        IdleObservation(s, e);
      } else {
        hide Step, Takes;
        IdleDenial(s, e);
      }
    }
  }

  lemma PinnedStaysPending(s: State, e: Event, tab: nat)
    requires Pinned(s, tab)
    ensures tab in Step(s, e).revokes
  {
    KeyHoldsTouch(s, e, tab);
    hide Step, Listed;
    assert e.FlushErase? && e.pid in s.flights ==> !Takes(s, s.flights[e.pid], tab);
  }

  /** A notice that the flush in flight cannot take stays, once the queue has overflown. */
  lemma PinnedStays(s: State, e: Event, tab: nat)
    requires Pinned(s, tab) && |s.revokes| > MAX_PENDING && !Step(s, e).poison
    ensures Pinned(Step(s, e), tab)
  {
    var t := Step(s, e);
    PinnedStaysPending(s, e, tab);
    if e.Restart? {
      assert t.flights == map[];
    } else {
      MatchFades(s, e, tab);
      hide Step, Takes, Fades;
      forall p | p in t.flights ensures !Takes(t, t.flights[p], tab) {
        if Takes(t, t.flights[p], tab) {
          TakesFades(s, t, t.flights[p], tab);
          FlushDescends(s, e, p, tab);
        }
      }
    }
  }

  // ---------------------------------------------------------------- never again

  ghost predicate MarkingFor(s: State, pid: nat, epoch: string) {
    pid in s.flights && s.flights[pid].Marking? && s.flights[pid].doc.epoch == epoch
  }

  /** The queue has overflown, and whatever there is or will be of the epoch is behind a pinned
      notice. */
  ghost predicate Locked(s: State, epoch: string) {
    && epoch in s.minted && Overflown(s)
    && (forall pid :: MarkingFor(s, pid, epoch) ==> Pinned(s, s.flights[pid].tab))
    && (forall tab :: tab in s.docs && s.docs[tab].epoch == epoch ==> Pinned(s, tab))
  }

  ghost predicate Shut(s: State, epoch: string) {
    s.poison || Gone(s, epoch) || Locked(s, epoch)
  }

  /** Where a document of an epoch comes from. */
  lemma DocOrigin(s: State, e: Event, tab: nat)
    requires tab in Step(s, e).docs
    ensures var epoch := Step(s, e).docs[tab].epoch;
      Holds(s, tab, epoch) || epoch !in s.minted || (MarkingFor(s, e.pid, epoch) && s.flights[e.pid].tab == tab)
  {
  }

  lemma PinnedGrows(s: State, e: Event)
    requires Overflown(s) && !Step(s, e).poison
    ensures |s.revokes| > MAX_PENDING && Overflown(Step(s, e)) && PinnedSet(s) <= PinnedSet(Step(s, e))
  {
    hide Step, Pinned;
    PendingAtLeast(s);
    forall tab | tab in PinnedSet(s) ensures tab in PinnedSet(Step(s, e)) {
      PinnedStays(s, e, tab);
    }
    SubsetSize(PinnedSet(s), PinnedSet(Step(s, e)));
  }

  lemma PendingAtLeast(s: State)
    ensures PinnedSet(s) <= s.revokes.Keys && |PinnedSet(s)| <= |s.revokes|
  {
    hide Erasable;
    SubsetSize(PinnedSet(s), s.revokes.Keys);
    assert |s.revokes| == |s.revokes.Keys|;
  }

  lemma LockedMarks(s: State, e: Event, epoch: string, pid: nat)
    requires Locked(s, epoch) && MarkingFor(Step(s, e), pid, epoch)
    ensures Pinned(s, Step(s, e).flights[pid].tab)
  {
    FlightsFromBefore(s, e, pid);
    hide Step, Overflown, Erasable;
    var t := Step(s, e);
    if pid in s.flights && s.flights[pid] == t.flights[pid] {
      assert MarkingFor(s, pid, epoch);
    } else {
      assert Clear(s, t.flights[pid].tab, t.flights[pid].doc);
    }
  }

  lemma LockedDocs(s: State, e: Event, epoch: string, tab: nat)
    requires Locked(s, epoch) && tab in Step(s, e).docs && Step(s, e).docs[tab].epoch == epoch
    ensures Pinned(s, tab)
  {
    DocOrigin(s, e, tab);
    hide Step, Overflown, Erasable;
  }

  lemma LockedStep(s: State, e: Event, epoch: string)
    requires Locked(s, epoch) && !Step(s, e).poison
    ensures Locked(Step(s, e), epoch)
  {
    var t := Step(s, e);
    PinnedGrows(s, e);
    MintedStays(s, e, epoch);
    hide Step, Pinned, Overflown;
    forall pid | MarkingFor(t, pid, epoch) ensures Pinned(t, t.flights[pid].tab) {
      LockedMarks(s, e, epoch, pid);
      assert t.flights[pid].tab in PinnedSet(s);
    }
    forall tab | tab in t.docs && t.docs[tab].epoch == epoch ensures Pinned(t, tab) {
      LockedDocs(s, e, epoch, tab);
      assert tab in PinnedSet(s);
    }
  }

  lemma ShutStep(s: State, e: Event, epoch: string)
    requires Shut(s, epoch)
    ensures Shut(Step(s, e), epoch)
  {
    hide Step, Gone, Locked;
    if s.poison {
      PoisonStays(s, e);
    } else if Gone(s, epoch) {
      GoneStep(s, e, epoch);
    } else if !Step(s, e).poison {
      LockedStep(s, e, epoch);
    }
  }

  lemma ShutIsUnclear(s: State, epoch: string, tab: nat, doc: Doc)
    requires Shut(s, epoch) && doc.epoch == epoch
    ensures !Clear(s, tab, doc)
  {
    hide Overflown, Erasable;
  }

  lemma ShutIsUnproven(s: State, e: Event, epoch: string)
    requires Shut(s, epoch)
    ensures var log := Step(s, e).log;
      log == s.log || (log != [] && log == s.log + [log[|log| - 1]] && !ForEpoch(log[|log| - 1], epoch))
  {
    StepLog(s, e);
    hide Step, Shut, Clear;
    var log := Step(s, e).log;
    if log != s.log && ForEpoch(log[|log| - 1], epoch) {
      ShutIsUnclear(s, epoch, log[|log| - 1].tab, log[|log| - 1].doc);
    }
  }

  lemma {:induction false} ShutIsNeverProven(s: State, events: seq<Event>, epoch: string)
    requires Shut(s, epoch)
    ensures s.log <= Run(s, events).log
    ensures forall i :: |s.log| <= i < |Run(s, events).log| ==> !ForEpoch(Run(s, events).log[i], epoch)
    decreases |events|
  {
    if events != [] {
      hide Step, Shut;
      ShutIsUnproven(s, events[0], epoch);
      ShutStep(s, events[0], epoch);
      ShutIsNeverProven(Step(s, events[0]), events[1..], epoch);
    }
  }

  // ---------------------------------------------------------------- the flush in flight, to its end

  /** Storage otherwise the same, no new notice, none pinned that was not, and every call that
      is about to mark still about to. */
  ghost predicate Leads(s: State, t: State) {
    && t.docs == s.docs && t.poison == s.poison && t.minted == s.minted
    && (forall tab :: tab in t.revokes ==> tab in s.revokes && (Pinned(t, tab) ==> Pinned(s, tab)))
    && (forall q :: q in s.flights && s.flights[q].Marking? ==> q in t.flights && t.flights[q] == s.flights[q])
  }

  lemma LeadsOn(s: State, t: State, u: State)
    requires Leads(s, t) && Leads(t, u)
    ensures Leads(s, u)
  {
    hide Pinned;
  }

  /** Enough for Leads, with the flush p the only one. */
  lemma LeadsBy(s: State, t: State, p: nat)
    requires OneFlush(s) && p in s.flights && InFlush(s.flights[p]) && p in t.flights
    requires t.docs == s.docs && t.poison == s.poison && t.minted == s.minted && t.revokes.Keys <= s.revokes.Keys
    requires forall tab :: tab in t.revokes ==> Fades(t, s, tab)
    requires forall tab :: tab in t.revokes && Takes(s, s.flights[p], tab) ==> Takes(s, t.flights[p], tab)
    requires forall q :: q in s.flights && s.flights[q].Marking? ==> q in t.flights && t.flights[q] == s.flights[q]
    ensures Leads(s, t)
  {
    hide Takes, Fades;
    forall tab | tab in t.revokes && Pinned(t, tab) ensures Pinned(s, tab) {
      if Takes(s, s.flights[p], tab) {
        TakesFades(t, s, t.flights[p], tab);
      }
      forall q | q in s.flights ensures !Takes(s, s.flights[q], tab) {
        if Takes(s, s.flights[q], tab) {
          TakesInFlush(s, s.flights[q], tab);
        }
      }
    }
  }

  lemma TakesInFlush(s: State, f: Flight, tab: nat)
    requires Takes(s, f, tab)
    ensures InFlush(f)
  {
  }

  lemma SameNoticesFade(s: State, t: State, p: nat)
    requires t.revokes == s.revokes && t.source == s.source && p in s.flights && InFlush(s.flights[p])
    requires p in t.flights && t.flights == s.flights[p := t.flights[p]]
    ensures forall tab :: tab in t.revokes ==> Fades(t, s, tab)
  {
    forall tab, epoch | tab in t.revokes && Matches(s, tab, epoch) ensures Matches(t, tab, epoch) {
      if s.revokes[tab].epoch != epoch {
        var q :| Rewrites(s, q, tab, epoch);
        assert Rewrites(t, q, tab, epoch);
      }
    }
  }

  lemma ListedLater(s: State, todo: seq<(nat, Notice)>, tab: nat)
    requires todo != [] && Listed(s, todo, tab)
    ensures Due(s, todo[0], tab) || Listed(s, todo[1..], tab)
  {
    hide Due;
    var i :| 0 <= i < |todo| && Due(s, todo[i], tab);
    if i > 0 {
      assert Due(s, todo[1..][i - 1], tab);
    }
  }

  lemma PostLeads(s: State, p: nat)
    requires Sound(s) && p in s.flights && s.flights[p].Flushing? && s.flights[p].todo != []
    ensures var head := s.flights[p].todo[0]; Leads(s, Step(s, FlushPost(p, head.1.source == s.source && Matches(s, head.0, head.1.epoch))))
  {
    var todo := s.flights[p].todo;
    var accepted := todo[0].1.source == s.source && Matches(s, todo[0].0, todo[0].1.epoch);
    var t := Step(s, FlushPost(p, accepted));
    assert t.revokes == s.revokes && t.flights == s.flights[p := t.flights[p]];
    assert t.flights[p] == if accepted then Acknowledged(todo[0].0, todo[0].1, todo[1..]) else Flushing(todo[1..]);
    SameNoticesFade(s, t, p);
    hide Step, Fades, Matches, Listed;
    forall tab | Takes(s, s.flights[p], tab) ensures Takes(s, t.flights[p], tab) {
      ListedLater(s, todo, tab);
    }
    LeadsBy(s, t, p);
  }

  lemma CompareLeads(s: State, p: nat)
    requires Sound(s) && p in s.flights && s.flights[p].Acknowledged?
    requires Matches(s, s.flights[p].tab, s.flights[p].notice.epoch) ==>
               s.revokes[s.flights[p].tab].epoch == s.flights[p].notice.epoch
    ensures Leads(s, Step(s, FlushCompare(p)))
  {
    var t := Step(s, FlushCompare(p));
    assert t.revokes == s.revokes && t.flights == s.flights[p := t.flights[p]];
    SameNoticesFade(s, t, p);
    hide Fades, Listed;
    LeadsBy(s, t, p);
  }

  lemma EraseLeads(s: State, p: nat)
    requires Sound(s) && p in s.flights && s.flights[p].Erasing?
    ensures Leads(s, Step(s, FlushErase(p)))
  {
    var t := Step(s, FlushErase(p));
    var mid := With(s, p, Flushing(s.flights[p].rest));
    SameNoticesFade(s, mid, p);
    forall tab | tab in t.revokes ensures Fades(t, s, tab) {
      assert Fades(mid, s, tab);
      SameMatches(mid, t, tab);
    }
    hide Fades, Listed;
    LeadsBy(s, t, p);
  }

  lemma SameMatches(s: State, t: State, tab: nat)
    requires t.flights == s.flights && tab in s.revokes && tab in t.revokes && t.revokes[tab] == s.revokes[tab]
    ensures forall epoch :: Matches(s, tab, epoch) <==> Matches(t, tab, epoch)
  {
    forall epoch ensures Matches(s, tab, epoch) <==> Matches(t, tab, epoch) {
      if q :| Rewrites(s, q, tab, epoch) {
        assert Rewrites(t, q, tab, epoch);
      }
      if q :| Rewrites(t, q, tab, epoch) {
        assert Rewrites(s, q, tab, epoch);
      }
    }
  }

  /** The denial that makes the notice match what the relay has acknowledged. */
  lemma RewriteLeads(s: State, p: nat, q: nat)
    requires Sound(s) && p in s.flights && s.flights[p].Acknowledged? && s.flights[p].tab in s.revokes
    requires Rewrites(s, q, s.flights[p].tab, s.flights[p].notice.epoch)
    ensures var t := Step(s, InvalidateWrite(q));
      && Leads(s, t) && p in t.flights && t.flights[p] == s.flights[p]
      && s.flights[p].tab in t.revokes && t.revokes[s.flights[p].tab].epoch == s.flights[p].notice.epoch
  {
    var y, t := s.flights[p].tab, Step(s, InvalidateWrite(q));
    assert FlightSound(s.flights[q]);
    assert t.revokes.Keys == s.revokes.Keys && t.flights == s.flights[q := Removing(s.flights[q].removals)];
    assert forall tab :: tab in s.revokes && tab != y ==> t.revokes[tab] == s.revokes[tab];
    hide Step;
    forall tab | tab in t.revokes && tab != y ensures Fades(t, s, tab) {
      forall epoch | Matches(s, tab, epoch) ensures Matches(t, tab, epoch) {
        if s.revokes[tab].epoch != epoch {
          var r :| Rewrites(s, r, tab, epoch);
          assert Rewrites(t, r, tab, epoch);
        }
      }
    }
    RewrittenLeads(s, t, p, y);
  }

  /** As LeadsBy, but the tab at the head may match in no other way any more. */
  lemma RewrittenLeads(s: State, t: State, p: nat, y: nat)
    requires OneFlush(s) && p in s.flights && s.flights[p].Acknowledged? && s.flights[p].tab == y
    requires p in t.flights && t.flights[p] == s.flights[p] && y in t.revokes && t.revokes[y].epoch == s.flights[p].notice.epoch
    requires t.docs == s.docs && t.poison == s.poison && t.minted == s.minted && t.revokes.Keys <= s.revokes.Keys
    requires forall tab :: tab in t.revokes && tab != y ==> Fades(t, s, tab)
    requires forall q :: q in s.flights && s.flights[q].Marking? ==> q in t.flights && t.flights[q] == s.flights[q]
    ensures Leads(s, t)
  {
    assert Takes(t, t.flights[p], y);
    hide Takes, Fades;
    forall tab | tab in t.revokes && Pinned(t, tab) ensures Pinned(s, tab) {
      assert tab != y;
      if Takes(s, s.flights[p], tab) {
        TakesFades(t, s, t.flights[p], tab);
      }
      forall q | q in s.flights ensures !Takes(s, s.flights[q], tab) {
        if Takes(s, s.flights[q], tab) {
          TakesInFlush(s, s.flights[q], tab);
        }
      }
    }
  }

  function Left(f: Flight): nat {
    match f
    case Flushing(todo) => 4 * |todo|
    case Acknowledged(_, _, rest) => 4 * |rest| + 3
    case Erasing(_, _, rest) => 4 * |rest| + 1
    case _ => 0
  }

  /** One step of the flush, after a denial if that is what makes its notice match. */
  lemma FlushMoves(s: State, p: nat) returns (events: seq<Event>)
    requires Sound(s) && p in s.flights && InFlush(s.flights[p]) && s.flights[p] != Flushing([])
    ensures var t := Run(s, events);
      Leads(s, t) && Sound(t) && p in t.flights && InFlush(t.flights[p]) && Left(t.flights[p]) < Left(s.flights[p])
  {
    hide Run, Named, OneFlush, Leads, Matches, Rewrites;
    match s.flights[p]
    case Flushing(todo) =>
      var e := FlushPost(p, todo[0].1.source == s.source && Matches(s, todo[0].0, todo[0].1.epoch));
      PostLeads(s, p);
      StepKeepsSound(s, e);
      RunOne(s, e);
      events := [e];
    case Acknowledged(tab, notice, _) =>
      if tab in s.revokes && s.revokes[tab].epoch != notice.epoch && Matches(s, tab, notice.epoch) {
        var q := MatchIsWritten(s, tab, notice.epoch);
        RewriteLeads(s, p, q);
        StepKeepsSound(s, InvalidateWrite(q));
        var t := Step(s, InvalidateWrite(q));
        CompareLeads(t, p);
        StepKeepsSound(t, FlushCompare(p));
        LeadsOn(s, t, Step(t, FlushCompare(p)));
        RunOne(s, InvalidateWrite(q));
        RunThen(s, [InvalidateWrite(q)], FlushCompare(p));
        events := [InvalidateWrite(q)] + [FlushCompare(p)];
      } else {
        MatchIsPending(s, tab, notice.epoch);
        CompareLeads(s, p);
        StepKeepsSound(s, FlushCompare(p));
        RunOne(s, FlushCompare(p));
        events := [FlushCompare(p)];
      }
    case Erasing(_, _, _) =>
      EraseLeads(s, p);
      StepKeepsSound(s, FlushErase(p));
      RunOne(s, FlushErase(p));
      events := [FlushErase(p)];
  }

  lemma MatchIsWritten(s: State, tab: nat, epoch: string) returns (q: nat)
    requires Matches(s, tab, epoch) && s.revokes[tab].epoch != epoch
    ensures Rewrites(s, q, tab, epoch)
  {
    q :| Rewrites(s, q, tab, epoch);
  }

  lemma MatchIsPending(s: State, tab: nat, epoch: string)
    ensures Matches(s, tab, epoch) ==> tab in s.revokes
  {
  }

  lemma NothingLeft(s: State, p: nat)
    requires OneFlush(s) && p in s.flights && s.flights[p] == Flushing([])
    ensures forall tab :: tab in s.revokes ==> Pinned(s, tab)
  {
    hide Matches;
    forall tab, q | tab in s.revokes && q in s.flights ensures !Takes(s, s.flights[q], tab) {
      if Takes(s, s.flights[q], tab) {
        TakesInFlush(s, s.flights[q], tab);
      }
    }
  }

  /** The flush in flight goes on to its end and takes every notice it still can. */
  lemma {:induction false} Drains(s: State, p: nat) returns (events: seq<Event>)
    requires Sound(s) && p in s.flights && InFlush(s.flights[p])
    ensures Leads(s, Run(s, events)) && forall tab :: tab in Run(s, events).revokes ==> Pinned(s, tab)
    decreases Left(s.flights[p])
  {
    hide Run, Step, Named, Pinned;
    if s.flights[p] == Flushing([]) {
      NothingRuns(s);
      NothingLeft(s, p);
      events := [];
    } else {
      var first := FlushMoves(s, p);
      var t := Run(s, first);
      var rest := Drains(t, p);
      RunAppend(s, first, rest);
      LeadsOn(s, t, Run(t, rest));
      events := first + rest;
    }
  }

  /** Whatever flush is on its way comes to its end. */
  lemma AllFlushed(s: State) returns (events: seq<Event>)
    requires Sound(s)
    ensures Leads(s, Run(s, events)) && forall tab :: tab in Run(s, events).revokes ==> Pinned(s, tab)
  {
    hide Run, Step, Matches, Listed;
    if FlushBusy(s) {
      var p :| p in s.flights && InFlush(s.flights[p]);
      events := Drains(s, p);
    } else {
      NothingRuns(s);
      events := [];
      forall tab, q | tab in s.revokes && q in s.flights ensures !Takes(s, s.flights[q], tab) {
        assert !InFlush(s.flights[q]);
      }
    }
  }

  // ---------------------------------------------------------------- exactly when

  /** The run returns a proof for this epoch, whether or not there was one before. */
  ghost predicate NewProof(s: State, events: seq<Event>, epoch: string) {
    var log := Run(s, events).log;
    exists i :: |s.log| <= i < |log| && ForEpoch(log[i], epoch)
  }

  /** No notice stands in the way of this tab for good. */
  ghost predicate CanClear(s: State, tab: nat) {
    tab !in s.revokes || Erasable(s, tab) || !Overflown(s)
  }

  lemma ProofIsNew(s: State, events: seq<Event>, t: State, more: seq<Event>, tab: nat, doc: Doc)
    requires t == Run(s, events) && s.log <= t.log && Run(t, more).log != [] && t.log <= Run(t, more).log
    requires |t.log| < |Run(t, more).log| && Run(t, more).log[|Run(t, more).log| - 1] == Proof(tab, doc)
    ensures NewProof(s, events + more, doc.epoch)
  {
    hide Run;
    RunAppend(s, events, more);
    var log := Run(s, events + more).log;
    assert ForEpoch(log[|log| - 1], doc.epoch);
  }

  /** The call marks, and either proves at once, or its document is proven by a later worker
      when the notice of its tab has left. */
  lemma MarkingIsProven(s: State, pid: nat, epoch: string) returns (events: seq<Event>)
    requires Sound(s) && !s.poison && MarkingFor(s, pid, epoch) && CanClear(s, s.flights[pid].tab)
    ensures NewProof(s, events, epoch)
  {
    hide Run, Step, Erasable, Overflown, Named, OneFlush;
    var f := s.flights[pid];
    var first := AllFlushed(s);
    var t := Run(s, first);
    LogOnlyGrows(s, first);
    if f.tab !in t.revokes {
      MarkedIsProven(t, pid);
      ProofIsNew(s, first, t, [MarkWrite(pid)] + [ProofRead(pid, true)], f.tab, f.doc);
      events := first + ([MarkWrite(pid)] + [ProofRead(pid, true)]);
    } else {
      assert Pinned(s, f.tab);
      RunKeepsSound(s, first);
      PinnedAreFew(s, t);
      events := LaterWorkerProves(s, first, pid);
    }
  }

  lemma PinnedAreFew(s: State, t: State)
    requires !Overflown(s) && forall tab :: tab in t.revokes ==> Pinned(s, tab)
    ensures |t.revokes| <= MAX_PENDING
  {
    hide Pinned;
    SubsetSize(t.revokes.Keys, PinnedSet(s));
    assert |t.revokes| == |t.revokes.Keys|;
  }

  lemma LaterWorkerProves(s: State, first: seq<Event>, pid: nat) returns (events: seq<Event>)
    requires var t := Run(s, first);
      Sound(t) && !t.poison && s.log <= t.log && pid in t.flights && t.flights[pid].Marking? && |t.revokes| <= MAX_PENDING
    ensures NewProof(s, events, Run(s, first).flights[pid].doc.epoch)
  {
    var t := Run(s, first);
    var f := t.flights[pid];
    Marks(t, pid, f.tab, f.doc);
    var t1 := Marked(t, pid, f.tab, f.doc);
    assert DocNamed(f.doc) by { assert FlightSound(t.flights[pid]); }
    hide Run, Step, Sound;
    var marked := first + [MarkWrite(pid)];
    RunThen(s, first, MarkWrite(pid));
    var waiting := NoticeLeaves(t1, f.tab);
    var t2 := Run(t1, waiting);
    LogOnlyGrows(t1, waiting);
    RunAppend(s, marked, waiting);
    SubsetSize(t2.revokes.Keys, t1.revokes.Keys);
    assert |t2.revokes| == |t2.revokes.Keys| && |t1.revokes| == |t1.revokes.Keys|;
    var more := StoredIsProven(t2, f.tab);
    ProofIsNew(s, marked + waiting, t2, more, f.tab, f.doc.(observed := true));
    events := marked + waiting + more;
  }

  /** When an epoch without a document can be proven once more: exactly when some call that read
      the document before it went is about to write it back, and no notice of its tab stands in
      the way for good. A pending notice does so only once the queue has overflown. */
  lemma RevokedEpochProvenIff(s: State, epoch: string)
    requires Sound(s) && epoch in s.minted && !s.poison
    requires forall tab :: tab in s.docs ==> s.docs[tab].epoch != epoch
    ensures (exists events :: NewProof(s, events, epoch))
            <==> exists pid :: MarkingFor(s, pid, epoch) && CanClear(s, s.flights[pid].tab)
  {
    hide Run, Step, Sound, Erasable, Overflown;
    if pid :| MarkingFor(s, pid, epoch) && CanClear(s, s.flights[pid].tab) {
      var events := MarkingIsProven(s, pid, epoch);
    } else {
      assert Shut(s, epoch) by {
        if pid :| MarkingFor(s, pid, epoch) {
          assert Locked(s, epoch);
        } else {
          assert forall pid :: pid in s.flights && s.flights[pid].Marking? ==> MarkingFor(s, pid, s.flights[pid].doc.epoch);
          assert Gone(s, epoch);
        }
      }
      hide Shut;
      forall events ensures !NewProof(s, events, epoch) {
        ShutIsNeverProven(s, events, epoch);
      }
    }
  }
}
